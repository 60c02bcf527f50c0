/** Resolution of a decoded manifest into the coordinates that address it on the
    API server: group, version and plural resource name, namespace and name. */
module Resolver {
  import opened Wrappers
  import opened Errors
  import opened Strings
  import opened Objects

  datatype GroupVersionResource = GroupVersionResource(group: string, version: string, resource: string)

  datatype NamespacedName = NamespacedName(namespace: string, name: string)

  datatype ResourceInfo = ResourceInfo(gvr: GroupVersionResource, namespacedName: NamespacedName)

  const DefaultNamespace: string := "default"

  /** `GetResourceInfo`. The resource name is the lower-cased kind followed by "s",
      with no special case for irregular plurals. The apiVersion is split on '/':
      the first field is the group and the second the version, and any further
      fields are ignored. An apiVersion without '/' (the core group's "v1", or "")
      has no second field; the source indexes past the end of the split and panics,
      which is the InvalidManifest error here. */
  function GetResourceInfo(obj: JsonMap): (r: Result<ResourceInfo, Error>)
    ensures r.Ok? <==> '/' in GetAPIVersion(obj)
    ensures r.Err? ==> r.error == InvalidManifest(GetAPIVersion(obj))
    ensures r.Ok? ==> FirstTwoFields(GetAPIVersion(obj), '/', r.value.gvr.group, r.value.gvr.version)
    ensures r.Ok? ==> r.value.gvr.resource == ToLower(GetKind(obj)) + "s"
    ensures r.Ok? && GetNamespace(obj) == "" ==> r.value.namespacedName.namespace == DefaultNamespace
    ensures r.Ok? && GetNamespace(obj) != "" ==> r.value.namespacedName.namespace == GetNamespace(obj)
    ensures r.Ok? ==> r.value.namespacedName.name == GetName(obj)
  {
    var apiVersion := GetAPIVersion(obj);
    var kind := ToLower(GetKind(obj)) + "s";
    var fields := Split(apiVersion, '/');
    if |fields| < 2 then
      Err(InvalidManifest(apiVersion))
    else
      SplitFirstTwo(apiVersion, '/');
      var ns := if GetNamespace(obj) == "" then DefaultNamespace else GetNamespace(obj);
      Ok(ResourceInfo(GroupVersionResource(fields[0], fields[1], kind), NamespacedName(ns, GetName(obj))))
  }

  /** The group and version are determined by the apiVersion alone: any two
      manifests with the same apiVersion resolve to the same group and version. */
  lemma FirstTwoFieldsUnique(s: string, sep: char, g: string, v: string, g': string, v': string)
    requires FirstTwoFields(s, sep, g, v) && FirstTwoFields(s, sep, g', v')
    ensures g == g' && v == v'
  {
  }

  /** Example: apiVersion "g/v", kind "Widget" and no namespace. */
  lemma WidgetExample()
    ensures GetResourceInfo(map["apiVersion" := Str("g/v"), "kind" := Str("Widget")])
         == Ok(ResourceInfo(GroupVersionResource("g", "v", "widgets"), NamespacedName("default", "")))
  {
    var obj := map["apiVersion" := Str("g/v"), "kind" := Str("Widget")];
    var r := GetResourceInfo(obj);
    assert GetAPIVersion(obj) == "g/v";
    assert GetNamespace(obj) == "" && GetName(obj) == "";
    assert ToLower("Widget") + "s" == "widgets";
    FirstTwoFieldsUnique("g/v", '/', r.value.gvr.group, r.value.gvr.version, "g", "v");
  }

  /** Extra apiVersion fields are silently ignored: "a/b/c" is group "a", version "b". */
  lemma ThreeFieldExample(obj: JsonMap)
    requires GetAPIVersion(obj) == "a/b/c"
    ensures GetResourceInfo(obj).Ok?
    ensures GetResourceInfo(obj).value.gvr.group == "a"
    ensures GetResourceInfo(obj).value.gvr.version == "b"
  {
  }

  /** The core group's apiVersion "v1" and the empty apiVersion do not resolve. */
  lemma NoGroupExample(obj: JsonMap)
    requires GetAPIVersion(obj) == "v1" || GetAPIVersion(obj) == ""
    ensures GetResourceInfo(obj) == Err(InvalidManifest(GetAPIVersion(obj)))
  {
  }
}
