/** The `load` command: resolve the decoded fixture, Create it, then StatusLoad it,
    stopping the process at the first failure. Reading and decoding the fixture file
    happen before this point; the decoded object is the input. */
module LoadCmd {
  import opened Wrappers
  import opened Errors
  import opened Exits
  import opened Strings
  import opened Objects
  import opened Resolver
  import opened Cluster
  import opened Fixtures

  /** The command's flags. `transitionTime` (`--time`, default 10) is registered
      but nothing reads it: there is no waiting or polling. */
  datatype LoadFlags = LoadFlags(filePath: string, transitionTime: int)

  const LoadedMessage: string := "Successfully loaded fixture(s)"

  /** The calls one `load` run issues and how it ends. */
  function LoadEffect(server: Server, h: seq<Call>, obj: JsonMap): (e: Effect<RunOutcome>)
    ensures GetResourceInfo(obj).Err? ==> e == Effect([], Exited(PanicExit))
    ensures GetResourceInfo(obj).Ok? ==>
              |e.calls| >= 1 && e.calls[0] == CreateCall(GetResourceInfo(obj).value, obj)
    ensures GetResourceInfo(obj).Ok? && server(h, CreateCall(GetResourceInfo(obj).value, obj)).Rejected? ==>
              e == Effect([CreateCall(GetResourceInfo(obj).value, obj)], Exited(FatalExit))
    ensures GetResourceInfo(obj).Ok? && server(h, CreateCall(GetResourceInfo(obj).value, obj)).Accepted? ==>
              var create := CreateCall(GetResourceInfo(obj).value, obj);
              e.calls == [create] + StatusLoadEffect(server, h + [create], GetResourceInfo(obj).value, obj).calls
    ensures e.result.Succeeded? <==>
              && GetResourceInfo(obj).Ok?
              && server(h, CreateCall(GetResourceInfo(obj).value, obj)).Accepted?
              && StatusLoadEffect(server, h + [CreateCall(GetResourceInfo(obj).value, obj)],
                                  GetResourceInfo(obj).value, obj).result.None?
    ensures GetResourceInfo(obj).Ok? && server(h, CreateCall(GetResourceInfo(obj).value, obj)).Accepted?
            && StatusLoadEffect(server, h + [CreateCall(GetResourceInfo(obj).value, obj)],
                                GetResourceInfo(obj).value, obj).result.Some? ==>
              e.result == Exited(FatalExit)
    ensures e.result.Succeeded? ==> e.result.message == LoadedMessage
    ensures e.result.Exited? ==> e.result.code != 0
  {
    match GetResourceInfo(obj)
    case Err(_) => Effect([], Exited(PanicExit))
    case Ok(ri) =>
      var create := CreateEffect(server, h, Some(ri), obj);
      if create.result.Some? then
        Effect(create.calls, Exited(FatalExit))
      else
        var statusLoad := StatusLoadEffect(server, h + create.calls, ri, obj);
        Effect(create.calls + statusLoad.calls,
               if statusLoad.result.Some? then Exited(FatalExit) else Succeeded(LoadedMessage))
  }

  /** Every UpdateStatus of a `load` run comes after its Create, and is the last call,
      and is issued only if that Create was accepted. */
  lemma LoadCreatesBeforeUpdate(server: Server, h: seq<Call>, obj: JsonMap, i: nat)
    requires i < |LoadEffect(server, h, obj).calls|
    requires LoadEffect(server, h, obj).calls[i].UpdateStatus?
    ensures GetResourceInfo(obj).Ok?
    ensures server(h, CreateCall(GetResourceInfo(obj).value, obj)).Accepted?
    ensures i == 2 == |LoadEffect(server, h, obj).calls| - 1
    ensures LoadEffect(server, h, obj).calls[0] == CreateCall(GetResourceInfo(obj).value, obj)
    ensures LoadEffect(server, h, obj).calls[1] == GetCall(GetResourceInfo(obj).value)
  {
  }

  /** Example fixture: a Deployment "web" in namespace "ns1" whose
      status is {"availableReplicas": 3}. */
  function DeploymentFixture(): JsonMap
  {
    map["apiVersion" := Str("apps/v1"), "kind" := Str("Deployment"),
        "metadata" := Object(map["name" := Str("web"), "namespace" := Str("ns1")]),
        "status" := Object(map["availableReplicas" := Number(3)])]
  }

  /** "apps/v1" has the fields "apps" and "v1" and no others first. */
  lemma AppsV1Fields(g: string, v: string)
    requires FirstTwoFields("apps/v1", '/', g, v)
    ensures g == "apps" && v == "v1"
  {
  }

  /** Any manifest reading as apiVersion "apps/v1", kind "Deployment", namespace "ns1"
      and name "web" resolves to deployments.v1.apps, ns1/web. */
  lemma DeploymentCoordinates(manifest: JsonMap)
    requires GetAPIVersion(manifest) == "apps/v1" && GetKind(manifest) == "Deployment"
    requires GetNamespace(manifest) == "ns1" && GetName(manifest) == "web"
    ensures GetResourceInfo(manifest)
         == Ok(ResourceInfo(GroupVersionResource("apps", "v1", "deployments"), NamespacedName("ns1", "web")))
  {
    assert '/' in "apps/v1" by { assert "apps/v1"[4] == '/'; }
    var ri := GetResourceInfo(manifest).value;
    AppsV1Fields(ri.gvr.group, ri.gvr.version);
    DeploymentPlural();
  }

  lemma DeploymentPlural()
    ensures ToLower("Deployment") + "s" == "deployments"
  {
  }

  lemma DeploymentResolves()
    ensures GetResourceInfo(DeploymentFixture())
         == Ok(ResourceInfo(GroupVersionResource("apps", "v1", "deployments"), NamespacedName("ns1", "web")))
  {
    var manifest := DeploymentFixture();
    assert GetAPIVersion(manifest) == "apps/v1";
    assert GetKind(manifest) == "Deployment";
    assert GetNamespace(manifest) == "ns1";
    assert GetName(manifest) == "web";
    DeploymentCoordinates(manifest);
  }

  /** Against a server that accepts every call and holds the object `live`, a `load`
      of a resolvable manifest with a status map creates the manifest, fetches `live`,
      writes `live` back carrying the manifest's status, and succeeds. */
  lemma LoadAgainstAcceptingServer(server: Server, live: JsonMap, manifest: JsonMap)
    requires forall h, c :: server(h, c) == if c.Get? then Accepted(live) else Accepted(map[])
    requires GetResourceInfo(manifest).Ok? && StatusMap(manifest).Some?
    ensures
      var ri := GetResourceInfo(manifest).value;
      LoadEffect(server, [], manifest)
        == Effect([CreateCall(ri, manifest), GetCall(ri),
                   UpdateStatusCall(ri, live["status" := Object(StatusMap(manifest).value)])],
                  Succeeded(LoadedMessage))
  {
  }

  /** Example, end to end: Create, then Get, then UpdateStatus of the live
      object with status {"availableReplicas": 3}; exit status 0. */
  lemma DeploymentExample(server: Server, live: JsonMap)
    requires forall h, c :: server(h, c) == if c.Get? then Accepted(live) else Accepted(map[])
    ensures
      var gvr := GroupVersionResource("apps", "v1", "deployments");
      LoadEffect(server, [], DeploymentFixture())
        == Effect([Create(gvr, "ns1", DeploymentFixture()), Get(gvr, "ns1", "web"),
                   UpdateStatus(gvr, "ns1", live["status" := Object(map["availableReplicas" := Number(3)])])],
                  Succeeded(LoadedMessage))
  {
    DeploymentResolves();
    assert StatusMap(DeploymentFixture()) == Some(map["availableReplicas" := Number(3)]);
    LoadAgainstAcceptingServer(server, live, DeploymentFixture());
  }

  /** `load`. The flags are taken but not read. */
  method Load(flags: LoadFlags, dynamic: Dynamic, obj: JsonMap) returns (outcome: RunOutcome)
    modifies dynamic
    ensures dynamic.trace == old(dynamic.trace) + LoadEffect(dynamic.respond, old(dynamic.trace), obj).calls
    ensures outcome == LoadEffect(dynamic.respond, old(dynamic.trace), obj).result
  {
    var fr := new FixtureLoader(dynamic);
    var ri := GetResourceInfo(obj);
    if ri.Err? {
      return Exited(PanicExit);
    }
    var err := fr.CreateResourceDynamically(Some(ri.value), obj);
    if err.Some? {
      return Exited(FatalExit);
    }
    err := fr.StatusLoad(ri.value, obj);
    if err.Some? {
      return Exited(FatalExit);
    }
    return Succeeded(LoadedMessage);
  }

  /** One status field and its value, as parsed from `key=value`. */
  datatype StatusEntry = StatusEntry(field: string, value: Json)

  /** `convertStatusToKeyValue`: split on '=' and insist on exactly two parts. */
  function ConvertStatusToKeyValue(status: string): (r: Result<StatusEntry, Error>)
    ensures r.Ok? <==> Count(status, '=') == 1
    ensures r.Err? ==> r.error == InvalidStatusFormat(status)
    ensures r.Ok? ==> r.value.value.Str?
    ensures r.Ok? ==> r.value.field + "=" + r.value.value.s == status
    ensures r.Ok? ==> '=' !in r.value.field && '=' !in r.value.value.s
  {
    var parts := Split(status, '=');
    if |parts| != 2 then
      Err(InvalidStatusFormat(status))
    else
      JoinSplit(status, '=');
      Ok(StatusEntry(parts[0], Str(parts[1])))
  }

  /** For an input with exactly one '=', the text before it is the field and the
      text after it the value. */
  lemma {:induction false} ConvertStatusToKeyValueOfPair(k: string, v: string)
    requires '=' !in k && '=' !in v
    ensures ConvertStatusToKeyValue(k + "=" + v) == Ok(StatusEntry(k, Str(v)))
  {
    SplitJoin([k, v], '=');
    assert Join([k, v], '=') == k + "=" + v;
  }
}
