/** The status-document edits of the loader. Both replace the value under the
    top-level "status" key and touch nothing else; both fail, leaving the object
    as it was, when there is no status map to work from. */
module Status {
  import opened Wrappers
  import opened Errors
  import opened Objects

  /** What `CopyStatus(src, dst)` makes of dst: its "status" becomes src's status map,
      wholesale (fields only dst's old status had are gone), and every other key
      keeps its value. It fails when src's "status" is missing or is not a map. */
  function CopiedStatus(src: JsonMap, dst: JsonMap): (r: Result<JsonMap, Error>)
    ensures r.Ok? <==> StatusMap(src).Some?
    ensures r.Err? ==> r.error == MissingStatus
    ensures r.Ok? ==> StatusMap(r.value) == StatusMap(src)
    ensures r.Ok? ==> r.value.Keys == dst.Keys + {"status"}
    ensures r.Ok? ==> forall k :: k in dst && k != "status" ==> r.value[k] == dst[k]
  {
    match StatusMap(src)
    case None => Err(MissingStatus)
    case Some(status) => Ok(dst["status" := Object(status)])
  }

  /** What `UpdateStatusField(obj, field, value)` makes of obj: its status map now
      maps `field` to `value`, overwriting what was there, every other status field
      and every other top-level key keeps its value. It fails when "status" is
      missing or is not a map. */
  function StatusFieldSet(m: JsonMap, field: string, value: Json): (r: Result<JsonMap, Error>)
    ensures r.Ok? <==> StatusMap(m).Some?
    ensures r.Err? ==> r.error == MissingStatus
    ensures r.Ok? ==> r.value.Keys == m.Keys
    ensures r.Ok? ==> forall k :: k in m && k != "status" ==> r.value[k] == m[k]
    ensures r.Ok? ==> StatusMap(r.value).Some?
    ensures r.Ok? ==> StatusMap(r.value).value.Keys == StatusMap(m).value.Keys + {field}
    ensures r.Ok? ==> StatusMap(r.value).value[field] == value
    ensures r.Ok? ==> forall k :: k in StatusMap(m).value && k != field ==>
                        StatusMap(r.value).value[k] == StatusMap(m).value[k]
  {
    match StatusMap(m)
    case None => Err(MissingStatus)
    case Some(status) => Ok(m["status" := Object(status[field := value])])
  }

  /** Copying the same status twice is the same as copying it once. */
  lemma CopyStatusIdempotent(src: JsonMap, dst: JsonMap)
    requires CopiedStatus(src, dst).Ok?
    ensures CopiedStatus(src, CopiedStatus(src, dst).value) == CopiedStatus(src, dst)
  {
    var status := StatusMap(src).value;
    var once := CopiedStatus(src, dst).value;
    assert once["status"] == Object(status);
    assert once["status" := Object(status)] == once;
  }

  /** The copy replaces and does not merge: a status field that only dst had is gone. */
  lemma CopyStatusDropsStaleFields(src: JsonMap, dst: JsonMap, k: string)
    requires CopiedStatus(src, dst).Ok?
    requires StatusMap(dst).Some? && k in StatusMap(dst).value && k !in StatusMap(src).value
    ensures k !in StatusMap(CopiedStatus(src, dst).value).value
  {
  }

  /** Example: a status {"phase": "Ready"} copied over
      {"phase": "Pending", "extra": "x"} leaves exactly {"phase": "Ready"}. */
  lemma ReplaceNotMergeExample(src: JsonMap, dst: JsonMap)
    requires src == map["status" := Object(map["phase" := Str("Ready")])]
    requires dst == map["status" := Object(map["phase" := Str("Pending"), "extra" := Str("x")])]
    ensures CopiedStatus(src, dst) == Ok(map["status" := Object(map["phase" := Str("Ready")])])
  {
    var ready := Object(map["phase" := Str("Ready")]);
    assert dst["status" := ready] == map["status" := ready];
  }

  /** Without a status map on src nothing is copied. */
  lemma CopyStatusNeedsStatusMap(dst: JsonMap, other: Json)
    requires !other.Object?
    ensures CopiedStatus(map[], dst) == Err(MissingStatus)
    ensures CopiedStatus(map["status" := other], dst) == Err(MissingStatus)
  {
  }

  /** `UpdateStatusField`, editing the object in place. */
  method UpdateStatusField(obj: Unstructured, field: string, value: Json) returns (err: Option<Error>)
    modifies obj
    ensures StatusFieldSet(old(obj.Object), field, value).Ok? ==>
              err == None && obj.Object == StatusFieldSet(old(obj.Object), field, value).value
    ensures StatusFieldSet(old(obj.Object), field, value).Err? ==>
              err == Some(StatusFieldSet(old(obj.Object), field, value).error) && obj.Object == old(obj.Object)
  {
    var statusMap := StatusMap(obj.Object);
    if statusMap.None? {
      return Some(MissingStatus);
    }
    var updated := statusMap.value[field := value];
    obj.Object := obj.Object["status" := Object(updated)];
    return None;
  }
}
