/** The FixtureLoader: fetching, creating and status-updating a resource through
    the cluster, and the composite StatusLoad that fetches the live object, copies
    the fixture's status onto it and writes the status back.

    Each operation is specified by an Effect function: the calls it issues and
    what it returns, given the server and the calls issued before it. */
module Fixtures {
  import opened Wrappers
  import opened Errors
  import opened Objects
  import opened Resolver
  import opened Status
  import opened Cluster

  datatype Effect<T> = Effect(calls: seq<Call>, result: T)

  function GetCall(ri: ResourceInfo): Call
  {
    Get(ri.gvr, ri.namespacedName.namespace, ri.namespacedName.name)
  }

  function CreateCall(ri: ResourceInfo, obj: JsonMap): Call
  {
    Create(ri.gvr, ri.namespacedName.namespace, obj)
  }

  function UpdateStatusCall(ri: ResourceInfo, obj: JsonMap): Call
  {
    UpdateStatus(ri.gvr, ri.namespacedName.namespace, obj)
  }

  /** `GetResourceDynamically`: without coordinates nothing is issued; otherwise
      exactly one Get, whose object or error is returned unchanged. */
  function GetEffect(server: Server, h: seq<Call>, r: Option<ResourceInfo>): (e: Effect<Result<JsonMap, Error>>)
    ensures r.None? ==> e.calls == [] && e.result == Err(NilResourceInfo)
    ensures r.Some? ==> e.calls == [GetCall(r.value)]
    ensures r.Some? ==> (e.result.Ok? <==> server(h, GetCall(r.value)).Accepted?)
    ensures r.Some? && e.result.Ok? ==> e.result.value == server(h, GetCall(r.value)).obj
    ensures r.Some? && e.result.Err? ==> e.result.error == Remote(server(h, GetCall(r.value)).cause)
  {
    match r
    case None => Effect([], Err(NilResourceInfo))
    case Some(ri) =>
      match server(h, GetCall(ri))
      case Accepted(obj) => Effect([GetCall(ri)], Ok(obj))
      case Rejected(cause) => Effect([GetCall(ri)], Err(Remote(cause)))
  }

  /** `CreateResourceDynamically`: without coordinates nothing is issued; otherwise
      exactly one Create of the given object, whose error is returned unchanged. */
  function CreateEffect(server: Server, h: seq<Call>, r: Option<ResourceInfo>, obj: JsonMap): (e: Effect<Option<Error>>)
    ensures r.None? ==> e.calls == [] && e.result == Some(NilResourceInfo)
    ensures r.Some? ==> e.calls == [CreateCall(r.value, obj)]
    ensures r.Some? ==> (e.result.None? <==> server(h, CreateCall(r.value, obj)).Accepted?)
    ensures r.Some? && e.result.Some? ==> e.result.value == Remote(server(h, CreateCall(r.value, obj)).cause)
  {
    match r
    case None => Effect([], Some(NilResourceInfo))
    case Some(ri) =>
      match server(h, CreateCall(ri, obj))
      case Accepted(_) => Effect([CreateCall(ri, obj)], None)
      case Rejected(cause) => Effect([CreateCall(ri, obj)], Some(Remote(cause)))
  }

  /** `UpdateResourceStatusDynamically`: exactly one UpdateStatus, with no retry on
      a conflict or any other error; the error is returned unchanged. */
  function UpdateStatusEffect(server: Server, h: seq<Call>, ri: ResourceInfo, obj: JsonMap): (e: Effect<Option<Error>>)
    ensures e.calls == [UpdateStatusCall(ri, obj)]
    ensures e.result.None? <==> server(h, UpdateStatusCall(ri, obj)).Accepted?
    ensures e.result.Some? ==> e.result.value == Remote(server(h, UpdateStatusCall(ri, obj)).cause)
  {
    match server(h, UpdateStatusCall(ri, obj))
    case Accepted(_) => Effect([UpdateStatusCall(ri, obj)], None)
    case Rejected(cause) => Effect([UpdateStatusCall(ri, obj)], Some(Remote(cause)))
  }

  /** `StatusLoad`: a Get first; if it fails, its error and nothing more. Otherwise the
      fixture's status is copied onto the live object; if the fixture has no status
      map, that error and nothing more. Otherwise exactly one UpdateStatus of the live
      object carrying the fixture's status, and its error. Never a Create. */
  function StatusLoadEffect(server: Server, h: seq<Call>, ri: ResourceInfo, obj: JsonMap): (e: Effect<Option<Error>>)
    ensures 1 <= |e.calls| <= 2 && e.calls[0] == GetCall(ri)
    ensures forall i :: 0 <= i < |e.calls| ==> !e.calls[i].Create?
    ensures server(h, GetCall(ri)).Rejected? ==>
              e == Effect([GetCall(ri)], Some(Remote(server(h, GetCall(ri)).cause)))
    ensures server(h, GetCall(ri)).Accepted? && StatusMap(obj).None? ==>
              e == Effect([GetCall(ri)], Some(MissingStatus))
    ensures |e.calls| == 2 <==> server(h, GetCall(ri)).Accepted? && StatusMap(obj).Some?
    ensures |e.calls| == 2 ==>
              && e.calls[1].UpdateStatus?
              && e.calls[1] == UpdateStatusCall(ri, e.calls[1].obj)
              && CopiedStatus(obj, server(h, GetCall(ri)).obj) == Ok(e.calls[1].obj)
    ensures e.result.None? <==> |e.calls| == 2 && server(h + [GetCall(ri)], e.calls[1]).Accepted?
    ensures |e.calls| == 2 && e.result.Some? ==>
              e.result.value == Remote(server(h + [GetCall(ri)], e.calls[1]).cause)
  {
    var get := GetEffect(server, h, Some(ri));
    match get.result
    case Err(err) => Effect(get.calls, Some(err))
    case Ok(live) =>
      match CopiedStatus(obj, live)
      case Err(err) => Effect(get.calls, Some(err))
      case Ok(merged) =>
        var update := UpdateStatusEffect(server, h + get.calls, ri, merged);
        Effect(get.calls + update.calls, update.result)
  }

  /** `StatusFieldLoad`: its copy step is commented out in the source, so after a
      successful Get the live object is written back exactly as it was fetched. */
  function StatusFieldLoadEffect(server: Server, h: seq<Call>, ri: ResourceInfo, obj: JsonMap, field: string): (e: Effect<Option<Error>>)
    ensures 1 <= |e.calls| <= 2 && e.calls[0] == GetCall(ri)
    ensures |e.calls| == 2 <==> server(h, GetCall(ri)).Accepted?
    ensures |e.calls| == 1 ==> e.result == Some(Remote(server(h, GetCall(ri)).cause))
    ensures |e.calls| == 2 ==> e.calls[1] == UpdateStatusCall(ri, server(h, GetCall(ri)).obj)
    ensures |e.calls| == 2 ==> (e.result.None? <==> server(h + [GetCall(ri)], e.calls[1]).Accepted?)
    ensures |e.calls| == 2 && e.result.Some? ==>
              e.result.value == Remote(server(h + [GetCall(ri)], e.calls[1]).cause)
  {
    var get := GetEffect(server, h, Some(ri));
    match get.result
    case Err(err) => Effect(get.calls, Some(err))
    case Ok(live) =>
      var update := UpdateStatusEffect(server, h + get.calls, ri, live);
      Effect(get.calls + update.calls, update.result)
  }

  /** StatusFieldLoad never looks at the fixture object or the field name. */
  lemma StatusFieldLoadIgnoresFixture(server: Server, h: seq<Call>, ri: ResourceInfo,
                                      obj: JsonMap, field: string, obj': JsonMap, field': string)
    ensures StatusFieldLoadEffect(server, h, ri, obj, field) == StatusFieldLoadEffect(server, h, ri, obj', field')
  {
  }

  class FixtureLoader {
    const dynamic: Dynamic

    /** `SetupFixtureLoader`. */
    constructor (dynamic: Dynamic)
      ensures this.dynamic == dynamic
    {
      this.dynamic := dynamic;
    }

    method GetResourceDynamically(r: Option<ResourceInfo>) returns (result: Result<JsonMap, Error>)
      modifies dynamic
      ensures dynamic.trace == old(dynamic.trace) + GetEffect(dynamic.respond, old(dynamic.trace), r).calls
      ensures result == GetEffect(dynamic.respond, old(dynamic.trace), r).result
    {
      if r.None? {
        return Err(NilResourceInfo);
      }
      var reply := dynamic.Issue(GetCall(r.value));
      if reply.Rejected? {
        return Err(Remote(reply.cause));
      }
      return Ok(reply.obj);
    }

    method CreateResourceDynamically(r: Option<ResourceInfo>, obj: JsonMap) returns (err: Option<Error>)
      modifies dynamic
      ensures dynamic.trace == old(dynamic.trace) + CreateEffect(dynamic.respond, old(dynamic.trace), r, obj).calls
      ensures err == CreateEffect(dynamic.respond, old(dynamic.trace), r, obj).result
    {
      if r.None? {
        return Some(NilResourceInfo);
      }
      var reply := dynamic.Issue(CreateCall(r.value, obj));
      if reply.Rejected? {
        return Some(Remote(reply.cause));
      }
      return None;
    }

    method UpdateResourceStatusDynamically(ri: ResourceInfo, obj: JsonMap) returns (err: Option<Error>)
      modifies dynamic
      ensures dynamic.trace == old(dynamic.trace) + UpdateStatusEffect(dynamic.respond, old(dynamic.trace), ri, obj).calls
      ensures err == UpdateStatusEffect(dynamic.respond, old(dynamic.trace), ri, obj).result
    {
      var reply := dynamic.Issue(UpdateStatusCall(ri, obj));
      if reply.Rejected? {
        return Some(Remote(reply.cause));
      }
      return None;
    }

    /** `CopyStatus`: overwrites dst's status in place; src is only read. */
    method CopyStatus(src: Unstructured, dst: Unstructured) returns (err: Option<Error>)
      modifies dst
      ensures CopiedStatus(old(src.Object), old(dst.Object)).Ok? ==>
                err == None && dst.Object == CopiedStatus(old(src.Object), old(dst.Object)).value
      ensures CopiedStatus(old(src.Object), old(dst.Object)).Err? ==>
                err == Some(CopiedStatus(old(src.Object), old(dst.Object)).error) && dst.Object == old(dst.Object)
    {
      var srcStatus := StatusMap(src.Object);
      if srcStatus.None? {
        return Some(MissingStatus);
      }
      dst.Object := dst.Object["status" := Object(srcStatus.value)];
      return None;
    }

    method StatusLoad(ri: ResourceInfo, obj: JsonMap) returns (err: Option<Error>)
      modifies dynamic
      ensures dynamic.trace == old(dynamic.trace) + StatusLoadEffect(dynamic.respond, old(dynamic.trace), ri, obj).calls
      ensures err == StatusLoadEffect(dynamic.respond, old(dynamic.trace), ri, obj).result
    {
      var fetched := GetResourceDynamically(Some(ri));
      if fetched.Err? {
        return Some(fetched.error);
      }
      var newObj := new Unstructured(fetched.value);
      var src := new Unstructured(obj);
      err := CopyStatus(src, newObj);
      if err.Some? {
        return err;
      }
      err := UpdateResourceStatusDynamically(ri, newObj.Object);
    }

    method StatusFieldLoad(ri: ResourceInfo, obj: JsonMap, field: string) returns (err: Option<Error>)
      modifies dynamic
      ensures dynamic.trace == old(dynamic.trace) + StatusFieldLoadEffect(dynamic.respond, old(dynamic.trace), ri, obj, field).calls
      ensures err == StatusFieldLoadEffect(dynamic.respond, old(dynamic.trace), ri, obj, field).result
    {
      var fetched := GetResourceDynamically(Some(ri));
      if fetched.Err? {
        return Some(fetched.error);
      }
      var newObj := fetched.value;
      err := UpdateResourceStatusDynamically(ri, newObj);
    }
  }
}
