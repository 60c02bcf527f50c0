/** The `transition` command: resolve the decoded fixture and StatusLoad it onto the
    object already in the cluster; no Create, and one attempt with no delay. */
module TransitionCmd {
  import opened Exits
  import opened Objects
  import opened Resolver
  import opened Cluster
  import opened Fixtures

  const TransitionedMessage: string := "Successfully transitioned fixture(s)"

  /** The calls one `transition` run issues and how it ends: the coordinates are
      resolved before any call, the calls are exactly those of one StatusLoad with
      them and the decoded object, and success is reported only if it succeeded. */
  function TransitionEffect(server: Server, h: seq<Call>, obj: JsonMap): (e: Effect<RunOutcome>)
    ensures GetResourceInfo(obj).Err? ==> e == Effect([], Exited(PanicExit))
    ensures GetResourceInfo(obj).Ok? ==>
              e.calls == StatusLoadEffect(server, h, GetResourceInfo(obj).value, obj).calls
    ensures forall i :: 0 <= i < |e.calls| ==> !e.calls[i].Create?
    ensures e.result.Succeeded? <==>
              GetResourceInfo(obj).Ok? && StatusLoadEffect(server, h, GetResourceInfo(obj).value, obj).result.None?
    ensures GetResourceInfo(obj).Ok? && StatusLoadEffect(server, h, GetResourceInfo(obj).value, obj).result.Some? ==>
              e.result == Exited(FatalExit)
    ensures e.result.Succeeded? ==> e.result.message == TransitionedMessage
    ensures e.result.Exited? ==> e.result.code != 0
  {
    match GetResourceInfo(obj)
    case Err(_) => Effect([], Exited(PanicExit))
    case Ok(ri) =>
      var statusLoad := StatusLoadEffect(server, h, ri, obj);
      Effect(statusLoad.calls, if statusLoad.result.Some? then Exited(FatalExit) else Succeeded(TransitionedMessage))
  }

  /** On success a `transition` run is exactly a Get and one UpdateStatus that
      carries the fixture's status onto the fetched object. */
  lemma TransitionSuccess(server: Server, h: seq<Call>, obj: JsonMap)
    requires TransitionEffect(server, h, obj).result.Succeeded?
    ensures |TransitionEffect(server, h, obj).calls| == 2
    ensures TransitionEffect(server, h, obj).calls[0] == GetCall(GetResourceInfo(obj).value)
    ensures TransitionEffect(server, h, obj).calls[1].UpdateStatus?
    ensures StatusMap(TransitionEffect(server, h, obj).calls[1].obj) == StatusMap(obj)
  {
  }

  /** `transition`. */
  method Transition(dynamic: Dynamic, obj: JsonMap) returns (outcome: RunOutcome)
    modifies dynamic
    ensures dynamic.trace == old(dynamic.trace) + TransitionEffect(dynamic.respond, old(dynamic.trace), obj).calls
    ensures outcome == TransitionEffect(dynamic.respond, old(dynamic.trace), obj).result
  {
    var fr := new FixtureLoader(dynamic);
    var ri := GetResourceInfo(obj);
    if ri.Err? {
      return Exited(PanicExit);
    }
    var err := fr.StatusLoad(ri.value, obj);
    if err.Some? {
      return Exited(FatalExit);
    }
    return Succeeded(TransitionedMessage);
  }
}
