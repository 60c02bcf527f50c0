/** The cluster's dynamic resource API as the loader sees it: three calls, each
    addressed by group/version/resource and namespace. What the server answers
    is not decided here; it is an oracle, a function of the calls issued before
    and of the call itself. The cluster keeps the trace of issued calls. */
module Cluster {
  import opened Errors
  import opened Objects
  import opened Resolver

  datatype Call =
    | Get(gvr: GroupVersionResource, namespace: string, name: string)
    | Create(gvr: GroupVersionResource, namespace: string, obj: JsonMap)
    | UpdateStatus(gvr: GroupVersionResource, namespace: string, obj: JsonMap)

  /** The server's answer: the object it returns, or an error. */
  datatype Reply = Accepted(obj: JsonMap) | Rejected(cause: RemoteError)

  /** A server: its answer to a call, given every call issued before it. */
  type Server = (seq<Call>, Call) -> Reply

  class Dynamic {
    const respond: Server
    var trace: seq<Call>

    constructor (respond: Server)
      ensures this.respond == respond && trace == []
    {
      this.respond := respond;
      trace := [];
    }

    /** Issue one call and receive the server's answer. */
    method Issue(call: Call) returns (reply: Reply)
      modifies this
      ensures trace == old(trace) + [call]
      ensures reply == respond(old(trace), call)
    {
      reply := respond(trace, call);
      trace := trace + [call];
    }
  }
}
