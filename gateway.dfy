/** The remote coordinator as the client sees it: the requests it is sent,
    the replies it gives, and the wire records of transaction.go. The
    coordinator itself is an oracle: `respond(n, r)` is its reply to the
    n-th request of the run, `r`. */
module Gateway {
  import opened Types

  /** A branch as the coordinator knows it; `status` is empty locally. */
  datatype Branch = Branch(branchId: string, action: string, status: string)

  /** The coordinator's view of one global transaction. */
  datatype TransactionInfo = TransactionInfo(
    gid: string,
    mode: string,
    status: string,
    payload: seq<byte>,
    branches: seq<Branch>,
    updatedUnix: int,
    createdUnix: int)

  /** One request; fields an endpoint does not send are empty. The payload
      travels base64-encoded; the encoding is left opaque here. */
  datatype Request = Request(
    endpoint: Endpoint,
    gid: string,
    branchId: string,
    action: string,
    mode: string,
    payload: seq<byte>)

  /** A decoded response body. */
  datatype Body = Malformed | Ack | Started(gid: string) | Info(info: TransactionInfo)

  datatype Reply = TransportFailure(cause: Error) | Response(status: int, body: Body)

  function StartRequest(gid: string, mode: string, payload: seq<byte>): Request
  {
    Request(ApiStart, gid, "", "", mode, payload)
  }

  /** A request about the whole transaction: submit, abort, get. */
  function TxRequest(e: Endpoint, gid: string): Request
  {
    Request(e, gid, "", "", "", [])
  }

  /** A request about one branch: confirm, cancel, succeed, fail. */
  function BranchRequest(e: Endpoint, gid: string, branchId: string): Request
  {
    Request(e, gid, branchId, "", "", [])
  }

  function AddBranchRequest(gid: string, branchId: string, action: string): Request
  {
    Request(ApiBranchAdd, gid, branchId, action, "", [])
  }

  function TryRequest(gid: string, branchId: string, action: string, payload: seq<byte>): Request
  {
    Request(ApiBranchTry, gid, branchId, action, "", payload)
  }

  /** The coordinator's reply to the n-th request of the run, r. */
  function Answer(respond: (nat, Request) -> Reply, n: nat, r: Request): Reply
  {
    respond(n, r)
  }

  /** A call succeeds exactly when it completed and the status is 200. */
  predicate Accepted(reply: Reply)
  {
    reply.Response? && reply.status == 200
  }

  /** The error a phase method returns for a call that did not succeed:
      a transport error is wrapped, a status is reported. */
  function CallResult(e: Endpoint, reply: Reply): (r: Option<Error>)
    ensures r.None? <==> Accepted(reply)
    ensures reply.TransportFailure? ==> r == Some(Transport(e, reply.cause))
    ensures reply.Response? && reply.status != 200 ==> r == Some(BadStatus(e, reply.status))
  {
    match reply
    case TransportFailure(cause) => Some(Transport(e, cause))
    case Response(status, _) => if status == 200 then None else Some(BadStatus(e, status))
  }

  /** The result of client.GetTransaction: the decoded information or the error. */
  function InfoResult(reply: Reply): (r: Result<TransactionInfo>)
    ensures r.Ok? <==> Accepted(reply) && reply.body.Info?
    ensures r.Ok? ==> r.value == reply.body.info
    ensures !Accepted(reply) ==> r == Err(CallResult(ApiTx, reply).value)
  {
    if !Accepted(reply) then Err(CallResult(ApiTx, reply).value)
    else if reply.body.Info? then Ok(reply.body.info)
    else Err(Unparsable(ApiTx))
  }

  /** The result of client.StartTransaction: the coordinator-assigned gid or the error. */
  function StartResult(reply: Reply): (r: Result<string>)
    ensures r.Ok? <==> Accepted(reply) && reply.body.Started?
    ensures r.Ok? ==> r.value == reply.body.gid
    ensures !Accepted(reply) ==> r == Err(CallResult(ApiStart, reply).value)
  {
    if !Accepted(reply) then Err(CallResult(ApiStart, reply).value)
    else if reply.body.Started? then Ok(reply.body.gid)
    else Err(Unparsable(ApiStart))
  }

  /** What a run of several calls did: its result and the requests it sent, in order. */
  datatype Trace = Trace(err: Option<Error>, sent: seq<Request>)

  function Prepend(pre: seq<Request>, t: Trace): Trace
  {
    Trace(t.err, pre + t.sent)
  }

  /** The coordinator, seen through the requests it has received so far. */
  class Coordinator {
    var sent: seq<Request>
    const respond: (nat, Request) -> Reply

    constructor (respond: (nat, Request) -> Reply)
      ensures this.respond == respond && sent == []
    {
      this.respond := respond;
      sent := [];
    }

    /** Send one request and wait for the reply. */
    method Send(r: Request) returns (reply: Reply)
      modifies this
      ensures sent == old(sent) + [r]
      ensures reply == Answer(respond, |old(sent)|, r)
    {
      reply := Answer(respond, |sent|, r);
      sent := sent + [r];
    }
  }
}
