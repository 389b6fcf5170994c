/** The handle of one global transaction (transaction.go): its gid, mode and
    payload never change; its branch list grows only by a successful
    AddBranch. Every phase method is one request to the coordinator. */
module Txn {
  import opened Types
  import opened Gateway

  class Transaction {
    const client: Coordinator
    const gid: string
    const mode: string
    const payload: seq<byte>
    var branches: seq<Branch>

    constructor (client: Coordinator, gid: string, mode: string, payload: seq<byte>)
      ensures this.client == client && this.gid == gid && this.mode == mode
      ensures this.payload == payload && branches == []
    {
      this.client := client;
      this.gid := gid;
      this.mode := mode;
      this.payload := payload;
      branches := [];
    }

    /** Register a Saga branch; only an accepted registration is appended. */
    method AddBranch(branchId: string, action: string) returns (err: Option<Error>)
      modifies this, client
      ensures client.sent == old(client.sent) + [AddBranchRequest(gid, branchId, action)]
      ensures err == CallResult(ApiBranchAdd, Answer(client.respond, |old(client.sent)|, AddBranchRequest(gid, branchId, action)))
      ensures err.None? ==> branches == old(branches) + [Branch(branchId, action, "")]
      ensures err.Some? ==> branches == old(branches)
    {
      var req := AddBranchRequest(gid, branchId, action);
      var reply := client.Send(req);
      err := CallResult(ApiBranchAdd, reply);
      if err.None? {
        branches := branches + [Branch(branchId, action, "")];
      }
    }

    /** One request about the whole transaction; local state is untouched. */
    method TxCall(e: Endpoint) returns (err: Option<Error>)
      modifies client
      ensures client.sent == old(client.sent) + [TxRequest(e, gid)]
      ensures err == CallResult(e, Answer(client.respond, |old(client.sent)|, TxRequest(e, gid)))
      ensures branches == old(branches)
    {
      var reply := client.Send(TxRequest(e, gid));
      err := CallResult(e, reply);
    }

    /** One request about a branch, carrying exactly that branch id. */
    method BranchCall(e: Endpoint, branchId: string) returns (err: Option<Error>)
      modifies client
      ensures client.sent == old(client.sent) + [BranchRequest(e, gid, branchId)]
      ensures err == CallResult(e, Answer(client.respond, |old(client.sent)|, BranchRequest(e, gid, branchId)))
      ensures branches == old(branches)
    {
      var reply := client.Send(BranchRequest(e, gid, branchId));
      err := CallResult(e, reply);
    }

    method Submit() returns (err: Option<Error>)
      modifies client
      ensures client.sent == old(client.sent) + [TxRequest(ApiSubmit, gid)]
      ensures err == CallResult(ApiSubmit, Answer(client.respond, |old(client.sent)|, TxRequest(ApiSubmit, gid)))
      ensures branches == old(branches)
    {
      err := TxCall(ApiSubmit);
    }

    method Abort() returns (err: Option<Error>)
      modifies client
      ensures client.sent == old(client.sent) + [TxRequest(ApiAbort, gid)]
      ensures err == CallResult(ApiAbort, Answer(client.respond, |old(client.sent)|, TxRequest(ApiAbort, gid)))
      ensures branches == old(branches)
    {
      err := TxCall(ApiAbort);
    }

    /** The TCC try call; unlike AddBranch it does not record a branch. */
    method Try(branchId: string, action: string, tryPayload: seq<byte>) returns (err: Option<Error>)
      modifies client
      ensures client.sent == old(client.sent) + [TryRequest(gid, branchId, action, tryPayload)]
      ensures err == CallResult(ApiBranchTry, Answer(client.respond, |old(client.sent)|, TryRequest(gid, branchId, action, tryPayload)))
      ensures branches == old(branches)
    {
      var reply := client.Send(TryRequest(gid, branchId, action, tryPayload));
      err := CallResult(ApiBranchTry, reply);
    }

    method Confirm(branchId: string) returns (err: Option<Error>)
      modifies client
      ensures client.sent == old(client.sent) + [BranchRequest(ApiBranchConfirm, gid, branchId)]
      ensures err == CallResult(ApiBranchConfirm, Answer(client.respond, |old(client.sent)|, BranchRequest(ApiBranchConfirm, gid, branchId)))
      ensures branches == old(branches)
    {
      err := BranchCall(ApiBranchConfirm, branchId);
    }

    method Cancel(branchId: string) returns (err: Option<Error>)
      modifies client
      ensures client.sent == old(client.sent) + [BranchRequest(ApiBranchCancel, gid, branchId)]
      ensures err == CallResult(ApiBranchCancel, Answer(client.respond, |old(client.sent)|, BranchRequest(ApiBranchCancel, gid, branchId)))
      ensures branches == old(branches)
    {
      err := BranchCall(ApiBranchCancel, branchId);
    }

    method BranchSucceed(branchId: string) returns (err: Option<Error>)
      modifies client
      ensures client.sent == old(client.sent) + [BranchRequest(ApiBranchSucceed, gid, branchId)]
      ensures err == CallResult(ApiBranchSucceed, Answer(client.respond, |old(client.sent)|, BranchRequest(ApiBranchSucceed, gid, branchId)))
      ensures branches == old(branches)
    {
      err := BranchCall(ApiBranchSucceed, branchId);
    }

    method BranchFail(branchId: string) returns (err: Option<Error>)
      modifies client
      ensures client.sent == old(client.sent) + [BranchRequest(ApiBranchFail, gid, branchId)]
      ensures err == CallResult(ApiBranchFail, Answer(client.respond, |old(client.sent)|, BranchRequest(ApiBranchFail, gid, branchId)))
      ensures branches == old(branches)
    {
      err := BranchCall(ApiBranchFail, branchId);
    }

    /** Fetch the coordinator's current view of this transaction. */
    method GetInfo() returns (info: Result<TransactionInfo>)
      modifies client
      ensures client.sent == old(client.sent) + [TxRequest(ApiTx, gid)]
      ensures info == InfoResult(Answer(client.respond, |old(client.sent)|, TxRequest(ApiTx, gid)))
      ensures branches == old(branches)
    {
      var reply := client.Send(TxRequest(ApiTx, gid));
      info := InfoResult(reply);
    }

    function GetGID(): (g: string)
      ensures g == gid
    {
      gid
    }

    function GetMode(): (m: string)
      ensures m == mode
    {
      mode
    }

    function GetBranches(): (bs: seq<Branch>)
      reads this
      ensures bs == branches
    {
      branches
    }
  }

  /** client.StartTransaction: ask the coordinator to open a transaction
      (proposing `uuid` as its id); on success the handle carries the gid
      the coordinator answered with, the given mode and payload, and no
      branches. */
  method StartTransaction(client: Coordinator, uuid: string, mode: string, payload: seq<byte>)
    returns (tx: Transaction?, err: Option<Error>)
    modifies client
    ensures client.sent == old(client.sent) + [StartRequest(uuid, mode, payload)]
    ensures var r := StartResult(Answer(client.respond, |old(client.sent)|, StartRequest(uuid, mode, payload)));
      && (r.Err? ==> tx == null && err == Some(r.error))
      && (r.Ok? ==> err.None? && tx != null && fresh(tx) && tx.client == client && tx.gid == r.value
                    && tx.mode == mode && tx.payload == payload && tx.branches == [])
  {
    var reply := client.Send(StartRequest(uuid, mode, payload));
    var r := StartResult(reply);
    if r.Err? {
      tx, err := null, Some(r.error);
    } else {
      tx := new Transaction(client, r.value, mode, payload);
      err := None;
    }
  }
}
