/** The polling side of `Proxy`: `awaitTx` re-reads a transaction's process
    status until it no longer reads "pending", and the resolution that follows
    it in `transfer`, `callContract`, `deployContract` and `executeTx`. The
    gateway is a sequence of the answers it will give, read one by one. */
module Polling {
  import opened Base
  import opened Codecs
  import opened Gateway
  import opened Decoder

  /** The wait between two polls, in milliseconds. */
  const PollIntervalMs := 1000

  /** A successful process-status answer that still reads "pending". */
  predicate IsPending(res: Envelope<string>) {
    res.code == "successful" && res.data == "pending"
  }

  /** Drops the data of an outcome, keeping a failure. */
  function Done<T>(o: Outcome<T>): Outcome<()> {
    match o
    case Ok(_) => Ok(())
    case Err(f) => Err(f)
  }

  /** The index of the first answer, from `from` on, that is not "pending". */
  function SettleIndex(rs: seq<Envelope<string>>, from: nat): (k: nat)
    requires exists k :: from <= k < |rs| && !IsPending(rs[k])
    ensures from <= k < |rs| && !IsPending(rs[k])
    ensures forall j :: from <= j < k ==> IsPending(rs[j])
    decreases |rs| - from
  {
    if !IsPending(rs[from]) then from else SettleIndex(rs, from + 1)
  }

  /** The gateway's answers to `/transaction/{hash}/process-status` for one
      transaction, in the order it gives them, and how many have been read. */
  class StatusOracle {
    const responses: seq<Envelope<string>>
    const render: Envelope<string> -> string
    var cursor: nat
    /** Time spent waiting between polls. */
    var waitedMs: nat

    ghost predicate Valid()
      reads this
    {
      cursor <= |responses|
    }

    /** Some answer not yet read is not "pending": the transaction settles. */
    ghost predicate Settles()
      reads this
    {
      exists k :: cursor <= k < |responses| && !IsPending(responses[k])
    }

    constructor (responses: seq<Envelope<string>>, render: Envelope<string> -> string)
      ensures this.responses == responses && this.render == render
      ensures cursor == 0 && waitedMs == 0 && Valid()
    {
      this.responses := responses;
      this.render := render;
      cursor := 0;
      waitedMs := 0;
    }

    /** `getTxProcessStatus`: reads the next answer through `fetch`. */
    method GetTxProcessStatus() returns (r: Outcome<string>)
      requires Valid() && cursor < |responses|
      modifies this
      ensures Valid() && cursor == old(cursor) + 1 && waitedMs == old(waitedMs)
      ensures r == Fetch(responses[old(cursor)], render)
    {
      r := Fetch(responses[cursor], render);
      cursor := cursor + 1;
    }

    /** `awaitTx`: polls until an answer is not "pending", waiting one interval
      before each new poll. It stops at the first answer that is not pending:
      every answer read before it was pending, and an unsuccessful answer
      makes it throw that answer's error. */
    method AwaitTx() returns (r: Outcome<()>)
      requires Valid() && Settles()
      modifies this
      ensures Valid() && cursor == SettleIndex(responses, old(cursor)) + 1
      ensures forall k :: old(cursor) <= k < cursor - 1 ==> IsPending(responses[k])
      ensures !IsPending(responses[cursor - 1])
      ensures r == Done(Fetch(responses[cursor - 1], render))
      ensures waitedMs == old(waitedMs) + PollIntervalMs * (cursor - old(cursor) - 1)
    {
      ghost var start := cursor;
      ghost var k := SettleIndex(responses, cursor);
      var res := GetTxProcessStatus();
      while res == Ok("pending")
        invariant Valid() && start < cursor <= k + 1
        invariant forall j :: start <= j < cursor - 1 ==> IsPending(responses[j])
        invariant res == Fetch(responses[cursor - 1], render)
        invariant waitedMs == old(waitedMs) + PollIntervalMs * (cursor - start - 1)
        decreases k + 1 - cursor
      {
        waitedMs := waitedMs + PollIntervalMs;
        res := GetTxProcessStatus();
      }
      r := Done(res);
    }

    /** `await awaitTx(hash); return resolveTx(hash)`: wait for settlement; if
      that did not throw, read the status once more and decode the fetched
      transaction. */
    method AwaitAndResolve(c: Codec, explorerBase: string, fetched: Envelope<Snapshot>, renderTx: Envelope<Snapshot> -> string)
      returns (r: Outcome<TxResult>)
      requires Valid() && Settles() && SettleIndex(responses, cursor) < |responses| - 1
      modifies this
      ensures Valid() && waitedMs == old(waitedMs) + PollIntervalMs * (SettleIndex(responses, old(cursor)) - old(cursor))
      ensures var k := SettleIndex(responses, old(cursor));
        if Fetch(responses[k], render).Err? then
          cursor == k + 1 && r == Err(Fetch(responses[k], render).failure)
        else
          cursor == k + 2 && r == ResolveTx(c, explorerBase, Fetch(responses[k + 1], render), Fetch(fetched, renderTx))
    {
      var awaited := AwaitTx();
      if awaited.Err? {
        r := Err(awaited.failure);
        return;
      }
      var status := GetTxProcessStatus();
      r := ResolveTx(c, explorerBase, status, Fetch(fetched, renderTx));
    }
  }
}
