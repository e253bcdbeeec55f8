/** The result decoder of `Proxy`: `resolveTx` classifies a settled
    transaction as a success or a `TxError` by an ordered decision list,
    `getTxReturnData` extracts the values a call returned, and
    `resolveCallContract`, `resolveDeployContract` and `query` build on them. */
module Decoder {
  import opened Base
  import opened Strings
  import opened Codecs

  /** One entry of `logs.events`. */
  datatype Event = Event(identifier: string, topics: seq<string>, data: string, address: string)

  /** `executionReceipt`. */
  datatype Receipt = Receipt(returnCode: string, returnMessage: string)

  /** One entry of `smartContractResults`; only its (optional) `data` is read. */
  datatype Scr = Scr(data: Option<string>)

  /** The transaction `getTx` fetches with its results. `events` is `None` when
      the transaction has no `logs`; `scrs` is `None` when it has no
      `smartContractResults` field. */
  datatype Snapshot = Snapshot(
    hash: string, status: string, receipt: Option<Receipt>,
    events: Option<seq<Event>>, scrs: Option<seq<Scr>>,
    gasUsed: int, fee: string)

  datatype TxResult = TxResult(explorerUrl: string, hash: string, gasUsed: int, fee: int, tx: Snapshot)
  datatype CallResult = CallResult(result: TxResult, returnData: seq<string>)
  datatype DeployResult = DeployResult(result: TxResult, returnData: seq<string>, address: string)

  const PendingErrorMessage := "Transaction still pending."
  const TxInteraction := "Transaction"
  const QueryInteraction := "Query"
  /** "ok" in hex, behind the leading `@` of a smart-contract result. */
  const OkMarker := "@6f6b"

  /** `tx?.logs?.events`: no logs reads as no events. */
  function Events(tx: Snapshot): seq<Event> {
    tx.events.GetOr([])
  }

  function ExplorerUrl(base: string, hash: string): string {
    base + "/transactions/" + hash
  }

  predicate IsSignalError(e: Event) { e.identifier == "signalError" }
  predicate IsWriteLog(e: Event) { e.identifier == "writeLog" }
  predicate IsScDeploy(e: Event) { e.identifier == "SCDeploy" }

  /** A smart-contract result carries return data when its `data` is the ok
      marker alone or starts with the marker followed by `@`. */
  predicate IsOkScr(r: Scr) {
    r.data == Some(OkMarker) || (r.data.Some? && StartsWith(r.data.value, OkMarker + "@"))
  }

  /** `executionReceipt?.returnCode` is truthy (present and not empty). */
  predicate ReceiptFails(tx: Snapshot) {
    tx.receipt.Some? && tx.receipt.value.returnCode != ""
  }

  /** The error a `signalError` event raises: its message is the base64
      decoding of the second topic; `atob` throws when the topic is missing
      (it then decodes the text "undefined") or is not base64. */
  function SignalErrorFailure(c: Codec, e: Event): (f: Failure)
    ensures f.Interaction? <==> |e.topics| >= 2 && c.atob(e.topics[1]).Some?
    ensures f.Interaction? ==> f == Interaction(TxInteraction, Str("signalError"), c.atob(e.topics[1]).value)
    ensures !f.Interaction? ==> f == Runtime("InvalidCharacterError")
  {
    if |e.topics| < 2 then Runtime("InvalidCharacterError")
    else match c.atob(e.topics[1])
      case None => Runtime("InvalidCharacterError")
      case Some(m) => Interaction(TxInteraction, Str("signalError"), m)
  }

  /** The decision list of `resolveTx` on a fetched, non-pending transaction:
      status, then execution receipt, then `signalError` event; `None` when all
      three pass. */
  function Classify(c: Codec, tx: Snapshot): (r: Option<Failure>)
    ensures r.None? <==>
      && tx.status == "success" && !ReceiptFails(tx)
      && forall j :: 0 <= j < |Events(tx)| ==> !IsSignalError(Events(tx)[j])
  {
    if tx.status != "success" then Some(Interaction(TxInteraction, Str("errorStatus"), tx.status))
    else if ReceiptFails(tx) then
      Some(Interaction(TxInteraction, Str(tx.receipt.value.returnCode), tx.receipt.value.returnMessage))
    else match Find(Events(tx), IsSignalError)
      case Some(e) => Some(SignalErrorFailure(c, e))
      case None => None
  }

  /** `resolveTx`: given the answer to the process-status request and to the
      transaction request, fail if the status still reads `"pending"`, then
      apply the decision list, then build the result. */
  function ResolveTx(c: Codec, explorerBase: string, status: Outcome<string>, fetched: Outcome<Snapshot>): (r: Outcome<TxResult>)
    ensures r.Ok? <==>
      && status.Ok? && status.value != "pending" && fetched.Ok?
      && Classify(c, fetched.value).None? && c.bigInt(fetched.value.fee).Some?
    ensures r.Ok? ==>
      && r.value.explorerUrl == ExplorerUrl(explorerBase, fetched.value.hash)
      && r.value.hash == fetched.value.hash && r.value.tx == fetched.value
      && r.value.gasUsed == fetched.value.gasUsed && Some(r.value.fee) == c.bigInt(fetched.value.fee)
    ensures status.Err? ==> r == Err(status.failure)
    ensures status == Ok("pending") ==> r == Err(Error(PendingErrorMessage))
    ensures status.Ok? && status.value != "pending" && fetched.Err? ==> r == Err(fetched.failure)
    ensures status.Ok? && status.value != "pending" && fetched.Ok? && Classify(c, fetched.value).Some? ==>
      r == Err(Classify(c, fetched.value).value)
    ensures status.Ok? && status.value != "pending" && fetched.Ok? && Classify(c, fetched.value).None? && c.bigInt(fetched.value.fee).None? ==>
      r == Err(Runtime("SyntaxError"))
  {
    match status
    case Err(f) => Err(f)
    case Ok(s) =>
      if s == "pending" then Err(Error(PendingErrorMessage))
      else match fetched
        case Err(f) => Err(f)
        case Ok(tx) =>
          match Classify(c, tx)
          case Some(f) => Err(f)
          case None =>
            match c.bigInt(tx.fee)
            case None => Err(Runtime("SyntaxError"))
            case Some(fee) => Ok(TxResult(ExplorerUrl(explorerBase, tx.hash), tx.hash, tx.gasUsed, fee, tx))
  }

  /** `getTxReturnData`: the data of the first `writeLog` event, base64-decoded
      and split on `@` without its first two segments; else the data of the
      first ok smart-contract result, likewise split; else nothing. Every value
      returned is free of `@`. */
  function GetTxReturnData(c: Codec, tx: Snapshot): (r: Outcome<seq<string>>)
    ensures r.Ok? ==> SeparatorFree(r.value, '@')
    ensures r.Err? <==>
      || (Find(Events(tx), IsWriteLog).Some? && c.atob(Find(Events(tx), IsWriteLog).value.data).None?)
      || (Find(Events(tx), IsWriteLog).None? && tx.scrs.None?)
    ensures r.Err? ==> r.failure == if Find(Events(tx), IsWriteLog).Some? then Runtime("InvalidCharacterError") else Runtime("TypeError")
  {
    match Find(Events(tx), IsWriteLog)
    case Some(e) =>
      (match c.atob(e.data)
       case None => Err(Runtime("InvalidCharacterError"))
       case Some(s) => Ok(Slice(Split(s, '@'), 2)))
    case None =>
      if tx.scrs.None? then Err(Runtime("TypeError"))
      else match Find(tx.scrs.value, IsOkScr)
        case Some(scr) => Ok(Slice(Split(scr.data.value, '@'), 2))
        case None => Ok([])
  }

  /** `resolveCallContract` (and `resolveUpgradeContract`, which is the same). */
  function ResolveCallContract(c: Codec, explorerBase: string, status: Outcome<string>, fetched: Outcome<Snapshot>): (r: Outcome<CallResult>)
    ensures r.Ok? ==> ResolveTx(c, explorerBase, status, fetched) == Ok(r.value.result)
    ensures r.Ok? ==> GetTxReturnData(c, r.value.result.tx) == Ok(r.value.returnData)
    ensures r.Ok? <==>
      (ResolveTx(c, explorerBase, status, fetched).Ok? && GetTxReturnData(c, ResolveTx(c, explorerBase, status, fetched).value.tx).Ok?)
    ensures ResolveTx(c, explorerBase, status, fetched).Err? ==> r == Err(ResolveTx(c, explorerBase, status, fetched).failure)
    ensures ResolveTx(c, explorerBase, status, fetched).Ok? && GetTxReturnData(c, ResolveTx(c, explorerBase, status, fetched).value.tx).Err?
      ==> r == Err(GetTxReturnData(c, ResolveTx(c, explorerBase, status, fetched).value.tx).failure)
  {
    match ResolveTx(c, explorerBase, status, fetched)
    case Err(f) => Err(f)
    case Ok(res) =>
      match GetTxReturnData(c, res.tx)
      case Err(f) => Err(f)
      case Ok(data) => Ok(CallResult(res, data))
  }

  /** `resolveDeployContract`: a call result plus the address carried by the
      first `SCDeploy` event; reading it throws when there are no logs or no
      such event. */
  function ResolveDeployContract(c: Codec, explorerBase: string, status: Outcome<string>, fetched: Outcome<Snapshot>): (r: Outcome<DeployResult>)
    ensures r.Ok? ==> ResolveCallContract(c, explorerBase, status, fetched) == Ok(CallResult(r.value.result, r.value.returnData))
    ensures r.Ok? ==> exists i :: 0 <= i < |Events(fetched.value)| && IsScDeploy(Events(fetched.value)[i]) && Events(fetched.value)[i].address == r.value.address
    ensures ResolveCallContract(c, explorerBase, status, fetched).Err? ==> r == Err(ResolveCallContract(c, explorerBase, status, fetched).failure)
    ensures ResolveCallContract(c, explorerBase, status, fetched).Ok? ==>
      var tx := ResolveCallContract(c, explorerBase, status, fetched).value.result.tx;
      if exists i :: 0 <= i < |Events(tx)| && IsScDeploy(Events(tx)[i]) then r.Ok? else r == Err(Runtime("TypeError"))
  {
    match ResolveCallContract(c, explorerBase, status, fetched)
    case Err(f) => Err(f)
    case Ok(call) =>
      var tx := call.result.tx;
      if tx.events.None? then Err(Runtime("TypeError"))
      else match Find(tx.events.value, IsScDeploy)
        case None => Err(Runtime("TypeError"))
        case Some(e) => Ok(DeployResult(call.result, call.returnData, e.address))
  }

  /** The `data` of a `/vm-values/query` answer. */
  datatype QueryResponse = QueryResponse(returnCode: Code, returnMessage: string, returnData: seq<string>)
  datatype QueryResult = QueryResult(returnData: seq<string>, query: QueryResponse)

  /** `query`: a `QueryError` unless the return code is the number 0 or the
      string "ok"; otherwise every base64 return value converted to hex, in order. */
  function Query(c: Codec, data: QueryResponse): (r: Outcome<QueryResult>)
    ensures r.Err? <==> data.returnCode != Num(0) && data.returnCode != Str("ok")
    ensures r.Err? ==> r.failure == Interaction(QueryInteraction, data.returnCode, data.returnMessage)
    ensures r.Ok? ==> r.value.query == data && |r.value.returnData| == |data.returnData|
    ensures r.Ok? ==> forall i :: 0 <= i < |data.returnData| ==> r.value.returnData[i] == c.base64ToHex(data.returnData[i])
  {
    if data.returnCode !in [Num(0), Str("ok")] then
      Err(Interaction(QueryInteraction, data.returnCode, data.returnMessage))
    else
      Ok(QueryResult(seq(|data.returnData|, i requires 0 <= i < |data.returnData| => c.base64ToHex(data.returnData[i])), data))
  }

  // ---------------------------------------------------------------------------
  // The decision list of resolveTx: first match wins

  /** A transaction still reading "pending" fails with the pending message,
      whatever the transaction request would have returned. */
  lemma PendingComesFirst(c: Codec, explorerBase: string, fetched: Outcome<Snapshot>)
    ensures ResolveTx(c, explorerBase, Ok("pending"), fetched) == Err(Error(PendingErrorMessage))
  {
  }

  /** A status other than "success" is an `errorStatus` error carrying the
      status, even when a failing receipt or a `signalError` event is present. */
  lemma StatusComesBeforeReceiptAndSignal(c: Codec, explorerBase: string, s: string, tx: Snapshot)
    requires s != "pending" && tx.status != "success"
    ensures ResolveTx(c, explorerBase, Ok(s), Ok(tx)) == Err(Interaction(TxInteraction, Str("errorStatus"), tx.status))
  {
  }

  /** With a successful status, a non-empty receipt return code is the error,
      even when a `signalError` event is present. */
  lemma ReceiptComesBeforeSignal(c: Codec, explorerBase: string, s: string, tx: Snapshot)
    requires s != "pending" && tx.status == "success" && ReceiptFails(tx)
    ensures ResolveTx(c, explorerBase, Ok(s), Ok(tx)) ==
      Err(Interaction(TxInteraction, Str(tx.receipt.value.returnCode), tx.receipt.value.returnMessage))
  {
  }

  /** With a successful status and no failing receipt, the first `signalError`
      event decides: its second topic, base64-decoded, is the message. */
  lemma SignalErrorMessage(c: Codec, explorerBase: string, s: string, tx: Snapshot, i: nat, msg: string)
    requires s != "pending" && tx.status == "success" && !ReceiptFails(tx)
    requires i < |Events(tx)| && IsSignalError(Events(tx)[i])
    requires forall j :: 0 <= j < i ==> !IsSignalError(Events(tx)[j])
    requires |Events(tx)[i].topics| >= 2 && c.atob(Events(tx)[i].topics[1]) == Some(msg)
    ensures ResolveTx(c, explorerBase, Ok(s), Ok(tx)) == Err(Interaction(TxInteraction, Str("signalError"), msg))
  {
    FindFirst(Events(tx), IsSignalError, i);
  }

  /** The last rule: a settled transaction with status "success", no failing
      receipt and no `signalError` event resolves, carrying its explorer link,
      hash, gas used and parsed fee. */
  lemma SuccessWhenNoRuleFires(c: Codec, explorerBase: string, s: string, tx: Snapshot, fee: int)
    requires s != "pending" && tx.status == "success" && !ReceiptFails(tx)
    requires forall j :: 0 <= j < |Events(tx)| ==> !IsSignalError(Events(tx)[j])
    requires c.bigInt(tx.fee) == Some(fee)
    ensures ResolveTx(c, explorerBase, Ok(s), Ok(tx)) == Ok(TxResult(ExplorerUrl(explorerBase, tx.hash), tx.hash, tx.gasUsed, fee, tx))
  {
    assert Classify(c, tx).None?;
  }

  /** Decoding is a function of the fetched transaction: resolving the same
      settled transaction twice gives the same result. */
  lemma ResolveDependsOnlyOnSnapshot(c: Codec, explorerBase: string, s1: string, s2: string, tx: Snapshot)
    requires s1 != "pending" && s2 != "pending"
    ensures ResolveTx(c, explorerBase, Ok(s1), Ok(tx)) == ResolveTx(c, explorerBase, Ok(s2), Ok(tx))
  {
  }

  /** The pending message means exactly that the status read "pending": no
      failure of the decision list carries it. */
  lemma PendingErrorOnlyWhenPending(c: Codec, explorerBase: string, s: string, tx: Snapshot)
    ensures ResolveTx(c, explorerBase, Ok(s), Ok(tx)) == Err(Error(PendingErrorMessage)) <==> s == "pending"
  {
  }

  // ---------------------------------------------------------------------------
  // Return data

  /** A `writeLog` event takes precedence over smart-contract results, which
      are then not even read. */
  lemma WriteLogComesFirst(c: Codec, tx: Snapshot, i: nat, scrs: Option<seq<Scr>>)
    requires i < |Events(tx)| && IsWriteLog(Events(tx)[i])
    ensures GetTxReturnData(c, tx) == GetTxReturnData(c, tx.(scrs := scrs))
  {
    assert Find(Events(tx), IsWriteLog).Some?;
  }

  /** The split of `@` + m + `@` + the joined values is the empty segment, m, then
      the values. */
  lemma SplitMarked(m: string, vals: seq<string>)
    requires '@' !in m && |vals| >= 1 && SeparatorFree(vals, '@')
    ensures Split(['@'] + (m + ['@'] + Join(vals, '@')), '@') == ["", m] + vals
  {
    var segs := ["", m] + vals;
    assert segs[1..] == [m] + vals && ([m] + vals)[1..] == vals;
    assert Join(segs, '@') == ['@'] + (m + ['@'] + Join(vals, '@'));
    SplitJoin(segs, '@');
  }

  /** The values after an ok marker, split from data already in marked form. */
  lemma MarkedValuesAfterMarker(vals: seq<string>, d: string)
    requires |vals| >= 1 && SeparatorFree(vals, '@')
    requires d == ['@'] + ("6f6b" + ['@'] + Join(vals, '@'))
    ensures Slice(Split(d, '@'), 2) == vals
  {
    SplitMarked("6f6b", vals);
    assert (["", "6f6b"] + vals)[2..] == vals;
  }

  /** Data made of the ok marker and separator-free values is an ok result
      whose values, after the two leading segments, are exactly those. */
  lemma OkMarkedValues(vals: seq<string>, d: string)
    requires |vals| >= 1 && SeparatorFree(vals, '@')
    requires d == OkMarker + "@" + Join(vals, '@')
    ensures IsOkScr(Scr(Some(d)))
    ensures Slice(Split(d, '@'), 2) == vals
  {
    assert d[..|OkMarker + "@"|] == OkMarker + "@";
    assert d == ['@'] + ("6f6b" + ['@'] + Join(vals, '@'));
    MarkedValuesAfterMarker(vals, d);
  }

  /** Return values written by a contract behind an ok marker are read back
      exactly: a round trip through the smart-contract result encoding. */
  lemma OkScrRoundTrip(c: Codec, tx: Snapshot, i: nat, vals: seq<string>)
    requires Find(Events(tx), IsWriteLog).None?
    requires tx.scrs.Some? && i < |tx.scrs.value|
    requires forall j :: 0 <= j < i ==> !IsOkScr(tx.scrs.value[j])
    requires |vals| >= 1 && SeparatorFree(vals, '@')
    requires tx.scrs.value[i].data == Some(OkMarker + "@" + Join(vals, '@'))
    ensures GetTxReturnData(c, tx) == Ok(vals)
  {
    OkMarkedValues(vals, tx.scrs.value[i].data.value);
    FindFirst(tx.scrs.value, IsOkScr, i);
  }

  /** The ok marker alone is an ok result with no return values. */
  lemma OkMarkerAloneIsEmpty(c: Codec, tx: Snapshot, i: nat)
    requires Find(Events(tx), IsWriteLog).None?
    requires tx.scrs.Some? && i < |tx.scrs.value| && tx.scrs.value[i].data == Some(OkMarker)
    requires forall j :: 0 <= j < i ==> !IsOkScr(tx.scrs.value[j])
    ensures GetTxReturnData(c, tx) == Ok([])
  {
    FindFirst(tx.scrs.value, IsOkScr, i);
    assert OkMarker == "" + ['@'] + "6f6b";
    SplitAfterFree("", '@', "6f6b");
    SplitFree("6f6b", '@');
  }

  /** A `writeLog` event whose data decodes to a marker alone, `@m`, as a call
      that returns nothing writes, gives no return values. */
  lemma WriteLogMarkerAloneIsEmpty(c: Codec, tx: Snapshot, i: nat, m: string)
    requires i < |Events(tx)| && IsWriteLog(Events(tx)[i])
    requires forall j :: 0 <= j < i ==> !IsWriteLog(Events(tx)[j])
    requires '@' !in m && c.atob(Events(tx)[i].data) == Some(['@'] + m)
    ensures GetTxReturnData(c, tx) == Ok([])
  {
    FindFirst(Events(tx), IsWriteLog, i);
    assert ['@'] + m == "" + ['@'] + m;
    SplitAfterFree("", '@', m);
    SplitFree(m, '@');
  }

  /** With neither a `writeLog` event nor an ok smart-contract result, a call
      returns nothing, and that is not an error. */
  lemma NoSourceIsEmpty(c: Codec, tx: Snapshot)
    requires Find(Events(tx), IsWriteLog).None?
    requires tx.scrs.Some? && forall j :: 0 <= j < |tx.scrs.value| ==> !IsOkScr(tx.scrs.value[j])
    ensures GetTxReturnData(c, tx) == Ok([])
  {
  }

  /** Return values written by a contract into its first `writeLog` event, as
      `@m@v1@...@vn` in base64, are read back exactly. */
  lemma WriteLogRoundTrip(c: Codec, tx: Snapshot, i: nat, m: string, vals: seq<string>, d: string)
    requires i < |Events(tx)| && IsWriteLog(Events(tx)[i])
    requires forall j :: 0 <= j < i ==> !IsWriteLog(Events(tx)[j])
    requires '@' !in m && |vals| >= 1 && SeparatorFree(vals, '@')
    requires d == ['@'] + (m + ['@'] + Join(vals, '@'))
    requires c.atob(Events(tx)[i].data) == Some(d)
    ensures GetTxReturnData(c, tx) == Ok(vals)
  {
    FindFirst(Events(tx), IsWriteLog, i);
    SplitMarked(m, vals);
    assert (["", m] + vals)[2..] == vals;
  }

  /** An instance of the round trip: a `writeLog` event whose data decodes to
      "@6f6b@0041" returns ["0041"]. */
  lemma WriteLogExample(c: Codec, tx: Snapshot)
    requires |Events(tx)| >= 1 && IsWriteLog(Events(tx)[0])
    requires c.atob(Events(tx)[0].data) == Some("@6f6b@0041")
    ensures GetTxReturnData(c, tx) == Ok(["0041"])
  {
    assert "@6f6b@0041" == ['@'] + ("6f6b" + ['@'] + Join(["0041"], '@'));
    WriteLogRoundTrip(c, tx, 0, "6f6b", ["0041"], "@6f6b@0041");
  }

  /** The deployed address is the one the first `SCDeploy` event carries. */
  lemma DeployAddressFromEvent(c: Codec, explorerBase: string, s: string, tx: Snapshot, i: nat)
    requires ResolveCallContract(c, explorerBase, Ok(s), Ok(tx)).Ok?
    requires tx.events.Some? && i < |tx.events.value| && IsScDeploy(tx.events.value[i])
    requires forall j :: 0 <= j < i ==> !IsScDeploy(tx.events.value[j])
    ensures ResolveDeployContract(c, explorerBase, Ok(s), Ok(tx)).Ok?
    ensures ResolveDeployContract(c, explorerBase, Ok(s), Ok(tx)).value.address == tx.events.value[i].address
  {
    FindFirst(tx.events.value, IsScDeploy, i);
  }

  /** The return code "0" as a string is not accepted: only the number 0 and
      the string "ok" are. */
  lemma QueryAcceptsOnlyZeroOrOk(c: Codec, msg: string, data: seq<string>)
    ensures Query(c, QueryResponse(Num(0), msg, data)).Ok?
    ensures Query(c, QueryResponse(Str("ok"), msg, data)).Ok?
    ensures Query(c, QueryResponse(Str("0"), msg, data)).Err?
  {
  }
}
