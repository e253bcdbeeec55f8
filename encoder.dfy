/** The transaction encoder of `Proxy` (`sendTransfer`, `sendDeployContract`,
    `sendCallContract`, `sendUpgradeContract`): how each of the four
    transaction kinds becomes a receiver and an `@`-joined `data` string before
    it is handed to `sendTx`. */
module Encoder {
  import opened Base
  import opened Strings
  import opened Codecs

  /** One token of a multi-token transfer; an absent nonce is sent as 0. */
  datatype Esdt = Esdt(id: string, nonce: Option<nat>, amount: nat)

  /** The fields every transaction kind carries unchanged into `sendTx`. */
  datatype TxFields = TxFields(
    nonce: nat, value: Option<nat>, gasPrice: nat, gasLimit: nat,
    chainId: string, version: Option<nat>)

  datatype TransferTx = TransferTx(
    receiver: AddressLike, sender: AddressLike, esdts: Option<seq<Esdt>>, fields: TxFields)

  datatype DeployContractTx = DeployContractTx(
    sender: AddressLike, code: string, codeMetadata: string,
    codeArgs: Option<seq<string>>, fields: TxFields)

  datatype CallContractTx = CallContractTx(
    callee: AddressLike, sender: AddressLike, funcName: string,
    funcArgs: Option<seq<string>>, esdts: Option<seq<Esdt>>, fields: TxFields)

  datatype UpgradeContractTx = UpgradeContractTx(
    callee: AddressLike, sender: AddressLike, code: string, codeMetadata: string,
    codeArgs: Option<seq<string>>, fields: TxFields)

  /** What `sendTx` receives: a receiver, the sender and an optional `data`. */
  datatype Tx = Tx(receiver: AddressLike, sender: AddressLike, data: Option<string>, fields: TxFields)

  const MultiTransferTag := "MultiESDTNFTTransfer"
  /** The segment a deploy carries between the code and the code metadata. */
  const DeployVmTag := "0500"
  const UpgradeTag := "upgradeContract"

  /** `esdts?.length` is truthy: the list is present and not empty. */
  predicate HasTokens(esdts: Option<seq<Esdt>>) {
    esdts.Some? && |esdts.value| > 0
  }

  /** The three segments of one token: identifier, nonce (0 when absent), amount. */
  function TokenSegments(c: Codec, t: Esdt): seq<string> {
    [c.topHexStr(t.id), c.topHexU(t.nonce.GetOr(0)), c.topHexU(t.amount)]
  }

  /** The token triples of a list of tokens, in input order. */
  function EsdtSegments(c: Codec, esdts: seq<Esdt>): (r: seq<string>)
    ensures |r| == 3 * |esdts|
    ensures forall i :: 0 <= i < |esdts| ==> r[3 * i..3 * i + 3] == TokenSegments(c, esdts[i])
  {
    if |esdts| == 0 then []
    else
      var init := esdts[..|esdts| - 1];
      var r := EsdtSegments(c, init) + TokenSegments(c, esdts[|esdts| - 1]);
      assert forall i :: 0 <= i < |init| ==> r[3 * i..3 * i + 3] == EsdtSegments(c, init)[3 * i..3 * i + 3];
      r
  }

  /** The segments of a multi-token transfer to `receiver`. */
  function TransferSegments(c: Codec, receiver: AddressLike, esdts: seq<Esdt>): seq<string> {
    [MultiTransferTag, c.hexAddress(receiver), c.topHexU(|esdts|)] + EsdtSegments(c, esdts)
  }

  /** `e.vs(args)`: the top-encoded arguments, in order. */
  function ArgSegments(c: Codec, args: seq<string>): seq<string> {
    seq(|args|, i requires 0 <= i < |args| => c.topHexArg(args[i]))
  }

  /** The `dataParts` a token-carrying transfer or call pushes first: the tag,
      the true receiver, the token count and one triple per token. */
  method PushMultiTransfer(c: Codec, receiver: AddressLike, esdts: seq<Esdt>) returns (dataParts: seq<string>)
    ensures dataParts == TransferSegments(c, receiver, esdts)
  {
    dataParts := [];
    dataParts := dataParts + [MultiTransferTag];
    dataParts := dataParts + [c.hexAddress(receiver)];
    dataParts := dataParts + [c.topHexU(|esdts|)];
    for i := 0 to |esdts|
      invariant dataParts == [MultiTransferTag, c.hexAddress(receiver), c.topHexU(|esdts|)] + EsdtSegments(c, esdts[..i])
    {
      assert esdts[..i + 1][..i] == esdts[..i];
      dataParts := dataParts + [c.topHexStr(esdts[i].id)];
      dataParts := dataParts + [c.topHexU(esdts[i].nonce.GetOr(0))];
      dataParts := dataParts + [c.topHexU(esdts[i].amount)];
    }
    assert esdts[..|esdts|] == esdts;
  }

  /** `sendTransfer`: with tokens, the transfer is sent to the sender itself and
      the true receiver travels in `data`; without, it goes to the receiver with
      no `data`. */
  method SendTransfer(c: Codec, tx: TransferTx) returns (out: Tx)
    ensures HasTokens(tx.esdts) ==>
      out.receiver == tx.sender && out.data == Some(Join(TransferSegments(c, tx.receiver, tx.esdts.value), '@'))
    ensures !HasTokens(tx.esdts) ==> out.receiver == tx.receiver && out.data == None
    ensures out.sender == tx.sender && out.fields == tx.fields
  {
    var receiver: AddressLike;
    var data: Option<string> := None;
    if HasTokens(tx.esdts) {
      receiver := tx.sender;
      var dataParts := PushMultiTransfer(c, tx.receiver, tx.esdts.value);
      data := Some(Join(dataParts, '@'));
    } else {
      receiver := tx.receiver;
    }
    out := Tx(receiver, tx.sender, data, tx.fields);
  }

  /** The segments of a call: the function name (hex-encoded after the transfer
      segments when tokens are sent, verbatim otherwise), then the arguments. */
  function CallSegments(c: Codec, tx: CallContractTx): seq<string> {
    (if HasTokens(tx.esdts)
     then TransferSegments(c, tx.callee, tx.esdts.value) + [c.topHexStr(tx.funcName)]
     else [tx.funcName])
    + ArgSegments(c, tx.funcArgs.GetOr([]))
  }

  /** `sendCallContract`: with tokens the call is a self-transfer whose `data`
      names the callee; without, it goes to the callee. */
  method SendCallContract(c: Codec, tx: CallContractTx) returns (out: Tx)
    ensures out.receiver == if HasTokens(tx.esdts) then tx.sender else tx.callee
    ensures out.data == Some(Join(CallSegments(c, tx), '@'))
    ensures out.sender == tx.sender && out.fields == tx.fields
  {
    var dataParts: seq<string> := [];
    var receiver: AddressLike;
    if HasTokens(tx.esdts) {
      receiver := tx.sender;
      dataParts := PushMultiTransfer(c, tx.callee, tx.esdts.value);
      dataParts := dataParts + [c.topHexStr(tx.funcName)];
    } else {
      receiver := tx.callee;
      dataParts := dataParts + [tx.funcName];
    }
    dataParts := dataParts + ArgSegments(c, tx.funcArgs.GetOr([]));
    out := Tx(receiver, tx.sender, Some(Join(dataParts, '@')), tx.fields);
  }

  function DeploySegments(c: Codec, tx: DeployContractTx): seq<string> {
    [tx.code, DeployVmTag, c.codeMetadata(tx.codeMetadata)] + ArgSegments(c, tx.codeArgs.GetOr([]))
  }

  /** `sendDeployContract`: a deploy always goes to the zero address. */
  function SendDeployContract(c: Codec, tx: DeployContractTx): (out: Tx)
    ensures out.receiver == c.zeroBechAddress && out.sender == tx.sender && out.fields == tx.fields
    ensures out.data == Some(Join(DeploySegments(c, tx), '@'))
  {
    Tx(c.zeroBechAddress, tx.sender, Some(Join(DeploySegments(c, tx), '@')), tx.fields)
  }

  function UpgradeSegments(c: Codec, tx: UpgradeContractTx): seq<string> {
    [UpgradeTag, tx.code, c.codeMetadata(tx.codeMetadata)] + ArgSegments(c, tx.codeArgs.GetOr([]))
  }

  /** `sendUpgradeContract`: an upgrade goes to the contract being upgraded. */
  function SendUpgradeContract(c: Codec, tx: UpgradeContractTx): (out: Tx)
    ensures out.receiver == tx.callee && out.sender == tx.sender && out.fields == tx.fields
    ensures out.data == Some(Join(UpgradeSegments(c, tx), '@'))
  {
    Tx(tx.callee, tx.sender, Some(Join(UpgradeSegments(c, tx), '@')), tx.fields)
  }

  // ---------------------------------------------------------------------------
  // Segment layouts

  /** A transfer with n tokens has 3 + 3n segments: the tag, the true receiver,
      the count, then identifier, nonce (0 when absent) and amount per token. */
  lemma TransferLayout(c: Codec, receiver: AddressLike, esdts: seq<Esdt>)
    ensures var segs := TransferSegments(c, receiver, esdts);
      && |segs| == 3 + 3 * |esdts|
      && segs[0] == MultiTransferTag && segs[1] == c.hexAddress(receiver) && segs[2] == c.topHexU(|esdts|)
      && forall i :: 0 <= i < |esdts| ==>
           && segs[3 + 3 * i] == c.topHexStr(esdts[i].id)
           && segs[4 + 3 * i] == c.topHexU(esdts[i].nonce.GetOr(0))
           && segs[5 + 3 * i] == c.topHexU(esdts[i].amount)
  {
    var segs := TransferSegments(c, receiver, esdts);
    var toks := EsdtSegments(c, esdts);
    forall i | 0 <= i < |esdts|
      ensures segs[3 + 3 * i] == c.topHexStr(esdts[i].id)
      ensures segs[4 + 3 * i] == c.topHexU(esdts[i].nonce.GetOr(0))
      ensures segs[5 + 3 * i] == c.topHexU(esdts[i].amount)
    {
      assert toks[3 * i..3 * i + 3] == TokenSegments(c, esdts[i]);
      assert segs[3 + 3 * i] == toks[3 * i] && segs[4 + 3 * i] == toks[3 * i + 1] && segs[5 + 3 * i] == toks[3 * i + 2];
    }
  }

  /** Absent and empty lists are the same: `esdts` undefined or `[]` gives a
      plain transfer, `codeArgs`/`funcArgs` undefined or `[]` add nothing. */
  lemma AbsentListsAreEmpty(c: Codec, d: DeployContractTx, k: CallContractTx, u: UpgradeContractTx)
    ensures !HasTokens(None) && !HasTokens(Some([]))
    ensures SendDeployContract(c, d.(codeArgs := None)) == SendDeployContract(c, d.(codeArgs := Some([])))
    ensures CallSegments(c, k.(funcArgs := None)) == CallSegments(c, k.(funcArgs := Some([])))
    ensures CallSegments(c, k.(esdts := None)) == CallSegments(c, k.(esdts := Some([])))
    ensures SendUpgradeContract(c, u.(codeArgs := None)) == SendUpgradeContract(c, u.(codeArgs := Some([])))
  {
  }

  /** A call without tokens: the function name, then the arguments; with no
      arguments `data` is exactly the function name, with no trailing `@`. */
  lemma CallWithoutTokensLayout(c: Codec, tx: CallContractTx)
    requires !HasTokens(tx.esdts)
    ensures var args := tx.funcArgs.GetOr([]); var segs := CallSegments(c, tx);
      && |segs| == 1 + |args| && segs[0] == tx.funcName
      && forall j :: 0 <= j < |args| ==> segs[1 + j] == c.topHexArg(args[j])
    ensures tx.funcArgs.GetOr([]) == [] ==> Join(CallSegments(c, tx), '@') == tx.funcName
  {
  }

  /** A call with n tokens: the 3 + 3n transfer segments naming the callee, the
      hex-encoded function name, then the arguments. */
  lemma CallWithTokensLayout(c: Codec, tx: CallContractTx)
    requires HasTokens(tx.esdts)
    ensures var n := |tx.esdts.value|; var args := tx.funcArgs.GetOr([]); var segs := CallSegments(c, tx);
      && |segs| == 4 + 3 * n + |args|
      && segs[..3 + 3 * n] == TransferSegments(c, tx.callee, tx.esdts.value)
      && segs[3 + 3 * n] == c.topHexStr(tx.funcName)
      && forall j :: 0 <= j < |args| ==> segs[4 + 3 * n + j] == c.topHexArg(args[j])
  {
    TransferLayout(c, tx.callee, tx.esdts.value);
  }

  /** A deploy: the code, the `0500` tag, the code metadata, then the arguments. */
  lemma DeployLayout(c: Codec, tx: DeployContractTx)
    ensures var args := tx.codeArgs.GetOr([]); var segs := DeploySegments(c, tx);
      && |segs| == 3 + |args|
      && segs[0] == tx.code && segs[1] == DeployVmTag && segs[2] == c.codeMetadata(tx.codeMetadata)
      && forall j :: 0 <= j < |args| ==> segs[3 + j] == c.topHexArg(args[j])
  {
  }

  /** An upgrade: the `upgradeContract` tag, the code, the code metadata, then the arguments. */
  lemma UpgradeLayout(c: Codec, tx: UpgradeContractTx)
    ensures var args := tx.codeArgs.GetOr([]); var segs := UpgradeSegments(c, tx);
      && |segs| == 3 + |args|
      && segs[0] == UpgradeTag && segs[1] == tx.code && segs[2] == c.codeMetadata(tx.codeMetadata)
      && forall j :: 0 <= j < |args| ==> segs[3 + j] == c.topHexArg(args[j])
  {
  }

  // ---------------------------------------------------------------------------
  // Decoding a payload back into its segments

  lemma ArgsSeparatorFree(c: Codec, args: seq<string>)
    requires HexEncoders(c)
    ensures SeparatorFree(ArgSegments(c, args), '@')
  {
    forall j | 0 <= j < |args| ensures '@' !in ArgSegments(c, args)[j] {
      HexHasNoSeparator(c.topHexArg(args[j]));
    }
  }

  lemma TransferSeparatorFree(c: Codec, receiver: AddressLike, esdts: seq<Esdt>)
    requires HexEncoders(c)
    ensures SeparatorFree(TransferSegments(c, receiver, esdts), '@')
  {
    var segs := TransferSegments(c, receiver, esdts);
    TransferLayout(c, receiver, esdts);
    forall k | 0 <= k < |segs| ensures '@' !in segs[k] {
      if k == 0 {
      } else if k == 1 {
        HexHasNoSeparator(c.hexAddress(receiver));
      } else if k == 2 {
        HexHasNoSeparator(c.topHexU(|esdts|));
      } else {
        var i := (k - 3) / 3;
        assert 0 <= i < |esdts|;
        if k == 3 + 3 * i {
          HexHasNoSeparator(c.topHexStr(esdts[i].id));
        } else if k == 4 + 3 * i {
          HexHasNoSeparator(c.topHexU(esdts[i].nonce.GetOr(0)));
        } else {
          HexHasNoSeparator(c.topHexU(esdts[i].amount));
        }
      }
    }
  }

  /** Splitting the `data` of a token transfer on `@` gives back its segments:
      3 + 3n of them, the third the encoded token count n. */
  lemma TransferDataDecodes(c: Codec, tx: TransferTx, out: Tx)
    requires HexEncoders(c) && HasTokens(tx.esdts)
    requires out.data == Some(Join(TransferSegments(c, tx.receiver, tx.esdts.value), '@'))
    ensures Split(out.data.value, '@') == TransferSegments(c, tx.receiver, tx.esdts.value)
    ensures |Split(out.data.value, '@')| == 3 + 3 * |tx.esdts.value|
    ensures Split(out.data.value, '@')[2] == c.topHexU(|tx.esdts.value|)
  {
    TransferSeparatorFree(c, tx.receiver, tx.esdts.value);
    SplitJoin(TransferSegments(c, tx.receiver, tx.esdts.value), '@');
  }

  /** Splitting the `data` of a call on `@` gives back its segments, provided a
      function name sent verbatim (no tokens) contains no `@`. */
  lemma CallDataDecodes(c: Codec, tx: CallContractTx)
    requires HexEncoders(c)
    requires !HasTokens(tx.esdts) ==> '@' !in tx.funcName
    ensures Split(Join(CallSegments(c, tx), '@'), '@') == CallSegments(c, tx)
  {
    var args := ArgSegments(c, tx.funcArgs.GetOr([]));
    ArgsSeparatorFree(c, tx.funcArgs.GetOr([]));
    if HasTokens(tx.esdts) {
      TransferSeparatorFree(c, tx.callee, tx.esdts.value);
      HexHasNoSeparator(c.topHexStr(tx.funcName));
    }
    var segs := CallSegments(c, tx);
    assert SeparatorFree(segs, '@');
    SplitJoin(segs, '@');
  }

  /** Splitting the `data` of a deploy on `@` gives back its segments when the
      code is hexadecimal. */
  lemma DeployDataDecodes(c: Codec, tx: DeployContractTx)
    requires HexEncoders(c) && IsHex(tx.code)
    ensures Split(SendDeployContract(c, tx).data.value, '@') == DeploySegments(c, tx)
  {
    ArgsSeparatorFree(c, tx.codeArgs.GetOr([]));
    HexHasNoSeparator(tx.code);
    HexHasNoSeparator(c.codeMetadata(tx.codeMetadata));
    var segs := DeploySegments(c, tx);
    assert SeparatorFree(segs, '@');
    SplitJoin(segs, '@');
  }

  /** Splitting the `data` of an upgrade on `@` gives back its segments when the
      code is hexadecimal. */
  lemma UpgradeDataDecodes(c: Codec, tx: UpgradeContractTx)
    requires HexEncoders(c) && IsHex(tx.code)
    ensures Split(SendUpgradeContract(c, tx).data.value, '@') == UpgradeSegments(c, tx)
  {
    ArgsSeparatorFree(c, tx.codeArgs.GetOr([]));
    HexHasNoSeparator(tx.code);
    HexHasNoSeparator(c.codeMetadata(tx.codeMetadata));
    var segs := UpgradeSegments(c, tx);
    assert SeparatorFree(segs, '@');
    SplitJoin(segs, '@');
  }
}
