/** The gateway side of `Proxy`: the envelope check of `fetch`, the proxy's
    settings, and the conversions between the SDK's values and what the gateway
    sends or receives (`broadTxToRawTx`, `broadQueryToRawQuery`,
    `getSerializableAccount`, `getValuesInOrder`). */
module Gateway {
  import opened Base
  import opened Strings
  import opened Codecs
  import opened Encoder

  /** A gateway response: the envelope `code` and its `data`. */
  datatype Envelope<D> = Envelope(code: string, data: D)

  const UnsuccessfulPrefix := "Unsuccessful proxy request. Response: "

  /** `fetch`: the `data` of a response whose `code` is "successful"; any other
      code throws an error carrying the response, rendered by `render`
      (`JSON.stringify(res, null, 2)`). */
  function Fetch<D>(res: Envelope<D>, render: Envelope<D> -> string): (r: Outcome<D>)
    ensures r.Ok? <==> res.code == "successful"
    ensures r.Ok? ==> r.value == res.data
    ensures r.Err? ==> r.failure == Error(UnsuccessfulPrefix + render(res))
  {
    if res.code == "successful" then Ok(res.data)
    else Err(Error(UnsuccessfulPrefix + render(res)))
  }

  /** What `new Proxy(params)` accepts: a bare URL or a settings object. */
  datatype ProxyParams =
    | Url(url: string)
    | Settings(proxyUrl: string, headers: Option<map<string, string>>, explorerUrl: Option<string>)

  datatype ProxyConfig = ProxyConfig(proxyUrl: string, headers: map<string, string>, explorerUrl: string)

  /** The `Proxy` constructor: no headers and an empty explorer base unless given. */
  function NewProxy(params: ProxyParams): (p: ProxyConfig)
    ensures params.Url? ==> p == ProxyConfig(params.url, map[], "")
    ensures params.Settings? ==> p.proxyUrl == params.proxyUrl
    ensures params.Settings? ==> p.headers == params.headers.GetOr(map[]) && p.explorerUrl == params.explorerUrl.GetOr("")
  {
    match params
    case Url(u) => ProxyConfig(u, map[], "")
    case Settings(u, h, e) => ProxyConfig(u, h.GetOr(map[]), e.GetOr(""))
  }

  // ---------------------------------------------------------------------------
  // Transactions as sent

  /** The fields of a raw transaction that its signature covers, in the order
      they are serialised. */
  datatype UnsignedRawTx = UnsignedRawTx(
    nonce: nat, value: string, receiver: string, sender: string,
    gasPrice: nat, gasLimit: nat, data: Option<string>, chainID: string, version: nat)

  datatype RawTx = RawTx(unsigned: UnsignedRawTx, signature: string)

  /** What `sendTx` accepts: an already signed raw transaction (its sender is a
      string) or a transaction whose sender signs it. */
  datatype BroadTx = Unsigned(tx: Tx) | Raw(raw: RawTx)

  const DefaultVersion := 1

  /** `broadTxToRawTx`: a raw transaction passes through; otherwise the value
      is rendered in decimal (0 when absent), addresses in bech32, `data` in
      base64, the version defaults to 1, and the sender signs the unsigned
      form (`sign(sender, unsigned)` is the hex of that signature). */
  function BroadTxToRawTx(c: Codec, sign: (AddressLike, UnsignedRawTx) -> string, btx: BroadTx): (r: Outcome<RawTx>)
    ensures btx.Raw? ==> r == Ok(btx.raw)
    ensures btx.Unsigned? ==> (r.Ok? <==> btx.tx.data.None? || c.btoa(btx.tx.data.value).Some?)
    ensures btx.Unsigned? && r.Err? ==> r.failure == Runtime("InvalidCharacterError")
    ensures btx.Unsigned? && r.Ok? ==>
      var tx, u := btx.tx, r.value.unsigned;
      && u.value == NatToDecimal(tx.fields.value.GetOr(0))
      && u.receiver == c.bechAddress(tx.receiver) && u.sender == c.bechAddress(tx.sender)
      && u.version == tx.fields.version.GetOr(DefaultVersion)
      && (u.data.Some? <==> tx.data.Some?)
      && (u.data.Some? ==> Some(u.data.value) == c.btoa(tx.data.value))
      && u.nonce == tx.fields.nonce && u.gasPrice == tx.fields.gasPrice
      && u.gasLimit == tx.fields.gasLimit && u.chainID == tx.fields.chainId
      && r.value.signature == sign(tx.sender, u)
  {
    match btx
    case Raw(raw) => Ok(raw)
    case Unsigned(tx) =>
      var data: Option<Option<string>> :=
        if tx.data.None? then Some(None)
        else match c.btoa(tx.data.value)
          case None => None
          case Some(b) => Some(Some(b));
      if data.None? then Err(Runtime("InvalidCharacterError"))
      else
        var u := UnsignedRawTx(
          tx.fields.nonce, NatToDecimal(tx.fields.value.GetOr(0)),
          c.bechAddress(tx.receiver), c.bechAddress(tx.sender),
          tx.fields.gasPrice, tx.fields.gasLimit, data.value,
          tx.fields.chainId, tx.fields.version.GetOr(DefaultVersion));
        Ok(RawTx(u, sign(tx.sender, u)))
  }

  /** The decimal value a raw transaction carries reads back as the value given. */
  lemma RawValueRoundTrip(c: Codec, sign: (AddressLike, UnsignedRawTx) -> string, tx: Tx)
    requires BroadTxToRawTx(c, sign, Unsigned(tx)).Ok?
    ensures ParseDecimal(BroadTxToRawTx(c, sign, Unsigned(tx)).value.unsigned.value) == tx.fields.value.GetOr(0)
  {
    DecimalRoundTrip(tx.fields.value.GetOr(0));
  }

  // ---------------------------------------------------------------------------
  // Queries as sent

  datatype RawQuery = RawQuery(
    scAddress: string, funcName: string, args: seq<string>,
    caller: Option<string>, value: Option<string>)

  /** What `query` accepts: a structured query naming its callee, or a raw one. */
  datatype BroadQuery =
    | Structured(callee: AddressLike, funcName: string, funcArgs: Option<seq<string>>,
                 sender: Option<AddressLike>, value: Option<nat>)
    | RawForm(raw: RawQuery)

  /** `broadQueryToRawQuery`: a raw query passes through; a structured one gets
      the callee in bech32, its arguments top-encoded in order, the optional
      caller in bech32 and the optional value in decimal. */
  function BroadQueryToRawQuery(c: Codec, q: BroadQuery): (r: RawQuery)
    ensures q.RawForm? ==> r == q.raw
    ensures q.Structured? ==>
      && r.scAddress == c.bechAddress(q.callee) && r.funcName == q.funcName
      && |r.args| == |q.funcArgs.GetOr([])|
      && (forall i :: 0 <= i < |r.args| ==> r.args[i] == c.topHexArg(q.funcArgs.GetOr([])[i]))
      && (r.caller.Some? <==> q.sender.Some?)
      && (r.caller.Some? ==> r.caller.value == c.bechAddress(q.sender.value))
      && (r.value.Some? <==> q.value.Some?)
      && (r.value.Some? ==> r.value.value == NatToDecimal(q.value.value))
  {
    match q
    case RawForm(raw) => raw
    case Structured(callee, funcName, funcArgs, sender, value) =>
      RawQuery(
        c.bechAddress(callee), funcName, ArgSegments(c, funcArgs.GetOr([])),
        if sender.Some? then Some(c.bechAddress(sender.value)) else None,
        if value.Some? then Some(NatToDecimal(value.value)) else None)
  }

  // ---------------------------------------------------------------------------
  // Accounts as read

  /** The `account` object of `/address/{bech32}`. */
  datatype RawAccount = RawAccount(
    address: string, nonce: int, balance: string, code: string,
    codeHash: Option<string>, codeMetadata: Option<string>,
    ownerAddress: Option<string>, pairs: Option<map<string, string>>)

  datatype SerializableAccount = SerializableAccount(
    address: string, nonce: int, balance: string, code: string,
    codeMetadata: string, codeHash: string, owner: Option<string>, kvs: map<string, string>)

  /** `getSerializableAccount`: code hash and metadata converted from base64 to
      hex (an absent one converts as the empty string), the owner renamed, the
      storage pairs defaulting to none. */
  function GetSerializableAccount(c: Codec, raw: RawAccount): (a: SerializableAccount)
    ensures a.address == raw.address && a.nonce == raw.nonce && a.balance == raw.balance && a.code == raw.code
    ensures a.codeHash == c.base64ToHex(raw.codeHash.GetOr(""))
    ensures a.codeMetadata == c.base64ToHex(raw.codeMetadata.GetOr(""))
    ensures a.owner == raw.ownerAddress
    ensures raw.pairs.None? ==> a.kvs == map[]
    ensures raw.pairs.Some? ==> a.kvs == raw.pairs.value
  {
    SerializableAccount(
      raw.address, raw.nonce, raw.balance, raw.code,
      c.base64ToHex(raw.codeMetadata.GetOr("")), c.base64ToHex(raw.codeHash.GetOr("")),
      raw.ownerAddress, raw.pairs.GetOr(map[]))
  }

  // ---------------------------------------------------------------------------
  // Records indexed by position

  /** `o[k]`: the value under key `k`, `undefined` when there is none. */
  function Lookup<T>(o: map<string, T>, k: string): Option<T> {
    if k in o then Some(o[k]) else None
  }

  /** `getValuesInOrder`: as many values as the record has keys, the i-th read
      under the key "i" (undefined when that key is missing). */
  method GetValuesInOrder<T>(o: map<string, T>) returns (values: seq<Option<T>>)
    ensures |values| == |o|
    ensures forall i :: 0 <= i < |values| ==> values[i] == Lookup(o, NatToDecimal(i))
  {
    values := [];
    var i := 0;
    while i < |o|
      invariant i <= |o| && |values| == i
      invariant forall j :: 0 <= j < i ==> values[j] == Lookup(o, NatToDecimal(j))
    {
      values := values + [Lookup(o, NatToDecimal(i))];
      i := i + 1;
    }
  }

  /** The keys "0", ..., "n-1". */
  ghost function IndexKeys(n: nat): set<string> {
    set i | 0 <= i < n :: NatToDecimal(i)
  }

  lemma {:induction false} IndexKeysCount(n: nat)
    ensures |IndexKeys(n)| == n
  {
    if n > 0 {
      var k := NatToDecimal(n - 1);
      IndexKeysCount(n - 1);
      assert IndexKeys(n) == IndexKeys(n - 1) + {k};
      assert k !in IndexKeys(n - 1) by {
        forall i | 0 <= i < n - 1 ensures NatToDecimal(i) != k {
          DecimalRoundTrip(i);
          DecimalRoundTrip(n - 1);
        }
      }
    }
  }

  /** A list stored as a record keyed by position, as the gateway sends lists. */
  function ListRecord<T>(xs: seq<T>): map<string, T> {
    assert forall i, j :: 0 <= i < |xs| && 0 <= j < |xs| && NatToDecimal(i) == NatToDecimal(j) ==> i == j by {
      forall i, j | 0 <= i < |xs| && 0 <= j < |xs| && NatToDecimal(i) == NatToDecimal(j) ensures i == j {
        DecimalInjective(i, j);
      }
    }
    map i | 0 <= i < |xs| :: NatToDecimal(i) := xs[i]
  }

  /** Reading a list stored by position back in order gives the list: the
      record has one key per element and every element is found, in order. */
  lemma ListRecordInOrder<T>(xs: seq<T>)
    ensures |ListRecord(xs)| == |xs|
    ensures forall i :: 0 <= i < |xs| ==> Lookup(ListRecord(xs), NatToDecimal(i)) == Some(xs[i])
  {
    var o := ListRecord(xs);
    assert o.Keys == IndexKeys(|xs|);
    IndexKeysCount(|xs|);
    forall i | 0 <= i < |xs| ensures Lookup(o, NatToDecimal(i)) == Some(xs[i]) {
      assert NatToDecimal(i) in o;
      var j :| 0 <= j < |xs| && NatToDecimal(j) == NatToDecimal(i) && o[NatToDecimal(i)] == xs[j];
      DecimalInjective(i, j);
    }
  }
}
