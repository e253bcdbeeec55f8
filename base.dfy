/** Values shared by every part of the model: optional values, the errors the
    SDK throws, and JavaScript's `Array.prototype.find`. */
module Base {

  /** An optional value: `undefined` in the SDK is `None`. */
  datatype Option<+T> = None | Some(value: T) {
    /** The `x ?? d` operator. */
    function GetOr(default: T): T {
      if Some? then value else default
    }
  }

  /** A return code, which the gateway gives either as a number or as a string. */
  datatype Code = Num(n: int) | Str(s: string)

  /** What the SDK throws.
      - `Error(message)`: a plain `new Error(message)`;
      - `Interaction(interaction, code, msg)`: an `InteractionError`, raised as a
        `TxError` (interaction "Transaction") or a `QueryError` (interaction "Query");
      - `Runtime(name)`: an exception raised by the JavaScript runtime itself,
        named by its class (`TypeError`, `InvalidCharacterError`, ...). */
  datatype Failure =
    | Error(message: string)
    | Interaction(interaction: string, code: Code, msg: string)
    | Runtime(name: string)

  /** The result of an operation that may throw. */
  datatype Outcome<+T> = Ok(value: T) | Err(failure: Failure)

  /** `s.find(p)`: the first element of `s` satisfying `p`, if any. */
  function Find<T>(s: seq<T>, p: T -> bool): (r: Option<T>)
    ensures r.None? <==> forall j :: 0 <= j < |s| ==> !p(s[j])
    ensures r.Some? ==> exists i :: 0 <= i < |s| && s[i] == r.value && p(s[i]) && forall j :: 0 <= j < i ==> !p(s[j])
  {
    if |s| == 0 then None
    else if p(s[0]) then Some(s[0])
    else
      var r := Find(s[1..], p);
      assert forall j :: 1 <= j < |s| ==> s[j] == s[1..][j - 1];
      r
  }

  /** The element `Find` returns is the one at the first index where `p` holds. */
  lemma FindFirst<T>(s: seq<T>, p: T -> bool, i: nat)
    requires i < |s| && p(s[i]) && forall j :: 0 <= j < i ==> !p(s[j])
    ensures Find(s, p) == Some(s[i])
  {
    var r := Find(s, p);
    assert r.Some?;
    var k :| 0 <= k < |s| && s[k] == r.value && p(s[k]) && forall j :: 0 <= j < k ==> !p(s[j]);
    assert k == i;
  }
}
