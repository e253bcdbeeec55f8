/** The value encoders and decoders the SDK calls but which are not part of this
    model (the top-encoding of integers and strings, argument and code-metadata
    encoding, address conversion, base64 and `BigInt` parsing). They are
    gathered in one record of functions that every operation takes as a
    parameter, so that every property proved holds whatever they compute. */
module Codecs {
  import opened Base

  /** An address as the caller gives it: a bech32 string, raw bytes or a
      signer object; only its conversions below are observed. */
  datatype AddressLike = AddressLike(repr: string)

  datatype Codec = Codec(
    /** `e.U(n).toTopHex()` */
    topHexU: nat -> string,
    /** `e.Str(s).toTopHex()` */
    topHexStr: string -> string,
    /** the top-encoded form `e.vs` gives one call or deploy argument */
    topHexArg: string -> string,
    /** `eCodeMetadata(m)` */
    codeMetadata: string -> string,
    /** `addressLikeToHexAddress(a)` */
    hexAddress: AddressLike -> string,
    /** `addressLikeToBechAddress(a)` */
    bechAddress: AddressLike -> string,
    /** `zeroBechAddress`, the all-zero address deploys are sent to */
    zeroBechAddress: AddressLike,
    /** `atob(s)`; `None` when it throws (input that is not base64) */
    atob: string -> Option<string>,
    /** `btoa(s)`; `None` when it throws (a character above U+00FF) */
    btoa: string -> Option<string>,
    /** `base64ToHex(s)` */
    base64ToHex: string -> string,
    /** `BigInt(s)`; `None` when it throws (`s` is not an integer literal) */
    bigInt: string -> Option<int>)

  predicate IsHexDigit(ch: char) {
    ('0' <= ch <= '9') || ('a' <= ch <= 'f') || ('A' <= ch <= 'F')
  }

  predicate IsHex(s: string) {
    forall i :: 0 <= i < |s| ==> IsHexDigit(s[i])
  }

  /** The encoders really produce hexadecimal text, as top-encoding and hex
      address conversion promise. This is what makes the `@` separator of a
      payload unambiguous. */
  ghost predicate HexEncoders(c: Codec) {
    && (forall n: nat :: IsHex(c.topHexU(n)))
    && (forall s :: IsHex(c.topHexStr(s)))
    && (forall s :: IsHex(c.topHexArg(s)))
    && (forall m :: IsHex(c.codeMetadata(m)))
    && (forall a :: IsHex(c.hexAddress(a)))
  }

  /** A hexadecimal string never contains the `@` separator. */
  lemma HexHasNoSeparator(s: string)
    requires IsHex(s)
    ensures '@' !in s
  {
    forall i | 0 <= i < |s| ensures s[i] != '@' {
      assert IsHexDigit(s[i]);
    }
  }
}
