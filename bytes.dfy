/** Bytes and the ASCII text of four-character codes. */
module Bytes {

  /** An octet, the element type of a `Uint8Array`. */
  newtype byte = x: int | 0 <= x < 256

  /**
   * The conversion an assignment into a `Uint8Array` applies to a number:
   * ECMAScript's ToUint8, the value modulo 2^8, on integers. A value already
   * in range is stored as it is.
   */
  function ToUint8(x: int): (b: byte)
    ensures b as int == x % 256
    ensures 0 <= x < 256 ==> b as int == x
  {
    (x % 256) as byte
  }

  /** The bytes of a string all of whose characters are ASCII. */
  function Ascii(s: string): (r: seq<byte>)
    requires forall i :: 0 <= i < |s| ==> s[i] as int < 128
    ensures |r| == |s|
    ensures forall i :: 0 <= i < |s| ==> r[i] as int == s[i] as int
  {
    seq(|s|, i requires 0 <= i < |s| => s[i] as int as byte)
  }
}
