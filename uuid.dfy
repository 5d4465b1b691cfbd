/**
 * A 128-bit UUID and its canonical string form (`java.util.UUID.toString`):
 * the 32 lower-case hexadecimal digits in groups of 8-4-4-4-12, separated by
 * dashes. The string form is injective, so it identifies the UUID.
 */
module Uuid {

  /** The value of one hexadecimal digit. */
  type Nibble = x: int | 0 <= x < 16

  /** A UUID, as its 32 hexadecimal digits, most significant first. */
  type UUID = s: seq<Nibble> | |s| == 32 witness seq(32, _ => 0)

  const HexDigits: string := "0123456789abcdef"

  function HexChar(n: Nibble): char {
    HexDigits[n]
  }

  lemma HexCharInjective(a: Nibble, b: Nibble)
    requires HexChar(a) == HexChar(b)
    ensures a == b
  {
  }

  function Hex(digits: seq<Nibble>): (r: string)
    ensures |r| == |digits|
    ensures forall i :: 0 <= i < |digits| ==> r[i] == HexChar(digits[i])
  {
    seq(|digits|, i requires 0 <= i < |digits| => HexChar(digits[i]))
  }

  /** Where the `i`-th digit lands in the string form: after the dashes that precede its group. */
  function Position(i: nat): nat {
    if i < 8 then i
    else if i < 12 then i + 1
    else if i < 16 then i + 2
    else if i < 20 then i + 3
    else i + 4
  }

  /** `UUID.toString()`. */
  function ToString(u: UUID): (r: string)
    ensures |r| == 36
    ensures r[8] == '-' && r[13] == '-' && r[18] == '-' && r[23] == '-'
    ensures forall i :: 0 <= i < 32 ==> r[Position(i)] == HexChar(u[i])
  {
    Hex(u[..8]) + "-" + Hex(u[8..12]) + "-" + Hex(u[12..16]) + "-" + Hex(u[16..20]) + "-" + Hex(u[20..])
  }

  /** Two UUIDs with the same string form are the same UUID. */
  lemma {:induction false} ToStringInjective(u: UUID, v: UUID)
    requires ToString(u) == ToString(v)
    ensures u == v
  {
    forall i | 0 <= i < 32
      ensures u[i] == v[i]
    {
      assert ToString(u)[Position(i)] == ToString(v)[Position(i)];
      HexCharInjective(u[i], v[i]);
    }
  }
}
