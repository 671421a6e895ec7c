/**
 * The textual form of a document identifier: 24 hexadecimal digits, read
 * case-insensitively and written in lower case. The identifier itself is the
 * number those digits spell.
 */
module ObjectIds {
  import opened Wrappers

  predicate IsHexDigit(c: char) {
    ('0' <= c <= '9') || ('a' <= c <= 'f') || ('A' <= c <= 'F')
  }

  predicate AllHex(s: string) {
    forall i :: 0 <= i < |s| ==> IsHexDigit(s[i])
  }

  /** `/^[a-f\d]{24}$/i`: exactly 24 hexadecimal digits in either case, nothing else. */
  predicate IsObjectIdHex(s: string) {
    |s| == 24 && AllHex(s)
  }

  function HexDigitValue(c: char): (d: nat)
    requires IsHexDigit(c)
    ensures d < 16
  {
    if '0' <= c <= '9' then c as int - '0' as int
    else if 'a' <= c <= 'f' then c as int - 'a' as int + 10
    else c as int - 'A' as int + 10
  }

  /** The number a hexadecimal digit string spells, most significant digit first. */
  function HexValue(s: string): nat
    requires AllHex(s)
  {
    if s == [] then 0 else HexValue(s[..|s| - 1]) * 16 + HexDigitValue(s[|s| - 1])
  }

  function HexChar(d: nat): (c: char)
    requires d < 16
    ensures IsHexDigit(c) && HexDigitValue(c) == d
  {
    if d < 10 then ('0' as int + d) as char else ('a' as int + d - 10) as char
  }

  function Pow16(k: nat): (p: nat)
    ensures p >= 1
  {
    if k == 0 then 1 else 16 * Pow16(k - 1)
  }

  /** `n` written with exactly `width` lower-case hexadecimal digits (the low ones, when it needs more). */
  function FixedHex(n: nat, width: nat): (r: string)
    ensures |r| == width && AllHex(r)
  {
    if width == 0 then [] else FixedHex(n / 16, width - 1) + [HexChar(n % 16)]
  }

  /** A number below 16^width reads back from its fixed-width numeral. */
  lemma {:induction false} FixedHexValue(n: nat, width: nat)
    requires n < Pow16(width)
    ensures HexValue(FixedHex(n, width)) == n
  {
    if width > 0 {
      var r := FixedHex(n, width);
      assert r[..|r| - 1] == FixedHex(n / 16, width - 1);
      assert n / 16 < Pow16(width - 1);
      FixedHexValue(n / 16, width - 1);
    }
  }

  /** The 24-digit hexadecimal form in which a stored identifier is sent to clients. */
  function ObjectIdString(n: nat): string {
    FixedHex(n, 24)
  }

  /** `new ObjectId(s)` for a string: 24 hex digits give the identifier, anything else is refused. */
  function ParseObjectId(s: string): (r: Option<nat>)
    ensures r.Some? <==> IsObjectIdHex(s)
  {
    if IsObjectIdHex(s) then Some(HexValue(s)) else None
  }

  /** Identifiers below 16^24 survive the trip to text and back. */
  lemma ParseObjectIdString(n: nat)
    requires n < Pow16(24)
    ensures ParseObjectId(ObjectIdString(n)) == Some(n)
  {
    FixedHexValue(n, 24);
  }
}
