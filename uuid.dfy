/** Account identifiers and their string forms. `login` rebuilds the string
    with fmt's %x verb on five slices of the 16 bytes; `register` salts with
    uuid.String(), the canonical form of section 3 of RFC 4122. Both must
    agree for a registered password to verify. */
module Uuid {
  import opened Http

  /** The 16 bytes of a 128-bit identifier (pgtype.UUID.Bytes). */
  type Uuid = s: seq<byte> | |s| == 16 witness [0, 0, 0, 0, 0, 0, 0, 0, 0, 0, 0, 0, 0, 0, 0, 0]

  predicate IsLowerHex(c: char)
  {
    '0' <= c <= '9' || 'a' <= c <= 'f'
  }

  /** The digit fmt prints for a nibble, lower case. */
  function HexDigit(n: int): (c: char)
    requires 0 <= n < 16
    ensures IsLowerHex(c)
    ensures (c as int) - (if c <= '9' then '0' as int else 'a' as int - 10) == n
  {
    if n < 10 then (n + '0' as int) as char else (n - 10 + 'a' as int) as char
  }

  /** Nibble k of a byte string, the high nibble of each byte first. */
  function Nibble(bs: seq<byte>, k: nat): int
    requires k < 2 * |bs|
  {
    if k % 2 == 0 then bs[k / 2] / 16 else bs[k / 2] % 16
  }

  /** fmt's %x applied to a byte slice: two lowercase digits per byte. */
  function Hex(bs: seq<byte>): (s: string)
    ensures |s| == 2 * |bs|
  {
    if bs == [] then "" else [HexDigit(bs[0] / 16), HexDigit(bs[0] % 16)] + Hex(bs[1..])
  }

  lemma {:induction false} HexAt(bs: seq<byte>, k: nat)
    requires k < 2 * |bs|
    ensures Hex(bs)[k] == HexDigit(Nibble(bs, k))
  {
    if k >= 2 {
      HexAt(bs[1..], k - 2);
      assert Nibble(bs[1..], k - 2) == Nibble(bs, k);
    }
  }

  /** The positions of the four hyphens in the 36-character form. */
  predicate IsHyphenIndex(i: int)
  {
    i == 8 || i == 13 || i == 18 || i == 23
  }

  /** Which of the 32 hex digits stands at position i of the 36-character form. */
  function DigitIndex(i: nat): (k: nat)
    requires i < 36 && !IsHyphenIndex(i)
    ensures k < 32
  {
    if i < 8 then i else if i < 13 then i - 1 else if i < 18 then i - 2 else if i < 23 then i - 3 else i - 4
  }

  /** Where hex digit k stands in the 36-character form. */
  function DigitPosition(k: nat): (i: nat)
    requires k < 32
    ensures i < 36 && !IsHyphenIndex(i) && DigitIndex(i) == k
  {
    if k < 8 then k else if k < 12 then k + 1 else if k < 16 then k + 2 else if k < 20 then k + 3 else k + 4
  }

  /** The shape of the canonical form: 36 characters, hyphens at 8, 13, 18
      and 23, lowercase hex digits everywhere else. */
  predicate IsCanonicalForm(s: string)
  {
    && |s| == 36
    && forall i :: 0 <= i < 36 ==> if IsHyphenIndex(i) then s[i] == '-' else IsLowerHex(s[i])
  }

  /** The canonical 8-4-4-4-12 form of section 3 of RFC 4122, the string
      uuid.String() returns; defined position by position. */
  function CanonicalString(id: Uuid): (s: string)
    ensures IsCanonicalForm(s)
  {
    seq(36, i requires 0 <= i < 36 =>
      if IsHyphenIndex(i) then '-' else HexDigit(Nibble(id, DigitIndex(i))))
  }

  /** The id string `login` builds from the stored bytes (routes/auth.go:53). */
  function FormatId(id: Uuid): (s: string)
    ensures |s| == 36
  {
    Hex(id[0..4]) + "-" + Hex(id[4..6]) + "-" + Hex(id[6..8]) + "-" + Hex(id[8..10]) + "-" + Hex(id[10..16])
  }

  lemma NibbleOfSlice(bs: seq<byte>, lo: nat, hi: nat, k: nat)
    requires lo <= hi <= |bs| && k < 2 * (hi - lo)
    ensures Nibble(bs[lo..hi], k) == Nibble(bs, 2 * lo + k)
  {
    assert (2 * lo + k) / 2 == lo + k / 2;
    assert (2 * lo + k) % 2 == k % 2;
  }

  /** Digit k of a segment of the formatted id is the matching nibble of the whole id. */
  lemma SegmentAt(id: Uuid, lo: nat, hi: nat, k: nat)
    requires lo <= hi <= 16 && k < 2 * (hi - lo)
    ensures Hex(id[lo..hi])[k] == HexDigit(Nibble(id, 2 * lo + k))
  {
    HexAt(id[lo..hi], k);
    NibbleOfSlice(id, lo, hi, k);
  }

  /** The string `login` builds equals the one `register` salted with. */
  lemma FormatIdIsCanonical(id: Uuid)
    ensures FormatId(id) == CanonicalString(id)
    ensures IsCanonicalForm(FormatId(id))
  {
    var f, c := FormatId(id), CanonicalString(id);
    forall i | 0 <= i < 36
      ensures f[i] == c[i]
    {
      if i < 8 {
        SegmentAt(id, 0, 4, i);
      } else if 8 < i < 13 {
        SegmentAt(id, 4, 6, i - 9);
      } else if 13 < i < 18 {
        SegmentAt(id, 6, 8, i - 14);
      } else if 18 < i < 23 {
        SegmentAt(id, 8, 10, i - 19);
      } else if 23 < i {
        SegmentAt(id, 10, 16, i - 24);
      }
    }
  }

  /** Distinct identifiers have distinct canonical strings. */
  lemma CanonicalStringInjective(a: Uuid, b: Uuid)
    requires CanonicalString(a) == CanonicalString(b)
    ensures a == b
  {
    forall j | 0 <= j < 16
      ensures a[j] == b[j]
    {
      var hi, lo := DigitPosition(2 * j), DigitPosition(2 * j + 1);
      assert CanonicalString(a)[hi] == CanonicalString(b)[hi];
      assert CanonicalString(a)[lo] == CanonicalString(b)[lo];
      assert Nibble(a, 2 * j) == Nibble(b, 2 * j);
      assert Nibble(a, 2 * j + 1) == Nibble(b, 2 * j + 1);
    }
  }

  /** The same password registered for two distinct identifiers is hashed
      as two different salted secrets. */
  lemma DistinctSalts(pass: string, a: Uuid, b: Uuid)
    requires a != b
    ensures pass + CanonicalString(a) != pass + CanonicalString(b)
  {
    if pass + CanonicalString(a) == pass + CanonicalString(b) {
      assert CanonicalString(a) == (pass + CanonicalString(a))[|pass|..];
      assert CanonicalString(b) == (pass + CanonicalString(b))[|pass|..];
      CanonicalStringInjective(a, b);
    }
  }
}
