// UUIDs and their canonical text, and name-based UUIDs (section 4.3 of RFC 4122).
module Uuid {
  import opened Bytes
  import opened Wrappers

  type Nibble = n: int | 0 <= n < 16

  // 32 hexadecimal digits, most significant first.
  type Uuid = u: seq<Nibble> | |u| == 32 witness seq(32, _ => 0)

  const HYPHEN: Byte := 45
  const TEXT_LENGTH := 36

  function Nil(): Uuid {
    seq(32, _ => 0)
  }

  // ---- text ----

  predicate HyphenAt(i: nat) {
    i == 8 || i == 13 || i == 18 || i == 23
  }

  function HyphensBefore(i: nat): (h: nat)
    ensures h <= 4
  {
    if i <= 8 then 0 else if i <= 13 then 1 else if i <= 18 then 2 else if i <= 23 then 3 else 4
  }

  // Where digit d stands in the text.
  function Position(d: nat): (i: nat)
    requires d < 32
    ensures i < TEXT_LENGTH && !HyphenAt(i) && i - HyphensBefore(i) == d
  {
    if d < 8 then d else if d < 12 then d + 1 else if d < 16 then d + 2 else if d < 20 then d + 3 else d + 4
  }

  function LowerHex(n: Nibble): Byte {
    if n < 10 then 48 + n else 87 + n
  }

  // Accepts both letter cases, as the parser does.
  function HexValue(b: Byte): Option<Nibble> {
    if 48 <= b <= 57 then Some(b - 48)
    else if 97 <= b <= 102 then Some(b - 87)
    else if 65 <= b <= 70 then Some(b - 55)
    else None
  }

  function Format(u: Uuid): (s: Text)
    ensures |s| == TEXT_LENGTH
  {
    seq(TEXT_LENGTH, i requires 0 <= i < TEXT_LENGTH =>
      if HyphenAt(i) then HYPHEN else LowerHex(u[i - HyphensBefore(i)]))
  }

  predicate Hyphenated(s: Text) {
    |s| == TEXT_LENGTH && forall i :: 0 <= i < TEXT_LENGTH ==> if HyphenAt(i) then s[i] == HYPHEN else HexValue(s[i]).Some?
  }

  function Parse(s: Text): Option<Uuid> {
    if !Hyphenated(s) then None
    else Some(seq(32, d requires 0 <= d < 32 => HexValue(s[Position(d)]).value))
  }

  lemma ParseFormat(u: Uuid)
    ensures Parse(Format(u)) == Some(u)
  {
    var s := Format(u);
    forall i | 0 <= i < TEXT_LENGTH && !HyphenAt(i)
      ensures HexValue(s[i]) == Some(u[i - HyphensBefore(i)])
    {
    }
    assert Parse(s).value == u;
  }

  lemma FormatInjective(u: Uuid, v: Uuid)
    requires Format(u) == Format(v)
    ensures u == v
  {
    ParseFormat(u);
    ParseFormat(v);
  }

  // The test parsed != Nil && parsed.String() == text.
  predicate CanonicalNonNil(s: Text) {
    var parsed := Parse(s);
    parsed.Some? && parsed.value != Nil() && Format(parsed.value) == s
  }

  lemma CanonicalIsFormatted(s: Text)
    ensures CanonicalNonNil(s) <==> exists u: Uuid :: u != Nil() && Format(u) == s
  {
    if u: Uuid :| u != Nil() && Format(u) == s {
      ParseFormat(u);
    }
  }

  // ---- name-based identifiers ----

  // The digest of a namespace and a name, cut to 128 bits.
  type Digest = (Uuid, Text) -> Uuid

  // Version 5 in the thirteenth digit, the variant in the top bits of the seventeenth.
  function NameBased(digest: Digest, space: Uuid, name: Text): (u: Uuid)
    ensures u != Nil()
  {
    var raw := digest(space, name);
    var u := raw[12 := 5][16 := 8 + raw[16] % 4];
    assert u[12] != Nil()[12];
    u
  }

  // The identifier is the digest's but for its marks: version 5 and the RFC 4122 variant,
  // where the text shows them.
  lemma NameBasedMarks(digest: Digest, space: Uuid, name: Text)
    ensures var raw, u := digest(space, name), NameBased(digest, space, name);
      && (forall d :: 0 <= d < 32 && d != 12 && d != 16 ==> u[d] == raw[d]) && u[16] % 4 == raw[16] % 4
      && var s := Format(u);
      s[14] == Ascii("5")[0] && s[19] in Ascii("89ab")
  {
    var letters := Ascii("89ab");
    assert letters[0] == 56 && letters[1] == 57 && letters[2] == 97 && letters[3] == 98;
  }

  // 6ba7b811-9dad-11d1-80b4-00c04fd430c8
  function UrlNamespace(): Uuid {
    [6, 11, 10, 7, 11, 8, 1, 1, 9, 13, 10, 13, 1, 1, 13, 1, 8, 0, 11, 4, 0, 0, 12, 0, 4, 15, 13, 4, 3, 0, 12, 8]
  }

  lemma FormattedNotEmpty(u: Uuid)
    requires u != Nil()
    ensures CanonicalNonNil(Format(u)) && Format(u) != []
  {
    ParseFormat(u);
  }

  // Both letter cases parse, to the identifier whose text is the lower-case one.
  function Lower(b: Byte): Byte {
    if 65 <= b <= 90 then b + 32 else b
  }

  lemma ParsesExactly(s: Text, u: Uuid)
    ensures Parse(s) == Some(u) <==> |s| == 36 && forall i :: 0 <= i < 36 ==> Lower(s[i]) == Format(u)[i]
  {
    var t := Format(u);
    if Parse(s) == Some(u) {
      forall i | 0 <= i < 36
        ensures Lower(s[i]) == t[i]
      {
        if !HyphenAt(i) {
          assert Position(i - HyphensBefore(i)) == i;
        }
      }
    }
    if |s| == 36 && forall i :: 0 <= i < 36 ==> Lower(s[i]) == t[i] {
      assert forall i :: 0 <= i < 36 && !HyphenAt(i) ==> HexValue(s[i]) == Some(u[i - HyphensBefore(i)]);
      assert Parse(s).value == u;
    }
  }
}
