// Go strings, and fixed-width unsigned integers written as bytes.
module Bytes {
  type Byte = b: int | 0 <= b < 256

  // A Go string: any sequence of bytes.
  type Text = seq<Byte>

  // ---- strings ----

  // The bytes of a text in ASCII.
  function Ascii(s: string): (t: Text)
    requires forall i :: 0 <= i < |s| ==> s[i] < 128 as char
    ensures |t| == |s|
  {
    seq(|s|, i requires 0 <= i < |s| => var b: Byte := s[i] as int; b)
  }

  // The UTF-8 encodings of Unicode white space, by length.
  predicate Space1(a: Byte) {
    9 <= a <= 13 || a == 32
  }

  predicate Space2(a: Byte, b: Byte) {
    a == 0xC2 && (b == 0x85 || b == 0xA0)
  }

  predicate Space3(a: Byte, b: Byte, c: Byte) {
    || (a == 0xE1 && b == 0x9A && c == 0x80)
    || (a == 0xE2 && b == 0x80 && (0x80 <= c <= 0x8A || c == 0xA8 || c == 0xA9 || c == 0xAF))
    || (a == 0xE2 && b == 0x81 && c == 0x9F)
    || (a == 0xE3 && b == 0x80 && c == 0x80)
  }

  // strings.TrimSpace would change nothing.
  predicate Trimmed(s: Text) {
    var n := |s|;
    && (n >= 1 ==> !Space1(s[0]) && !Space1(s[n - 1]))
    && (n >= 2 ==> !Space2(s[0], s[1]) && !Space2(s[n - 2], s[n - 1]))
    && (n >= 3 ==> !Space3(s[0], s[1], s[2]) && !Space3(s[n - 3], s[n - 2], s[n - 1]))
  }

  // The rule shared by the command decoder, the run builder and the identity.
  predicate CleanText(s: Text) {
    s != [] && Trimmed(s) && 0 !in s
  }

  // Only the ends of a text and NUL matter, not its length or what else is inside.
  lemma CleanInside(front: Text, middle: Text, back: Text)
    requires CleanText(front) && CleanText(back) && |front| >= 3 && |back| >= 3
    ensures CleanText(front + middle + back) <==> 0 !in middle
  {
    var s := front + middle + back;
    assert s[..3] == front[..3] && s[|s| - 3..] == back[|back| - 3..];
    assert forall b :: b in s <==> b in front || b in middle || b in back;
  }

  // ---- big-endian integers ----

  function Pow256(k: nat): (p: nat)
    ensures p > 0
  {
    if k == 0 then 1 else 256 * Pow256(k - 1)
  }

  // The low k bytes of n, most significant first.
  function BigEndian(n: nat, k: nat): (s: Text)
    ensures |s| == k
  {
    if k == 0 then [] else BigEndian(n / 256, k - 1) + [n % 256]
  }

  function FromBigEndian(s: Text): nat {
    if s == [] then 0 else 256 * FromBigEndian(s[..|s| - 1]) + s[|s| - 1]
  }

  lemma FromAppended(s: Text, b: Byte)
    ensures FromBigEndian(s + [b]) == 256 * FromBigEndian(s) + b
  {
    assert (s + [b])[..|s|] == s;
  }

  lemma {:induction false} BigEndianRoundTrip(n: nat, k: nat)
    requires n < Pow256(k)
    ensures FromBigEndian(BigEndian(n, k)) == n
  {
    hide FromBigEndian;
    if k == 0 {
      FromNothing();
    } else {
      BigEndianRoundTrip(n / 256, k - 1);
      FromAppended(BigEndian(n / 256, k - 1), n % 256);
    }
  }

  lemma FromNothing()
    ensures FromBigEndian([]) == 0
  {
  }
}
