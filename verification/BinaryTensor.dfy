// internal/adapter/triton/binary_tensor.go: tensors of the binary tensor data
// extension.  Floating-point values are their raw bits.
module BinaryTensor {
  import opened Bytes
  import opened Integers
  import opened Wrappers

  datatype DataType = FP64 | FP32 | INT32 | BOOL

  function ElementSize(t: DataType): nat {
    match t
    case FP64 => 8
    case FP32 | INT32 => 4
    case BOOL => 1
  }

  // ---- sizes ----

  function Product(shape: seq<int>): int {
    if shape == [] then 1 else Product(shape[..|shape| - 1]) * shape[|shape| - 1]
  }

  predicate Positive(shape: seq<int>) {
    forall d :: d in shape ==> d > 0
  }

  lemma {:induction false} ProductGrows(shape: seq<int>, k: nat)
    requires k <= |shape| && Positive(shape)
    ensures 0 < Product(shape[..k]) <= Product(shape)
  {
    if shape == [] {
      assert shape[..k] == shape;
    } else {
      var n := |shape| - 1;
      var front, last := shape[..n], shape[n];
      assert last in shape && forall d :: d in front ==> d in shape;
      ProductGrows(front, if k <= n then k else n);
      assert front[..n] == front;
      PositiveProduct(Product(front), last);
      if k <= n {
        assert front[..k] == shape[..k];
      } else {
        assert shape[..k] == shape;
      }
    }
  }

  lemma PositiveProduct(a: int, b: int)
    requires a > 0 && b > 0
    ensures a <= a * b
  {
  }

  lemma DivisionGuard(a: int, b: int, bound: nat)
    requires a > 0 && b > 0
    ensures a > bound / b <==> a * b > bound
  {
    assert bound == b * (bound / b) + bound % b;
    if a > bound / b {
      assert a * b >= (bound / b + 1) * b;
    } else {
      assert a * b <= (bound / b) * b;
    }
  }

  // The exact mathematical product, or nothing when it leaves the integer range.
  function ElementCount(shape: seq<Int64>): Option<nat> {
    if shape != [] && Positive(shape) && Product(shape) <= MAX_INT64 then
      ProductGrows(shape, 0);
      Some(Product(shape))
    else None
  }

  method CountElements(shape: seq<Int64>) returns (count: Option<nat>)
    ensures count == ElementCount(shape)
  {
    if shape == [] {
      return None;
    }
    var product := 1;
    for i := 0 to |shape|
      invariant Positive(shape[..i]) && product == Product(shape[..i]) && 0 < product <= MAX_INT64
    {
      var dimension := shape[i];
      assert shape[..i + 1] == shape[..i] + [dimension] && shape[..i + 1][..i] == shape[..i];
      if dimension <= 0 {
        assert dimension in shape;
        return None;
      }
      DivisionGuard(product, dimension, MAX_INT64);
      if product > MAX_INT64 / dimension {
        if Positive(shape) {
          ProductGrows(shape, i + 1);
        }
        return None;
      }
      PositiveProduct(product, dimension);
      product := product * dimension;
    }
    assert shape[..|shape|] == shape;
    return Some(product);
  }

  function DataSize(t: DataType, shape: seq<Int64>): Option<nat> {
    var count := ElementCount(shape);
    if count.None? || count.value * ElementSize(t) > MAX_INT64 then None else Some(count.value * ElementSize(t))
  }

  method ExpectedDataSize(t: DataType, shape: seq<Int64>) returns (size: Option<nat>)
    ensures size == DataSize(t, shape)
  {
    var count := CountElements(shape);
    if count.None? {
      return None;
    }
    ElementCountPositive(shape);
    DivisionGuard(count.value, ElementSize(t), MAX_INT64);
    if count.value > MAX_INT64 / ElementSize(t) {
      return None;
    }
    return Some(count.value * ElementSize(t));
  }

  lemma ElementCountPositive(shape: seq<Int64>)
    ensures ElementCount(shape).Some? ==> ElementCount(shape).value > 0
  {
    if ElementCount(shape).Some? {
      ProductGrows(shape, 0);
    }
  }

  // ---- little-endian words ----

  function LittleEndian(n: nat, width: nat): (s: seq<Byte>)
    ensures |s| == width
  {
    if width == 0 then [] else [n % 256] + LittleEndian(n / 256, width - 1)
  }

  function FromLittleEndian(s: seq<Byte>): (n: nat)
    ensures n < Pow256(|s|)
  {
    if s == [] then 0 else s[0] + 256 * FromLittleEndian(s[1..])
  }

  lemma {:induction false} WordRoundTrip(n: nat, width: nat)
    requires n < Pow256(width)
    ensures FromLittleEndian(LittleEndian(n, width)) == n
  {
    if width > 0 {
      assert LittleEndian(n, width)[1..] == LittleEndian(n / 256, width - 1);
      WordRoundTrip(n / 256, width - 1);
    }
  }

  lemma {:induction false} BytesRoundTrip(s: seq<Byte>)
    ensures LittleEndian(FromLittleEndian(s), |s|) == s
  {
    if s != [] {
      var n := FromLittleEndian(s);
      assert n % 256 == s[0] && n / 256 == FromLittleEndian(s[1..]);
      BytesRoundTrip(s[1..]);
    }
  }

  // ---- arrays of words ----

  // n words of this width, in bytes.
  function Span(n: nat, width: nat): nat {
    if n == 0 then 0 else Span(n - 1, width) + width
  }

  lemma {:induction false} SpanIsProduct(n: nat, width: nat)
    ensures Span(n, width) == n * width
  {
    if n > 0 {
      SpanIsProduct(n - 1, width);
      assert n * width == (n - 1) * width + width;
    }
  }

  lemma {:induction false} SpanGrows(n: nat, m: nat, width: nat)
    requires n <= m
    ensures Span(n, width) <= Span(m, width)
  {
    if n < m {
      SpanGrows(n, m - 1, width);
    }
  }

  function EncodeWords(words: seq<nat>, width: nat): (data: seq<Byte>)
    ensures |data| == Span(|words|, width)
  {
    if words == [] then []
    else EncodeWords(words[..|words| - 1], width) + LittleEndian(words[|words| - 1], width)
  }

  predicate Fit(words: seq<nat>, width: nat) {
    forall k :: 0 <= k < |words| ==> words[k] < Pow256(width)
  }

  function DecodeWords(data: seq<Byte>, width: nat, n: nat): (words: seq<nat>)
    requires |data| == Span(n, width)
    ensures |words| == n
    ensures Fit(words, width)
    decreases n
  {
    if n == 0 then []
    else
      var at := Span(n - 1, width);
      DecodeWords(data[..at], width, n - 1) + [FromLittleEndian(data[at..])]
  }

  lemma {:induction false} WordsRoundTrip(words: seq<nat>, width: nat)
    requires Fit(words, width)
    ensures DecodeWords(EncodeWords(words, width), width, |words|) == words
  {
    if words != [] {
      var n := |words| - 1;
      WordsRoundTrip(words[..n], width);
      WordRoundTrip(words[n], width);
      DecodeAppended(EncodeWords(words[..n], width), LittleEndian(words[n], width), width, n);
      hide EncodeWords, DecodeWords, LittleEndian, FromLittleEndian, Pow256;
      EncodeLast(words, width);
      assert words == words[..n] + [words[n]];
    }
  }

  lemma EncodeLast(words: seq<nat>, width: nat)
    requires words != []
    ensures EncodeWords(words, width) == EncodeWords(words[..|words| - 1], width) + LittleEndian(words[|words| - 1], width)
  {
    hide LittleEndian;
  }

  lemma DecodeAppended(front: seq<Byte>, last: seq<Byte>, width: nat, n: nat)
    requires |front| == Span(n, width) && |last| == width
    ensures DecodeWords(front + last, width, n + 1) == DecodeWords(front, width, n) + [FromLittleEndian(last)]
  {
    hide FromLittleEndian, Pow256;
    var data := front + last;
    assert data[..Span(n, width)] == front && data[Span(n, width)..] == last;
  }

  lemma EncodeAppended(words: seq<nat>, word: nat, width: nat)
    ensures EncodeWords(words + [word], width) == EncodeWords(words, width) + LittleEndian(word, width)
  {
    hide LittleEndian;
    assert (words + [word])[..|words|] == words;
  }

  lemma NoWords(data: seq<Byte>, width: nat)
    requires |data| == Span(0, width)
    ensures EncodeWords(DecodeWords(data, width, 0), width) == data
  {
  }

  lemma {:induction false} DataRoundTrip(data: seq<Byte>, width: nat, n: nat)
    requires |data| == Span(n, width)
    ensures EncodeWords(DecodeWords(data, width, n), width) == data
    decreases n
  {
    hide EncodeWords, DecodeWords, LittleEndian, FromLittleEndian, Pow256;
    if n == 0 {
      NoWords(data, width);
    } else {
      var at := Span(n - 1, width);
      var front, last := data[..at], data[at..];
      assert data == front + last;
      DataRoundTrip(front, width, n - 1);
      BytesRoundTrip(last);
      DecodeAppended(front, last, width, n - 1);
      EncodeAppended(DecodeWords(front, width, n - 1), FromLittleEndian(last), width);
    }
  }

  // The constructors' loop: word i goes to offset i * width of one buffer.
  method FillWords(words: seq<nat>, width: nat) returns (data: array<Byte>)
    ensures fresh(data) && data[..] == EncodeWords(words, width)
  {
    SpanIsProduct(|words|, width);
    data := new Byte[|words| * width](_ => 0);
    for i := 0 to |words|
      invariant Span(i, width) <= data.Length
      invariant data[..Span(i, width)] == EncodeWords(words[..i], width)
    {
      SpanGrows(i + 1, |words|, width);
      SpanIsProduct(i, width);
      PutWord(data, i * width, width, words[i]);
      assert words[..i + 1][..i] == words[..i];
    }
    assert words[..|words|] == words && data[..data.Length] == data[..];
  }

  // binary.LittleEndian.PutUint64 and its shorter sisters.
  method PutWord(data: array<Byte>, at: nat, width: nat, word: nat)
    requires at + width <= data.Length
    modifies data
    ensures data[..at + width] == old(data[..at]) + LittleEndian(word, width)
    ensures data[at + width..] == old(data[at + width..])
  {
    var bytes := LittleEndian(word, width);
    forall j | 0 <= j < width {
      data[at + j] := bytes[j];
    }
  }

  // The decoders' loop.
  method ReadWords(data: seq<Byte>, width: nat, n: nat) returns (words: array<nat>)
    requires |data| == Span(n, width)
    ensures fresh(words) && words[..] == DecodeWords(data, width, n)
  {
    words := new nat[n](_ => 0);
    for i := 0 to n
      invariant Span(i, width) <= |data|
      invariant words[..i] == DecodeWords(data[..Span(i, width)], width, i)
    {
      SpanGrows(i + 1, n, width);
      SpanIsProduct(i, width);
      var at, next := i * width, Span(i + 1, width);
      words[i] := FromLittleEndian(data[at..at + width]);
      assert data[..next][..at] == data[..at] && data[..next][at..] == data[at..at + width];
    }
    assert data[..|data|] == data && words[..n] == words[..];
  }
}
