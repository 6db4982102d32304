// internal/adapter/triton/classifier.go: reading the four outputs by name.
module TritonClassifier {
  import opened BinaryTensor
  import opened Binary32
  import opened Bytes
  import opened ClassificationRun
  import CoarseSelection
  import opened InferProtocol
  import opened Integers
  import opened Wrappers

  // "COARSE_PROBS"
  function CoarseProbs(): (name: Text)
    ensures |name| == 12
  {
    [67, 79, 65, 82, 83, 69, 95, 80, 82, 79, 66, 83]
  }

  // "FINE_CONDITIONAL_PROBS"
  function FineProbs(): (name: Text)
    ensures |name| == 22
  {
    [70, 73, 78, 69, 95, 67, 79, 78, 68, 73, 84, 73, 79, 78, 65, 76, 95, 80, 82, 79, 66, 83]
  }

  // "LEAF_PROBS"
  function LeafProbs(): (name: Text)
    ensures |name| == 10
  {
    [76, 69, 65, 70, 95, 80, 82, 79, 66, 83]
  }

  // "XGBOOST_EXECUTED"
  function XGBoostExecuted(): (name: Text)
    ensures |name| == 16
  {
    [88, 71, 66, 79, 79, 83, 84, 95, 69, 88, 69, 67, 85, 84, 69, 68]
  }

  datatype Output = Output(coarse: seq<Word32>, fine: seq<Word32>, leaf: seq<Word32>, executed: bool)

  function Probabilities(t: Tensor, count: int): Option<seq<Word32>> {
    if t.dataType != FP32 || t.shape != [count] then None
    else
      var v := DecodeValues(t, FP32);
      if v.None? || !(forall i :: 0 <= i < |v.value.bits32| ==> IsProbability(v.value.bits32[i])) then None
      else Some(v.value.bits32)
  }

  function Executed(t: Tensor): Option<bool> {
    if t.dataType != BOOL || t.shape != [1] then None
    else
      var v := DecodeValues(t, BOOL);
      if v.None? then None else Some(FirstFlag(t))
  }

  function FirstFlag(t: Tensor): bool
    requires ValidTensor(t) && t.dataType == BOOL
  {
    DataLength(t);
    t.data[0] == 1
  }

  // ---- the outputs by name ----

  function Lookup(outputs: seq<Tensor>, name: Text): Option<Tensor> {
    if outputs == [] then None
    else
      var front := Lookup(outputs[..|outputs| - 1], name);
      if front.Some? then front
      else if outputs[|outputs| - 1].name == name then Some(outputs[|outputs| - 1]) else None
  }

  lemma {:induction false} LookupFinds(outputs: seq<Tensor>, name: Text)
    ensures Lookup(outputs, name).Some? <==> exists i :: 0 <= i < |outputs| && outputs[i].name == name
    ensures Lookup(outputs, name).Some? ==> Lookup(outputs, name).value in outputs && Lookup(outputs, name).value.name == name
  {
    if outputs != [] {
      LookupFinds(outputs[..|outputs| - 1], name);
    }
  }

  predicate AllFound(outputs: seq<Tensor>) {
    Lookup(outputs, CoarseProbs()).Some? && Lookup(outputs, FineProbs()).Some?
    && Lookup(outputs, LeafProbs()).Some? && Lookup(outputs, XGBoostExecuted()).Some?
  }

  predicate KnownName(name: Text) {
    name == CoarseProbs() || name == FineProbs() || name == LeafProbs() || name == XGBoostExecuted()
  }

  // Four outputs that include the four names are those names, each once.
  lemma FourNames(outputs: seq<Tensor>)
    requires |outputs| == 4 && AllFound(outputs)
    ensures forall i, j :: 0 <= i < j < 4 ==> outputs[i].name != outputs[j].name
    ensures forall i :: 0 <= i < 4 ==> KnownName(outputs[i].name)
  {
    LookupFinds(outputs, CoarseProbs());
    LookupFinds(outputs, FineProbs());
    LookupFinds(outputs, LeafProbs());
    LookupFinds(outputs, XGBoostExecuted());
    hide Lookup, CoarseProbs, FineProbs, LeafProbs, XGBoostExecuted;
    var c :| 0 <= c < 4 && outputs[c].name == CoarseProbs();
    var f :| 0 <= f < 4 && outputs[f].name == FineProbs();
    var l :| 0 <= l < 4 && outputs[l].name == LeafProbs();
    var x :| 0 <= x < 4 && outputs[x].name == XGBoostExecuted();
    forall i | 0 <= i < 4
      ensures KnownName(outputs[i].name)
    {
      Pigeonhole(c, f, l, x, i);
    }
    forall i, j | 0 <= i < j < 4
      ensures outputs[i].name != outputs[j].name
    {
      Pigeonhole(c, f, l, x, i);
      Pigeonhole(c, f, l, x, j);
    }
  }

  lemma Pigeonhole(a: nat, b: nat, c: nat, d: nat, i: nat)
    requires a < 4 && b < 4 && c < 4 && d < 4 && i < 4
    requires a != b && a != c && a != d && b != c && b != d && c != d
    ensures i == a || i == b || i == c || i == d
  {
  }

  // What the four outputs mean, wherever they stand.
  function MapByName(outputs: seq<Tensor>, mode: Uint8): Option<Output> {
    if |outputs| != 4 || !AllFound(outputs) then None
    else
      var coarse := Probabilities(Lookup(outputs, CoarseProbs()).value, COARSE_COUNT);
      var fine := Probabilities(Lookup(outputs, FineProbs()).value, FINE_COUNT);
      var leaf := Probabilities(Lookup(outputs, LeafProbs()).value, LEAF_COUNT);
      var executed := Executed(Lookup(outputs, XGBoostExecuted()).value);
      if coarse.None? || fine.None? || leaf.None? || executed.None? then None
      else if executed.value != (mode == CoarseSelection.COMPUTE_CURRENT || mode == CoarseSelection.COMPUTE_BOOTSTRAP) then None
      else Some(Output(coarse.value, fine.value, leaf.value, executed.value))
  }

  // Permuting the outputs changes nothing.
  lemma OrderDoesNotMatter(a: seq<Tensor>, b: seq<Tensor>, mode: Uint8)
    requires multiset(a) == multiset(b)
    ensures MapByName(a, mode) == MapByName(b, mode)
  {
    assert |multiset(a)| == |a| && |multiset(b)| == |b|;
    SameFound(a, b);
    if |a| == 4 && AllFound(a) {
      SameLookup(a, b, CoarseProbs());
      SameLookup(a, b, FineProbs());
      SameLookup(a, b, LeafProbs());
      SameLookup(a, b, XGBoostExecuted());
    }
    hide Probabilities, Executed, Lookup;
  }

  lemma SameFound(a: seq<Tensor>, b: seq<Tensor>)
    requires multiset(a) == multiset(b)
    ensures AllFound(a) <==> AllFound(b)
  {
    hide Lookup;
    Transfer(a, b, CoarseProbs());
    Transfer(a, b, FineProbs());
    Transfer(a, b, LeafProbs());
    Transfer(a, b, XGBoostExecuted());
  }

  lemma Transfer(a: seq<Tensor>, b: seq<Tensor>, name: Text)
    requires multiset(a) == multiset(b)
    ensures Lookup(a, name).Some? <==> Lookup(b, name).Some?
  {
    LookupFinds(a, name);
    LookupFinds(b, name);
    hide Lookup;
    if Lookup(a, name).Some? {
      assert Lookup(a, name).value in multiset(b);
    }
    if Lookup(b, name).Some? {
      assert Lookup(b, name).value in multiset(a);
    }
  }

  lemma SameLookup(a: seq<Tensor>, b: seq<Tensor>, name: Text)
    requires multiset(a) == multiset(b) && |a| == 4 && AllFound(a) && Lookup(a, name).Some?
    ensures Lookup(b, name) == Lookup(a, name)
  {
    LookupFinds(a, name);
    LookupFinds(b, name);
    Transfer(a, b, name);
    FourNames(a);
    hide Lookup, AllFound;
    var t := Lookup(b, name).value;
    assert t in multiset(a);
    var i :| 0 <= i < 4 && a[i] == Lookup(a, name).value;
    var j :| 0 <= j < 4 && a[j] == t;
    assert a[i].name == a[j].name;
  }

  // ---- what the answer says ----

  // The tensors that carry an output.
  function ProbabilityTensor(name: Text, values: seq<Word32>): Tensor
    requires |values| <= MAX_INT64
  {
    Tensor(name, FP32, [|values|], EncodeWords(values, 4))
  }

  function FlagTensor(name: Text, flag: bool): Tensor {
    Tensor(name, BOOL, [1], [if flag then 1 else 0])
  }

  predicate AllProbabilities(values: seq<Word32>) {
    forall i :: 0 <= i < |values| ==> IsProbability(values[i])
  }

  // Seven, ten and twelve probabilities, and the flag that the mode asks for.
  predicate Meaningful(o: Output, mode: Uint8) {
    && |o.coarse| == 7 && |o.fine| == 10 && |o.leaf| == 12
    && AllProbabilities(o.coarse) && AllProbabilities(o.fine) && AllProbabilities(o.leaf)
    && (o.executed <==> mode == CoarseSelection.COMPUTE_CURRENT || mode == CoarseSelection.COMPUTE_BOOTSTRAP)
  }

  function TensorsOf(o: Output): seq<Tensor>
    requires |o.coarse| == 7 && |o.fine| == 10 && |o.leaf| == 12
  {
    [ProbabilityTensor(CoarseProbs(), o.coarse), ProbabilityTensor(FineProbs(), o.fine),
     ProbabilityTensor(LeafProbs(), o.leaf), FlagTensor(XGBoostExecuted(), o.executed)]
  }

  lemma DecodedTensor(t: Tensor)
    requires DecodeValues(t, t.dataType).Some?
    ensures var v := DecodeValues(t, t.dataType).value;
      && TypeOf(v) == t.dataType && t.data == EncodeWords(Words(v), ElementSize(t.dataType))
      && (|t.shape| == 1 ==> |Words(v)| == t.shape[0])
  {
    hide Words, EncodeWords, DecodeWords, ValidName, Span, FromWords;
    DecodedType(t);
    TensorRoundTrip(t);
    NewExactly(t.name, t.shape, DecodeValues(t, t.dataType).value);
    if |t.shape| == 1 {
      OneDimension(t.shape);
    }
  }

  lemma DecodedType(t: Tensor)
    requires DecodeValues(t, t.dataType).Some?
    ensures ValidTensor(t) && TypeOf(DecodeValues(t, t.dataType).value) == t.dataType
  {
    hide ValidTensor, DecodeWords;
  }

  lemma OneDimension(shape: seq<Int64>)
    requires |shape| == 1
    ensures Product(shape) == shape[0]
  {
    assert shape[..0] == [] && shape[1..] == [];
  }

  lemma SmallSize(n: nat, size: nat)
    requires n < 100 && size <= 8
    ensures n * size <= 800
  {
    assert n * size <= n * 8;
  }

  // A built tensor reads as its values.
  lemma BuiltTensor(name: Text, v: Values)
    requires ValidName(name) && 0 < |Words(v)| < 100
    ensures DecodeValues(Tensor(name, TypeOf(v), [|Words(v)|], EncodeWords(Words(v), ElementSize(TypeOf(v)))), TypeOf(v)) == Some(v)
  {
    hide Words, EncodeWords, ValidName, DecodeValues, Span;
    OneDimension([|Words(v)|]);
    SmallSize(|Words(v)|, ElementSize(TypeOf(v)));
    NewExactly(name, [|Words(v)|], v);
    ValuesRoundTrip(name, [|Words(v)|], v);
  }

  // Probabilities are read exactly from the tensor that carries them.
  lemma ProbabilitiesExactly(t: Tensor, values: seq<Word32>, count: nat)
    requires ValidName(t.name) && 0 < count < 100
    ensures Probabilities(t, count) == Some(values) <==>
      |values| == count && AllProbabilities(values) && t == ProbabilityTensor(t.name, values)
  {
    hide IsProbability, DecodeValues, ValidName, EncodeWords;
    if t.dataType == FP32 && DecodeValues(t, FP32).Some? {
      DecodedTensor(t);
    }
    if |values| == count {
      BuiltTensor(t.name, FP32Values(values));
    }
  }

  // The flag likewise.
  lemma ExecutedExactly(t: Tensor, flag: bool)
    requires ValidName(t.name)
    ensures Executed(t) == Some(flag) <==> t == FlagTensor(t.name, flag)
  {
    hide DecodeValues, ValidName, EncodeWords;
    if t.dataType == BOOL && t.shape == [1] && DecodeValues(t, BOOL).Some? {
      DecodedTensor(t);
      FlagWord(t);
    }
    var v := BOOLValues([flag]);
    BuiltTensor(t.name, v);
    BoolBytes(Words(v));
    assert Words(v) == [if flag then 1 else 0];
    if t == FlagTensor(t.name, flag) {
      DecodedType(t);
    }
  }

  lemma FlagWord(t: Tensor)
    requires t.dataType == BOOL && t.shape == [1] && DecodeValues(t, BOOL).Some?
    ensures |t.data| == 1 && t.data[0] <= 1
  {
    hide EncodeWords;
    DecodedTensor(t);
    DecodedType(t);
    BoolBytes(Words(DecodeValues(t, BOOL).value));
  }

  lemma NamesSpelled()
    ensures CoarseProbs() == Ascii("COARSE_PROBS") && FineProbs() == Ascii("FINE_CONDITIONAL_PROBS")
    ensures LeafProbs() == Ascii("LEAF_PROBS") && XGBoostExecuted() == Ascii("XGBOOST_EXECUTED")
  {
  }

  lemma NamesAreValid()
    ensures ValidName(CoarseProbs()) && ValidName(FineProbs()) && ValidName(LeafProbs()) && ValidName(XGBoostExecuted())
    ensures CoarseProbs() != FineProbs() && CoarseProbs() != LeafProbs() && CoarseProbs() != XGBoostExecuted()
    ensures FineProbs() != LeafProbs() && FineProbs() != XGBoostExecuted() && LeafProbs() != XGBoostExecuted()
  {
  }

  // In any order: the four tensors by name.
  ghost predicate Consists(outputs: seq<Tensor>, c: Tensor, f: Tensor, l: Tensor, x: Tensor) {
    multiset(outputs) == multiset([c, f, l, x])
  }

  lemma FoundOnce(outputs: seq<Tensor>)
    requires |outputs| == 4 && AllFound(outputs)
    ensures Consists(outputs, Lookup(outputs, CoarseProbs()).value, Lookup(outputs, FineProbs()).value,
                     Lookup(outputs, LeafProbs()).value, Lookup(outputs, XGBoostExecuted()).value)
  {
    LookupFinds(outputs, CoarseProbs());
    LookupFinds(outputs, FineProbs());
    LookupFinds(outputs, LeafProbs());
    LookupFinds(outputs, XGBoostExecuted());
    NamesAreValid();
    hide Lookup, CoarseProbs, FineProbs, LeafProbs, XGBoostExecuted, ValidName;
    FourDistinct(outputs, Lookup(outputs, CoarseProbs()).value, Lookup(outputs, FineProbs()).value,
                 Lookup(outputs, LeafProbs()).value, Lookup(outputs, XGBoostExecuted()).value);
  }

  lemma FourDistinct<T>(all: seq<T>, c: T, f: T, l: T, x: T)
    requires |all| == 4 && c in all && f in all && l in all && x in all
    requires c != f && c != l && c != x && f != l && f != x && l != x
    ensures multiset(all) == multiset([c, f, l, x])
  {
    var four := multiset{c, f, l, x};
    FourTimes(c, f, l, x);
    assert forall t :: t in four ==> t in multiset(all) && four[t] == 1;
    SameSize(four, multiset(all));
  }

  lemma FourTimes<T>(c: T, f: T, l: T, x: T)
    ensures multiset([c, f, l, x]) == multiset{c, f, l, x} && |multiset{c, f, l, x}| == 4
  {
    assert [c, f, l, x] == [c] + [f] + [l] + [x];
  }

  lemma SameSize<T>(small: multiset<T>, large: multiset<T>)
    requires small <= large && |small| == |large|
    ensures small == large
  {
    assert large == small + (large - small);
    assert |large - small| == 0;
  }

  lemma LookupAppended(front: seq<Tensor>, t: Tensor, name: Text)
    ensures Lookup(front + [t], name) == if Lookup(front, name).Some? then Lookup(front, name) else if t.name == name then Some(t) else None
  {
    assert (front + [t])[..|front|] == front;
  }

  lemma LookupFour(c: Tensor, f: Tensor, l: Tensor, x: Tensor, name: Text)
    ensures Lookup([c, f, l, x], name) ==
      if c.name == name then Some(c) else if f.name == name then Some(f) else if l.name == name then Some(l)
      else if x.name == name then Some(x) else None
  {
    assert [c] + [f] == [c, f] && [c, f] + [l] == [c, f, l] && [c, f, l] + [x] == [c, f, l, x] && [] + [c] == [c];
    LookupAppended([], c, name);
    LookupAppended([c], f, name);
    LookupAppended([c, f], l, name);
    LookupAppended([c, f, l], x, name);
  }

  lemma NamedLookup(c: Tensor, f: Tensor, l: Tensor, x: Tensor)
    requires c.name == CoarseProbs() && f.name == FineProbs() && l.name == LeafProbs() && x.name == XGBoostExecuted()
    ensures var outputs := [c, f, l, x];
      && Lookup(outputs, CoarseProbs()) == Some(c) && Lookup(outputs, FineProbs()) == Some(f)
      && Lookup(outputs, LeafProbs()) == Some(l) && Lookup(outputs, XGBoostExecuted()) == Some(x)
  {
    NamesAreValid();
    hide CoarseProbs, FineProbs, LeafProbs, XGBoostExecuted, ValidName;
    LookupFour(c, f, l, x, CoarseProbs());
    LookupFour(c, f, l, x, FineProbs());
    LookupFour(c, f, l, x, LeafProbs());
    LookupFour(c, f, l, x, XGBoostExecuted());
  }

  // The mapper reads an output exactly from the four tensors that carry it, in any order:
  // their little-endian words are the probabilities, and the flag is the byte.
  lemma MapsExactly(outputs: seq<Tensor>, mode: Uint8, o: Output)
    ensures MapByName(outputs, mode) == Some(o) <==> Meaningful(o, mode) && multiset(outputs) == multiset(TensorsOf(o))
  {
    hide Probabilities, Executed, Lookup, CoarseProbs, FineProbs, LeafProbs, XGBoostExecuted, ValidName, EncodeWords, AllProbabilities;
    NamesAreValid();
    if MapByName(outputs, mode) == Some(o) {
      NamesFound(outputs);
      FoundOnce(outputs);
      ProbabilitiesExactly(Lookup(outputs, CoarseProbs()).value, o.coarse, COARSE_COUNT);
      ProbabilitiesExactly(Lookup(outputs, FineProbs()).value, o.fine, FINE_COUNT);
      ProbabilitiesExactly(Lookup(outputs, LeafProbs()).value, o.leaf, LEAF_COUNT);
      ExecutedExactly(Lookup(outputs, XGBoostExecuted()).value, o.executed);
    }
    if Meaningful(o, mode) && multiset(outputs) == multiset(TensorsOf(o)) {
      OrderDoesNotMatter(outputs, TensorsOf(o), mode);
      MapsOwn(o, mode);
    }
  }

  lemma NamesFound(outputs: seq<Tensor>)
    requires AllFound(outputs)
    ensures Lookup(outputs, CoarseProbs()).value.name == CoarseProbs() && Lookup(outputs, FineProbs()).value.name == FineProbs()
    ensures Lookup(outputs, LeafProbs()).value.name == LeafProbs() && Lookup(outputs, XGBoostExecuted()).value.name == XGBoostExecuted()
  {
    LookupFinds(outputs, CoarseProbs());
    LookupFinds(outputs, FineProbs());
    LookupFinds(outputs, LeafProbs());
    LookupFinds(outputs, XGBoostExecuted());
    hide Lookup;
  }

  lemma MapsOwn(o: Output, mode: Uint8)
    requires Meaningful(o, mode)
    ensures MapByName(TensorsOf(o), mode) == Some(o)
  {
    hide Probabilities, Executed, Lookup, CoarseProbs, FineProbs, LeafProbs, XGBoostExecuted, ValidName, EncodeWords, AllProbabilities;
    NamesAreValid();
    var c, f, l := ProbabilityTensor(CoarseProbs(), o.coarse), ProbabilityTensor(FineProbs(), o.fine), ProbabilityTensor(LeafProbs(), o.leaf);
    var x := FlagTensor(XGBoostExecuted(), o.executed);
    NamedLookup(c, f, l, x);
    ProbabilitiesExactly(c, o.coarse, COARSE_COUNT);
    ProbabilitiesExactly(f, o.fine, FINE_COUNT);
    ProbabilitiesExactly(l, o.leaf, LEAF_COUNT);
    ExecutedExactly(x, o.executed);
  }

  // ---- the mapper's loop ----

  // Some earlier output has this name.
  predicate Seen(outputs: seq<Tensor>, i: nat, name: Text)
    requires i <= |outputs|
  {
    exists k :: 0 <= k < i && outputs[k].name == name
  }

  // Exactly the answers of the expected model and version are mapped.
  method MapOutputs(response: InferResponse, modelName: Text, modelVersion: Text, mode: Uint8) returns (output: Option<Output>)
    ensures output == if response.modelName == modelName && response.modelVersion == modelVersion then MapByName(response.outputs, mode) else None
  {
    hide Probabilities, Executed, Lookup, CoarseProbs, FineProbs, LeafProbs, XGBoostExecuted;
    if response.modelName != modelName || response.modelVersion != modelVersion {
      return None;
    }
    var outputs := response.outputs;
    if |outputs| != 4 {
      return None;
    }
    var coarse, fine, leaf, executed: Option<bool> := [], [], [], None;
    var seen: set<Text> := {};
    for i := 0 to 4
      invariant forall name :: name in seen <==> Seen(outputs, i, name)
      invariant CoarseProbs() in seen ==> Lookup(outputs, CoarseProbs()).Some? && Probabilities(Lookup(outputs, CoarseProbs()).value, COARSE_COUNT) == Some(coarse)
      invariant FineProbs() in seen ==> Lookup(outputs, FineProbs()).Some? && Probabilities(Lookup(outputs, FineProbs()).value, FINE_COUNT) == Some(fine)
      invariant LeafProbs() in seen ==> Lookup(outputs, LeafProbs()).Some? && Probabilities(Lookup(outputs, LeafProbs()).value, LEAF_COUNT) == Some(leaf)
      invariant XGBoostExecuted() in seen ==>
        Lookup(outputs, XGBoostExecuted()).Some? && executed.Some? && Executed(Lookup(outputs, XGBoostExecuted()).value) == executed
    {
      var tensor := outputs[i];
      if AllFound(outputs) {
        FourNames(outputs);
      }
      if tensor.name in seen {
        return None;
      }
      FirstOccurrence(outputs, i);
      seen := seen + {tensor.name};
      if tensor.name == CoarseProbs() {
        var values := Probabilities(tensor, COARSE_COUNT);
        if values.None? {
          return None;
        }
        coarse := values.value;
      } else if tensor.name == FineProbs() {
        var values := Probabilities(tensor, FINE_COUNT);
        if values.None? {
          return None;
        }
        fine := values.value;
      } else if tensor.name == LeafProbs() {
        var values := Probabilities(tensor, LEAF_COUNT);
        if values.None? {
          return None;
        }
        leaf := values.value;
      } else if tensor.name == XGBoostExecuted() {
        executed := Executed(tensor);
        if executed.None? {
          return None;
        }
      } else {
        return None;
      }
    }
    if CoarseProbs() !in seen || FineProbs() !in seen || LeafProbs() !in seen || XGBoostExecuted() !in seen {
      if AllFound(outputs) {
        LookupFinds(outputs, CoarseProbs());
        LookupFinds(outputs, FineProbs());
        LookupFinds(outputs, LeafProbs());
        LookupFinds(outputs, XGBoostExecuted());
      }
      return None;
    }
    if executed.value != (mode == CoarseSelection.COMPUTE_CURRENT || mode == CoarseSelection.COMPUTE_BOOTSTRAP) {
      return None;
    }
    return Some(Output(coarse, fine, leaf, executed.value));
  }

  lemma {:induction false} FirstOccurrence(outputs: seq<Tensor>, i: nat)
    requires i < |outputs| && !Seen(outputs, i, outputs[i].name)
    ensures Lookup(outputs, outputs[i].name) == Some(outputs[i])
  {
    var n := |outputs| - 1;
    if i < n {
      assert outputs[..n][i] == outputs[i];
      FirstOccurrence(outputs[..n], i);
    } else {
      LookupFinds(outputs[..n], outputs[n].name);
    }
  }
}
