// internal/application/light_curve_preparer.go: validate, copy, sort, reject
// repeated observation times.
module LightCurve {
  import opened Floats

  datatype Epoch = Epoch(time: Float, magnitude: Float, magnitudeError: Float)

  datatype PrepareError = NoError | CountMismatch | TooFew | TooMany | InvalidTime | InvalidMagnitude | InvalidMagnitudeError | DuplicateTime

  const MINIMUM_EPOCHS := 3
  const MAXIMUM_EPOCHS := 1024

  predicate ValidEpoch(e: Epoch) {
    e.time.Finite() && e.magnitude.Finite() && e.magnitudeError.Finite() && Less(Fin(0.0), e.magnitudeError)
  }

  // ---- the specification ----

  ghost predicate DistinctTimes(s: seq<Epoch>) {
    forall i, j :: 0 <= i < j < |s| ==> s[i].time != s[j].time
  }

  ghost predicate StrictlyIncreasing(s: seq<Epoch>) {
    forall i, j :: 0 <= i < j < |s| ==> Less(s[i].time, s[j].time)
  }

  // What makes a revision acceptable, whatever the order of its epochs.
  ghost predicate Acceptable(epochs: seq<Epoch>, declared: nat, eligible: nat) {
    && declared == eligible == |epochs|
    && MINIMUM_EPOCHS <= |epochs| <= MAXIMUM_EPOCHS
    && (forall e :: e in epochs ==> ValidEpoch(e))
    && DistinctTimes(epochs)
  }

  // The canonical form: the same epochs in strictly increasing time.
  ghost predicate CanonicalForm(epochs: seq<Epoch>, sorted: seq<Epoch>) {
    multiset(sorted) == multiset(epochs) && StrictlyIncreasing(sorted)
  }

  // ---- sorting ----

  ghost predicate SortedByTime(s: seq<Epoch>) {
    forall i, j :: 0 <= i < j < |s| ==> !Less(s[j].time, s[i].time)
  }

  function Insert(e: Epoch, s: seq<Epoch>): (r: seq<Epoch>)
    ensures multiset(r) == multiset(s) + multiset{e}
    ensures |r| == |s| + 1
  {
    if s == [] || Less(e.time, s[0].time) then [e] + s
    else
      assert s == [s[0]] + s[1..];
      [s[0]] + Insert(e, s[1..])
  }

  lemma {:induction false} InsertSorted(e: Epoch, s: seq<Epoch>)
    requires e.time.Finite() && (forall x :: x in s ==> x.time.Finite()) && SortedByTime(s)
    ensures SortedByTime(Insert(e, s)) && forall x :: x in Insert(e, s) ==> x == e || x in s
  {
    if s != [] && !Less(e.time, s[0].time) {
      InsertSorted(e, s[1..]);
    }
  }

  // sort.Slice's contract: sorted by the comparison, and a permutation.
  method SortByTime(a: array<Epoch>)
    requires forall i :: 0 <= i < a.Length ==> a[i].time.Finite()
    modifies a
    ensures SortedByTime(a[..]) && multiset(a[..]) == multiset(old(a[..]))
  {
    var sorted: seq<Epoch> := [];
    for k := 0 to a.Length
      invariant |sorted| == k && SortedByTime(sorted)
      invariant forall x :: x in sorted ==> x.time.Finite()
      invariant multiset(sorted) == multiset(a[..k])
      invariant a[..] == old(a[..])
    {
      InsertSorted(a[k], sorted);
      assert a[..k + 1] == a[..k] + [a[k]];
      sorted := Insert(a[k], sorted);
    }
    assert a[..a.Length] == a[..];
    forall i | 0 <= i < a.Length {
      a[i] := sorted[i];
    }
    assert a[..] == sorted;
  }

  // ---- the preparer ----

  function ValueError(e: Epoch): (error: PrepareError)
    ensures error == NoError <==> ValidEpoch(e)
  {
    if !e.time.Finite() then InvalidTime
    else if !e.magnitude.Finite() then InvalidMagnitude
    else if !e.magnitudeError.Finite() || !Less(Fin(0.0), e.magnitudeError) then InvalidMagnitudeError
    else NoError
  }

  // The error of the first epoch that has one.
  function FirstValueError(epochs: seq<Epoch>): (error: PrepareError)
    ensures error == NoError <==> forall e :: e in epochs ==> ValidEpoch(e)
  {
    if epochs == [] then NoError
    else if ValueError(epochs[0]) != NoError then ValueError(epochs[0])
    else FirstValueError(epochs[1..])
  }

  lemma {:induction false} FirstValueErrorAt(epochs: seq<Epoch>, k: nat)
    requires k < |epochs| && (forall j :: 0 <= j < k ==> ValidEpoch(epochs[j])) && !ValidEpoch(epochs[k])
    ensures FirstValueError(epochs) == ValueError(epochs[k])
  {
    if k > 0 {
      FirstValueErrorAt(epochs[1..], k - 1);
    }
  }

  // What preparation reports.  Of several bad values it reports the first in input order.
  ghost function Report(epochs: seq<Epoch>, declared: nat, eligible: nat): PrepareError {
    if declared != eligible || eligible != |epochs| then CountMismatch
    else if |epochs| < MINIMUM_EPOCHS then TooFew
    else if |epochs| > MAXIMUM_EPOCHS then TooMany
    else if FirstValueError(epochs) != NoError then FirstValueError(epochs)
    else if !DistinctTimes(epochs) then DuplicateTime
    else NoError
  }

  // The loop that reports the first invalid value.
  method CheckValues(a: array<Epoch>) returns (error: PrepareError)
    ensures error == FirstValueError(a[..])
  {
    for i := 0 to a.Length
      invariant forall k :: 0 <= k < i ==> ValidEpoch(a[k])
    {
      var e := a[i];
      if !ValidEpoch(e) {
        FirstValueErrorAt(a[..], i);
        return if !e.time.Finite() then InvalidTime else if !e.magnitude.Finite() then InvalidMagnitude else InvalidMagnitudeError;
      }
    }
    return NoError;
  }

  // The adjacent scan.
  method HasRepeatedTime(a: array<Epoch>) returns (repeated: bool)
    ensures repeated <==> exists i :: 0 < i < a.Length && Same(a[i - 1].time, a[i].time)
  {
    var i := 1;
    while i < a.Length
      invariant forall k :: 0 < k < i && k < a.Length ==> !Same(a[k - 1].time, a[k].time)
    {
      if Same(a[i - 1].time, a[i].time) {
        return true;
      }
      i := i + 1;
    }
    return false;
  }

  // Preparation succeeds exactly for acceptable revisions, returns a new array in
  // canonical form and leaves its input alone.
  method Prepare(epochs: array<Epoch>, declared: nat, eligible: nat) returns (error: PrepareError, prepared: array?<Epoch>)
    ensures epochs[..] == old(epochs[..])
    ensures prepared != null <==> Acceptable(epochs[..], declared, eligible)
    ensures error == Report(epochs[..], declared, eligible)
    ensures prepared != null ==> fresh(prepared) && CanonicalForm(epochs[..], prepared[..])
  {
    if declared != eligible || eligible != epochs.Length {
      return CountMismatch, null;
    }
    if epochs.Length < MINIMUM_EPOCHS {
      return TooFew, null;
    }
    if epochs.Length > MAXIMUM_EPOCHS {
      return TooMany, null;
    }
    error := CheckValues(epochs);
    if error != NoError {
      return error, null;
    }
    var copy := new Epoch[epochs.Length](i requires 0 <= i < epochs.Length reads epochs => epochs[i]);
    assert copy[..] == epochs[..];
    assert forall i :: 0 <= i < copy.Length ==> copy[i] in epochs[..];
    SortByTime(copy);
    var repeated := HasRepeatedTime(copy);
    AdjacentDecides(epochs[..], copy[..]);
    if repeated {
      return DuplicateTime, null;
    }
    return NoError, copy;
  }

  // In a sorted permutation, a repeated time shows up at adjacent positions.
  lemma AdjacentDecides(epochs: seq<Epoch>, sorted: seq<Epoch>)
    requires multiset(sorted) == multiset(epochs) && SortedByTime(sorted)
    requires forall e :: e in epochs ==> ValidEpoch(e)
    ensures |sorted| == |epochs|
    ensures (exists i :: 0 < i < |sorted| && Same(sorted[i - 1].time, sorted[i].time)) <==> !DistinctTimes(epochs)
    ensures DistinctTimes(epochs) ==> CanonicalForm(epochs, sorted)
  {
    SameLength(epochs, sorted);
    AllValid(epochs, sorted);
    DistinctTimesPermute(epochs, sorted);
    if forall i :: 0 < i < |sorted| ==> !Same(sorted[i - 1].time, sorted[i].time) {
      AdjacentToAll(sorted);
    }
  }

  lemma SameLength(a: seq<Epoch>, b: seq<Epoch>)
    requires multiset(a) == multiset(b)
    ensures |a| == |b|
  {
    assert |multiset(a)| == |a| && |multiset(b)| == |b|;
  }

  lemma AllValid(epochs: seq<Epoch>, sorted: seq<Epoch>)
    requires multiset(sorted) == multiset(epochs) && forall e :: e in epochs ==> ValidEpoch(e)
    ensures forall i :: 0 <= i < |sorted| ==> ValidEpoch(sorted[i])
  {
    forall i | 0 <= i < |sorted|
      ensures ValidEpoch(sorted[i])
    {
      assert sorted[i] in multiset(sorted);
    }
  }

  lemma {:induction false} AdjacentToAll(s: seq<Epoch>)
    requires SortedByTime(s) && (forall i :: 0 <= i < |s| ==> s[i].time.Finite())
    requires forall i :: 0 < i < |s| ==> !Same(s[i - 1].time, s[i].time)
    ensures StrictlyIncreasing(s)
  {
    if |s| > 1 {
      var n := |s| - 1;
      AdjacentToAll(s[..n]);
      assert Less(s[n - 1].time, s[n].time);
    }
  }

  // Having pairwise distinct times does not depend on the order.
  lemma {:induction false} DistinctTimesPermute(a: seq<Epoch>, b: seq<Epoch>)
    requires multiset(a) == multiset(b)
    ensures DistinctTimes(a) <==> DistinctTimes(b)
  {
    if DistinctTimes(a) {
      DistinctOneWay(a, b);
    }
    if DistinctTimes(b) {
      DistinctOneWay(b, a);
    }
  }

  lemma DistinctOneWay(a: seq<Epoch>, b: seq<Epoch>)
    requires multiset(a) == multiset(b) && DistinctTimes(a)
    ensures DistinctTimes(b)
  {
    forall i, j | 0 <= i < j < |b|
      ensures b[i].time != b[j].time
    {
      if b[i].time == b[j].time {
        assert b[i] in multiset(a) && b[j] in multiset(a);
        var k :| 0 <= k < |a| && a[k] == b[i];
        var l :| 0 <= l < |a| && a[l] == b[j];
        assert k == l;
        Twice(b, i, j);
        Once(a, k);
        assert false;
      }
    }
  }

  lemma Twice(s: seq<Epoch>, i: nat, j: nat)
    requires i < j < |s| && s[i] == s[j]
    ensures multiset(s)[s[i]] >= 2
  {
    assert s == s[..j] + [s[j]] + s[j + 1..];
    assert s[i] in multiset(s[..j]) by {
      assert s[..j][i] == s[i];
    }
  }

  lemma Once(s: seq<Epoch>, k: nat)
    requires k < |s| && DistinctTimes(s)
    ensures multiset(s)[s[k]] == 1
  {
    assert s == s[..k] + [s[k]] + s[k + 1..];
    assert s[k] !in s[..k] && s[k] !in s[k + 1..];
  }

  // ---- independence of the input order ----

  lemma AcceptablePermutes(a: seq<Epoch>, b: seq<Epoch>, declared: nat, eligible: nat)
    requires multiset(a) == multiset(b)
    ensures Acceptable(a, declared, eligible) <==> Acceptable(b, declared, eligible)
  {
    SameLength(a, b);
    DistinctTimesPermute(a, b);
    if Acceptable(a, declared, eligible) {
      AllValid(a, b);
    }
    if Acceptable(b, declared, eligible) {
      AllValid(b, a);
    }
  }

  // Every reordering of an input has the same canonical form.
  lemma {:induction false} CanonicalFormUnique(a: seq<Epoch>, b: seq<Epoch>, s: seq<Epoch>, t: seq<Epoch>)
    requires multiset(a) == multiset(b)
    requires CanonicalForm(a, s) && CanonicalForm(b, t)
    ensures s == t
  {
    SortedUnique(s, t);
  }

  lemma {:induction false} SortedUnique(s: seq<Epoch>, t: seq<Epoch>)
    requires multiset(s) == multiset(t) && StrictlyIncreasing(s) && StrictlyIncreasing(t)
    ensures s == t
  {
    SameLength(s, t);
    if s != [] {
      HeadsAgree(s, t);
      assert s == [s[0]] + s[1..] && t == [t[0]] + t[1..];
      assert multiset(s[1..]) == multiset(s) - multiset{s[0]};
      assert multiset(t[1..]) == multiset(t) - multiset{t[0]};
      SortedUnique(s[1..], t[1..]);
    }
  }

  lemma HeadsAgree(s: seq<Epoch>, t: seq<Epoch>)
    requires multiset(s) == multiset(t) && StrictlyIncreasing(s) && StrictlyIncreasing(t) && s != [] && t != []
    ensures s[0] == t[0]
  {
    assert s[0] in multiset(t) && t[0] in multiset(s);
    var i :| 0 <= i < |t| && t[i] == s[0];
    var j :| 0 <= j < |s| && s[j] == t[0];
  }

  // ---- when the reported error depends on the input order ----

  // Preparation gets as far as the values, and they do not agree on one error.
  ghost predicate MixedErrors(epochs: seq<Epoch>, declared: nat, eligible: nat) {
    && declared == eligible == |epochs|
    && MINIMUM_EPOCHS <= |epochs| <= MAXIMUM_EPOCHS
    && exists e, f :: e in epochs && f in epochs && !ValidEpoch(e) && !ValidEpoch(f) && ValueError(e) != ValueError(f)
  }

  // Every order of the input gets the same report exactly unless two invalid epochs of a
  // revision with the right counts have different errors.
  lemma ReportIndependentExactly(epochs: seq<Epoch>, declared: nat, eligible: nat)
    ensures (forall other: seq<Epoch> :: multiset(other) == multiset(epochs) ==>
               Report(other, declared, eligible) == Report(epochs, declared, eligible))
      <==> !MixedErrors(epochs, declared, eligible)
  {
    if MixedErrors(epochs, declared, eligible) {
      var e, f :| e in epochs && f in epochs && !ValidEpoch(e) && !ValidEpoch(f) && ValueError(e) != ValueError(f);
      var first, second := InFront(epochs, e), InFront(epochs, f);
      SameLength(epochs, first);
      SameLength(epochs, second);
      FirstValueErrorAt(first, 0);
      FirstValueErrorAt(second, 0);
      assert Report(first, declared, eligible) != Report(second, declared, eligible);
    } else {
      forall other: seq<Epoch> | multiset(other) == multiset(epochs)
        ensures Report(other, declared, eligible) == Report(epochs, declared, eligible)
      {
        SameReport(epochs, other, declared, eligible);
      }
    }
  }

  // The same epochs with e first.
  function InFront(epochs: seq<Epoch>, e: Epoch): (r: seq<Epoch>)
    requires e in epochs
    ensures multiset(r) == multiset(epochs) && r != [] && r[0] == e
  {
    if epochs[0] == e then epochs
    else
      assert epochs == [epochs[0]] + epochs[1..];
      var rest := InFront(epochs[1..], e);
      assert rest == [e] + rest[1..];
      [e, epochs[0]] + rest[1..]
  }

  lemma SameReport(a: seq<Epoch>, b: seq<Epoch>, declared: nat, eligible: nat)
    requires multiset(a) == multiset(b) && !MixedErrors(a, declared, eligible)
    ensures Report(a, declared, eligible) == Report(b, declared, eligible)
  {
    SameLength(a, b);
    DistinctTimesPermute(a, b);
    SameMembers(a, b);
    FirstErrorIsSomeone(a);
    FirstErrorIsSomeone(b);
  }

  lemma SameMembers(a: seq<Epoch>, b: seq<Epoch>)
    requires multiset(a) == multiset(b)
    ensures forall e :: e in a <==> e in b
  {
    assert forall e :: e in a <==> e in multiset(a);
  }

  lemma {:induction false} FirstErrorIsSomeone(epochs: seq<Epoch>)
    ensures FirstValueError(epochs) != NoError ==>
      exists e :: e in epochs && !ValidEpoch(e) && ValueError(e) == FirstValueError(epochs)
  {
    if epochs != [] && ValueError(epochs[0]) == NoError {
      FirstErrorIsSomeone(epochs[1..]);
    }
  }

  // The smallest instance.
  lemma ReportDependsOnOrder(good: Epoch, badTime: Epoch, badMagnitude: Epoch)
    requires ValidEpoch(good) && ValueError(badTime) == InvalidTime && ValueError(badMagnitude) == InvalidMagnitude
    ensures Report([good, badTime, badMagnitude], 3, 3) == InvalidTime
    ensures Report([good, badMagnitude, badTime], 3, 3) == InvalidMagnitude
  {
    FirstValueErrorAt([good, badTime, badMagnitude], 1);
    FirstValueErrorAt([good, badMagnitude, badTime], 1);
  }
}
