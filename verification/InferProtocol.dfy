// The typed tensors, the request body and the response body of
// internal/adapter/triton/binary_tensor.go.  The JSON encoder and decoder are parameters.
module InferProtocol {
  import opened BinaryTensor
  import opened Bytes
  import opened Integers
  import opened Wrappers

  // ---- typed values ----

  type Word64 = w: nat | w < 0x1_0000_0000_0000_0000
  type Word32 = w: nat | w < 0x1_0000_0000

  datatype Values =
    | FP64Values(bits64: seq<Word64>)
    | FP32Values(bits32: seq<Word32>)
    | INT32Values(numbers: seq<Int32>)
    | BOOLValues(flags: seq<bool>)

  function TypeOf(v: Values): DataType {
    match v
    case FP64Values(_) => FP64
    case FP32Values(_) => FP32
    case INT32Values(_) => INT32
    case BOOLValues(_) => BOOL
  }

  // uint32 and int32 conversions keep the bits.
  function ToWord(n: Int32): Word32 {
    if n < 0 then n + 0x1_0000_0000 else n
  }

  function ToInt32(w: Word32): Int32 {
    if w > MAX_INT32 then w - 0x1_0000_0000 else w
  }

  function Words(v: Values): (words: seq<nat>) {
    match v
    case FP64Values(bits) => bits
    case FP32Values(bits) => bits
    case INT32Values(numbers) => seq(|numbers|, i requires 0 <= i < |numbers| => ToWord(numbers[i]))
    case BOOLValues(flags) => seq(|flags|, i requires 0 <= i < |flags| => if flags[i] then 1 else 0)
  }

  lemma Widths()
    ensures Pow256(1) == 0x100 && Pow256(4) == 0x1_0000_0000 && Pow256(8) == 0x1_0000_0000_0000_0000
  {
    assert Pow256(2) == 0x1_0000 && Pow256(3) == 0x100_0000 && Pow256(6) == 0x1_0000_0000_0000;
  }

  lemma WordsFit(v: Values)
    ensures Fit(Words(v), ElementSize(TypeOf(v)))
  {
    Widths();
  }

  // The decoders' conversions.
  function FromWords(t: DataType, words: seq<nat>): Values
    requires Fit(words, ElementSize(t))
  {
    Widths();
    match t
    case FP64 => FP64Values(seq(|words|, i requires 0 <= i < |words| => words[i] as Word64))
    case FP32 => FP32Values(seq(|words|, i requires 0 <= i < |words| => words[i] as Word32))
    case INT32 => INT32Values(seq(|words|, i requires 0 <= i < |words| => ToInt32(words[i])))
    case BOOL => BOOLValues(seq(|words|, i requires 0 <= i < |words| => words[i] == 1))
  }

  lemma FromWordsOf(v: Values)
    ensures Fit(Words(v), ElementSize(TypeOf(v))) && FromWords(TypeOf(v), Words(v)) == v
  {
    WordsFit(v);
  }

  lemma WordsOfFrom(t: DataType, words: seq<nat>)
    requires Fit(words, ElementSize(t)) && (t == BOOL ==> forall k :: 0 <= k < |words| ==> words[k] <= 1)
    ensures Words(FromWords(t, words)) == words && TypeOf(FromWords(t, words)) == t
  {
    Widths();
  }

  // ---- tensors ----

  datatype Tensor = Tensor(name: Text, dataType: DataType, shape: seq<Int64>, data: seq<Byte>)

  predicate Alphanumeric(b: Byte) {
    48 <= b <= 57 || 65 <= b <= 90 || 97 <= b <= 122
  }

  // ^[A-Za-z0-9][A-Za-z0-9_.-]*$
  predicate ValidName(name: Text) {
    name != [] && Alphanumeric(name[0]) && forall b :: b in name ==> Alphanumeric(b) || b == 95 || b == 46 || b == 45
  }

  // The syntax of names, letter by letter.
  lemma NameSyntax(name: Text, b: Byte)
    ensures !ValidName([])
    ensures ValidName([b]) <==> 48 <= b <= 57 || 65 <= b <= 90 || 97 <= b <= 122
    ensures name != [] ==>
      (ValidName(name + [b]) <==> ValidName(name) && (48 <= b <= 57 || 65 <= b <= 90 || 97 <= b <= 122 || b in {95, 46, 45}))
  {
    var longer := name + [b];
    if name != [] && ValidName(longer) {
      assert forall c :: c in name ==> c in longer;
      assert longer[|name|] == b;
    }
  }

  predicate ValidTensor(t: Tensor) {
    && ValidName(t.name)
    && DataSize(t.dataType, t.shape) == Some(|t.data|)
    && (t.dataType == BOOL ==> forall k :: 0 <= k < |t.data| ==> t.data[k] <= 1)
  }

  function New(name: Text, shape: seq<Int64>, v: Values): Option<Tensor> {
    var t := Tensor(name, TypeOf(v), shape, EncodeWords(Words(v), ElementSize(TypeOf(v))));
    if ValidTensor(t) then Some(t) else None
  }

  lemma DataLength(t: Tensor)
    requires ValidTensor(t)
    ensures ElementCount(t.shape).Some? && |t.data| == Span(ElementCount(t.shape).value, ElementSize(t.dataType)) && |t.data| > 0
  {
    ElementCountPositive(t.shape);
    SpanIsProduct(ElementCount(t.shape).value, ElementSize(t.dataType));
  }

  function DecodeValues(t: Tensor, want: DataType): Option<Values> {
    if !ValidTensor(t) || t.dataType != want then None
    else
      DataLength(t);
      Some(FromWords(want, DecodeWords(t.data, ElementSize(want), ElementCount(t.shape).value)))
  }

  // A tensor is built exactly when its shape holds the given number of values.
  lemma NewExactly(name: Text, shape: seq<Int64>, v: Values)
    ensures New(name, shape, v).Some? <==>
      && ValidName(name)
      && shape != [] && Positive(shape) && Product(shape) == |Words(v)|
      && |Words(v)| * ElementSize(TypeOf(v)) <= MAX_INT64
  {
    hide Words, EncodeWords, ValidName, Product, Positive, Span;
    var n, size := |Words(v)|, ElementSize(TypeOf(v));
    SpanIsProduct(n, size);
    BoolData(v);
    if ElementCount(shape).Some? {
      SameFactor(ElementCount(shape).value, n, size);
    }
    NotBigger(n, size);
  }

  // The bytes of a BOOL tensor are its flags.
  lemma BoolData(v: Values)
    ensures v.BOOLValues? ==> forall k :: 0 <= k < |EncodeWords(Words(v), 1)| ==> EncodeWords(Words(v), 1)[k] <= 1
  {
    if v.BOOLValues? {
      BoolBytes(Words(v));
    }
  }

  lemma SameFactor(a: nat, b: nat, size: nat)
    requires size > 0
    ensures a * size == b * size <==> a == b
  {
  }

  lemma NotBigger(n: nat, size: nat)
    requires size > 0
    ensures n <= n * size
  {
  }

  lemma {:induction false} BoolBytes(words: seq<nat>)
    requires forall k :: 0 <= k < |words| ==> words[k] <= 1
    ensures EncodeWords(words, 1) == words
  {
    if words != [] {
      var n := |words| - 1;
      BoolBytes(words[..n]);
      assert words == words[..n] + [words[n]];
      assert LittleEndian(words[n], 1) == [words[n]];
    }
  }

  lemma {:induction false} ByteWords(data: seq<Byte>)
    ensures |data| == Span(|data|, 1)
    ensures DecodeWords(data, 1, |data|) == data
  {
    SpanIsProduct(|data|, 1);
    if data != [] {
      var n := |data| - 1;
      ByteWords(data[..n]);
      assert data == data[..n] + [data[n]] && data[n..] == [data[n]];
      assert FromLittleEndian([data[n]]) == data[n] + 256 * FromLittleEndian([]);
    }
  }

  // Encoding then decoding returns the very bits, for all four types.
  lemma ValuesRoundTrip(name: Text, shape: seq<Int64>, v: Values)
    requires New(name, shape, v).Some?
    ensures DecodeValues(New(name, shape, v).value, TypeOf(v)) == Some(v)
  {
    var t := New(name, shape, v).value;
    var size := ElementSize(TypeOf(v));
    DataLength(t);
    SpanIsProduct(|Words(v)|, size);
    SpanIsProduct(ElementCount(shape).value, size);
    SameFactor(ElementCount(shape).value, |Words(v)|, size);
    WordsFit(v);
    WordsRoundTrip(Words(v), size);
    FromWordsOf(v);
    hide Words, EncodeWords, DecodeWords, FromWords, ValidTensor, Span, Fit;
  }

  // Decoding then encoding returns the very tensor.
  lemma TensorRoundTrip(t: Tensor)
    requires ValidTensor(t)
    ensures DecodeValues(t, t.dataType).Some?
    ensures New(t.name, t.shape, DecodeValues(t, t.dataType).value) == Some(t)
  {
    hide ValidName, DataSize, Words, EncodeWords, DecodeWords, FromWords, Span, Fit;
    DataLength(t);
    var size, n := ElementSize(t.dataType), ElementCount(t.shape).value;
    var words := DecodeWords(t.data, size, n);
    DataRoundTrip(t.data, size, n);
    if t.dataType == BOOL {
      SpanIsProduct(n, 1);
      ByteWords(t.data);
    }
    WordsOfFrom(t.dataType, words);
  }

  // ---- bodies ----

  // A tensor's entry in the JSON header.
  datatype Header = Header(name: Text, shape: seq<Int64>, dataType: DataType, dataSize: Option<int>)

  function Payload(tensors: seq<Tensor>): seq<Byte> {
    if tensors == [] then [] else Payload(tensors[..|tensors| - 1]) + tensors[|tensors| - 1].data
  }

  function HeaderOf(t: Tensor): Header {
    Header(t.name, t.shape, t.dataType, Some(|t.data|))
  }

  function HeadersOf(tensors: seq<Tensor>): seq<Header> {
    seq(|tensors|, i requires 0 <= i < |tensors| => HeaderOf(tensors[i]))
  }

  predicate Matches(h: Header, t: Tensor) {
    h == HeaderOf(t) && ValidTensor(t)
  }

  // The tensors are what the headers describe, and laid end to end they are the payload:
  // no gap, no overlap, no trailing byte.
  ghost predicate Tiles(headers: seq<Header>, tensors: seq<Tensor>, payload: seq<Byte>) {
    && |headers| == |tensors|
    && (forall i :: 0 <= i < |headers| ==> Matches(headers[i], tensors[i]))
    && Payload(tensors) == payload
  }

  // In a tiling, each tensor is the slice its predecessors leave off at.
  lemma {:induction false} SliceAt(tensors: seq<Tensor>, i: nat)
    requires i < |tensors|
    ensures Payload(tensors[..i]) + tensors[i].data <= Payload(tensors)
    decreases |tensors|
  {
    var n := |tensors| - 1;
    if i < n {
      SliceAt(tensors[..n], i);
      assert tensors[..n][..i] == tensors[..i];
    } else {
      assert tensors[..n] == tensors[..i];
    }
  }

  // A payload splits in one way only: a peer that sends the request's tensors back is
  // read as exactly those tensors.
  lemma {:induction false} TilesUnique(headers: seq<Header>, a: seq<Tensor>, b: seq<Tensor>, payload: seq<Byte>)
    requires Tiles(headers, a, payload) && Tiles(headers, b, payload)
    ensures a == b
  {
    hide ValidTensor;
    if headers != [] {
      var n := |headers| - 1;
      assert Matches(headers[n], a[n]) && Matches(headers[n], b[n]);
      var cut := |payload| - |a[n].data|;
      assert payload[..cut] == Payload(a[..n]) && payload[cut..] == a[n].data;
      assert payload[..cut] == Payload(b[..n]) && payload[cut..] == b[n].data;
      TilesUnique(headers[..n], a[..n], b[..n], payload[..cut]);
      assert a == a[..n] + [a[n]] && b == b[..n] + [b[n]];
    }
  }

  // A partial tiling and a full one agree as far as the partial one goes.
  lemma PrefixAgrees(headers: seq<Header>, tensors: seq<Tensor>, payload: seq<Byte>, i: nat, done: seq<Tensor>)
    requires Tiles(headers, tensors, payload) && i < |headers|
    requires |Payload(done)| <= |payload| && Tiles(headers[..i], done, payload[..|Payload(done)|])
    ensures |Payload(done)| + |tensors[i].data| <= |payload|
    ensures tensors[i].data == payload[|Payload(done)|..|Payload(done)| + |tensors[i].data|]
  {
    hide Payload, ValidTensor;
    SliceAt(tensors, i);
    SizesAgree(headers[..i], tensors[..i], done);
    var at, size := |Payload(done)|, |tensors[i].data|;
    assert (Payload(tensors[..i]) + tensors[i].data)[at..] == tensors[i].data;
  }

  lemma {:induction false} SizesAgree(headers: seq<Header>, a: seq<Tensor>, b: seq<Tensor>)
    requires |a| == |b| == |headers| && forall i :: 0 <= i < |headers| ==> Matches(headers[i], a[i]) && Matches(headers[i], b[i])
    ensures |Payload(a)| == |Payload(b)|
  {
    hide ValidTensor;
    if headers != [] {
      var n := |headers| - 1;
      assert Matches(headers[n], a[n]) && Matches(headers[n], b[n]);
      SizesAgree(headers[..n], a[..n], b[..n]);
    }
  }

  // The one list of tensors that the headers cut the payload into, if there is one.
  ghost function Split(headers: seq<Header>, payload: seq<Byte>): (tensors: Option<seq<Tensor>>)
    ensures tensors.Some? ==> headers != [] && Tiles(headers, tensors.value, payload)
    ensures tensors.None? ==> headers == [] || forall other :: !Tiles(headers, other, payload)
  {
    if headers != [] && exists tensors :: Tiles(headers, tensors, payload) then
      var tensors :| Tiles(headers, tensors, payload);
      Some(tensors)
    else None
  }

  // Splitting gives back exactly the tensors that were laid end to end.
  lemma SplitExactly(headers: seq<Header>, payload: seq<Byte>, tensors: seq<Tensor>)
    ensures Split(headers, payload) == Some(tensors) <==>
      && tensors != [] && (forall i :: 0 <= i < |tensors| ==> ValidTensor(tensors[i]))
      && headers == HeadersOf(tensors) && payload == Payload(tensors)
  {
    hide ValidTensor, Payload;
    if tensors != [] && Tiles(headers, tensors, payload) && Split(headers, payload).Some? {
      TilesUnique(headers, Split(headers, payload).value, tensors, payload);
    }
    if Tiles(headers, tensors, payload) {
      assert forall i :: 0 <= i < |tensors| ==> Matches(headers[i], tensors[i]);
      assert headers == HeadersOf(tensors);
    }
    if headers == HeadersOf(tensors) && payload == Payload(tensors) && forall i :: 0 <= i < |tensors| ==> ValidTensor(tensors[i]) {
      assert Tiles(headers, tensors, payload);
    }
  }

  // The response decoder's loop: it finds the one tiling of the body after the header,
  // or reports an error when there is none.
  method SplitOutputs(headers: seq<Header>, body: seq<Byte>, headerLength: nat) returns (outputs: Option<seq<Tensor>>)
    requires headerLength <= |body|
    ensures outputs == Split(headers, body[headerLength..])
  {
    if headers == [] {
      return None;
    }
    hide ValidTensor;
    var payload := body[headerLength..];
    var done: seq<Tensor> := [];
    var offset := headerLength;
    for i := 0 to |headers|
      invariant |done| == i && headerLength <= offset <= |body| && offset - headerLength == |Payload(done)|
      invariant Tiles(headers[..i], done, payload[..|Payload(done)|])
    {
      var output := headers[i];
      var at := offset - headerLength;
      NoTiling(headers, payload, i, done);
      if output.dataSize.None? || output.dataSize.value <= 0 || offset > |body| - output.dataSize.value {
        return None;
      }
      var end := offset + output.dataSize.value;
      var tensor := Tensor(output.name, output.dataType, output.shape, body[offset..end]);
      assert body[offset..end] == payload[at..at + output.dataSize.value];
      if !ValidTensor(tensor) {
        return None;
      }
      Extend(headers, payload, i, done, tensor);
      done, offset := done + [tensor], end;
    }
    assert headers[..|headers|] == headers;
    if offset != |body| {
      forall tensors
        ensures !Tiles(headers, tensors, payload)
      {
        if Tiles(headers, tensors, payload) {
          SizesAgree(headers, tensors, done);
        }
      }
      return None;
    }
    assert payload[..|Payload(done)|] == payload;
    Tiled(headers, payload, done);
    return Some(done);
  }

  lemma Tiled(headers: seq<Header>, payload: seq<Byte>, tensors: seq<Tensor>)
    requires headers != [] && Tiles(headers, tensors, payload)
    ensures Split(headers, payload) == Some(tensors)
  {
    TilesUnique(headers, Split(headers, payload).value, tensors, payload);
  }

  // The next tensor of any full tiling is the slice the decoder would cut.
  lemma NoTiling(headers: seq<Header>, payload: seq<Byte>, i: nat, done: seq<Tensor>)
    requires i < |headers| && |Payload(done)| <= |payload| && Tiles(headers[..i], done, payload[..|Payload(done)|])
    ensures forall tensors :: Tiles(headers, tensors, payload) ==>
      var at := |Payload(done)|;
      headers[i].dataSize.Some? && 0 < headers[i].dataSize.value <= |payload| - at
      && ValidTensor(Tensor(headers[i].name, headers[i].dataType, headers[i].shape, payload[at..at + headers[i].dataSize.value]))
  {
    forall tensors | Tiles(headers, tensors, payload)
      ensures var at := |Payload(done)|;
        headers[i].dataSize.Some? && 0 < headers[i].dataSize.value <= |payload| - at
        && ValidTensor(Tensor(headers[i].name, headers[i].dataType, headers[i].shape, payload[at..at + headers[i].dataSize.value]))
    {
      PrefixAgrees(headers, tensors, payload, i, done);
      assert Matches(headers[i], tensors[i]);
      DataLength(tensors[i]);
    }
  }

  lemma Extend(headers: seq<Header>, payload: seq<Byte>, i: nat, done: seq<Tensor>, tensor: Tensor)
    requires i < |headers| && |Payload(done)| <= |payload| && Tiles(headers[..i], done, payload[..|Payload(done)|])
    requires Matches(headers[i], tensor)
    requires var at := |Payload(done)|; at + |tensor.data| <= |payload| && tensor.data == payload[at..at + |tensor.data|]
    ensures var next := done + [tensor];
      |Payload(next)| == |Payload(done)| + |tensor.data| && Tiles(headers[..i + 1], next, payload[..|Payload(next)|])
  {
    hide ValidTensor;
    var next := done + [tensor];
    assert next[..i] == done && headers[..i + 1][..i] == headers[..i];
    assert Payload(next) == Payload(done) + tensor.data;
    assert payload[..|Payload(next)|] == payload[..|Payload(done)|] + tensor.data;
    forall k | 0 <= k < i + 1
      ensures Matches(headers[..i + 1][k], next[k])
    {
      assert k < i ==> Matches(headers[..i][k], done[k]);
    }
  }

  // ---- requests ----

  // ^[1-9][0-9]*$
  predicate ValidVersion(version: Text) {
    version != [] && version[0] != 48 && forall b :: b in version ==> 48 <= b <= 57
  }

  // The decimal digits of n, and the number that digits stand for.
  function Decimal(n: nat): Text {
    if n < 10 then [48 + n] else Decimal(n / 10) + [48 + n % 10]
  }

  function Number(digits: Text): int {
    if digits == [] then 0 else 10 * Number(digits[..|digits| - 1]) + digits[|digits| - 1] - 48
  }

  // A version is the decimal text of a positive number, of any length.
  lemma VersionsExactly(version: Text)
    ensures ValidVersion(version) <==> exists n: nat :: n > 0 && Decimal(n) == version
  {
    if ValidVersion(version) {
      NumberBack(version);
    }
    if n: nat :| n > 0 && Decimal(n) == version {
      DecimalIsVersion(n);
    }
  }

  lemma {:induction false} DecimalIsVersion(n: nat)
    requires n > 0
    ensures ValidVersion(Decimal(n))
  {
    if n >= 10 {
      DecimalIsVersion(n / 10);
    }
  }

  lemma {:induction false} NumberBack(version: Text)
    requires ValidVersion(version)
    ensures Number(version) > 0 && Decimal(Number(version)) == version
  {
    hide Number, Decimal;
    var n := |version| - 1;
    var front := version[..n];
    assert version == front + [version[n]];
    assert version[n] in version && version[0] in version;
    NumberAppended(front, version[n]);
    if n == 0 {
      OneDigit(version[n] - 48);
    } else {
      assert forall b :: b in front ==> b in version;
      NumberBack(front);
      DecimalAppended(Number(front), version[n] - 48);
    }
  }

  lemma NumberAppended(front: Text, b: Byte)
    ensures Number([]) == 0 && Number(front + [b]) == 10 * Number(front) + b - 48
  {
    assert (front + [b])[..|front|] == front;
  }

  lemma OneDigit(d: nat)
    requires d < 10
    ensures Decimal(d) == [48 + d]
  {
  }

  lemma DecimalAppended(n: nat, d: nat)
    requires n > 0 && d < 10
    ensures Decimal(10 * n + d) == Decimal(n) + [48 + d]
  {
    assert (10 * n + d) / 10 == n && (10 * n + d) % 10 == d;
  }

  datatype RequestHeader = RequestHeader(id: Text, inputs: seq<Header>, outputs: seq<Text>)

  // The JSON encoder.
  type Marshal = RequestHeader -> seq<Byte>

  // The length is what Inference-Header-Content-Length says.
  datatype Request = Request(modelName: Text, modelVersion: Text, headerLength: nat, body: seq<Byte>)

  predicate Distinct(names: seq<Text>) {
    forall i, j :: 0 <= i < j < |names| ==> names[i] != names[j]
  }

  function NamesOf(tensors: seq<Tensor>): seq<Text> {
    seq(|tensors|, i requires 0 <= i < |tensors| => tensors[i].name)
  }

  ghost predicate GoodInputs(inputs: seq<Tensor>) {
    && (forall i :: 0 <= i < |inputs| ==> ValidTensor(inputs[i]))
    && Distinct(NamesOf(inputs))
    && |Payload(inputs)| <= MAX_INT64
  }

  ghost predicate Encodable(modelName: Text, modelVersion: Text, inputs: seq<Tensor>, outputNames: seq<Text>, headerLength: nat) {
    && inputs != [] && outputNames != [] && GoodInputs(inputs)
    && (forall i :: 0 <= i < |outputNames| ==> ValidName(outputNames[i])) && Distinct(outputNames)
    && headerLength + |Payload(inputs)| <= MAX_INT64
    && ValidName(modelName) && ValidVersion(modelVersion)
  }

  lemma DistinctAppend(names: seq<Text>, name: Text)
    ensures Distinct(names + [name]) <==> Distinct(names) && name !in names
  {
    var next := names + [name];
    if Distinct(next) {
      assert forall i, j :: 0 <= i < j < |names| ==> next[i] == names[i] && next[j] == names[j];
      assert forall i :: 0 <= i < |names| ==> next[i] == names[i] && next[i] != next[|names|];
    }
  }

  lemma Duplicate(names: seq<Text>, i: nat)
    requires i < |names| && names[i] in names[..i]
    ensures !Distinct(names)
  {
  }

  // Succeeds exactly for encodable requests; the body is the JSON header and, from where
  // the stated length says, the inputs' data end to end.
  method EncodeRequest(modelName: Text, modelVersion: Text, id: Text, inputs: seq<Tensor>, outputNames: seq<Text>, marshal: Marshal)
      returns (request: Option<Request>)
    ensures var json := marshal(RequestHeader(id, HeadersOf(inputs), outputNames));
      && (request.Some? <==> Encodable(modelName, modelVersion, inputs, outputNames, |json|))
      && (request.Some? ==> request.value == Request(modelName, modelVersion, |json|, json + Payload(inputs)))
  {
    if inputs == [] || outputNames == [] {
      return None;
    }
    hide ValidTensor, ValidName, ValidVersion, Distinct, Payload, SameNames, HeaderOf, HeadersOf, NamesOf, GoodInputs;
    NoInputs(inputs);
    var headers: seq<Header>, seen: set<Text>, payloadSize := [], {}, 0;
    for i := 0 to |inputs|
      invariant GoodInputs(inputs[..i])
      invariant headers == HeadersOf(inputs[..i]) && payloadSize == |Payload(inputs[..i])| <= MAX_INT64
      invariant SameNames(seen, NamesOf(inputs[..i]))
    {
      var tensor := inputs[i];
      InputStep(inputs, i);
      SameNamesStep(seen, NamesOf(inputs[..i]), tensor.name);
      if !ValidTensor(tensor) || tensor.name in seen || |tensor.data| > MAX_INT64 - payloadSize {
        return None;
      }
      seen := seen + {tensor.name};
      payloadSize := payloadSize + |tensor.data|;
      headers := headers + [HeaderOf(tensor)];
    }
    assert inputs[..|inputs|] == inputs;
    var valid := CheckNames(outputNames);
    if !valid {
      return None;
    }
    var json := marshal(RequestHeader(id, headers, outputNames));
    if |json| > MAX_INT64 - payloadSize {
      return None;
    }
    var data := AppendData(inputs);
    if !ValidName(modelName) || !ValidVersion(modelVersion) {
      return None;
    }
    return Some(Request(modelName, modelVersion, |json|, json + data));
  }

  // The second loop over the inputs.
  method AppendData(inputs: seq<Tensor>) returns (data: seq<Byte>)
    ensures data == Payload(inputs)
  {
    data := [];
    for i := 0 to |inputs|
      invariant data == Payload(inputs[..i])
    {
      PayloadStep(inputs, i);
      data := data + inputs[i].data;
    }
    assert inputs[..|inputs|] == inputs;
  }

  // A reader that cuts an encoded request by its own headers gets the very inputs.
  lemma RequestSplits(modelName: Text, modelVersion: Text, id: Text, inputs: seq<Tensor>, outputNames: seq<Text>, marshal: Marshal)
    requires var json := marshal(RequestHeader(id, HeadersOf(inputs), outputNames));
      Encodable(modelName, modelVersion, inputs, outputNames, |json|)
    ensures var json := marshal(RequestHeader(id, HeadersOf(inputs), outputNames));
      Split(HeadersOf(inputs), (json + Payload(inputs))[|json|..]) == Some(inputs)
  {
    hide ValidTensor, Payload, HeaderOf, ValidName, ValidVersion, Distinct;
    var json := marshal(RequestHeader(id, HeadersOf(inputs), outputNames));
    assert (json + Payload(inputs))[|json|..] == Payload(inputs);
    SplitExactly(HeadersOf(inputs), Payload(inputs), inputs);
  }

  lemma NoInputs(inputs: seq<Tensor>)
    ensures GoodInputs(inputs[..0]) && Payload(inputs[..0]) == [] && HeadersOf(inputs[..0]) == []
    ensures SameNames({}, NamesOf(inputs[..0]))
  {
  }

  lemma PayloadStep(inputs: seq<Tensor>, i: nat)
    requires i < |inputs|
    ensures Payload(inputs[..0]) == []
    ensures Payload(inputs[..i + 1]) == Payload(inputs[..i]) + inputs[i].data
    ensures |Payload(inputs[..i])| + |inputs[i].data| <= |Payload(inputs)|
  {
    SliceAt(inputs, i);
    assert inputs[..i + 1][..i] == inputs[..i];
  }

  // One more input is good exactly when the loop's three tests pass; a bad one stays bad.
  lemma InputStep(inputs: seq<Tensor>, i: nat)
    requires i < |inputs| && GoodInputs(inputs[..i])
    ensures HeadersOf(inputs[..i + 1]) == HeadersOf(inputs[..i]) + [HeaderOf(inputs[i])]
    ensures NamesOf(inputs[..i + 1]) == NamesOf(inputs[..i]) + [inputs[i].name]
    ensures |Payload(inputs[..i + 1])| == |Payload(inputs[..i])| + |inputs[i].data|
    ensures var next := ValidTensor(inputs[i]) && inputs[i].name !in NamesOf(inputs[..i]) && |Payload(inputs[..i + 1])| <= MAX_INT64;
      && (next ==> GoodInputs(inputs[..i + 1]))
      && (!next ==> !GoodInputs(inputs))
  {
    hide ValidTensor, Payload, Distinct, HeaderOf;
    PayloadStep(inputs, i);
    var names := NamesOf(inputs);
    DistinctAppend(names[..i], names[i]);
    assert NamesOf(inputs[..i]) == names[..i] && names[..i + 1] == names[..i] + [names[i]];
    if names[i] in names[..i] {
      Duplicate(names, i);
    }
  }

  // A set of names read as a list.
  ghost predicate SameNames(seen: set<Text>, names: seq<Text>) {
    forall name :: name in seen <==> name in names
  }

  lemma SameNamesStep(seen: set<Text>, names: seq<Text>, name: Text)
    requires SameNames(seen, names)
    ensures name in seen <==> name in names
    ensures SameNames(seen + {name}, names + [name])
  {
  }

  lemma NoNames()
    ensures Distinct([]) && SameNames({}, [])
  {
  }

  method CheckNames(names: seq<Text>) returns (valid: bool)
    ensures valid <==> (forall i :: 0 <= i < |names| ==> ValidName(names[i])) && Distinct(names)
  {
    hide ValidName, Distinct, SameNames;
    var seen: set<Text> := {};
    assert names[..0] == [];
    NoNames();
    for i := 0 to |names|
      invariant forall k :: 0 <= k < i ==> ValidName(names[k])
      invariant SameNames(seen, names[..i])
      invariant Distinct(names[..i])
    {
      DistinctAppend(names[..i], names[i]);
      SameNamesStep(seen, names[..i], names[i]);
      assert names[..i + 1] == names[..i] + [names[i]];
      if !ValidName(names[i]) {
        return false;
      }
      if names[i] in seen {
        Duplicate(names, i);
        return false;
      }
      seen := seen + {names[i]};
    }
    assert names[..|names|] == names;
    return true;
  }

  // ---- responses ----

  datatype ResponseHeader = ResponseHeader(id: Text, modelName: Text, modelVersion: Text, outputs: seq<Header>)

  // The JSON decoder.
  type Parse = seq<Byte> -> Option<ResponseHeader>

  // The media type and the header length are those parsed from the HTTP headers.
  datatype Response = Response(status: int, mediaType: Option<Text>, headerLength: Option<Int64>, body: seq<Byte>)

  datatype InferResponse = InferResponse(id: Text, modelName: Text, modelVersion: Text, outputs: seq<Tensor>)

  // "application/octet-stream"
  const BINARY_CONTENT_TYPE: Text :=
    [97, 112, 112, 108, 105, 99, 97, 116, 105, 111, 110, 47, 111, 99, 116, 101, 116, 45, 115, 116, 114, 101, 97, 109]

  // The HTTP answer carries a header within its body.
  predicate WellFramed(response: Response) {
    && 200 <= response.status < 300
    && response.mediaType == Some(BINARY_CONTENT_TYPE)
    && response.headerLength.Some? && 0 < response.headerLength.value <= |response.body|
  }

  // The body is a JSON header naming these outputs, and their data end to end.
  ghost predicate Carries(parse: Parse, response: Response, decoded: InferResponse) {
    && WellFramed(response)
    && var n := response.headerLength.value;
    && parse(response.body[..n]) == Some(ResponseHeader(decoded.id, decoded.modelName, decoded.modelVersion, HeadersOf(decoded.outputs)))
    && response.body[n..] == Payload(decoded.outputs)
    && decoded.outputs != [] && (forall i :: 0 <= i < |decoded.outputs| ==> ValidTensor(decoded.outputs[i]))
    && ValidName(decoded.modelName) && ValidVersion(decoded.modelVersion)
  }

  // Decodes a response exactly to what it carries, and refuses one that carries nothing.
  method DecodeResponse(response: Response, parse: Parse) returns (decoded: Option<InferResponse>)
    ensures decoded.Some? ==> forall other :: Carries(parse, response, other) <==> other == decoded.value
    ensures decoded.None? ==> forall other :: !Carries(parse, response, other)
  {
    hide ValidTensor, ValidName, ValidVersion, Payload, Split, HeaderOf;
    if response.status < 200 || response.status >= 300 || response.mediaType != Some(BINARY_CONTENT_TYPE) {
      return None;
    }
    if response.headerLength.None? || response.headerLength.value <= 0 || response.headerLength.value > |response.body| {
      return None;
    }
    var n := response.headerLength.value;
    var header := parse(response.body[..n]);
    if header.None? || !ValidName(header.value.modelName) || !ValidVersion(header.value.modelVersion) {
      return None;
    }
    var outputs := SplitOutputs(header.value.outputs, response.body, n);
    forall tensors
      ensures outputs == Some(tensors) <==>
        && tensors != [] && (forall i :: 0 <= i < |tensors| ==> ValidTensor(tensors[i]))
        && header.value.outputs == HeadersOf(tensors) && response.body[n..] == Payload(tensors)
    {
      SplitExactly(header.value.outputs, response.body[n..], tensors);
    }
    if outputs.None? {
      return None;
    }
    return Some(InferResponse(header.value.id, header.value.modelName, header.value.modelVersion, outputs.value));
  }
}
