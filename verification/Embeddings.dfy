/** Validation and ordering of embedding responses (internal/router/router.go:823-889,
    internal/contract/openai.go:55-82). */
module Embeddings {
  import opened Sequences

  /** A float as far as validation looks into it; a finite one is its bit pattern. */
  datatype Float = Finite(bits: nat) | NotANumber | Infinite

  datatype Item = Item(index: int, vector: seq<Float>)

  type Text = string
  type Envelope = map<string, Text>

  const DATA := "data"

  /** JSON coding, which this model does not look into. A request decodes to its model
      name and the raw bytes of its input; a response decodes to its raw members.
      `canonical` is the text of a JSON value without insignificant differences. */
  datatype Codec = Codec(
    request: Text -> Option<(string, Text)>,
    batch: Text -> Option<nat>,
    envelope: Text -> Option<Envelope>,
    items: Text -> Option<seq<Item>>,
    writeItems: seq<Item> -> Text,
    writeEnvelope: Envelope -> Text,
    canonical: Text -> Text)

  datatype Error =
    | BadRequest | MissingModel | MissingInput | BadBatch | EmptyBatch
    | BadEnvelope | MissingData | BadData | WrongCount
    | BadIndex(index: int) | DuplicateIndex(index: int) | EmptyVector(index: int) | MixedDimensions
    | NotFinite(index: int)

  datatype Result<+T> = Ok(value: T) | Err(error: Error)

  /** `DecodeEmbeddingRequest`: the raw input. */
  function DecodeRequest(codec: Codec, body: Text): (r: Result<Text>)
    ensures r.Ok? ==> r.value != "" && r.value != "null"
  {
    match codec.request(body)
    case None => Err(BadRequest)
    case Some((model, input)) =>
      if model == "" then Err(MissingModel)
      else if input == "" || input == "null" then Err(MissingInput)
      else Ok(input)
  }

  /** `InputCount`. */
  function InputCount(codec: Codec, input: Text): (r: Result<nat>)
    ensures r.Ok? ==> r.value >= 1
  {
    if input != "" && input[0] == '[' then
      match codec.batch(input)
      case None => Err(BadBatch)
      case Some(n) => if n == 0 then Err(EmptyBatch) else Ok(n)
    else Ok(1)
  }

  /** How many vectors the request asks for. */
  function Expected(codec: Codec, body: Text): (r: Result<nat>)
    ensures r.Ok? ==> r.value >= 1
  {
    match DecodeRequest(codec, body)
    case Err(e) => Err(e)
    case Ok(input) => InputCount(codec, input)
  }

  // ---------- What a good response is ----------

  predicate AllFinite(vector: seq<Float>) {
    forall i | 0 <= i < |vector| :: vector[i].Finite?
  }

  /** One item as it must be next to the first. */
  predicate GoodItem(items: seq<Item>, i: nat, expected: nat)
    requires i < |items|
  {
    && 0 <= items[i].index < expected
    && |items[i].vector| > 0
    && |items[i].vector| == |items[0].vector|
    && AllFinite(items[i].vector)
    && forall j | 0 <= j < i :: items[j].index != items[i].index
  }

  /** As many items as inputs, in-range distinct indexes, equal non-zero dimensions, finite values. */
  predicate Good(items: seq<Item>, expected: nat) {
    |items| == expected && forall i | 0 <= i < |items| :: GoodItem(items, i, expected)
  }

  /** The first `n` items carry their positions as indexes. */
  predicate InPlace(items: seq<Item>, n: nat)
    requires n <= |items|
  {
    forall i | 0 <= i < n :: items[i].index == i
  }

  predicate InOrder(items: seq<Item>) {
    InPlace(items, |items|)
  }

  // ---------- Sorting by index ----------

  function Insert(item: Item, sorted: seq<Item>): (r: seq<Item>)
    ensures multiset(r) == multiset(sorted) + multiset{item}
  {
    if sorted == [] then [item]
    else if item.index <= sorted[0].index then [item] + sorted
    else
      assert sorted == [sorted[0]] + sorted[1..];
      [sorted[0]] + Insert(item, sorted[1..])
  }

  /** `sort.Slice` by index. */
  function SortByIndex(items: seq<Item>): (r: seq<Item>)
    ensures multiset(r) == multiset(items)
    ensures |r| == |items|
  {
    if items == [] then []
    else
      assert items == [items[0]] + items[1..];
      var r := Insert(items[0], SortByIndex(items[1..]));
      assert |multiset(r)| == |multiset(items)|;
      r
  }

  predicate Ascending(items: seq<Item>) {
    forall i, j | 0 <= i < j < |items| :: items[i].index < items[j].index
  }

  predicate Distinct(items: seq<Item>) {
    forall i, j | 0 <= i < j < |items| :: items[i].index != items[j].index
  }

  lemma {:induction false} InsertAscends(item: Item, sorted: seq<Item>)
    requires Ascending(sorted) && forall k :: 0 <= k < |sorted| ==> sorted[k].index != item.index
    ensures Ascending(Insert(item, sorted))
  {
    if sorted != [] && item.index > sorted[0].index {
      var rest := Insert(item, sorted[1..]);
      InsertAscends(item, sorted[1..]);
      forall k | 0 <= k < |rest| ensures sorted[0].index < rest[k].index {
        assert rest[k] in multiset(rest);
        assert rest[k] in multiset(sorted[1..]) + multiset{item};
        if rest[k] != item {
          assert rest[k] in sorted[1..];
        }
      }
    }
  }

  lemma {:induction false} SortAscends(items: seq<Item>)
    requires Distinct(items)
    ensures Ascending(SortByIndex(items))
  {
    if items != [] {
      var rest := SortByIndex(items[1..]);
      SortAscends(items[1..]);
      forall k | 0 <= k < |rest| ensures rest[k].index != items[0].index {
        assert rest[k] in multiset(rest);
        assert rest[k] in items[1..];
      }
      InsertAscends(items[0], rest);
    }
  }

  lemma {:induction false} AtLeastPosition(items: seq<Item>, i: nat)
    requires Ascending(items) && i < |items| && items[0].index >= 0
    ensures items[i].index >= i
  {
    if i > 0 { AtLeastPosition(items, i - 1); }
  }

  lemma {:induction false} AtMostPosition(items: seq<Item>, i: nat)
    requires Ascending(items) && i < |items| && items[|items| - 1].index < |items|
    ensures items[i].index <= i
    decreases |items| - i
  {
    if i < |items| - 1 { AtMostPosition(items, i + 1); }
  }

  lemma GoodIsDistinct(items: seq<Item>, expected: nat)
    requires Good(items, expected)
    ensures Distinct(items) && forall i :: 0 <= i < |items| ==> 0 <= items[i].index < expected
  {
    forall i, j | 0 <= i < j < |items| ensures items[i].index != items[j].index {
      assert GoodItem(items, j, expected);
    }
    forall i | 0 <= i < |items| ensures 0 <= items[i].index < expected {
      assert GoodItem(items, i, expected);
    }
  }

  lemma SameMembers(a: seq<Item>, b: seq<Item>, i: nat)
    requires multiset(a) == multiset(b) && i < |a|
    ensures exists j :: 0 <= j < |b| && b[j] == a[i]
  {
    assert a[i] in multiset(b);
    assert a[i] in b;
  }

  /** Distinct indexes in range leave no gap: sorting puts index i at position i. */
  lemma GoodItemsSortIntoPlace(items: seq<Item>, expected: nat)
    requires Good(items, expected)
    ensures InOrder(SortByIndex(items))
  {
    var sorted := SortByIndex(items);
    GoodIsDistinct(items, expected);
    SortAscends(items);
    if items != [] {
      SameMembers(sorted, items, 0);
      SameMembers(sorted, items, |sorted| - 1);
      forall i | 0 <= i < |sorted| ensures sorted[i].index == i {
        AtLeastPosition(sorted, i);
        AtMostPosition(sorted, i);
      }
    }
  }

  /** Every requested index is answered by exactly one item, and it ends up at its position. */
  lemma EveryIndexIsAnswered(items: seq<Item>, expected: nat, i: nat) returns (j: nat)
    requires Good(items, expected) && i < expected
    ensures j < expected && items[j].index == i && SortByIndex(items)[i] == items[j]
    ensures forall k :: 0 <= k < expected && items[k].index == i ==> k == j
  {
    GoodItemsSortIntoPlace(items, expected);
    SameMembers(SortByIndex(items), items, i);
    j :| 0 <= j < |items| && items[j] == SortByIndex(items)[i];
    GoodIsDistinct(items, expected);
  }

  /** The result does not depend on how the sort works. */
  lemma OrderIsUnique(a: seq<Item>, b: seq<Item>)
    requires InOrder(a) && InOrder(b) && multiset(a) == multiset(b)
    ensures a == b
  {
    assert |a| == |multiset(a)| == |multiset(b)| == |b|;
    forall i | 0 <= i < |a| ensures a[i] == b[i] {
      assert a[i] in multiset(b);
      assert a[i] in b;
    }
  }

  // ---------- The whole normalisation ----------

  /** What is wrong with an item, in the order in which the code looks. */
  function Fault(items: seq<Item>, i: nat, expected: nat): Option<Error>
    requires i < |items|
  {
    var item := items[i];
    if item.index < 0 || item.index >= expected then Some(BadIndex(item.index))
    else if exists j | 0 <= j < i :: items[j].index == item.index then Some(DuplicateIndex(item.index))
    else if item.vector == [] then Some(EmptyVector(item.index))
    else if |item.vector| != |items[0].vector| then Some(MixedDimensions)
    else if !AllFinite(item.vector) then Some(NotFinite(item.index))
    else None
  }

  lemma FaultIff(items: seq<Item>, i: nat, expected: nat)
    requires i < |items|
    ensures Fault(items, i, expected) == None <==> GoodItem(items, i, expected)
  {
  }

  function FirstFault(items: seq<Item>, expected: nat, i: nat): (r: Option<Error>)
    requires i <= |items|
    ensures r == None <==> forall k :: i <= k < |items| ==> GoodItem(items, k, expected)
    decreases |items| - i
  {
    if i == |items| then None
    else
      FaultIff(items, i, expected);
      if Fault(items, i, expected).Some? then Fault(items, i, expected) else FirstFault(items, expected, i + 1)
  }

  /** Decoding of the response, up to the count check. */
  function Decoded(codec: Codec, expected: nat, response: Text): Result<(Envelope, seq<Item>)> {
    match codec.envelope(response)
    case None => Err(BadEnvelope)
    case Some(envelope) =>
      if DATA !in envelope then Err(MissingData)
      else
        match codec.items(envelope[DATA])
        case None => Err(BadData)
        case Some(items) => if |items| != expected then Err(WrongCount) else Ok((envelope, items))
  }

  function Normalized(codec: Codec, request: Text, response: Text): Result<Text> {
    match Expected(codec, request)
    case Err(e) => Err(e)
    case Ok(expected) =>
      match Decoded(codec, expected, response)
      case Err(e) => Err(e)
      case Ok((envelope, items)) =>
        match FirstFault(items, expected, 0)
        case Some(e) => Err(e)
        case None =>
          Ok(if InOrder(items) then response
             else codec.writeEnvelope(envelope[DATA := codec.writeItems(SortByIndex(items))]))
  }

  /** `normalizeEmbeddingResponse`. */
  method Normalize(codec: Codec, request: Text, response: Text) returns (result: Result<Text>)
    ensures result == Normalized(codec, request, response)
  {
    var input := DecodeRequest(codec, request);
    if input.Err? {
      return Err(input.error);
    }
    var count := InputCount(codec, input.value);
    if count.Err? {
      return Err(count.error);
    }
    var expected := count.value;
    var decoded := Decoded(codec, expected, response);
    if decoded.Err? {
      return Err(decoded.error);
    }
    var (envelope, items) := decoded.value;
    var fault, needsNormalization := Scan(items, expected);
    if fault.Some? {
      return Err(fault.value);
    }
    if !needsNormalization {
      return Ok(response);
    }
    var ordered := codec.writeItems(SortByIndex(items));
    envelope := envelope[DATA := ordered];
    return Ok(codec.writeEnvelope(envelope));
  }

  /** The validating loop. */
  method Scan(items: seq<Item>, expected: nat) returns (fault: Option<Error>, needsNormalization: bool)
    ensures fault == FirstFault(items, expected, 0)
    ensures fault == None ==> (needsNormalization <==> !InOrder(items))
  {
    var dimension := 0;
    needsNormalization := false;
    var seen: set<int> := {};
    for i := 0 to |items|
      invariant FirstFault(items, expected, 0) == FirstFault(items, expected, i)
      invariant forall k :: 0 <= k < i ==> |items[k].vector| > 0
      invariant dimension == if i == 0 then 0 else |items[0].vector|
      invariant seen == set k | 0 <= k < i :: items[k].index
      invariant |seen| == i
      invariant needsNormalization <==> !InPlace(items, i)
    {
      var item := items[i];
      if item.index < 0 || item.index >= expected {
        return Some(BadIndex(item.index)), needsNormalization;
      }
      if item.index in seen {
        return Some(DuplicateIndex(item.index)), needsNormalization;
      }
      seen := seen + {item.index};
      assert InPlace(items, i + 1) <==> InPlace(items, i) && item.index == i;
      if item.index != |seen| - 1 {
        needsNormalization := true;
      }
      if |item.vector| == 0 {
        return Some(EmptyVector(item.index)), needsNormalization;
      }
      if dimension == 0 {
        dimension := |item.vector|;
      } else if |item.vector| != dimension {
        return Some(MixedDimensions), needsNormalization;
      }
      var finite := FiniteOnly(item.vector);
      if !finite {
        return Some(NotFinite(item.index)), needsNormalization;
      }
    }
    fault := None;
  }

  method FiniteOnly(vector: seq<Float>) returns (finite: bool)
    ensures finite <==> AllFinite(vector)
  {
    for i := 0 to |vector|
      invariant forall k :: 0 <= k < i ==> vector[k].Finite?
    {
      if vector[i].NotANumber? || vector[i].Infinite? {
        return false;
      }
    }
    return true;
  }

  // ---------- What normalisation guarantees ----------

  /** The response is accepted exactly when the request is well formed and the items answer it. */
  ghost predicate Acceptable(codec: Codec, request: Text, response: Text) {
    && Expected(codec, request).Ok?
    && Decoded(codec, Expected(codec, request).value, response).Ok?
    && Good(Decoded(codec, Expected(codec, request).value, response).value.1, Expected(codec, request).value)
  }

  lemma AcceptedIff(codec: Codec, request: Text, response: Text)
    ensures Normalized(codec, request, response).Ok? <==> Acceptable(codec, request, response)
  {
  }

  ghost predicate SameMember(codec: Codec, a: Envelope, b: Envelope, key: string) {
    (key in a <==> key in b) && (key in a ==> codec.canonical(a[key]) == codec.canonical(b[key]))
  }

  /** What is assumed of JSON coding, and only for what one call writes: decoding the
      encoded items gives them back, and decoding the encoded envelope keeps every
      member up to its canonical text, the items among them. */
  ghost predicate ReadsBack(codec: Codec, envelope: Envelope, items: seq<Item>) {
    var written := envelope[DATA := codec.writeItems(items)];
    var read := codec.envelope(codec.writeEnvelope(written));
    && codec.items(codec.writeItems(items)) == Some(items)
    && read.Some?
    && (forall key :: SameMember(codec, read.value, written, key))
    && DATA in read.value && codec.items(read.value[DATA]) == Some(items)
  }

  /** A response that is accepted and, if it has to be rewritten, reads back. */
  ghost predicate Rewritable(codec: Codec, request: Text, response: Text) {
    && Acceptable(codec, request, response)
    && var (envelope, items) := Decoded(codec, Expected(codec, request).value, response).value;
       InOrder(items) || ReadsBack(codec, envelope, SortByIndex(items))
  }

  lemma OrderedStaysGood(items: seq<Item>, sorted: seq<Item>, expected: nat)
    requires Good(items, expected) && InOrder(sorted) && multiset(sorted) == multiset(items) && |sorted| == |items|
    ensures Good(sorted, expected)
  {
    forall i | 0 <= i < |sorted| ensures GoodItem(sorted, i, expected) {
      SameMembers(sorted, items, i);
      SameMembers(sorted, items, 0);
      var j :| 0 <= j < |items| && items[j] == sorted[i];
      var k :| 0 <= k < |items| && items[k] == sorted[0];
      assert GoodItem(items, j, expected) && GoodItem(items, k, expected);
    }
  }

  /** Reading back an envelope with rewritten data. */
  lemma OtherMembersKept(codec: Codec, envelope: Envelope, items: seq<Item>)
    requires ReadsBack(codec, envelope, items)
    ensures
      var read := codec.envelope(codec.writeEnvelope(envelope[DATA := codec.writeItems(items)]));
      forall key :: key != DATA ==> SameMember(codec, read.value, envelope, key)
  {
    var written := envelope[DATA := codec.writeItems(items)];
    var read := codec.envelope(codec.writeEnvelope(written)).value;
    forall key | key != DATA ensures SameMember(codec, read, envelope, key) {
      assert SameMember(codec, read, written, key);
    }
  }

  /** A successful result holds the accepted items with index i at position i and
      every other member of the envelope kept. */
  lemma ResultIsOrdered(codec: Codec, request: Text, response: Text)
    requires Rewritable(codec, request, response)
    ensures Normalized(codec, request, response).Ok?
    ensures
      var expected := Expected(codec, request).value;
      var (envelope, items) := Decoded(codec, expected, response).value;
      var result := Decoded(codec, expected, Normalized(codec, request, response).value);
      && result.Ok?
      && InOrder(result.value.1) && multiset(result.value.1) == multiset(items)
      && forall key :: key != DATA ==> SameMember(codec, result.value.0, envelope, key)
  {
    AcceptedIff(codec, request, response);
    var expected := Expected(codec, request).value;
    var (envelope, items) := Decoded(codec, expected, response).value;
    GoodItemsSortIntoPlace(items, expected);
    if !InOrder(items) {
      var sorted := SortByIndex(items);
      OtherMembersKept(codec, envelope, sorted);
    }
  }

  lemma OrderedIsKept(codec: Codec, request: Text, response: Text)
    requires Acceptable(codec, request, response)
    requires InOrder(Decoded(codec, Expected(codec, request).value, response).value.1)
    ensures Normalized(codec, request, response) == Ok(response)
  {
  }

  lemma ResultIsAcceptable(codec: Codec, request: Text, response: Text)
    requires Rewritable(codec, request, response)
    ensures
      var result := Normalized(codec, request, response);
      && result.Ok? && Acceptable(codec, request, result.value)
      && InOrder(Decoded(codec, Expected(codec, request).value, result.value).value.1)
  {
    ResultIsOrdered(codec, request, response);
    var expected := Expected(codec, request).value;
    var items := Decoded(codec, expected, response).value.1;
    var ordered := Decoded(codec, expected, Normalized(codec, request, response).value).value.1;
    assert |ordered| == |multiset(ordered)| == |multiset(items)| == |items|;
    OrderedStaysGood(items, ordered, expected);
  }

  /** The bytes are handed through unchanged exactly when the items were already in
      order, and normalising twice is normalising once. */
  lemma UnchangedIffOrdered(codec: Codec, request: Text, response: Text)
    requires Rewritable(codec, request, response)
    ensures
      var items := Decoded(codec, Expected(codec, request).value, response).value.1;
      Normalized(codec, request, response) == Ok(response) <==> InOrder(items)
    ensures
      var once := Normalized(codec, request, response);
      once.Ok? && Normalized(codec, request, once.value) == once
  {
    ResultIsAcceptable(codec, request, response);
    OrderedIsKept(codec, request, Normalized(codec, request, response).value);
    if InOrder(Decoded(codec, Expected(codec, request).value, response).value.1) {
      OrderedIsKept(codec, request, response);
    }
  }

  // ---------- Acceptance, result and errors, said of the decoded texts alone ----------

  /** The request asks for `n` vectors: one for a single input, one per element of an array. */
  ghost predicate AsksFor(codec: Codec, request: Text, n: nat) {
    && codec.request(request).Some?
    && var (model, input) := codec.request(request).value;
       && model != "" && input != "" && input != "null"
       && if input[0] == '[' then codec.batch(input) == Some(n) && n >= 1 else n == 1
  }

  /** The response decodes to that envelope and these items. */
  ghost predicate Holds(codec: Codec, response: Text, envelope: Envelope, items: seq<Item>) {
    codec.envelope(response) == Some(envelope) && "data" in envelope && codec.items(envelope["data"]) == Some(items)
  }

  /** The items are `n`, with distinct indexes below `n`, and finite vectors of one non-zero length. */
  ghost predicate AnswerAll(items: seq<Item>, n: nat) {
    && |items| == n
    && (forall i :: 0 <= i < n ==> 0 <= items[i].index < n)
    && (forall i, j :: 0 <= i < j < n ==> items[i].index != items[j].index)
    && (forall i :: 0 <= i < n ==> |items[i].vector| == |items[0].vector| > 0)
    && (forall i, k :: 0 <= i < n && 0 <= k < |items[i].vector| ==> items[i].vector[k].Finite?)
  }

  lemma GoodIff(items: seq<Item>, n: nat)
    ensures Good(items, n) <==> AnswerAll(items, n)
  {
    if Good(items, n) {
      GoodIsDistinct(items, n);
      forall i | 0 <= i < n ensures |items[i].vector| == |items[0].vector| > 0 && AllFinite(items[i].vector) {
        assert GoodItem(items, i, n);
      }
    }
    if AnswerAll(items, n) {
      forall i | 0 <= i < |items| ensures GoodItem(items, i, n) {}
    }
  }

  lemma ExpectedIff(codec: Codec, request: Text, n: nat)
    ensures Expected(codec, request) == Ok(n) <==> AsksFor(codec, request, n)
  {
  }

  lemma DecodedIff(codec: Codec, response: Text, n: nat, envelope: Envelope, items: seq<Item>)
    ensures Decoded(codec, n, response) == Ok((envelope, items)) <==>
            Holds(codec, response, envelope, items) && |items| == n
  {
  }

  /** Success, exactly: the request asks for some number of vectors, and the response
      holds items that answer them all. */
  lemma AcceptsExactly(codec: Codec, request: Text, response: Text)
    ensures Normalized(codec, request, response).Ok? <==>
            exists n: nat, envelope: Envelope, items: seq<Item> ::
              AsksFor(codec, request, n) && Holds(codec, response, envelope, items) && AnswerAll(items, n)
  {
    AcceptedIff(codec, request, response);
    if Normalized(codec, request, response).Ok? {
      var n := Expected(codec, request).value;
      var (envelope, items) := Decoded(codec, n, response).value;
      ExpectedIff(codec, request, n);
      GoodIff(items, n);
      assert AsksFor(codec, request, n) && Holds(codec, response, envelope, items);
    }
    if n: nat, envelope: Envelope, items: seq<Item> :|
      AsksFor(codec, request, n) && Holds(codec, response, envelope, items) && AnswerAll(items, n)
    {
      ExpectedIff(codec, request, n);
      GoodIff(items, n);
    }
  }

  /** The result: the response itself if its items are in order, and otherwise an
      envelope with the same items in order and every other member kept. */
  lemma NormalizedIs(codec: Codec, request: Text, response: Text, n: nat, envelope: Envelope, items: seq<Item>)
    requires AsksFor(codec, request, n) && Holds(codec, response, envelope, items) && AnswerAll(items, n)
    requires (forall i :: 0 <= i < n ==> items[i].index == i) || ReadsBack(codec, envelope, SortByIndex(items))
    ensures Normalized(codec, request, response).Ok?
    ensures
      var result := Normalized(codec, request, response).value;
      && (result == response <==> forall i :: 0 <= i < n ==> items[i].index == i)
      && exists read: Envelope, sorted: seq<Item> ::
           && Holds(codec, result, read, sorted) && multiset(sorted) == multiset(items)
           && (forall i :: 0 <= i < |sorted| ==> sorted[i].index == i)
           && forall key :: key != "data" ==> SameMember(codec, read, envelope, key)
  {
    AcceptsExactly(codec, request, response);
    ExpectedIff(codec, request, n);
    DecodedIff(codec, response, n, envelope, items);
    GoodIff(items, n);
    ResultIsOrdered(codec, request, response);
    UnchangedIffOrdered(codec, request, response);
    var result := Normalized(codec, request, response).value;
    var (read, sorted) := Decoded(codec, n, result).value;
    DecodedIff(codec, result, n, read, sorted);
    assert Holds(codec, result, read, sorted);
  }

  /** The item at `i` is the first that is not as it should be, and the error tells why. */
  ghost predicate Blames(items: seq<Item>, i: nat, n: nat, error: Error)
    requires i < |items|
  {
    var item := items[i];
    match error
    case BadIndex(index) => item.index == index && !(0 <= index < n)
    case DuplicateIndex(index) => item.index == index && exists j :: 0 <= j < i && items[j].index == index
    case EmptyVector(index) => item.index == index && |item.vector| == 0
    case MixedDimensions => |item.vector| != |items[0].vector| && |item.vector| > 0
    case NotFinite(index) => item.index == index && exists k :: 0 <= k < |item.vector| && !item.vector[k].Finite?
    case _ => false
  }

  lemma {:induction false} FirstFaultBlames(items: seq<Item>, n: nat, i: nat) returns (k: nat)
    requires i <= |items| && FirstFault(items, n, i).Some?
    ensures i <= k < |items| && Blames(items, k, n, FirstFault(items, n, i).value)
    ensures forall j :: i <= j < k ==> GoodItem(items, j, n)
    decreases |items| - i
  {
    FaultIff(items, i, n);
    if Fault(items, i, n).Some? {
      k := i;
    } else {
      k := FirstFaultBlames(items, n, i + 1);
    }
  }

  /** Every error tells the truth about request or response. */
  lemma ErrorsAreTrue(codec: Codec, request: Text, response: Text, error: Error)
    requires Normalized(codec, request, response) == Err(error)
    ensures
      match error
      case BadRequest => codec.request(request).None?
      case MissingModel => codec.request(request).Some? && codec.request(request).value.0 == ""
      case MissingInput => codec.request(request).Some? && codec.request(request).value.1 in ["", "null"]
      case BadBatch => codec.request(request).Some? && codec.batch(codec.request(request).value.1).None?
      case EmptyBatch => codec.request(request).Some? && codec.batch(codec.request(request).value.1) == Some(0)
      case BadEnvelope => codec.envelope(response).None?
      case MissingData => codec.envelope(response).Some? && "data" !in codec.envelope(response).value
      case BadData =>
        && codec.envelope(response).Some? && "data" in codec.envelope(response).value
        && codec.items(codec.envelope(response).value["data"]).None?
      case WrongCount =>
        exists n: nat, envelope: Envelope, items: seq<Item> ::
          AsksFor(codec, request, n) && Holds(codec, response, envelope, items) && |items| != n
      case _ =>
        exists n: nat, envelope: Envelope, items: seq<Item>, i: nat ::
          && AsksFor(codec, request, n) && Holds(codec, response, envelope, items) && |items| == n
          && i < n && Blames(items, i, n, error)
  {
    if Expected(codec, request).Ok? {
      var n := Expected(codec, request).value;
      ExpectedIff(codec, request, n);
      var decoded := Decoded(codec, n, response);
      if decoded.Ok? {
        var (envelope, items) := decoded.value;
        DecodedIff(codec, response, n, envelope, items);
        var i := FirstFaultBlames(items, n, 0);
        assert AsksFor(codec, request, n) && Holds(codec, response, envelope, items) && Blames(items, i, n, error);
      } else if error == WrongCount {
        var envelope := codec.envelope(response).value;
        var items := codec.items(envelope[DATA]).value;
        assert AsksFor(codec, request, n) && Holds(codec, response, envelope, items);
      }
    }
  }

  // ---------- A response that has to be rewritten ----------

  const VECTOR := [Finite(1)]
  const SWAPPED := [Item(1, VECTOR), Item(0, VECTOR)]
  const ORDERED := [Item(0, VECTOR), Item(1, VECTOR)]

  /** Coding of two inputs, their swapped vectors, and what is written for them. */
  function TwoInputs(): Codec {
    Codec((body: Text) => Some(("model", "[")), (input: Text) => Some(2),
          (response: Text) => Some(map[DATA := response]),
          (data: Text) => Some(if data == "swapped" then SWAPPED else ORDERED),
          (items: seq<Item>) => "ordered",
          (envelope: Envelope) => if DATA in envelope then envelope[DATA] else "",
          (text: Text) => text)
  }

  lemma SwappedSorts()
    ensures Good(SWAPPED, 2) && !InOrder(SWAPPED) && SortByIndex(SWAPPED) == ORDERED
  {
    assert GoodItem(SWAPPED, 0, 2) && GoodItem(SWAPPED, 1, 2);
    assert SortByIndex(SWAPPED[1..]) == [SWAPPED[1]];
  }

  lemma SwappedReadsBack()
    ensures ReadsBack(TwoInputs(), map[DATA := "swapped"], ORDERED)
  {
    assert map[DATA := "swapped"][DATA := "ordered"] == map[DATA := "ordered"];
    assert "swapped"[0] != "ordered"[0];
  }

  /** What the two theorems above assume can be met by a response that is out of
      order, and that response is then changed. */
  lemma RewritingHappens()
    ensures Rewritable(TwoInputs(), "request", "swapped")
    ensures Normalized(TwoInputs(), "request", "swapped") == Ok("ordered")
  {
    SwappedSorts();
    SwappedReadsBack();
  }
}
