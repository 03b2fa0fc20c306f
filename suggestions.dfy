/** Suggestion assembly: the autocomplete predictions, one detail lookup per
    prediction, and the merge of the two into one suggestion per prediction. */
module Suggestions {
  import opened Js
  import opened Pipeline
  import opened Memo

  /** `{ name: [main_text, secondary_text], addressComponents, geometry }` */
  datatype Suggestion = Suggestion(mainText: Value, secondaryText: Value, addressComponents: Value, geometry: Value)

  /** The detail lookup `getPlaceDetails(placeId, language)`. */
  type Lookup = (Value, string) -> Result<Value>

  /** `formatShort`: the two parts of `structured_formatting`. */
  function FormatShort(short: Value): (r: Result<(Value, Value)>)
    ensures r.Success? <==> !Nullish(short) && !Nullish(Get(short, "structured_formatting").value)
    ensures r.Success? ==>
      var sf := Get(short, "structured_formatting").value;
      r.value == (Get(sf, "main_text").value, Get(sf, "secondary_text").value)
    ensures r.Failure? ==> r.error.TypeError?
  {
    var sf :- Get(short, "structured_formatting");
    var main :- Get(sf, "main_text");
    // sf is not null or undefined here, so its second read cannot throw
    Success((main, Get(sf, "secondary_text").value))
  }

  /** `formatDetail`: `address_components` and `geometry` of `.result`. */
  function FormatDetail(detail: Value): (r: Result<(Value, Value)>)
    ensures r.Success? <==> !Nullish(detail) && !Nullish(Get(detail, "result").value)
    ensures r.Success? ==>
      var result := Get(detail, "result").value;
      r.value == (Get(result, "address_components").value, Get(result, "geometry").value)
    ensures r.Failure? ==> r.error.TypeError?
  {
    var result :- Get(detail, "result");
    var components :- Get(result, "address_components");
    Success((components, Get(result, "geometry").value))
  }

  /** `({ ...formatShort(short), ...formatDetail(detail) })` */
  function Merge(short: Value, detail: Value): (r: Result<Suggestion>)
    ensures r.Success? <==> FormatShort(short).Success? && FormatDetail(detail).Success?
    ensures r.Success? ==>
      && FormatShort(short).value == (r.value.mainText, r.value.secondaryText)
      && FormatDetail(detail).value == (r.value.addressComponents, r.value.geometry)
    // `formatShort` runs first, so its TypeError wins
    ensures FormatShort(short).Failure? ==> r.error == FormatShort(short).error
    ensures FormatShort(short).Success? && FormatDetail(detail).Failure? ==> r.error == FormatDetail(detail).error
  {
    var name :- FormatShort(short);
    var rest :- FormatDetail(detail);
    Success(Suggestion(name.0, name.1, rest.0, rest.1))
  }

  /** The detail of one prediction, looked up with `(short.place_id, language)`. */
  function DetailOf(short: Value, language: string, lookup: Lookup): (r: Result<Value>)
    ensures Nullish(short) ==> r == Failure(TypeError("place_id"))
    ensures !Nullish(short) ==> r == lookup(Get(short, "place_id").value, language)
  {
    var placeId :- Get(short, "place_id");
    lookup(placeId, language)
  }

  /** The `[short, detail]` pairs that `Promise.all` resolves with: one per
      prediction, in prediction order; the first failing lookup fails them all. */
  function LookupAll(predictions: seq<Value>, language: string, lookup: Lookup): (r: Result<seq<(Value, Value)>>)
    ensures r.Success? <==> forall i :: 0 <= i < |predictions| ==> DetailOf(predictions[i], language, lookup).Success?
    ensures r.Success? ==>
      && |r.value| == |predictions|
      && forall i :: 0 <= i < |predictions| ==>
           r.value[i] == (predictions[i], DetailOf(predictions[i], language, lookup).value)
    ensures r.Failure? ==>
      exists i :: (0 <= i < |predictions| && FirstFailing(predictions, language, lookup, i)
                   && r.error == DetailOf(predictions[i], language, lookup).error)
    decreases |predictions|
  {
    if |predictions| == 0 then Success([])
    else
      var detail :- DetailOf(predictions[0], language, lookup);
      var rest :- LookupAll(predictions[1..], language, lookup);
      Success([(predictions[0], detail)] + rest)
  }

  /** Lookup `i` fails and every one before it succeeds. */
  ghost predicate FirstFailing(predictions: seq<Value>, language: string, lookup: Lookup, i: nat)
    requires i < |predictions|
  {
    && DetailOf(predictions[i], language, lookup).Failure?
    && forall j :: 0 <= j < i ==> DetailOf(predictions[j], language, lookup).Success?
  }

  /** The merge step over the pairs, in order; the first merge that throws
      fails the whole list. */
  function MergeAll(pairs: seq<(Value, Value)>): (r: Result<seq<Suggestion>>)
    ensures r.Success? <==> forall i :: 0 <= i < |pairs| ==> Merge(pairs[i].0, pairs[i].1).Success?
    ensures r.Success? ==>
      && |r.value| == |pairs|
      && forall i :: 0 <= i < |pairs| ==> r.value[i] == Merge(pairs[i].0, pairs[i].1).value
    ensures r.Failure? ==>
      exists i :: (0 <= i < |pairs| && FirstFailingMerge(pairs, i)
                   && r.error == Merge(pairs[i].0, pairs[i].1).error)
    decreases |pairs|
  {
    if |pairs| == 0 then Success([])
    else
      var first :- Merge(pairs[0].0, pairs[0].1);
      var rest :- MergeAll(pairs[1..]);
      Success([first] + rest)
  }

  /** Merge `i` throws and every one before it succeeds. */
  ghost predicate FirstFailingMerge(pairs: seq<(Value, Value)>, i: nat)
    requires i < |pairs|
  {
    && Merge(pairs[i].0, pairs[i].1).Failure?
    && forall j :: 0 <= j < i ==> Merge(pairs[j].0, pairs[j].1).Success?
  }

  /** The operation that `getPlaceSuggestions` memoizes, for the autocomplete
      request the caller built: fetch, take `predictions`, look up every detail,
      merge. */
  function PlaceSuggestions(lib: Library, request: Value, language: string, lookup: Lookup): Result<seq<Suggestion>> {
    var data :- FetchJSON(lib, request);
    var predictions :- Get(data, "predictions");
    if !predictions.Arr? then Failure(TypeError("map"))
    else
      var pairs :- LookupAll(predictions.items, language, lookup);
      MergeAll(pairs)
  }

  /** On success there is exactly one suggestion per prediction, in prediction
      order: its name comes from the prediction, its address components and
      geometry from `.result` of the detail looked up with the prediction's
      `place_id` and the language. */
  lemma PlaceSuggestionsInOrder(lib: Library, request: Value, language: string, lookup: Lookup)
    requires PlaceSuggestions(lib, request, language, lookup).Success?
    ensures FetchJSON(lib, request).Success?
    ensures var predictions := Get(FetchJSON(lib, request).value, "predictions");
      var r := PlaceSuggestions(lib, request, language, lookup).value;
      && predictions.Success? && predictions.value.Arr?
      && |r| == |predictions.value.items|
      && forall i :: 0 <= i < |r| ==>
           var short := predictions.value.items[i];
           && DetailOf(short, language, lookup).Success?
           && FormatShort(short) == Success((r[i].mainText, r[i].secondaryText))
           && FormatDetail(DetailOf(short, language, lookup).value) == Success((r[i].addressComponents, r[i].geometry))
  {
  }

  /** A failed autocomplete fetch is the list's failure: no lookup is made. */
  lemma FetchFailurePropagates(lib: Library, request: Value, language: string, lookup: Lookup)
    requires FetchJSON(lib, request).Failure?
    ensures PlaceSuggestions(lib, request, language, lookup) == Failure(FetchJSON(lib, request).error)
  {
  }

  /** When every lookup succeeds but a merge throws, the list fails with the
      error of the first merge that throws. */
  lemma PlaceSuggestionsFailOnMergeFailure(lib: Library, request: Value, language: string, lookup: Lookup, i: nat)
    requires FetchJSON(lib, request).Success?
    requires Get(FetchJSON(lib, request).value, "predictions").Success?
    requires Get(FetchJSON(lib, request).value, "predictions").value.Arr?
    requires var items := Get(FetchJSON(lib, request).value, "predictions").value.items;
      && (forall j :: 0 <= j < |items| ==> DetailOf(items[j], language, lookup).Success?)
      && i < |items| && Merge(items[i], DetailOf(items[i], language, lookup).value).Failure?
    ensures var items := Get(FetchJSON(lib, request).value, "predictions").value.items;
      var pairs := LookupAll(items, language, lookup).value;
      var r := PlaceSuggestions(lib, request, language, lookup);
      && r.Failure?
      && exists j :: 0 <= j <= i && FirstFailingMerge(pairs, j)
           && r.error == Merge(pairs[j].0, pairs[j].1).error
  {
    var items := Get(FetchJSON(lib, request).value, "predictions").value.items;
    var pairs := LookupAll(items, language, lookup);
    assert pairs.Success?;
    assert pairs.value[i] == (items[i], DetailOf(items[i], language, lookup).value);
    SuggestionsAreMerged(lib, request, language, lookup);
    MergeFailure(pairs.value, i);
  }

  /** Once every lookup has succeeded, the list is the merge of the pairs. */
  lemma SuggestionsAreMerged(lib: Library, request: Value, language: string, lookup: Lookup)
    requires FetchJSON(lib, request).Success?
    requires Get(FetchJSON(lib, request).value, "predictions").Success?
    requires Get(FetchJSON(lib, request).value, "predictions").value.Arr?
    requires LookupAll(Get(FetchJSON(lib, request).value, "predictions").value.items, language, lookup).Success?
    ensures PlaceSuggestions(lib, request, language, lookup) ==
      MergeAll(LookupAll(Get(FetchJSON(lib, request).value, "predictions").value.items, language, lookup).value)
  {
  }

  /** A merge that throws fails the whole merge step, with the error of the
      first merge that throws, at or before it. */
  lemma MergeFailure(pairs: seq<(Value, Value)>, i: nat)
    requires i < |pairs| && Merge(pairs[i].0, pairs[i].1).Failure?
    ensures MergeAll(pairs).Failure?
    ensures exists j :: (0 <= j <= i && FirstFailingMerge(pairs, j)
                         && MergeAll(pairs).error == Merge(pairs[j].0, pairs[j].1).error)
  {
    var merged := MergeAll(pairs);
    assert merged.Failure?;
    var j :| 0 <= j < |pairs| && FirstFailingMerge(pairs, j)
             && merged.error == Merge(pairs[j].0, pairs[j].1).error;
    assert j <= i;
  }

  /** Conversely, when every lookup and every merge succeeds, so does the list. */
  lemma PlaceSuggestionsSucceed(lib: Library, request: Value, language: string, lookup: Lookup)
    requires FetchJSON(lib, request).Success?
    requires Get(FetchJSON(lib, request).value, "predictions").Success?
    requires Get(FetchJSON(lib, request).value, "predictions").value.Arr?
    requires var items := Get(FetchJSON(lib, request).value, "predictions").value.items;
      forall i :: 0 <= i < |items| ==>
        && DetailOf(items[i], language, lookup).Success?
        && Merge(items[i], DetailOf(items[i], language, lookup).value).Success?
    ensures PlaceSuggestions(lib, request, language, lookup).Success?
  {
    var items := Get(FetchJSON(lib, request).value, "predictions").value.items;
    var pairs := LookupAll(items, language, lookup);
    assert pairs.Success?;
    assert forall i :: 0 <= i < |pairs.value| ==> Merge(pairs.value[i].0, pairs.value[i].1).Success?;
  }

  /** One failing detail lookup fails the whole list: there are no partial
      results. The error is that of the first failing lookup. */
  lemma PlaceSuggestionsFailOnLookupFailure(lib: Library, request: Value, language: string, lookup: Lookup, i: nat)
    requires FetchJSON(lib, request).Success?
    requires Get(FetchJSON(lib, request).value, "predictions").Success?
    requires Get(FetchJSON(lib, request).value, "predictions").value.Arr?
    requires var items := Get(FetchJSON(lib, request).value, "predictions").value.items;
      i < |items| && DetailOf(items[i], language, lookup).Failure?
    ensures var items := Get(FetchJSON(lib, request).value, "predictions").value.items;
      var r := PlaceSuggestions(lib, request, language, lookup);
      && r.Failure?
      && exists j :: 0 <= j <= i && FirstFailing(items, language, lookup, j)
           && r.error == DetailOf(items[j], language, lookup).error
  {
    var items := Get(FetchJSON(lib, request).value, "predictions").value.items;
    var pairs := LookupAll(items, language, lookup);
    assert pairs.Failure?;
    var j :| 0 <= j < |items| && FirstFailing(items, language, lookup, j)
             && pairs.error == DetailOf(items[j], language, lookup).error;
    assert j <= i;
  }

  /** For the shapes the places API documents, the merge picks `main_text`,
      `secondary_text`, `result.address_components` and `result.geometry`. */
  lemma MergeOfApiShapes(prediction: map<string, Value>, formatting: map<string, Value>,
                         detail: map<string, Value>, result: map<string, Value>)
    requires "structured_formatting" in prediction && prediction["structured_formatting"] == Obj(formatting)
    requires "result" in detail && detail["result"] == Obj(result)
    ensures Merge(Obj(prediction), Obj(detail)) == Success(Suggestion(
      Get(Obj(formatting), "main_text").value, Get(Obj(formatting), "secondary_text").value,
      Get(Obj(result), "address_components").value, Get(Obj(result), "geometry").value))
  {
  }

  /** As written, the detail lookup is memoized, and the memoized call resolves
      to the cache map `{ [key]: detail }`, which has no `result`. Whenever the
      lookups have that shape, any non-empty prediction list fails. */
  lemma AsWrittenSuggestionsFail(lib: Library, request: Value, language: string, lookup: Lookup)
    requires forall placeId, lang :: lookup(placeId, lang).Success? ==>
      Get(lookup(placeId, lang).value, "result") == Success(Undefined)
    requires FetchJSON(lib, request).Success?
    requires Get(FetchJSON(lib, request).value, "predictions").Success?
    requires Get(FetchJSON(lib, request).value, "predictions").value.Arr?
    requires |Get(FetchJSON(lib, request).value, "predictions").value.items| > 0
    ensures PlaceSuggestions(lib, request, language, lookup).Failure?
  {
    var items := Get(FetchJSON(lib, request).value, "predictions").value.items;
    var pairs := LookupAll(items, language, lookup);
    if pairs.Success? {
      var detail := DetailOf(items[0], language, lookup);
      var placeId := Get(items[0], "place_id").value;
      assert detail == lookup(placeId, language);
      assert FormatDetail(pairs.value[0].1).Failure?;
      assert Merge(pairs.value[0].0, pairs.value[0].1).Failure?;
    }
  }

  // A worked input: one prediction "A" whose detail lookup succeeds.

  const ExamplePrediction: Value :=
    Obj(map["place_id" := Str("A"),
            "structured_formatting" := Obj(map["main_text" := Str("Main"), "secondary_text" := Str("Sub")])])

  const ExampleEnvelope: Value := Obj(map["status" := Str("OK"), "predictions" := Arr([ExamplePrediction])])

  const ExampleLibrary: Library :=
    var pass: Stage := x => Success(x);
    Library(pass, pass, pass, pass, _ => Success(Obj(map["data" := ExampleEnvelope])), pass)

  const ExampleRequest: Value := Obj(map["url" := Str("autocomplete")])

  const ExampleDetails: Operation :=
    _ => Success(Obj(map["status" := Str("OK"),
                         "result" := Obj(map["address_components" := Arr([]), "geometry" := Obj(map[])])]))

  /** `getPlaceDetails` as written, for string place ids. The example's only
      place id is a string; the failure for other place ids stands in for
      requests whose key the model does not encode and is not in the source,
      which would send them. */
  const ExampleMemoizedLookup: Lookup :=
    (placeId: Value, lang: string) =>
      if placeId.Str? then MemoStep(InMemory(map[]), ExampleDetails, [placeId.s, lang]).result
      else Failure(TypeError("place_id"))

  /** A lookup that returns the detail itself, as the corrected cache does; its
      branch for non-string place ids is outside the source, as above. */
  const ExampleDirectLookup: Lookup :=
    (placeId: Value, lang: string) =>
      if placeId.Str? then ExampleDetails([placeId.s, lang]) else Failure(TypeError("place_id"))

  lemma ExampleFetch()
    ensures FetchJSON(ExampleLibrary, ExampleRequest) == Success(ExampleEnvelope)
  {
    FetchJSONSuccess(ExampleLibrary, ExampleRequest, ExampleEnvelope);
  }

  /** With the memoized lookup as written the list fails. */
  lemma AsWrittenExampleFails()
    ensures PlaceSuggestions(ExampleLibrary, ExampleRequest, "en", ExampleMemoizedLookup).Failure?
  {
    ExampleFetch();
    assert Get(ExampleEnvelope, "predictions") == Success(Arr([ExamplePrediction]));
    forall placeId, lang | ExampleMemoizedLookup(placeId, lang).Success?
      ensures Get(ExampleMemoizedLookup(placeId, lang).value, "result") == Success(Undefined)
    {
      MemoizeResultHasNoResultField(ExampleDetails, [placeId.s, lang]);
    }
    AsWrittenSuggestionsFail(ExampleLibrary, ExampleRequest, "en", ExampleMemoizedLookup);
  }

  lemma ExampleDetailFound()
    ensures Get(ExampleEnvelope, "predictions") == Success(Arr([ExamplePrediction]))
    ensures DetailOf(ExamplePrediction, "en", ExampleDirectLookup) == ExampleDetails(["A", "en"])
  {
  }

  lemma ExampleFormats()
    ensures FormatShort(ExamplePrediction) == Success((Str("Main"), Str("Sub")))
    ensures FormatDetail(ExampleDetails(["A", "en"]).value) == Success((Arr([]), Obj(map[])))
  {
  }

  /** With a lookup that yields the detail itself it is the one expected suggestion. */
  lemma CorrectedExampleSucceeds()
    ensures PlaceSuggestions(ExampleLibrary, ExampleRequest, "en", ExampleDirectLookup)
              == Success([Suggestion(Str("Main"), Str("Sub"), Arr([]), Obj(map[]))])
  {
    ExampleFetch();
    ExampleDetailFound();
    ExampleFormats();
    var detail := ExampleDetails(["A", "en"]).value;
    var pairs := LookupAll([ExamplePrediction], "en", ExampleDirectLookup);
    assert pairs.value == [(ExamplePrediction, detail)];
    var expected := Suggestion(Str("Main"), Str("Sub"), Arr([]), Obj(map[]));
    assert Merge(ExamplePrediction, detail) == Success(expected);
    var merged := MergeAll(pairs.value);
    assert merged.Success? && |merged.value| == 1 && merged.value[0] == expected;
    assert merged.value == [expected];
  }
}
