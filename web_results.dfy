/**
 * QueryEngine.parse_google_results and QueryEngine.parse_bing_results: turning
 * a decoded web-search response into a list of `{title, snippet, url}` records.
 *
 * Each parser is a loop that appends one record per item (the methods
 * ParseGoogleResults and ParseBingResults).  Each is proved equal to a
 * specification function (GoogleResults, BingResults), and the lemmas state
 * what that specification promises.
 */
module WebResults {
  import opened PyJson
  import opened ResultLoop

  /** The three keys of every web result record. */
  const WebKeys: set<string> := {"title", "snippet", "url"}

  /** The record for one Google item: `title`, `snippet` and `link` renamed to `url`. */
  function GoogleRecord(item: Json): (r: Result<Record>)
    ensures r.Ok? <==> Has(item, "title") && Has(item, "snippet") && Has(item, "link")
    ensures r.Ok? ==>
      && r.value.Keys == WebKeys
      && r.value["title"] == item.fields["title"]
      && r.value["snippet"] == item.fields["snippet"]
      && r.value["url"] == item.fields["link"]
    // the dict literal is evaluated key by key, so the first missing key is reported
    ensures r.Err? && item.JObject? ==>
      r.error == KeyError(if "title" !in item.fields then "title"
                          else if "snippet" !in item.fields then "snippet"
                          else "link")
    ensures !item.JObject? ==> r == Err(TypeError)
  {
    var title :- Subscript(item, "title");
    var snippet :- Subscript(item, "snippet");
    var url :- Subscript(item, "link");
    Ok(map["title" := title, "snippet" := snippet, "url" := url])
  }

  /** The record for one Bing item: `name` renamed to `title`, `snippet`, `url`. */
  function BingRecord(item: Json): (r: Result<Record>)
    ensures r.Ok? <==> Has(item, "name") && Has(item, "snippet") && Has(item, "url")
    ensures r.Ok? ==>
      && r.value.Keys == WebKeys
      && r.value["title"] == item.fields["name"]
      && r.value["snippet"] == item.fields["snippet"]
      && r.value["url"] == item.fields["url"]
    ensures r.Err? && item.JObject? ==>
      r.error == KeyError(if "name" !in item.fields then "name"
                          else if "snippet" !in item.fields then "snippet"
                          else "url")
    ensures !item.JObject? ==> r == Err(TypeError)
  {
    var title :- Subscript(item, "name");
    var snippet :- Subscript(item, "snippet");
    var url :- Subscript(item, "url");
    Ok(map["title" := title, "snippet" := snippet, "url" := url])
  }

  /** What `parse_google_results(results)` returns or raises. */
  function GoogleResults(results: Json): (r: Result<seq<Record>>)
    ensures !results.JObject? ==> r == Err(AttributeError)
    ensures results.JObject? && "items" !in results.fields ==> r == Ok([])
  {
    var items :- Get(results, "items", JArray([]));
    var elems :- Iterate(items);
    Collect(elems, GoogleRecord)
  }

  /** What `parse_bing_results(results)` returns or raises. */
  function BingResults(results: Json): (r: Result<seq<Record>>)
    ensures !results.JObject? ==> r == Err(AttributeError)
    ensures results.JObject? && "webPages" !in results.fields ==> r == Ok([])
    ensures Has(results, "webPages") && !results.fields["webPages"].JObject? ==> r == Err(AttributeError)
    ensures (Has(results, "webPages") && results.fields["webPages"].JObject? &&
             "value" !in results.fields["webPages"].fields) ==> r == Ok([])
  {
    var pages :- Get(results, "webPages", JObject(map[]));
    var value :- Get(pages, "value", JArray([]));
    var elems :- Iterate(value);
    Collect(elems, BingRecord)
  }

  /** `results["items"]` is the list `items`. */
  predicate GoogleItemsAre(results: Json, items: seq<Json>)
  {
    Has(results, "items") && results.fields["items"] == JArray(items)
  }

  /** `results["webPages"]["value"]` is the list `items`. */
  predicate BingItemsAre(results: Json, items: seq<Json>)
  {
    && Has(results, "webPages")
    && Has(results.fields["webPages"], "value")
    && results.fields["webPages"].fields["value"] == JArray(items)
  }

  /**
   * Google parsing succeeds exactly when every item carries `title`, `snippet`
   * and `link`, and then yields one record per item, in item order, holding
   * exactly the keys title, snippet and url taken from title, snippet and link.
   */
  lemma GoogleOnePerItem(results: Json, items: seq<Json>)
    requires GoogleItemsAre(results, items)
    ensures GoogleResults(results).Ok? <==>
      forall i | 0 <= i < |items| :: Has(items[i], "title") && Has(items[i], "snippet") && Has(items[i], "link")
    ensures GoogleResults(results).Ok? ==>
      var r := GoogleResults(results).value;
      && |r| == |items|
      && forall i | 0 <= i < |items| ::
           && r[i].Keys == WebKeys
           && r[i]["title"] == items[i].fields["title"]
           && r[i]["snippet"] == items[i].fields["snippet"]
           && r[i]["url"] == items[i].fields["link"]
  {
    assert GoogleResults(results) == Collect(items, GoogleRecord);
    CollectOkIff(items, GoogleRecord);
    if GoogleResults(results).Ok? {
      CollectPointwise(items, GoogleRecord);
    }
  }

  /**
   * Google parsing never skips an item and never returns part of a list: when
   * it fails, it raises the KeyError or TypeError of the first item lacking
   * one of the three keys, and every earlier item was complete.
   */
  lemma GoogleFailsAtFirstIncompleteItem(results: Json, items: seq<Json>) returns (k: nat)
    requires GoogleItemsAre(results, items)
    requires GoogleResults(results).Err?
    ensures k < |items|
    ensures !(Has(items[k], "title") && Has(items[k], "snippet") && Has(items[k], "link"))
    ensures GoogleResults(results).error == GoogleRecord(items[k]).error
    ensures forall j | 0 <= j < k :: Has(items[j], "title") && Has(items[j], "snippet") && Has(items[j], "link")
  {
    assert GoogleResults(results) == Collect(items, GoogleRecord);
    k := CollectFirstError(items, GoogleRecord);
  }

  /**
   * Bing parsing succeeds exactly when every item carries `name`, `snippet`
   * and `url`, and then yields one record per item, in item order, whose
   * title is the item's name.
   */
  lemma BingOnePerItem(results: Json, items: seq<Json>)
    requires BingItemsAre(results, items)
    ensures BingResults(results).Ok? <==>
      forall i | 0 <= i < |items| :: Has(items[i], "name") && Has(items[i], "snippet") && Has(items[i], "url")
    ensures BingResults(results).Ok? ==>
      var r := BingResults(results).value;
      && |r| == |items|
      && forall i | 0 <= i < |items| ::
           && r[i].Keys == WebKeys
           && r[i]["title"] == items[i].fields["name"]
           && r[i]["snippet"] == items[i].fields["snippet"]
           && r[i]["url"] == items[i].fields["url"]
  {
    assert BingResults(results) == Collect(items, BingRecord);
    CollectOkIff(items, BingRecord);
    if BingResults(results).Ok? {
      CollectPointwise(items, BingRecord);
    }
  }

  /** Bing parsing, like Google parsing, fails at the first incomplete item. */
  lemma BingFailsAtFirstIncompleteItem(results: Json, items: seq<Json>) returns (k: nat)
    requires BingItemsAre(results, items)
    requires BingResults(results).Err?
    ensures k < |items|
    ensures !(Has(items[k], "name") && Has(items[k], "snippet") && Has(items[k], "url"))
    ensures BingResults(results).error == BingRecord(items[k]).error
    ensures forall j | 0 <= j < k :: Has(items[j], "name") && Has(items[j], "snippet") && Has(items[j], "url")
  {
    assert BingResults(results) == Collect(items, BingRecord);
    k := CollectFirstError(items, BingRecord);
  }

  /** parse_google_results: the loop that appends one record per item. */
  method ParseGoogleResults(results: Json) returns (r: Result<seq<Record>>)
    ensures r == GoogleResults(results)
  {
    var items := Get(results, "items", JArray([]));
    if items.Err? {
      return Err(items.error);
    }
    var elems := Iterate(items.value);
    if elems.Err? {
      return Err(elems.error);
    }
    var parsed: seq<Record> := [];
    var i := 0;
    while i < |elems.value|
      invariant 0 <= i <= |elems.value|
      invariant Collect(elems.value[..i], GoogleRecord) == Ok(parsed)
    {
      var item := elems.value[i];
      CollectStep(elems.value, i, GoogleRecord);
      var title := Subscript(item, "title");
      if title.Err? {
        CollectStopsAt(elems.value, i, GoogleRecord);
        return Err(title.error);
      }
      var snippet := Subscript(item, "snippet");
      if snippet.Err? {
        CollectStopsAt(elems.value, i, GoogleRecord);
        return Err(snippet.error);
      }
      var url := Subscript(item, "link");
      if url.Err? {
        CollectStopsAt(elems.value, i, GoogleRecord);
        return Err(url.error);
      }
      parsed := parsed + [map["title" := title.value, "snippet" := snippet.value, "url" := url.value]];
      i := i + 1;
    }
    assert elems.value[..i] == elems.value;
    return Ok(parsed);
  }

  /** parse_bing_results: the same loop over `webPages.value`. */
  method ParseBingResults(results: Json) returns (r: Result<seq<Record>>)
    ensures r == BingResults(results)
  {
    var pages := Get(results, "webPages", JObject(map[]));
    if pages.Err? {
      return Err(pages.error);
    }
    var value := Get(pages.value, "value", JArray([]));
    if value.Err? {
      return Err(value.error);
    }
    var elems := Iterate(value.value);
    if elems.Err? {
      return Err(elems.error);
    }
    var parsed: seq<Record> := [];
    var i := 0;
    while i < |elems.value|
      invariant 0 <= i <= |elems.value|
      invariant Collect(elems.value[..i], BingRecord) == Ok(parsed)
    {
      var item := elems.value[i];
      CollectStep(elems.value, i, BingRecord);
      var title := Subscript(item, "name");
      if title.Err? {
        CollectStopsAt(elems.value, i, BingRecord);
        return Err(title.error);
      }
      var snippet := Subscript(item, "snippet");
      if snippet.Err? {
        CollectStopsAt(elems.value, i, BingRecord);
        return Err(snippet.error);
      }
      var url := Subscript(item, "url");
      if url.Err? {
        CollectStopsAt(elems.value, i, BingRecord);
        return Err(url.error);
      }
      parsed := parsed + [map["title" := title.value, "snippet" := snippet.value, "url" := url.value]];
      i := i + 1;
    }
    assert elems.value[..i] == elems.value;
    return Ok(parsed);
  }
}
