/**
 * The tail of QueryEngine.search_index: every document the index returns is
 * reduced to a `{content, id}` record.  The index query asks for the fields
 * url, id, filepath and content; the documents it returns are given here as a
 * sequence, in the order the SDK's iterator yields them.
 */
module IndexResults {
  import opened PyJson
  import opened ResultLoop

  /** The two keys of every index result record. */
  const IndexKeys: set<string> := {"content", "id"}

  /** The record for one returned document: `content` first, then `id`. */
  function IndexRecord(doc: Json): (r: Result<Record>)
    ensures r.Ok? <==> Has(doc, "content") && Has(doc, "id")
    ensures r.Ok? ==>
      && r.value.Keys == IndexKeys
      && r.value["content"] == doc.fields["content"]
      && r.value["id"] == doc.fields["id"]
    ensures r.Err? && doc.JObject? ==>
      r.error == KeyError(if "content" !in doc.fields then "content" else "id")
    ensures !doc.JObject? ==> r == Err(TypeError)
  {
    var content :- Subscript(doc, "content");
    var id :- Subscript(doc, "id");
    Ok(map["content" := content, "id" := id])
  }

  /**
   * Projection succeeds exactly when every document has `content` and `id`,
   * and then yields one record per document, in iteration order, holding only
   * those two fields: `url` and `filepath` never reach the output.
   */
  lemma IndexOnePerDocument(docs: seq<Json>)
    ensures Collect(docs, IndexRecord).Ok? <==>
      forall i | 0 <= i < |docs| :: Has(docs[i], "content") && Has(docs[i], "id")
    ensures Collect(docs, IndexRecord).Ok? ==>
      var r := Collect(docs, IndexRecord).value;
      && |r| == |docs|
      && forall i | 0 <= i < |docs| ::
           && r[i].Keys == IndexKeys
           && "url" !in r[i] && "filepath" !in r[i]
           && r[i]["content"] == docs[i].fields["content"]
           && r[i]["id"] == docs[i].fields["id"]
  {
    CollectOkIff(docs, IndexRecord);
    if Collect(docs, IndexRecord).Ok? {
      CollectPointwise(docs, IndexRecord);
    }
  }

  /** A document without `content` or `id` raises, and no partial list is returned. */
  lemma IndexFailsAtFirstIncompleteDocument(docs: seq<Json>) returns (k: nat)
    requires Collect(docs, IndexRecord).Err?
    ensures k < |docs|
    ensures !(Has(docs[k], "content") && Has(docs[k], "id"))
    ensures Collect(docs, IndexRecord).error == IndexRecord(docs[k]).error
    ensures forall j | 0 <= j < k :: Has(docs[j], "content") && Has(docs[j], "id")
  {
    k := CollectFirstError(docs, IndexRecord);
  }

  /** search_index after the query: the loop that appends `{content, id}` per document. */
  method ProjectDocuments(docs: seq<Json>) returns (r: Result<seq<Record>>)
    ensures r == Collect(docs, IndexRecord)
  {
    var result: seq<Record> := [];
    var i := 0;
    while i < |docs|
      invariant 0 <= i <= |docs|
      invariant Collect(docs[..i], IndexRecord) == Ok(result)
    {
      var doc := docs[i];
      CollectStep(docs, i, IndexRecord);
      var content := Subscript(doc, "content");
      if content.Err? {
        CollectStopsAt(docs, i, IndexRecord);
        return Err(content.error);
      }
      var id := Subscript(doc, "id");
      if id.Err? {
        CollectStopsAt(docs, i, IndexRecord);
        return Err(id.error);
      }
      result := result + [map["content" := content.value, "id" := id.value]];
      i := i + 1;
    }
    assert docs[..i] == docs;
    return Ok(result);
  }
}
