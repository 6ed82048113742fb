/**
 * The status-code branching of QueryEngine.search_google and
 * QueryEngine.search_bing.  The HTTP request itself is not modelled: a
 * response is a status code and the body that `response.json()` decodes.
 */
module SearchDispatch {
  import opened PyJson
  import opened WebResults
  import opened Decimal

  datatype Response = Response(status: int, body: Json)

  const BingErrorPrefix: string := "Bing API error: "

  /** search_bing: parse a 200 response, raise `Exception` with the status otherwise. */
  function SearchBing(response: Response): (r: Result<seq<Record>>)
    ensures response.status == 200 ==> r == BingResults(response.body)
    ensures response.status != 200 ==> r.Err? && r.error.Exception?
  {
    if response.status == 200 then BingResults(response.body)
    else Err(Exception(BingErrorPrefix + IntToDecimal(response.status)))
  }

  /**
   * A failed Bing call names its status code: the message is the fixed prefix
   * followed by the canonical decimal text of the status code, which reads
   * back as that code (CanonicalDecimalUnique makes it the only such text).
   */
  lemma BingErrorNamesStatus(response: Response)
    requires response.status != 200
    ensures var message := SearchBing(response).error.message;
      && |BingErrorPrefix| <= |message|
      && message[..|BingErrorPrefix|] == BingErrorPrefix
      && var code := message[|BingErrorPrefix|..];
         && IsDecimal(code)
         && IsCanonicalDecimal(code)
         && DecimalValue(code) == response.status
  {
    var message := SearchBing(response).error.message;
    assert message[|BingErrorPrefix|..] == IntToDecimal(response.status);
    IntToDecimalRoundTrip(response.status);
  }

  /**
   * search_google, as written.  `raisesFor` stands for the library's
   * `response.raise_for_status()`: whether it raises for a given status.  On
   * a non-200 status that it does not raise for, the function reaches its end
   * without a `return` and yields None.
   */
  function SearchGoogle(response: Response, raisesFor: int -> bool): (r: Result<Option<seq<Record>>>)
    ensures response.status == 200 ==>
      match GoogleResults(response.body)
      case Ok(records) => r == Ok(Some(records))
      case Err(e) => r == Err(e)
    // records are only ever returned for a 200 response
    ensures r.Ok? && r.value.Some? ==> response.status == 200
    ensures response.status != 200 && raisesFor(response.status) ==> r == Err(HttpError(response.status))
    ensures r == Ok(None) <==> response.status != 200 && !raisesFor(response.status)
  {
    if response.status == 200 then
      match GoogleResults(response.body)
      case Ok(records) => Ok(Some(records))
      case Err(e) => Err(e)
    else if raisesFor(response.status) then Err(HttpError(response.status))
    else Ok(None)
  }

  /** The statuses for which the requests library's raise_for_status raises. */
  predicate RequestsRaisesFor(status: int)
  {
    400 <= status < 600
  }

  /** A 204 No Content answer makes search_google return None instead of a list. */
  lemma GoogleNoContentReturnsNone(body: Json)
    ensures SearchGoogle(Response(204, body), RequestsRaisesFor) == Ok(None)
  {
  }

  /** search_google with every non-200 status treated as an HTTP error. */
  function SearchGoogleChecked(response: Response): (r: Result<seq<Record>>)
    ensures r.Ok? ==> response.status == 200
    ensures response.status == 200 ==> r == GoogleResults(response.body)
    ensures response.status != 200 ==> r == Err(HttpError(response.status))
  {
    if response.status == 200 then GoogleResults(response.body)
    else Err(HttpError(response.status))
  }

  /**
   * The corrected dispatch agrees with the written one wherever the written
   * one returns a list or raises, and it never yields None.
   */
  lemma GoogleCheckedAgrees(response: Response, raisesFor: int -> bool)
    requires SearchGoogle(response, raisesFor) != Ok(None)
    ensures SearchGoogle(response, raisesFor) ==
      match SearchGoogleChecked(response)
      case Ok(records) => Ok(Some(records))
      case Err(e) => Err(e)
  {
  }
}
