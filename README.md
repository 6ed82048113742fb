# QueryEngine response shaping, in Dafny

This project models the deterministic part of `QueryEngine` (searchengine.py).
`QueryEngine` is a small search facade. It refines a chat history into a search query with a
language model. It then asks a Google custom search, a Bing custom search or an
Azure vector index for results. Finally it reduces each backend's answer to a list of flat records.

The model covers the steps that do not talk to a service:

- `parse_google_results` and `parse_bing_results` turn a decoded JSON response
  into `{title, snippet, url}` records. They are modelled as loops (`WebResults.ParseGoogleResults`,
  `WebResults.ParseBingResults`), and each loop is proved equal to a specification function.
- The filter at the start of `refine_query` drops every message whose role is
  `'system'` (`MessageFilter.DropSystem`).
- The loop at the end of `search_index` reduces each returned document to
  `{content, id}` (`IndexResults.ProjectDocuments`).
- The status-code branching of `search_google` and `search_bing`, over a response given as a status and a decoded body
  (`SearchDispatch`).

Python's semantics are modelled explicitly in `PyJson`:
- `d.get(k, default)` raises AttributeError when `d` is not a dict.
- `d[k]` raises KeyError when the key is missing, and TypeError when `d` is not a dict.
- `for` visits list elements or string characters. A dict yields its keys, which are strings, so the next subscript raises TypeError.

Every exception becomes an `Err` of `Result`. So "never returns a partial list" holds by construction, and the lemmas say which exception is raised, and for which item.
`ResultLoop.Collect` specifies the shared "append one record per item" loop.
Its lemmas give the one-record-per-item, in-order and first-failure properties once, and each parser uses them.

What the code does, stated directly:
- `search_google` has no special handling of 403 or 400. Every non-200 status goes to `raise_for_status()` (searchengine.py:62-66).
- A missing key raises the plain KeyError; there is no dedicated malformed-response error.
- The result cap of 5 is a request parameter (searchengine.py:58) and is not part of the response handling.

## Model

| member | source | states |
|---|---|---|
| `ResultLoop.Collect` | searchengine.py:17-24 | reference definition of the append-per-item loops (also used for lines 27-34 and 103-106): a completed loop appended exactly once per item; the lemma rows below state the rest |
| `ResultLoop.CollectOkIff` | searchengine.py:17-24 | an append-per-item loop completes exactly when the record for every item can be built |
| `ResultLoop.CollectPointwise` | searchengine.py:17-24 | a completed loop returns exactly one record per item, the i-th record being the one built from the i-th item |
| `ResultLoop.CollectFirstError` | searchengine.py:17-24 | a failed loop raises the exception of the first item whose record cannot be built, all earlier items having succeeded |
| `WebResults.GoogleRecord` | searchengine.py:19-23 | a Google record exists iff the item has `title`, `snippet` and `link`; it has exactly the keys title, snippet, url holding the item's title, snippet and link; otherwise KeyError for the first missing key in that order, TypeError for a non-dict item |
| `WebResults.BingRecord` | searchengine.py:29-33 | a Bing record exists iff the item has `name`, `snippet` and `url`; its title is the item's name; otherwise KeyError for the first missing key, TypeError for a non-dict item |
| `WebResults.GoogleResults` | searchengine.py:16-24 | a response object without `items` yields the empty list; a response that is not an object raises AttributeError |
| `WebResults.BingResults` | searchengine.py:26-34 | a missing `webPages`, or a `webPages` object without `value`, yields the empty list; a non-object at either level raises AttributeError |
| `WebResults.GoogleOnePerItem` | searchengine.py:16-24 | for an `items` list, parsing succeeds iff every item has title, snippet and link, and then returns one record per item in order with exactly the keys title, snippet, url taken from title, snippet, link |
| `WebResults.GoogleFailsAtFirstIncompleteItem` | searchengine.py:18-23 | a failing Google parse raises the error of the first incomplete item, every earlier item being complete; no item is skipped |
| `WebResults.BingOnePerItem` | searchengine.py:26-34 | for a `webPages.value` list, parsing succeeds iff every item has name, snippet and url, and then returns one record per item in order, title taken from name |
| `WebResults.BingFailsAtFirstIncompleteItem` | searchengine.py:28-33 | a failing Bing parse raises the error of the first incomplete item, every earlier item being complete |
| `WebResults.ParseGoogleResults` | searchengine.py:16-24 | the appending loop returns or raises exactly what `GoogleResults` specifies |
| `WebResults.ParseBingResults` | searchengine.py:26-34 | the appending loop returns or raises exactly what `BingResults` specifies |
| `IndexResults.IndexRecord` | searchengine.py:105 | a document's record exists iff it has `content` and `id`, has exactly those two keys with the document's values; otherwise KeyError for `content` first, then `id` |
| `IndexResults.IndexOnePerDocument` | searchengine.py:103-106 | projection succeeds iff every document has content and id, and then returns one record per document in iteration order, with no `url` and no `filepath` key |
| `IndexResults.IndexFailsAtFirstIncompleteDocument` | searchengine.py:104-105 | a failing projection raises the error of the first document lacking content or id |
| `IndexResults.ProjectDocuments` | searchengine.py:103-106 | the appending loop returns or raises exactly what the per-document specification gives |
| `MessageFilter.DropSystem` | searchengine.py:37 | the filter of `refine_query`: a successful result is no longer than the history and holds only messages of the history; the lemma rows below characterise it exactly |
| `MessageFilter.DropSystemOkIff` | searchengine.py:37 | the filter raises iff some message has no `role` (or is not a dict) |
| `MessageFilter.DropSystemFirstError` | searchengine.py:37 | when the filter raises, it is for the first message without a role |
| `MessageFilter.DropSystemSelects` | searchengine.py:37 | the output is the messages at increasing positions of the input, and those positions are exactly the non-system ones: a subsequence that keeps every non-system message and no system message, in the original order |
| `MessageFilter.DropSystemHasNoSystem` | searchengine.py:37 | no message with role `'system'` is in the output |
| `MessageFilter.DropSystemKeepsClean` | searchengine.py:37 | a history whose messages all have a non-system role passes unchanged |
| `MessageFilter.DropSystemIdempotent` | searchengine.py:37 | filtering the filtered history gives it back unchanged |
| `Decimal.IntToDecimal` | searchengine.py:85 | the text `str()` gives a status code is non-empty, starts with `-` iff the code is negative, and is canonical: decimal digits without leading zeros and never `-0` |
| `Decimal.IntToDecimalRoundTrip` | searchengine.py:85 | reading the decimal text of a status code back gives the status code |
| `Decimal.CanonicalDecimalIsIntToDecimal` | searchengine.py:85 | every canonical decimal text is the text of its own value, so writing is the inverse of reading on canonical text |
| `Decimal.CanonicalDecimalUnique` | searchengine.py:85 | two canonical decimal texts with the same value are equal: the status code has exactly one text |
| `SearchDispatch.SearchBing` | searchengine.py:81-85 | a 200 response gives the Bing parse of its body; any other status raises `Exception` |
| `SearchDispatch.BingErrorNamesStatus` | searchengine.py:84-85 | the message of a non-200 Bing error is `Bing API error: ` followed by canonical decimal text that reads back as the status code, which by `CanonicalDecimalUnique` is the one text `str()` gives it |
| `SearchDispatch.SearchGoogle` | searchengine.py:62-66 | a 200 response gives the Google parse of its body; records are returned only for 200; a non-200 status raises HttpError when raise_for_status raises, and the call yields None exactly when the status is not 200 and raise_for_status does not raise |
| `SearchDispatch.GoogleNoContentReturnsNone` | searchengine.py:62-66 | with raise_for_status raising for 400 to 599 only, a 204 response makes search_google return None |
| `SearchDispatch.SearchGoogleChecked` | searchengine.py:62-66 | corrected dispatch: a list is returned only for 200, and every other status raises HttpError carrying that status |
| `SearchDispatch.GoogleCheckedAgrees` | searchengine.py:62-66 | wherever the written dispatch does not fall through to None, it agrees with the corrected one |

## Findings

| source | as written | input that shows it | evidently intended | confidence | as-written member | corrected member |
|---|---|---|---|---|---|---|
| searchengine.py:62-66 | a non-200 status goes to `raise_for_status()` and nothing is returned after it, so a status it does not raise for makes `search_google` return None instead of a list | a 204 response, with the requests library raising only for 400 to 599 | every non-200 status is an HTTP error, as in `search_bing` | medium, not executed; depends on the library's rule, which is not part of this model | `SearchDispatch.GoogleNoContentReturnsNone` | `SearchDispatch.SearchGoogleChecked` |

## Left out

- The HTTP GETs, their URLs, headers and query parameters, including the result cap `num=5` (searchengine.py:53-61, 69-79). A response is an input value holding a status code and a decoded body.
- `response.json()` failing on a body that is not JSON: the body is given already decoded.
- The internals of `raise_for_status()` (searchengine.py:66). It is a parameter `raisesFor` that says for which statuses it raises. The error it raises is modelled by its status only, not its message. `RequestsRaisesFor` states the library's 400-599 rule only for the counterexample.
- The language-model call in `refine_query`: model name, sampling parameters, prompt text, the `json.dumps` of the filtered history, and the returned completion (searchengine.py:38-51). These are a foreign service and a library serialiser.
- `generate_embedding` (searchengine.py:87-92). It is a foreign SDK call that returns a floating-point vector.
- The `SearchClient.search` call and its arguments (searchengine.py:96-102). The ranking and the number of documents are decided by the service, so the returned documents are an input sequence. The result is a lazy, paged iterator, so service errors can be raised inside the `for` at searchengine.py:104; those errors are not modelled, and `ProjectDocuments` raises only the KeyError or TypeError of a document.
- The constructor (searchengine.py:8-14). It only stores configuration, which none of the modelled steps reads.
- JSON numbers are carried as their literal text. The modelled code never inspects them.
- The key order of the output dicts. Records are maps, so insertion order is not represented.
- Iterating a non-empty dict: Python visits its keys in insertion order. A map has no order, so the model produces the TypeError of the first key's subscript directly.
