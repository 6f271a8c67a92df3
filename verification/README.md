# Request shaping in a fluent Elasticsearch client

This project models two request builders of a Go Elasticsearch client and
proves what they put on the wire.

- `SearchRequest` (module `SearchRequests`, file `search_request.dfy`) is one
  element of a multi-search call. Its setters accumulate a search type,
  indices, types, routing, preference and a query source. `Header` projects
  this state into the header line of the batch and `Body` into the body line.
  One index is sent under `index` and several under `indices`. Types use the
  reverse: one type is sent under `types` and several under `type`. Routing and
  preference are sent only when present and non-empty.
- `IndexService` (module `IndexServices`, file `index_service.dfy`) indexes one
  document. `MakePlan` picks the method and path template from the id: PUT on
  `/{index}/{type}/{id}`, or POST on `/{index}/{type}/`. It also builds the
  query parameters and picks the body. A structured body wins over a raw
  string. `Url` appends `?` and the encoded query only when a parameter is
  sent. `Prepare` and `Do` chain these steps with the error paths of Go's
  `Do` (index.go:151-243).

Supporting modules:
- `Wrappers`: `Option` and `Result`.
- `Json`: the structured values both builders store without inspecting them.
- `Text`: Go's `strings.Join` and `%d` rendering. Each has a reading that
  undoes it, `Split` and `ParseDecimal`, and a round-trip lemma.

The model is functional. A Go setter mutates the builder and returns the same
pointer. Here a setter returns the updated record, and each setter's contract
says that no other field changes. Go's nil pointers, the nil `Routings` slice
and a nil `bodyJson` are `Option.None`; a nil search source is `Json.Null`. `Routings` takes
an `Option<seq<string>>`: `None` stands for the nil slice of a call with no
arguments, and `Some([])` for an empty but non-nil slice. Header keys and
query-parameter keys are datatypes. Their `Name` members give the wire
strings, and lemmas prove that distinct keys have distinct names. So "no other
key is ever produced" holds by construction.

The code sends `pretty=true` when pretty printing is on (index.go:162-164),
and so does the model. Parameters are held in a `url.Values` map, so their
order is not modelled.

## Model

| member | source | states |
|---|---|---|
| SearchRequests.SearchType | search_request.go:30-33 | the search type becomes the given string; no other field changes |
| SearchRequests.SearchTypeDfsQueryThenFetch | search_request.go:35-37 | sets search type "dfs_query_then_fetch" and nothing else |
| SearchRequests.SearchTypeDfsQueryAndFetch | search_request.go:39-41 | sets search type "dfs_query_and_fetch" and nothing else |
| SearchRequests.SearchTypeQueryThenFetch | search_request.go:43-45 | sets search type "query_then_fetch" and nothing else |
| SearchRequests.SearchTypeQueryAndFetch | search_request.go:47-49 | sets search type "query_and_fetch" and nothing else |
| SearchRequests.SearchTypeScan | search_request.go:51-53 | sets search type "scan" and nothing else |
| SearchRequests.SearchTypeCount | search_request.go:55-57 | sets search type "count" and nothing else |
| SearchRequests.SearchTypeShortcutsReachHeader | search_request.go:35-57 | each shortcut sets one of the six accepted search types, and it shows up unchanged under `search_type` in the header |
| SearchRequests.Index | search_request.go:59-62 | the list grows by one; the old indices stay in place, duplicates included; the new index is last; no other field changes |
| SearchRequests.Indices | search_request.go:64-67 | the old indices come first, then the given ones in order; no other field changes |
| SearchRequests.IndicesIsRepeatedIndex | search_request.go:59-67 | adding several indices at once equals adding them one by one, in order |
| SearchRequests.HasIndicesIffHeaderNamesIndex | search_request.go:69-71 | `HasIndices` is true exactly when the header carries `index` or `indices` |
| SearchRequests.HasIndicesAfterAdding | search_request.go:69-71 | `HasIndices` holds after any `Index` call; after `Indices(xs)` it holds iff it held before or `xs` is non-empty; it is false for a fresh request |
| SearchRequests.Type | search_request.go:73-76 | the list grows by one; the old types stay in place; the new type is last; no other field changes |
| SearchRequests.Types | search_request.go:78-81 | the old types come first, then the given ones in order; no other field changes |
| SearchRequests.TypesIsRepeatedType | search_request.go:73-81 | adding several types at once equals adding them one by one, in order |
| SearchRequests.Routing | search_request.go:83-86 | routing becomes present with the given value, even ""; no other field changes |
| SearchRequests.Routings | search_request.go:88-96 | no argument slice clears routing to absent; a slice makes it present; an empty slice gives ""; one value gives that value; no other field changes |
| Text.SplitJoin | search_request.go:90 | `Join` with a one-character separator is undone by `Split`, for every non-empty list whose parts do not contain the separator |
| SearchRequests.RoutingsSplitsBack | search_request.go:88-96 | the comma-joined routing splits back into the values given, when none of them contains a comma |
| SearchRequests.RoutingsExamples | search_request.go:88-96 | ["a","b"] gives "a,b"; an empty slice gives "", which the header leaves out; no slice clears a routing set earlier |
| SearchRequests.Preference | search_request.go:98-101 | preference becomes present with the given value; no other field changes |
| SearchRequests.Source | search_request.go:103-111 | a `*SearchSource` (the `Builder` case) is stored as its `Source()` rendering; any other value is stored verbatim; no other field changes |
| SearchRequests.SourceFeedsBodyOnly | search_request.go:103-154 | `Body` returns exactly what `Source` stored, whether a rendered `*SearchSource` or a plain value, and setting the source never changes the header |
| SearchRequests.Header | search_request.go:116-147 | `search_type` is present iff the search type is non-empty. One index gives only scalar `index`; two or more give only list `indices` with all of them in order. One type gives only scalar `types`; two or more give only list `type`. `routing` and `preference` are present iff set and non-empty, holding that value |
| SearchRequests.HeaderFormsExclusive | search_request.go:122-136 | `index` and `indices` never appear together, and neither do `types` and `type` |
| SearchRequests.HeaderDeterminesWireFields | search_request.go:116-147 | two requests have equal headers iff they agree on search type, indices and types, and on routing and preference once "" is read as unset |
| SearchRequests.HeaderKeyNamesDistinct | search_request.go:116-147 | distinct header keys are written under distinct names |
| SearchRequests.NewRequestIsBlank | search_request.go:20-25 | `NewSearchRequest` gives a request with an empty header, no indices and a Null body |
| IndexServices.Index | index.go:53-56 | sets the target index and no other field |
| IndexServices.Type | index.go:58-61 | sets the document type and no other field |
| IndexServices.Id | index.go:63-66 | sets the document id and no other field |
| IndexServices.Routing | index.go:68-71 | sets routing and no other field |
| IndexServices.Parent | index.go:73-76 | sets the parent id and no other field |
| IndexServices.OpType | index.go:78-82 | sets the operation type and no other field |
| IndexServices.Refresh | index.go:84-87 | records refresh as explicitly set to the given flag; no other field changes |
| IndexServices.Version | index.go:89-92 | records the version as explicitly set, 0 included; no other field changes |
| IndexServices.VersionType | index.go:94-101 | sets the version type and no other field |
| IndexServices.Timestamp | index.go:103-106 | sets the timestamp and no other field |
| IndexServices.TTL | index.go:108-111 | sets the time-to-live and no other field |
| IndexServices.Timeout | index.go:113-116 | sets the timeout and no other field |
| IndexServices.BodyString | index.go:118-121 | sets the raw body and no other field |
| IndexServices.BodyJson | index.go:123-126 | sets the structured body (None for nil) and no other field |
| IndexServices.Pretty | index.go:128-131 | sets pretty printing and no other field |
| IndexServices.Debug | index.go:133-136 | sets the debug flag and no other field |
| IndexServices.Params | index.go:160-191 | `pretty` and `refresh` are sent as "true" iff pretty is on and refresh is set to true. `version` is sent iff a version was set, as its decimal rendering. Each of routing, parent, op_type, version_type, timestamp, ttl and timeout is sent iff non-empty, with that exact text |
| IndexServices.ParamNamesDistinct | index.go:161-191 | distinct parameters are written under distinct names |
| IndexServices.MakePlan | index.go:140-155 | a non-empty id gives PUT on `/{index}/{type}/{id}` and an empty id gives POST on `/{index}/{type}/`; the template variables are index, type and id; parameters and body as specified |
| IndexServices.IdChoosesMethodAndTemplate | index.go:141-150 | `Id("42")` gives PUT on the POST template plus `{id}`; `Id("")` gives POST on a template ending in '/' |
| IndexServices.ParamsEmptyIffQuiet | index.go:161-191 | no parameter is sent iff pretty is off, refresh is not true, no version is set and every text option is empty |
| IndexServices.FreshServiceSendsNothing | index.go:46-51 | `NewIndexService` gives a builder that sends no parameters and POSTs the empty raw body |
| IndexServices.RefreshFalseMatchesUnset | index.go:174-176 | `Refresh(false)` gives the same request plan as never calling `Refresh` |
| IndexServices.VersionZeroIsSent | index.go:177-179 | `Version(0)` sends version=0, while an unset version sends no version parameter |
| IndexServices.VersionReadsBack | index.go:177-179 | the version parameter parses back to the version that was set |
| Text.DecimalString | index.go:178 | the rendering starts with '-' iff the number is negative and is otherwise all digits; 0 renders as "0" and no other number has a leading zero |
| Text.DecimalRoundTrip | index.go:178 | every integer's decimal rendering parses back to that integer |
| Text.DecimalInjective | index.go:178 | distinct versions render to distinct parameter values |
| IndexServices.Url | index.go:204-206 | with no parameters the URL is the path; otherwise it is the path, then '?', then the encoded query |
| IndexServices.QueryMarkIffParams | index.go:204-206 | for a path without '?', the URL contains '?' iff some parameter is sent |
| IndexServices.JsonBodyTakesPrecedence | index.go:215-219 | `SelectBody` sends a structured body whichever setter ran last; a nil structured body falls back to the raw string; with neither, the body is "" |
| IndexServices.Prepare | index.go:138-219 | a template expansion failure becomes a path-expansion error; otherwise the request has the plan's method and body and the URL built from the expanded path |
| IndexServices.CheckResponse | index.go:230-232 | a status in 200..299 passes; any other status is an error carrying the status and the raw body |
| IndexServices.Do | index.go:138-244 | the first failing step decides the error, and no result comes with it; a non-2xx response gives an HTTP-status error; a result comes only from decoding the body of a 2xx response |
| IndexServices.DebugIsInvisible | index.go:221-237 | the debug flag does not change the outcome of a call |
| IndexServices.BlogPostScenario | index.go:138-219 | index "blog", type "post", id "1" with a structured body becomes a PUT of that body to the expanded `/blog/post/1` with no query string |

## Left out

- HTTP I/O is not modelled: `client.NewRequest`, sending the request, closing the response body, and the debug dumps `dumpRequest`/`dumpResponse`. `Do` takes one `send` parameter for building and sending the request, so both of their failures are its errors.
- `checkResponse` is not part of this model: it is not among the modelled files. `CheckResponse` assumes that statuses 200..299 pass and any other status fails with the status and the body.
- `uritemplates.Expand` lives in another package, so its percent-encoding and error cases are a parameter (`expand`). Only the template and its variables are modelled.
- `url.Values.Encode` is Go standard library, so it is a parameter (`encode`). Only whether the query is empty matters to the model.
- JSON encoding of the structured body and JSON decoding into `IndexResult` use a library codec. The body stays a `Json.Value` and decoding is a parameter (`decode`).
- `SearchSource.Source()` is defined outside the modelled files. It is the parameter `render`.
- `Json.Value` holds numbers as integers only, so a JSON fraction (a boost of 2.5, say) has no value here. Both builders pass values through without looking inside them, so no property depends on this.
- The `client` field of `IndexService` is the HTTP executor, which is left out with the rest of the I/O.
- IndexServices.Prepare: states the URL through the abstract `expand` and `encode`, not as a concrete byte string, because both come from libraries outside the model.
- Builder aliasing is not modelled, because Go's setters mutate and return the same pointer while the model returns fresh records.
