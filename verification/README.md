# Cost Optimization Bot: request shaping and citation handling, in Dafny

The Cost Optimization Bot is a Streamlit page over a managed knowledge-base
retrieve-and-generate service. This project models its pure logic, all of
which is in `streamlit_app.py`:

- **Filter builder** (`Filters`). `construct_vector_search_config` turns two
  checkboxes and two episode-number boxes into a filter tree. The tree has
  `equals`, `greaterThanOrEquals` and `lessThanOrEquals` leaves, `andAll`
  groups, and one top-level `orAll`. `perform_search` adds the result cap of 5
  and wraps the result under `vectorSearchConfiguration`.
- **Filter semantics** (`Filters`). A reference reading of the filter operators
  says which metadata documents a built filter admits.
- **Timestamp extraction** (`Timestamps`). `extract_first_time` returns the
  inner text of the leftmost `[digits.digits]` token.
- **S3 URI splitting** (`S3Uris`). This is the URI check and bucket/key split
  at the start of `load_s3_to_json`.
- **Citation locators** (`Citations`). `process_citations` builds the table
  from each distinct S3 locator to its `.metadata.json` side-car. It then loads
  each side-car once, in first-occurrence order, through `load_s3_to_json`.
- **Request shaping** (`Requests`). `retrieveAndGenerate` builds the model ARN,
  appends the formatting suffix and passes the session id only when it is
  truthy. It never attaches the retrieval configuration. `perform_search`
  composes the filter builder with this request.

Python's `float()` is the parameter `parse: string -> Option<real>`, where
`None` is its `ValueError`. The object-store read in `load_s3_to_json` is the
parameter `fetch(bucket, key)`. It covers `get_object`, reading the body,
UTF-8 decoding and `json.loads`, and returns a document or a typed failure.
The page's module-level globals are parameters: the episode boxes, the
knowledge-base id from the environment and the checkbox states.

Two behaviours of the code shape the model:

- `process_citations` scans every reference of every citation. The first
  failing side-car load raises out of its loop, so nothing after it is
  loaded (`streamlit_app.py:198-205`).
- The filter builder can fail. `float()` is called on every non-empty
  episode bound and raises on non-numeric text (`streamlit_app.py:117`, `:125`).

## Model

| member | source | states |
|---|---|---|
| Filters.EpisodeConditions | streamlit_app.py:105-127 | The livestream conditions are the `content_type = ame_full_episode` test, then `greaterThanOrEquals` on the parsed minimum when the minimum is present, then `lessThanOrEquals` on the parsed maximum when the maximum is present, and nothing else. A present bound is a non-empty string, so `""` counts as absent. The result fails exactly when a present bound does not parse, and an unparsable minimum is the error reported because it is parsed first. |
| Filters.LivestreamEntries | streamlit_app.py:129-135 | With both bounds present the livestream entries are exactly one `andAll` holding the livestream conditions. Otherwise they are exactly those conditions spliced in flat, with no `andAll`. They fail under the same condition as the livestream conditions. |
| Filters.ConstructVectorSearchConfig | streamlit_app.py:99-155 | The build fails iff the livestream box is ticked and a present bound does not parse. `orAll` is absent iff neither box is ticked, and it is never present but empty. No result cap is set at this stage. |
| Filters.WrapRetrievalConfig | streamlit_app.py:161-163 | The wrapped configuration keeps the built filter unchanged and carries `numberOfResults = 5`. |
| Filters.NoFlagsGiveEmptyFilter | streamlit_app.py:147-155 | With neither box ticked the result is exactly `{"filter": {}}`, whatever the bound arguments are. |
| Filters.LivestreamOffIgnoresBounds | streamlit_app.py:104-135 | With the livestream box off the bounds have no influence: any two bound pairs give the same successful result. |
| Filters.BothBoundsGiveOneAndAll | streamlit_app.py:105-133 | With both bounds present and parsable, `orAll` is one `andAll` of [equals, gte min, lte max] in that order. The blog-post test follows it when that box is ticked. |
| Filters.MinOnlyGivesFlatEntries | streamlit_app.py:113-135 | With only the minimum present, the content-type test and the lower bound are two separate top-level `orAll` entries. |
| Filters.MaxOnlyGivesFlatEntries | streamlit_app.py:121-135 | With only the maximum present, the content-type test and the upper bound are two separate top-level `orAll` entries. |
| Filters.NoBoundsGiveContentTypeOnly | streamlit_app.py:104-135 | With the livestream box ticked and neither bound present, `orAll` is exactly the `content_type = ame_full_episode` test, followed by the blog-post test when that box is ticked. |
| Filters.EntryCount | streamlit_app.py:130-153 | The number of `orAll` entries is (0 without livestream, 1 with both bounds, else 1 + the number of present bounds) + (1 with blog posts). `orAll` is absent iff that count is 0. The blog-post test is the last entry and appears nowhere else. |
| Filters.LivestreamEntriesSemantics | streamlit_app.py:104-135 | The livestream entries hold for a document iff it is a full episode within both bounds (both given). Otherwise they hold iff it is a full episode or meets whichever one bound is given. |
| Filters.FilterSemantics | streamlit_app.py:99-155 | A built filter admits a document iff that document is selected by the page's choices. Nothing ticked selects everything. Otherwise a document is selected if it is a full episode in range when both bounds are given, or it is a full episode or meets the one given bound, or it is a blog post when that box is ticked. |
| Filters.OneBoundDoesNotRestrictEpisodes | streamlit_app.py:129-135 | With only a minimum of 10, a full episode numbered 3 is still admitted. A lone bound widens the filter instead of narrowing it. |
| Filters.BothBoundsRestrictEpisodes | streamlit_app.py:129-133 | With bounds 10 and 20, the same episode 3 is rejected. |
| Timestamps.DigitRun | streamlit_app.py:254 | A greedy `\d+` at a position consumes a run that is all digits and ends at a non-digit or at the end of the text. |
| Timestamps.MatchAt | streamlit_app.py:254-255 | An anchored match at a position yields a `[d+.d+]` token that really occurs there. |
| Timestamps.MatchAtComplete | streamlit_app.py:254-255 | An anchored match misses no token: whenever `"[" + s + "]"` with `s` a time token starts at a position, the match there returns exactly `s`. |
| Timestamps.TokenAtDeterministic | streamlit_app.py:254 | At most one token starts at any position, so the pattern has no ambiguous match. |
| Timestamps.FirstTimeFromLeftmost | streamlit_app.py:254-255 | Searching from a position returns the token found at the first position after it that holds one, so a failed anchored match never stops the search early. |
| Timestamps.ExtractFirstTime | streamlit_app.py:252-259 | The result is `None` iff no `[d+.d+]` token occurs anywhere. Otherwise it is a time token found in brackets at some position with no token before it. Conversely, the token at the leftmost position holding one is exactly what is returned, so the result is exactly the leftmost token. |
| Timestamps.ExtractsBracketedDecimal | streamlit_app.py:252-259 | `"at [42.50] in the call"` yields `"42.50"`. |
| Timestamps.RejectsNonDecimals | streamlit_app.py:252-259 | `"[123]"` and `"[1.2.3]"` yield `None`. |
| Timestamps.SkipsNearMiss | streamlit_app.py:252-259 | `"[1.2.3] [4.5]"` yields `"4.5"`: a failed match does not stop the search. |
| S3Uris.ParseS3Uri | streamlit_app.py:170-175 | Parsing fails iff the URI does not start with `s3://`. On success the bucket contains no `/`. If the text after the scheme has a `/`, then `s3:// + bucket + / + key` is the URI again. Otherwise the key is `""` and the bucket is the whole rest. |
| S3Uris.ParseFormatRoundTrip | streamlit_app.py:173-175 | Parsing the URI formatted from a bucket without `/` and any key gives back that bucket and key, even when the key contains `/`. |
| S3Uris.FormatParseRoundTrip | streamlit_app.py:173-175 | Formatting a parsed URI gives the URI back when it had a `/` after the scheme. Without one it gives the URI plus a trailing `/`. |
| Citations.LoadS3ToJson | streamlit_app.py:168-192 | A load fails with the URI error iff the URI check fails. Otherwise it returns exactly what reading the named bucket and key returns, with read failures passed through. |
| Citations.CollectFromReferences | streamlit_app.py:199-202 | Recording a citation's references keeps the table well formed. The table maps each key to key + `.metadata.json`, and its keys are in first-occurrence order over everything scanned. |
| Citations.CollectLocators | streamlit_app.py:197-202 | The table's keys are exactly the `s3Location.uri` values of all references of all citations that have `location.s3Location`. Each value is key + `.metadata.json`. The key order is the first-occurrence order of the scan, with no repeats. |
| Citations.LoadMetadata | streamlit_app.py:203-205 | The loads follow table order. On success every key was loaded once, the loaded keys equal the table keys, and each entry is that key's side-car load. On failure the last load is the failing one, every earlier load succeeded, and nothing after it was requested. |
| Citations.ProcessCitations | streamlit_app.py:196-206 | The locator table covers exactly the cited S3 URIs. No key is loaded twice, so duplicate URIs are fetched once. On success every key is loaded. The first failing load is the error returned. An empty citation list gives an empty table, no loads and an empty metadata map. |
| Citations.SideCarInSameBucket | streamlit_app.py:202 | The side-car of `s3://bucket/key` is the object `key.metadata.json` in the same bucket. |
| Citations.BadSchemeFailsLoad | streamlit_app.py:170-171 | A cited URI without the `s3://` scheme makes its side-car load fail on the URI check before any read, because the suffix cannot supply the scheme. |
| Requests.ModelArn | streamlit_app.py:70 | The ARN starts with `arn:aws:bedrock:` + region + `::foundation-model/`, ends with the model id, and has no other characters. |
| Requests.ModelArnInjective | streamlit_app.py:70 | When the region has no `:`, distinct (region, model) pairs give distinct ARNs, even though model ids may contain `:`. |
| Requests.RetrieveAndGenerate | streamlit_app.py:63-96 | The request has type `KNOWLEDGE_BASE`, the given knowledge-base id and the formatted ARN. Its text is the input followed by the fixed formatting suffix. It carries the session id iff that id is truthy. It has no retrieval configuration. |
| Requests.RetrievalConfigurationIgnored | streamlit_app.py:78-79 | The request does not depend on the retrieval configuration argument, so the built filter never reaches the service. |
| Requests.EmptySessionIsNoSession | streamlit_app.py:82-96 | An empty session id gives the same request as no session id. |
| Requests.PerformSearch | streamlit_app.py:159-165 | The search fails iff the filter build fails. On success the displayed configuration is the built filter with `numberOfResults = 5`. The request has type `KNOWLEDGE_BASE`, targets the given knowledge base, and uses the page's model and region. It has no session and no retrieval configuration, and it sends the query plus the formatting suffix. |

## Left out

- The network calls are not modelled: `retrieve_and_generate`, `s3.get_object` and reading its body. The client setup and timeouts are left out too. The call is represented by the request record, and the read by the `fetch` parameter.
- The mapping of credential and client errors to exceptions is reduced to a typed `FetchError`. The exception message texts are not modelled.
- The Streamlit page is not modelled: its widgets, the layout, `display_episode_info` with its date parsing and formatting, and the render loop at the end of the file. This includes its `round(float(...))` of the extracted time and its indexing of each citation's first reference. It is all presentation.
- Float semantics are not modelled. `float()` is an abstract parser into `real`, so IEEE rounding and the exact set of accepted spellings are left to the `parse` parameter. The results `inf`, `-inf` and `nan` cannot be represented. Python's `float("inf")` and `float("nan")` succeed and append a comparison against that value (`streamlit_app.py:117`, `:125`). A `parse` that returns `None` for such text turns that success into a failure.
- Timestamps.ExtractFirstTime: `\d` is read as ASCII `0`-`9`. Python's `re` also accepts other Unicode decimal digits there.
- Citations.CollectLocators: a `s3Location` without a `uri` key, or a response without `citations` or `retrievedReferences`, raises `KeyError` in the source. Here these fields always exist by their types.
- Citations.LoadMetadata: `loaded` records the table keys whose side-car was requested, not the side-car URIs themselves. The two are in one-to-one correspondence through the table.
- The default arguments of `retrieveAndGenerate` are not modelled separately. Its only caller passes the model and region explicitly.
- Debug `print`/`pprint` output is not modelled.
- `simpleRag.py` is not part of this model. Its `retrieveAndGenerate` shapes the same request without the formatting suffix, and the rest of it is module-level network calls.
- `Filters.Holds` and `Filters.Admits` read the operators by their names: string equality, numeric comparison, conjunction and disjunction. The service's own evaluation is not modelled.
