# OAI-PMH list-query engine

A Dafny model of the protocol engine of an OAI-PMH harvesting endpoint
(`oai/views.py`): the verb dispatcher, the validation of list arguments into a
typed list query, the pagination of a result set into pages of `results_limit`
records, and the resumption tokens that let a harvester fetch the next page.
Errors are the closed taxonomy `badVerb`, `badArgument`, `badResumptionToken`;
`formatError` becomes the `ErrorPage(code, message)` response.

Modules, one per component:

- `OaiTypes` (`oai_types.dfy`): records, list queries, tokens, responses, and
  the request's parameter dictionary as an ordered list of name/value pairs with
  `get` and `pop`.
- `Validation` (`validation.dfy`): `getListQuery` as a method that pops keys
  one by one, proved equal to `Validate`, the rule cascade as a function.
- `Tokens` (`tokens.dfy`): the token table as a class whose `Create` (`save()`)
  inserts a row without a key and whose `GenKey` (`genkey()`) then gives that
  row a key no row has; keys stay unique.
- `Pagination` (`pagination.dfy`): `handleListQuery`, `createResumptionToken`,
  `resumeRequest`, and the lemmas about pages, tokens and resumption.
- `Endpoint` (`endpoint.dfy`): verb routing, Identify's earliest datestamp, and
  `endpoint` itself.

The record store is a sequence of records plus the filter `Matches`. The set
catalogue is a set of names. The datestamp parser is a function parameter
returning an `Option`. `results_limit` is a parameter `limit`. Timestamps are
integers, and timezone conversions are the identity on them.

The source's messages are reproduced verbatim, including the date error that
closes the quoted value with a single quote (`not "x'.`). A new token's cursor
is `offset - results_limit` (oai/views.py:136), which is the offset of the page
just delivered, so the first token of a three-record harvest with page size 2
has cursor 0 (`Endpoint.ThreeRecordHarvest`).

The request's parameters are an ordered list of name/value pairs, repeated
names allowed. As with Django's `QueryDict`, `get` and `dict()` give the last
value a name has. The model lets iteration over what is left of `dict()` visit
names in the order of their first occurrence in the request; this order is the
model's choice (see `Validation.FirstIllegal` under "## Left out").

## Model

| member | source | states |
|---|---|---|
| `Validation.Validate` | oai/views.py:64-118 | Succeeds exactly when every rule holds (`Acceptable`). Every error is `badArgument`. On success: `format` is `metadataPrefix` verbatim; set, from and until are present exactly when supplied non-empty; the set is in the catalogue; the dates are the parser's values; `from` is not after `until`. |
| `Validation.FirstFailingRule` | oai/views.py:76-116 | Each rule gives its own exact message whenever every earlier rule passed, in the order: missing prefix, unknown set, bad `from`, bad `until`, `from` after `until`, first illegal key. |
| `Validation.FirstIllegal` | oai/views.py:113-116 | None exactly when every parameter name is one of verb, metadataPrefix, set, from, until. Otherwise a name outside them, carried at some position of the request before which every name is one of those five: the first illegal name. |
| `Validation.LeftoverHeadIsFirstIllegal` | oai/views.py:114-116 | What is left after popping the known keys is non-empty exactly when an illegal name exists, and its first key is the first illegal name. |
| `Validation.PopChain` | oai/views.py:76-114 | Each successive `pop` still returns the original dictionary's value, and the dictionary left at the end is the request without the five known names. |
| `Validation.GetListQuery` | oai/views.py:64-118 | The pop-by-pop procedure returns exactly `Validate`'s result. |
| `Validation.SetGetAsWritten` | oai/views.py:86-88 | As written, the set lookup raises exactly when the set is unknown, and otherwise returns the set. |
| `Validation.UnknownSetAsWrittenRaises` | oai/views.py:86-88 | For an unknown set, the as-written lookup raises, while `Validate` answers `badArgument` naming the set. |
| `Tokens.LookupRows` | oai/views.py:148-150 | A result is a stored row with that key and kind. None comes back exactly when no row has both. |
| `Tokens.FreshKey` | oai/views.py:144 | The generated key is non-empty and no row has it. |
| `Tokens.LookupAfterIssue` | oai/views.py:143-144 | Appending a token under a fresh key leaves the lookup of every other key unchanged, and the new key finds the new token. |
| `Tokens.TokenGetAsWritten` | oai/views.py:148-150 | As written, the token lookup raises exactly when no row matches. |
| `Tokens.UnknownTokenAsWrittenRaises` | oai/views.py:148-150 | An unknown key raises as written, and the corrected lookup answers None. |
| `Tokens.TokenStore.Lookup` | oai/views.py:148 | A token found is a row of the table with the requested key and kind. None comes back exactly when no row has both. |
| `Tokens.TokenStore.Create` | oai/views.py:143 | `save()` appends one keyless row, returns its position as id, and keeps keys unique. |
| `Tokens.TokenStore.GenKey` | oai/views.py:144 | `genkey()` gives only row `id` a key no row had, changes nothing else, and keeps keys unique. |
| `Pagination.Filter` | oai/views.py:124-125 | Every matching record appears exactly as many times as the store holds it, and no other record appears; so `count` is the number of matching rows. |
| `Pagination.FilterConcat` | oai/views.py:124 | Filtering keeps the store's order: the matches of `a + b` are the matches of `a` followed by those of `b`. |
| `Pagination.FilterAllMatch` | oai/views.py:124 | When every record satisfies the query, the matches are the whole store in its order. |
| `Pagination.PageOf` | oai/views.py:130 | The page has at most `limit` records. It is empty when `offset` is at or past the end. Its length is `min(limit, count - offset)` otherwise. Its i-th record is match `offset + i`. |
| `Pagination.MustIssue` | oai/views.py:127 | No contract of its own: the test `count - offset > results_limit`. Its meaning is stated by `Pagination.TokenIffRecordsRemain`. |
| `Pagination.NewToken` | oai/views.py:135-142 | No contract of its own: the fields of a new token with `until` corrected. They are stated by `Pagination.IssuedTokenFields`, `Pagination.TokenRoundTrip` and `Pagination.NewTokenAsWritten`. |
| `Pagination.RebuildQuery` | oai/views.py:151-158 | No contract of its own: the parameters rebuilt from a token. Their meaning is stated by `Pagination.TokenRoundTrip` and `Pagination.ResumeMatchesFreshQuery`. |
| `Pagination.TokenIffRecordsRemain` | oai/views.py:125-128 | A token is issued (`count - offset > results_limit`) exactly when the page stops before the last match. |
| `Pagination.IssuedTokenFields` | oai/views.py:134-142 | A new token has offset = old offset + limit, cursor = old offset, and total count = count, so its offset is below its total count. It also copies the kind, format, set, from and until. |
| `Pagination.NewTokenAsWritten` | oai/views.py:134-142 | As written, building the token raises exactly when the query has `until`. Otherwise it gives the corrected token. |
| `Pagination.UntilTokenAsWrittenRaises` | oai/views.py:139-140 | A query with `until` raises as written, and the corrected token keeps that `until`. |
| `Pagination.TokenRoundTrip` | oai/views.py:151-158 | Rebuilding the parameters from a token made for a validated query gives back that query. |
| `Pagination.ResumeMatchesFreshQuery` | oai/views.py:147-159 | Resuming a token filters the same matches, returns the same page, and makes the same next-token decision as running the original query at the token's offset. |
| `Pagination.HarvestDeliversEachRecordOnce` | oai/views.py:121-130 | Against an unchanged store, following the token chain from `offset` delivers `matches[offset..]` exactly once and in order. |
| `Pagination.CreateResumptionToken` | oai/views.py:134-145 | The table gains exactly one row: the new token's fields, under a key no row had. |
| `Pagination.HandleListQuery` | oai/views.py:121-131 | Returns the page at `offset`. It adds a token to the table exactly when `count - offset > limit`, and leaves the table untouched otherwise (`ListOutcome`). |
| `Pagination.ResumeRequest` | oai/views.py:147-159 | An unknown (kind, key) gives `badResumptionToken` "This resumption token is invalid." and leaves the table as it was. A known one gives the list outcome of the rebuilt query at the token's offset. Either way the lookup of (kind, key) answers afterwards as it did before. |
| `Endpoint.ListKindOf` | oai/views.py:45 | Only `ListRecords` and `ListIdentifiers` name a list verb. |
| `OaiTypes.Get` | oai/views.py:73-101 | `request.GET.get` (lines 31, 47), `dict()` and each `pop`: a value found is one a pair of the request carries under that name. The full meaning (last value wins, None exactly when absent) is `OaiTypes.GetIsLastValue`. |
| `OaiTypes.RemoveAll` | oai/views.py:76-114 | The dictionary left after `pop` is no longer than before. What it keeps is `OaiTypes.RemoveAllKeeps`. |
| `OaiTypes.GetIsLastValue` | oai/views.py:31 | `get` finds nothing exactly when no pair has the name, and otherwise the value of a pair with that name that no later pair overrides. |
| `OaiTypes.RemoveAllKeeps` | oai/views.py:76-114 | `pop` keeps exactly the pairs whose names it was not asked to remove. |
| `Endpoint.LaterVerbWins` | oai/views.py:31 | A request giving `verb` twice, first `Identify` then `ListRecords`, is routed as `ListRecords` without a token. |
| `Endpoint.RouteOf` | oai/views.py:37-53 | An absent or empty verb routes to the no-verb error. `Identify` routes to identify. A list verb routes to resume when `resumptionToken` is present, and to validation otherwise. Any other verb routes to the not-implemented error quoting it. |
| `Endpoint.ResumeIgnoresOtherParameters` | oai/views.py:45-47 | With a `resumptionToken`, the route depends only on the verb and the token's value, and never reaches validation. |
| `Endpoint.MinTimestamp` | oai/views.py:57 | The result is some record's timestamp and no record's is smaller. |
| `Endpoint.EarliestDatestamp` | oai/views.py:57-61 | An empty store gives `'1990-01-01'`. Otherwise the result is the smallest record timestamp. |
| `Endpoint.Endpoint` | oai/views.py:30-53 | Per route: "No verb specified!", Identify's page, `Verb "v" is not implemented.`, the resume outcome, or the validation error or list outcome. Only a list page can add a token row. |
| `Endpoint.ResumeIsRepeatable` | oai/views.py:147-159 | Resuming the same token twice against unchanged records gives the same page and the same next-token decision both times. |
| `Endpoint.ThreeRecordHarvest` | oai/views.py:121-159 | Page size 2, three matches: the first page is the first two records, with a token (offset 2, cursor 0, total 3). Resuming it gives the third record and no token. |

## Left out

- HTTP transport, template rendering and `HttpResponse`. Also left out: `thisUrl`, `baseURL` built from the request host, and the echoed parameter list (`to_kv_pairs`, an unseen utility). All of this is presentation around the engine.
- The response timestamp from `datetime.utcnow()`: wall-clock I/O that decides nothing here.
- `updateSource` and its asynchronous `fetch_from_source` job: job scheduling, not part of the engine.
- `tolerant_datestamp_to_datetime` from the external `oaipmh` library. It is an uninterpreted parser parameter that returns `None` where the library raises `DatestampError`.
- `make_aware` and `make_naive`: the identity on integer timestamps.
- `Validation.FirstIllegal`: names the first illegal key in request order. Under Python 2, which the source targets, `request.GET.dict()` iterates in hash order, so when a request carries two illegal keys the loop at line 115 reports one of them without a specified choice.
- ORM query execution and ordering. The store is a sequence in the store's own order.
- `Pagination.Matches`: the meaning of the filter is the model's own. `format` and `set` are tests for equality, and `from` and `until` are inclusive bounds on the timestamp. Line 124 hands the keys `format`, `set`, `from` and `until` to `OaiRecord.objects.filter` as field lookups of `oai/models`, which is not part of this model; no model field can be named `from`, a Python keyword, so the keyword filter as written may reject that key.
- The `genkey` implementation in `oai/models` is not part of this model. `FreshKey` promises only a key no row has.
- Uniqueness of keys across concurrent requests: requests run one at a time here.
- Token expiry or invalidation after use: the source has none, and the model keeps every token.
- `Pagination.HarvestDeliversEachRecordOnce`: requires `limit > 0`, since with a zero page size the token chain would never end.

## Findings

| source | as written | input that shows it | evidently intended | confidence | as-written member | corrected member |
|---|---|---|---|---|---|---|
| oai/views.py:140 | reads the undefined name `queryParameter`, which raises `NameError` | a `ListRecords` request with `until` and more matches than one page | store the query's `until` in the token | high, not executed | `Pagination.UntilTokenAsWrittenRaises` | `Pagination.IssuedTokenFields` |
| oai/views.py:86-88 | `OaiSet.objects.get` raises `DoesNotExist` for an unknown set, so the `badArgument` branch is unreachable | `set=physics` with no such set | answer `badArgument` "The set \"physics\" does not exist." | high, not executed | `Validation.UnknownSetAsWrittenRaises` | `Validation.Validate` |
| oai/views.py:148-150 | `ResumptionToken.objects.get` raises `DoesNotExist` for an unknown key, so the `badResumptionToken` branch is unreachable | `resumptionToken=XYZ` on an empty token table | answer `badResumptionToken` "This resumption token is invalid." | high, not executed | `Tokens.UnknownTokenAsWrittenRaises` | `Pagination.ResumeRequest` |
