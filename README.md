# osm-query: a Dafny model of `OSMDataFetcher`

This project models the retrieval component of osm-query. That component
turns a country name and a location-type name into an Overpass QL query and
POSTs it to the Overpass API, retrying with exponential backoff. The model
covers the four parts of the `OSMDataFetcher` class:

- **Country resolution** (`get_country_code`): the country table
  (ISO 3166-1 code to display name) is reversed into lower-cased name to
  code, and the name is looked up ignoring case.
- **Location-type lookup** (`get_location_type_config`): the stored
  descriptor, or `None` when the type name is absent or its descriptor is
  the empty object.
- **Query construction** (`build_tag_query`, `build_query`): the
  `area["ISO3166-1"="<code>"]` scope, one node/way/relation triple per tag
  group carrying the group's `["key"="value"]` filters in declared order,
  and the closing `out <query_type> body;` (default `center`).
- **Retrieval with retries** (`fetch_data`): short-circuits when the
  country or the query cannot be produced. Otherwise it makes at most
  `max_retries` POSTs and returns the first answer. After each failed
  attempt except the last it sleeps, starting at `initial_delay` and
  doubling each time.

Modules:

- `wrappers.dfy`: `Option`.
- `text.dfy`: the string operations used (ASCII `lower`, `"".join`, splitting into lines).
- `config.dfy`: the two tables and the two lookups.
- `query.dfy`: the query text as pure functions, and lemmas on its structure.
- `fetcher.dfy`: the class `OSMDataFetcher`. It holds the two tables as
  constant fields set by the constructor. Its methods carry the loops of
  `build_tag_query`, `build_query` and `fetch_data`.

The transport is a parameter `post(query, attempt)`. It gives the outcome of
each POST: a decoded answer, or a failure that stands for any
`RequestException`. Each `time.sleep` is recorded as an element of the
returned `sleeps` sequence.

Behaviour of the code the model keeps:

- `if not query` in `fetch_data` rejects `None`, the result of an unknown or
  empty location type, and would also reject an empty string. A built query
  is never empty (`QueryFor` proves this), so the model tests only for
  `NotFound`.
- An answer with zero elements is a success and is returned at once.
- A 200 answer whose body is not JSON is retried like a transport failure.
  With current `requests`, `response.json()` raises a `RequestException`
  subclass, which the loop catches.
- A descriptor object that lacks the "tags" key makes `build_query` raise
  `KeyError`. The exception escapes `fetch_data`. The model returns
  `TagsKeyError` for this case.
- A country that resolves to the empty code `""` is falsy. `fetch_data`
  then returns `(None, None)`, just as for an unknown name.

## Model

| member | source | states |
|---|---|---|
| `Config.CountryCodeFound` | src/osm_data_fetcher.py:36-40 | any casing of a configured display name resolves to that entry's code; when several names agree ignoring case, the last entry wins, as in the dict comprehension |
| `Text.Lower` | src/osm_data_fetcher.py:39-40 | `str.lower` on ASCII: same length, each capital A-Z mapped to its small letter, every other character kept, no capital left |
| `Text.Concat` | src/osm_data_fetcher.py:59 | `"".join` of no parts is `""` and of one part is that part |
| `Text.ConcatAppend` | src/osm_data_fetcher.py:59 | joining two part lists in sequence is joining each and concatenating, so with `Concat`'s contract the join is the parts in order |
| `Config.NameIndex` | src/osm_data_fetcher.py:39 | the reversed table has a key for every lower-cased display name, and each key maps to the code of an entry whose lower-cased name is that key |
| `Config.CountryCode` | src/osm_data_fetcher.py:36-40 | the lookup gives `None` exactly when no display name equals the query ignoring case, and otherwise the code of an entry whose name does |
| `Config.SampleCountryLookups` | tests/test_osm_fetcher.py:40-41 | with the tests' table, "Netherlands" and "netherlands" give "NL" |
| `Config.SampleUnknownCountry` | tests/test_osm_fetcher.py:42 | with the tests' table, "Nonexistent Country" gives `None` |
| `Config.IsEmpty` | src/osm_data_fetcher.py:45 | a descriptor is falsy exactly when it is the empty object; a dict holding only keys the model does not carry is the gap named under "Left out" |
| `Config.LocationTypeConfig` | src/osm_data_fetcher.py:42-48 | returns exactly the stored descriptor when the type is present with a non-empty descriptor, and `None` otherwise, in both directions |
| `Query.Filter` | src/osm_data_fetcher.py:57 | one condition's filter is `|key| + |value| + 7` characters long |
| `Query.FilterLayout` | src/osm_data_fetcher.py:57 | the filter is `["`, the key, `"="`, the value and `"]`, in that order, with key and value verbatim |
| `Query.Filters` | src/osm_data_fetcher.py:52-57 | the `query_parts` list: one filter per condition, the i-th for condition i |
| `Query.TagFragment` | src/osm_data_fetcher.py:50-59 | the fragment's length is the sum of the per-condition filter lengths; no conditions give the empty string |
| `Query.TagFragmentAppend` | src/osm_data_fetcher.py:50-59 | the fragment of two concatenated condition lists is the concatenation of their fragments |
| `Query.TagFragmentAt` | src/osm_data_fetcher.py:50-59 | condition i's `["key"="value"]` filter sits between the fragments of the conditions before and after it, in declared order |
| `Query.SampleOneCondition` | tests/test_location_types.py:89-97 | the group `building=church` renders as `["building"="church"]` |
| `Fetcher.OSMDataFetcher.BuildTagQuery` | src/osm_data_fetcher.py:50-59 | the loop that collects one filter per condition and joins them returns exactly the tag fragment |
| `Query.OutputType` | src/osm_data_fetcher.py:69 | the output type is the descriptor's `query_type` when present and `"center"` otherwise |
| `Query.QueryFor` | src/osm_data_fetcher.py:61-94 | `build_query` gives `None` exactly when the type lookup fails, and the `KeyError` exactly for a non-empty descriptor without "tags"; otherwise it gives a non-empty text determined by the code and the descriptor alone |
| `Query.Header` | src/osm_data_fetcher.py:72-77 | the opening is five template lines, each preceded by a newline: settings, comment, area scope, comment, `(` |
| `Query.Section` | src/osm_data_fetcher.py:82-85 | a group's section is its node, way and relation lines, each preceded by a newline and each carrying the group's fragment |
| `Query.Footer` | src/osm_data_fetcher.py:88-92 | the closing is `);`, the output comment, `out <t> body;` and the trailing indentation, each preceded by a newline |
| `Query.QueryText` | src/osm_data_fetcher.py:72-92 | the whole query is the model's line list (empty first line, header, group lines, footer) joined with newlines |
| `Query.ScopeAfterPreamble` | src/osm_data_fetcher.py:72-77 | every query holds `area["ISO3166-1"="<code>"]->.searchArea;` right after the fixed preamble |
| `Query.SectionsAt` | src/osm_data_fetcher.py:79-85 | group i's node/way/relation section sits between the sections of the groups before and after it |
| `Query.EndsWithOutput` | src/osm_data_fetcher.py:87-92 | every query ends with the line `out <t> body;` followed by the template's closing newline and indentation |
| `Query.QueryLineStructure` | src/osm_data_fetcher.py:72-92 | when code, output type, keys and values hold no newline, splitting the query at newlines gives exactly the model's line list |
| `Query.QueryLinesLayout` | src/osm_data_fetcher.py:72-92 | the line list has 10 + 3n lines for n groups, the area scope on line 3, exactly one node, one way and one relation line per group in declared order, and `out <t> body;` second to last |
| `Query.GroupLinesAt` | src/osm_data_fetcher.py:79-85 | the group lines are 3 per group; group i has its node, way and relation lines at 3i, 3i+1 and 3i+2 |
| `Fetcher.OSMDataFetcher.BuildQuery` | src/osm_data_fetcher.py:61-94 | the loop that appends one section per tag group to the header and then adds the footer returns exactly `QueryFor` |
| `Fetcher.ResolvedCode` | src/osm_data_fetcher.py:109-113 | a name counts as resolved only when the lookup gives a non-empty code, because `""` is falsy |
| `Fetcher.OSMDataFetcher.FetchData` | src/osm_data_fetcher.py:96-148 | an unresolved country gives `(None, None)`; an unknown type gives `(None, code)`; a descriptor without "tags" gives the `KeyError`; all three make no POST and no sleep; otherwise the retry loop's promise holds for the built query |
| `Fetcher.OSMDataFetcher.PostWithRetries` | src/osm_data_fetcher.py:123-148 | at most `max_retries` POSTs of the query; every attempt before the last one made failed; the first answer is returned with the code after `attempts - 1` sleeps; if every attempt fails it returns `(None, code)` after `max(max_retries - 1, 0)` sleeps; the k-th sleep is `initial_delay * 2^(k-1)` |
| `Fetcher.FirstSuccessReturned` | src/osm_data_fetcher.py:125-139 | if attempt k is the first success and k < `max_retries`, the loop returns that answer after k + 1 attempts and k sleeps; an answer with zero elements counts too |
| `Fetcher.AllAttemptsFail` | src/osm_data_fetcher.py:140-148 | if every attempt fails, the loop returns `(None, code)` after `max(max_retries, 0)` attempts and `max(max_retries - 1, 0)` sleeps |
| `Fetcher.RetryScenarios` | src/osm_data_fetcher.py:123-148 | two failures then a success with `max_retries = 3` return the answer after sleeps `[d, 2d]`; with `max_retries = 2` and only failures, two attempts and one sleep `[d]` |
| `Fetcher.Backoff` | src/osm_data_fetcher.py:143-146 | the k-th of the recorded sleeps (from 0) waits `initial_delay * 2^k` |
| `Fetcher.DefaultRetries` | src/osm_data_fetcher.py:96 | with the defaults `max_retries=3` and `initial_delay=10`, at most three POSTs, sleeps `[10, 20]` cut to the attempts made before the answer, and `(None, code)` after three attempts and sleeps `[10, 20]` when none succeeds |
| `Fetcher.BackoffNext` | src/osm_data_fetcher.py:143-146 | one more sleep appends the current delay, and the next delay is twice the current one |
| `Fetcher.BackoffTotal` | src/osm_data_fetcher.py:143-146 | k sleeps wait `initial_delay * (2^k - 1)` in total |
| `Fetcher.OSMDataFetcher.constructor` | src/osm_data_fetcher.py:12-16 | the fetcher holds the Overpass URL and the two given tables, unchanged afterwards |

## Left out

- `_load_country_codes` and `_load_location_types` (file reads and JSON
  parsing, falling back to `{}`): the constructor takes the two tables directly.
- `requests.post`, its fixed URL, the 360 s timeout, `raise_for_status`
  and `response.json()`: network I/O in a foreign library. They are the
  parameter `post`, which gives each attempt's outcome.
- An exception other than `RequestException` raised by the transport: it
  would escape `fetch_data`. The transport model has no such outcome.
- Fetcher.OSMDataFetcher.PostWithRetries: does not model two exceptions
  that escape `fetch_data`. `time.sleep` raises `ValueError` for a negative
  delay, which the model simply records in `sleeps`. And
  `len(data.get('elements', []))` raises `AttributeError` when the decoded
  answer is not a JSON object, or `TypeError` when its "elements" value has
  no length (null, a number); the model's answer is always an object whose
  "elements" is absent or a list.
- `time.sleep`: recorded in `sleeps`, not as elapsed time.
- All `print` logging, including the element count of a successful answer.
- Text.Lower: models `str.lower` on ASCII letters only. So a display name
  or a query with a non-ASCII capital letter does not match its other
  casings: the query "åland islands" finds the display name "Åland
  Islands" in the code, but not in the model, which keeps "Å" unchanged.
- The descriptor keys other than "description", "query_type" and "tags",
  and the tag groups' "type" key: the code never reads them. So a
  descriptor holding only other keys, which the code treats as non-empty,
  is not modelled.
- A tag group without "conditions", or a condition without "key" or
  "value": the code would raise `KeyError`. The model's tag groups and
  conditions always have these fields, and keys and values are strings.
  Non-string JSON values, which an f-string would format with `str()`, are
  not modelled.
- A "query_type" whose JSON value is not a string.
- `max_retries` and `initial_delay` are integers. A float delay is not
  modelled.
- The retry loop of `fetch_data` is its own method, `PostWithRetries`.
  This keeps each proof small; the behaviour is unchanged.
- `main.py` (script plumbing) and `src/data_saver.py` (one JSON file
  write): not part of the retrieval logic.
