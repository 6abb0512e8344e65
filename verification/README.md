# Free-agent pool fetcher — a Dafny model

`scripts/fetch_fangraphs_fa_pool.py` downloads season statistics for fixed segments of
players (hitters, starting pitchers, relief pitchers) from the FanGraphs leaders endpoint. It
writes one JSON file per task under `data/fa/`. This project models the logic around the HTTP
call:

- **Query parameters** (`leaders_params`): the request dictionary. Fixed filters plus the
  caller's values rendered as decimal text, with the player ids comma-joined in order.
- **Bounded retry** (`call_api`): up to `tries` attempts. Every failure is retried: a
  transport error, a throttling status, any other 4xx/5xx status, or a body that is not JSON.
  Pauses follow a capped geometric schedule (2, ×1.8, at most 20).
- **Row extraction** (`normalize_rows`): looks for the list of rows under `data`, then
  `rows`, `result`, `results`, and keeps its object entries.
- **Hitter normalisation** (`first_present`, `fmt3`, `normalize_hitter`): maps a raw row
  onto the 23 columns of `HITTER_COLS`, in order, through ordered alias lists. The rate
  columns AVG, OBP, SLG and OPS are formatted to three decimals.
- **Completeness strategy** (`fetch_all`): one oversized request, accepted when it brings
  more than 10 rows. Otherwise paging with pages of 500 until a page is empty or short.
- **One task** (`fetch_and_save`): segment lookup, fetch, hitter normalisation for `bat`, and
  the table written to `data/fa/<name>.json`.

Modules, in dependency order:

- `Basics`: `Option`, `Result`, and the `Error` values standing for the script's exceptions.
- `Json`: decoded JSON values, the object filter, and dictionaries built by successive
  assignment.
- `Decimal`: `str(int)`, the comma join, and the parsers that read them back.
- `Rows`: `normalize_rows`.
- `Hitters`: `first_present`, `fmt3`, `normalize_hitter`.
- `Api`: `leaders_params`, one attempt on the wire, the backoff schedule, and `call_api`.
- `Fetch`: `fetch_all` and `fetch_and_save`.

The upstream is a value `Network(content, wire)`:

- `content(q)` is the JSON the server sends for the request `q`, the arguments of one
  `leaders_params` call. `LeadersParamsInjective` shows that the rendered dictionary determines
  these arguments.
- `wire(n)` is what happens to the n-th request of a run: no response, or a status with a
  body that does or does not decode.

The methods thread the request counter (`clock` in, `next` out). So whatever fails on the
wire, the contracts state what a result that does come back must be.

## Model

| member | source | states |
|---|---|---|
| `Json.ObjectsFilter` | scripts/fetch_fangraphs_fa_pool.py:244 | The list comprehension keeps objects only: every kept row is an entry of the list, a list with no objects gives no rows, and a list of objects only is kept whole and in order. |
| `Json.Objects` | scripts/fetch_fangraphs_fa_pool.py:244-248 | `[r for r in xs if isinstance(r, dict)]`: never more rows than entries; what it keeps, and in which order, is stated by `Json.ObjectsFilter` and `Json.ObjectsAppend`. |
| `Json.ObjectsAppend` | scripts/fetch_fangraphs_fa_pool.py:244 | Filtering a concatenation is concatenating the filtered parts, so entries keep their relative order. |
| `Json.FromPairsAt` | scripts/fetch_fangraphs_fa_pool.py:267-290 | In a dict filled by successive assignments with distinct keys, every assigned value can be read back under its key. |
| `Decimal.IntToString` | scripts/fetch_fangraphs_fa_pool.py:226-237 | `str(i)`: never empty and never contains a comma, so it can be comma-joined; `Decimal.IntRoundTrip` shows it parses back. |
| `Decimal.IntRoundTrip` | scripts/fetch_fangraphs_fa_pool.py:229 | `str` of any int, negative ones included, parses back to the same int. |
| `Decimal.SplitJoin` | scripts/fetch_fangraphs_fa_pool.py:230 | Splitting a non-empty joined list of parts at the separator gives the parts back, provided no part contains the separator. |
| `Decimal.JoinIds` | scripts/fetch_fangraphs_fa_pool.py:230 | `",".join(map(str, players))`: empty exactly when there are no players; `Decimal.IdsRoundTrip` shows it parses back. |
| `Decimal.IdsRoundTrip` | scripts/fetch_fangraphs_fa_pool.py:230 | `",".join(map(str, players))` loses nothing: parsing it back gives the same ids, in order and with repeats. |
| `Rows.FirstListFinds` | scripts/fetch_fangraphs_fa_pool.py:245-248 | The key search finds nothing exactly when no key holds a list. Otherwise it returns the list under the first key that holds one, and no earlier key holds a list. |
| `Rows.FirstList` | scripts/fetch_fangraphs_fa_pool.py:245-248 | The loop over the fallback keys as a search; `Rows.FirstListFinds` states what it finds. |
| `Rows.NormalizeRows` | scripts/fetch_fangraphs_fa_pool.py:241-242 | A payload that is not an object fails, because it has no `.get`, and only such a payload fails. |
| `Rows.NormalizeRowsPriority` | scripts/fetch_fangraphs_fa_pool.py:241-249 | If `data` holds a list, its object entries are the rows. Otherwise `rows`, `result` and `results` are tried in that order. No list under any of them gives no rows. |
| `Rows.DataShadowsOtherKeys` | scripts/fetch_fangraphs_fa_pool.py:242-244 | Once `data` holds a list, nothing under any other key changes the result. |
| `Rows.ScalarsAreDropped` | scripts/fetch_fangraphs_fa_pool.py:244-249 | An object payload whose lists hold no objects yields no rows. |
| `Hitters.FirstPresent` | scripts/fetch_fangraphs_fa_pool.py:251-255 | Returns the value under the first alias present in the row, whatever that value is (null, "", 0), and no earlier alias is present. It falls back to "" only when no alias is present. |
| `Hitters.Fmt3` | scripts/fetch_fangraphs_fa_pool.py:257-264 | Null and "" become "". A float, a bool (as 1.0 or 0.0), an int that `float()` accepts and a string that parses as a number become the 3-decimal text of their float value. A list, an object, an int too large for a float, or a string that does not parse is returned unchanged. |
| `Hitters.ColumnNames` | scripts/fetch_fangraphs_fa_pool.py:193 | The assignments of normalize_hitter produce the columns of HITTER_COLS, in the same order. |
| `Hitters.ColumnsDistinct` | scripts/fetch_fangraphs_fa_pool.py:193 | No column of HITTER_COLS is named twice. |
| `Hitters.ColumnAliasesStartWithName` | scripts/fetch_fangraphs_fa_pool.py:267-290 | Every column is looked up first under its own name. |
| `Hitters.ColumnRates` | scripts/fetch_fangraphs_fa_pool.py:286-290 | Exactly AVG, OBP, SLG and OPS go through fmt3. |
| `Hitters.ColumnsMatchSchema` | scripts/fetch_fangraphs_fa_pool.py:193 | The four facts above together. |
| `Hitters.Resolve` | scripts/fetch_fangraphs_fa_pool.py:268-290 | One `mapped[...] =` line: the first present alias, through fmt3 for a rate column; `Hitters.ProjectedAt` and `Hitters.NormalizeHitter` state where it lands. |
| `Hitters.Mapped` | scripts/fetch_fangraphs_fa_pool.py:267-290 | The dict `mapped` after all assignments; `Hitters.MappedAt` shows each column reads back its own value. |
| `Hitters.MappedAt` | scripts/fetch_fangraphs_fa_pool.py:267-290 | No later assignment to `mapped` overwrites an earlier one: each column reads back its own assigned value. |
| `Hitters.Project` | scripts/fetch_fangraphs_fa_pool.py:291 | The final comprehension has exactly the keys of HITTER_COLS, in order, whatever `mapped` holds. |
| `Hitters.ProjectedAt` | scripts/fetch_fangraphs_fa_pool.py:291 | Column i of the comprehension is the value assigned to column i. |
| `Hitters.NormalizeHitter` | scripts/fetch_fangraphs_fa_pool.py:266-291 | The output has exactly the 23 columns of HITTER_COLS, in order, for any row. The rate columns hold fmt3 of the first present alias. Every other column holds the first present alias, copied verbatim. A column with no alias present is "". |
| `Hitters.FirstPresentIgnores` | scripts/fetch_fangraphs_fa_pool.py:251-255 | Adding a key that is not among the aliases never changes what the lookup finds. |
| `Hitters.NormalizeHitterIgnores` | scripts/fetch_fangraphs_fa_pool.py:266-291 | Upstream fields that are no column's alias do not affect the normalised row. |
| `Hitters.Fmt3Idempotent` | scripts/fetch_fangraphs_fa_pool.py:257-264 | When float parsing reads back what ".3f" wrote, formatting an already formatted value changes nothing. |
| `Hitters.ReadBackAt` | scripts/fetch_fangraphs_fa_pool.py:266-291 | Read back as a dict, each column of a normalised row finds its own value under its own name. |
| `Hitters.NormalizeAgainAt` | scripts/fetch_fangraphs_fa_pool.py:266-291 | Each column survives a second normalisation unchanged. |
| `Hitters.NormalizeHitterIdempotent` | scripts/fetch_fangraphs_fa_pool.py:266-291 | Normalising a normalised row gives the same row. |
| `Api.AllParamsListed` | scripts/fetch_fangraphs_fa_pool.py:221-239 | The seventeen parameter names are all there are. |
| `Api.NamesDistinct` | scripts/fetch_fangraphs_fa_pool.py:221-239 | The wire spellings of the parameters are pairwise different. |
| `Api.SeasonTextRendersSeason` | scripts/fetch_fangraphs_fa_pool.py:25 | The season text sent is `str(SEASON)`, and it reads back as 2025. |
| `Api.LeadersParams` | scripts/fetch_fangraphs_fa_pool.py:220-239 | Every one of the seventeen parameters is present in the request. |
| `Api.RequestMap` | scripts/fetch_fangraphs_fa_pool.py:221-239 | The dictionary literal: every parameter is present with its own value. |
| `Api.LeadersParamsText` | scripts/fetch_fangraphs_fa_pool.py:228-238 | The players are sent comma-joined, the stat type as given, and the filter empty. |
| `Api.LeadersParamsNumbers` | scripts/fetch_fangraphs_fa_pool.py:229-237 | The month, the page size and the page number are sent as their decimal text. |
| `Api.LeadersParamsSeason` | scripts/fetch_fangraphs_fa_pool.py:226-227 | The season goes out as "2025" under both season keys. |
| `Api.LeadersParamsReadBack` | scripts/fetch_fangraphs_fa_pool.py:220-239 | Every argument can be read back from the request: the players in order with repeats, the numbers as the same integers, the stat type, the season and the empty filter. |
| `Api.LeadersParamsInjective` | scripts/fetch_fangraphs_fa_pool.py:220-239 | Different arguments give different requests. |
| `Api.Attempt` | scripts/fetch_fangraphs_fa_pool.py:203-211 | An attempt succeeds exactly when a response arrives whose status is not in (429, 403, 502, 503, 504) and not 4xx/5xx, and whose body decodes. It then returns the server's JSON for the request. |
| `Api.Backoff` | scripts/fetch_fangraphs_fa_pool.py:199-217 | Every pause lies between 2 and 20. |
| `Api.BackoffMonotone` | scripts/fetch_fangraphs_fa_pool.py:217 | The pause never decreases from one failure to the next. |
| `Api.BackoffCapped` | scripts/fetch_fangraphs_fa_pool.py:217 | From the fifth pause on, the pause is exactly 20. |
| `Api.DefaultScheduleTotal` | scripts/fetch_fangraphs_fa_pool.py:198-217 | With the default six tries, the five pauses add up to 43.744 seconds. |
| `Api.CallApi` | scripts/fetch_fangraphs_fa_pool.py:198-218 | At most `tries` attempts, made on consecutive request numbers; every attempt before the last failed. With tries ≤ 0 there is no attempt and the call fails. Otherwise the result is the last attempt's outcome, and a failure means all `tries` attempts were spent. Success returns the server's JSON. The pauses are the backoff schedule, one between consecutive attempts. |
| `Fetch.Request` | scripts/fetch_fangraphs_fa_pool.py:298-299 | `normalize_rows(call_api(...))`: a result is the server's rows for that request. A failure is either a payload that is not an object or six failed attempts in a row, so a transient failure followed by a success within the six tries yields the rows. On a network that never fails again, with an object payload, a result comes back. |
| `Fetch.FetchPages` | scripts/fetch_fangraphs_fa_pool.py:303-316 | Pages 1, 2, … are requested in turn with page size 500. A result is the concatenation of pages 1..k in order, where pages before k were long enough to go on and page k is the first that is empty or short. A failure happens at the last page requested, after every earlier page went on, and is that page's non-object payload or six failed attempts for it. On a reliable network with object payloads, a result comes back. |
| `Fetch.TransientFailureRecovers` | scripts/fetch_fangraphs_fa_pool.py:212-217 | A request whose server answers with an object does not give up when only its first attempt fails: the retry brings the rows. |
| `Fetch.FetchAll` | scripts/fetch_fangraphs_fa_pool.py:296-316 | The first request is the one-shot (page size 2000000000, page 1), followed by page requests (500, 1), (500, 2), …. A result is the one-shot rows if there are more than 10, after that single request. Otherwise the one-shot rows are discarded and the result is the paging's. A failure comes from the last request made: its payload is not an object, or its last six attempts all failed (`GaveUp`). When paging was reached, the one-shot brought an object with at most 10 rows and every earlier page was full. On a reliable network with object payloads, a result comes back. |
| `Fetch.FetchedOneShot` | scripts/fetch_fangraphs_fa_pool.py:298-301 | More than 10 one-shot rows settle the fetch after one request. |
| `Fetch.FetchedPaged` | scripts/fetch_fangraphs_fa_pool.py:303-316 | Otherwise the paging that follows the one-shot request settles it. |
| `Fetch.PagedUnique` | scripts/fetch_fangraphs_fa_pool.py:306-314 | Two successful pagings over the same server stop at the same page with the same rows. |
| `Fetch.FetchedDeterministic` | scripts/fetch_fangraphs_fa_pool.py:296-316 | A successful fetch is determined by the server alone: retries and wire faults change neither the requests made nor the rows. |
| `Fetch.OutPath` | scripts/fetch_fangraphs_fa_pool.py:293-294 | The output file is `data/fa/` + name + `.json`, and the name can be read back from it. |
| `Fetch.Tabulate` | scripts/fetch_fangraphs_fa_pool.py:321-322 | For `bat`, one normalised hitter row per fetched row, in order. For any other stat type, the rows as fetched. |
| `Fetch.HitterTableSchema` | scripts/fetch_fangraphs_fa_pool.py:321-322 | Every row of a `bat` table has exactly the columns of HITTER_COLS, in order. |
| `Fetch.FetchAndSave` | scripts/fetch_fangraphs_fa_pool.py:318-323 | An unknown segment fails before any request. A saved table goes to the task's path and is the tabulation of a successful fetch for that segment. A failure for a known segment is the fetch's failure: the last request's payload is not an object or its six attempts all failed, after a one-shot that led to paging and full earlier pages. On a reliable network with object payloads, the task succeeds. |

## Left out

- The HTTP mechanics are not modelled: URL, headers, timeout, URL-encoding of the parameters, and `r.json()` decoding. An attempt's outcome is `wire(n)`, and the decoded body is `content(q)`.
- The server is assumed to answer the same request with the same JSON. It is keyed by the arguments of `leaders_params` rather than by the rendered dictionary; `Api.LeadersParamsInjective` shows the two identify a request equally.
- `time.sleep` is not performed. `Api.CallApi` returns the pauses it would take. The 0.7-second pause between pages and the 1.2-second pause between tasks are left out.
- `save_json`, `print` and `OUT_DIR.mkdir` are not performed. `Fetch.FetchAndSave` returns the path and the table instead of writing them. The JSON text of the file (`ensure_ascii=False`) is not modelled.
- The `SEGMENTS` id tables and `main`'s task list are data. `segments` is a parameter of `Fetch.FetchAndSave`.
- Python's float parsing and ".3f" formatting are parameters (`FloatConv`): `float(str)`, `float(int)` and the formatter. Floats are reals, so NaN and infinities do not occur.
- JSON object key order is not modelled for raw rows, which are maps. Normalised hitter rows are ordered sequences of pairs.
- `Fetch.FetchPages`: requires that some page stops the paging (`HasLastPage`). An upstream that returns full pages forever makes the paging loop run forever (unless the six attempts for one page all fail, which raises), and that behaviour is not modelled. `Fetch.FetchAll` and `Fetch.FetchAndSave` need this only when paging is reached, that is when the one-shot payload is an object with at most 10 rows (`OneShotPages`). A one-shot that fails or brings more than 10 rows needs nothing of the pages.
- `Rows.NormalizeRows`: a payload that is not a JSON object makes the script raise (`.get` on a list or scalar). The model returns `Err(NotAnObject)`, not zero rows.
- `Api.CallApi`: every failure is retried, including 4xx/5xx statuses raised by `raise_for_status`. This follows `except Exception`, not a fail-fast reading for non-retryable statuses.
- `Fetch.FetchPages`: paging goes on after any page with at least 500 rows. The code tests `len(chunk) < 500`, so a page longer than 500 also continues; "every earlier page has exactly 500 rows" holds only if the server honours the page size.
- `Fetch.OutPath`: pathlib's `/` with an absolute name (one starting with `/`) drops `data/fa`; that case is not modelled, and the path is always `data/fa/` + name + `.json`. The task names the script uses are all relative.
- `Decimal.ParseInt` reads only the canonical forms `str(int)` produces. It is the reading partner of the rendering, not Python's `int()`.
