# Ad Library fetcher: a Dafny model of the page loop

This project models the core of the Facebook Ad Library scraper in `app.py`:

- `fetch_all_ads` walks the `ads_archive` endpoint page by page. Each page gets up to three attempts, and only a timeout is retried, after a two-second sleep. The loop stops on:
  - an `"error"` body;
  - an empty page;
  - a page without a `paging.next` link;
  - the ten-page cap.
- In every other case the loop swaps in the parameters of the next link. Every way out returns the records gathered so far.
- Deriving those parameters from the `paging.next` query string keeps the first value of each key and drops every earlier parameter.
- `save_results` flattens each record into a six-cell CSV row.

The network is an abstract transport. It is a total function from `(page_count, attempt, params)` to what the request came to:

- a timeout;
- another request failure;
- a body that is not JSON;
- an interrupt;
- any other exception;
- a decoded body.

Sleeps are counted rather than taken.

Modules:

- `Ads` (`ads.dfy`): ad records as decoded JSON values, `", ".join`, the CSV row of a record, and the loop that builds the CSV table.
- `Paging` (`paging.dfy`): `parse_qs` over an already-split query string, and the first-value parameter map of the next request.
- `Fetcher` (`fetcher.dfy`): the imperative `FetchAllAds`, with its inner attempt loop `FetchPage` and the per-page checks `TakePage`. Each is proved equal to a recursive specification:
  - `TryPage` for the attempts at one page;
  - `Decide` for the checks on a page;
  - `FetchFrom` / `Fetch` for the page loop.
  The ghost result `Run` records four things: why the loop stopped, every request in the order made, the one-second and two-second sleeps, and the final `page_count`.
- `FetchProperties` (`fetch_properties.dfy`): what the loop promises, proved about `Fetch` for every transport.

## Model

| member | source | states |
|---|---|---|
| Ads.Row | app.py:176-184 | each record gives a row as wide as the header row |
| Ads.CsvTable | app.py:165-185 | the table written is the six column titles (`HeaderCells`) followed by one row per ad, in order; every row has six cells |
| Ads.RowCells | app.py:177-184 | a missing field gives an empty cell; a present list field is joined with ", "; any other present field is copied |
| Ads.SplitJoin | app.py:180-182 | joining a non-empty list of comma-free items with ", " and splitting the result gives the list back |
| Ads.ListCellRoundTrip | app.py:180-182 | a list column of a row splits back into the ad's list when no item holds a comma |
| Ads.StringInListColumn | app.py:180-182 | a string where a list is expected is joined character by character ("ab" gives "a, b") |
| Paging.ParseQuery | app.py:115 | parse_qs never maps a key to an empty list |
| Paging.ParseQueryGroups | app.py:115 | a key is present after parse_qs exactly when some pair carries it, mapped to all its values in order |
| Paging.FirstValue | app.py:115-117 | a key's value list is non-empty iff the key occurs; its first element is the value of the key's first pair |
| Paging.CursorParamsFirstWins | app.py:113-117 | for `CursorParams`: the next request's parameters hold exactly the keys of the query string, each with its first value; nothing from the previous parameters survives |
| Fetcher.FetchPage | app.py:75-93 | the attempt loop makes the requests, takes the backoffs and reaches the verdict of the specification function `TryPage`, whose own properties are the TryPageShape, AttemptsInOrder and PageBackoffs rows |
| Fetcher.TakePage | app.py:75-117 | one page's attempts and checks give the step the specification function `Decide` makes of TryPage, with the same requests and backoffs; Decide's own properties are the PageEnds and PageKept rows |
| Fetcher.FetchAllAds | app.py:56-126 | the loop returns exactly the records of the specification function `Fetch` (`FetchFrom` from page_count 0); its ghost run (reason, requests, sleeps, final page_count) is Fetch's; the FetchProperties rows below are what is proved about `FetchFrom` |
| FetchProperties.TryPageShape | app.py:75-93 | the attempts at a page are 1 to 3 requests in attempt order with the same parameters; all but the last timed out; the verdict is the last one's; a final timeout means the attempts ran out; one backoff per retry |
| FetchProperties.AttemptsInOrder | app.py:75-87 | each attempt at a page is a retry of the previous one after a timeout, each answered by the transport |
| FetchProperties.RequestsInOrder | app.py:62-117 | every request of a run is a retry after a timeout or the first attempt at the next page with the previous page's next-link parameters; the first uses the initial parameters; no page past 10 is asked for |
| FetchProperties.PageEnds | app.py:75-117 | a page's last request is for that page; it gives the stop reason or is a non-empty page with a next link |
| FetchProperties.StopPage | app.py:63-73 | a run reaches the cap exactly when page_count ends at 11, having followed a next link on page 10; otherwise it stops at the page of its last request |
| FetchProperties.StopReason | app.py:82-124 | a run that does not reach the cap stops at its last request: a third timeout, another failure, an "error" body, an empty page or a page without a next link |
| FetchProperties.PageKept | app.py:95-104 | the records kept from a page are those its final attempt contributes |
| FetchProperties.AdsGathered | app.py:95-104 | the records returned are the data of every response without "error", in request order, each page whole |
| FetchProperties.PageBackoffs | app.py:82-87 | a page's two-second sleeps are its timeouts, less one when its attempts ran out |
| FetchProperties.BackoffPerTimeout | app.py:82-87 | over a run, a two-second sleep follows every timeout except a third one that ends the run |
| FetchProperties.NapPerPage | app.py:63-68 | a one-second sleep comes before every pass of the loop but the first, the pass that hits the cap included |
| FetchProperties.RequestCount | app.py:59-75 | a run makes at most 3 requests per page left before the cap |
| FetchProperties.FetchBounds | app.py:56-126 | a run asks only for pages 1 to 10, makes at most 30 requests, ends with page_count at most 11, and sleeps one second once per pass but the first |
| FetchProperties.AlwaysTimingOut | app.py:75-87 | against a server that always times out, the run makes three attempts at page 1, sleeps two seconds twice and returns nothing |
| FetchProperties.EndlessPages | app.py:62-117 | against a server whose every page has one record and a next link, each remaining page up to 10 is requested once and kept |
| FetchProperties.CapAfterTenPages | app.py:63-73 | against that server, the run stops at the cap with 10 records from 10 requests, page_count 11 and ten one-second sleeps |

## Left out

- The environment setup is not modelled: `load_dotenv`, the access-token check, the module-level `params`, and `parse_args`/`main` (app.py:13-51, 188-237). Neither are `gui.py` and `constants.py`. They are configuration, argument parsing, UI and threading.
- HTTP is not modelled. `requests.get`, `raise_for_status` and `response.json()` are the transport's outcomes, and an HTTP status error is a request failure.
- URL parsing is not modelled. The query string of `paging.next` is given as already-split, already-decoded (key, value) pairs. `urlparse`, percent-decoding and the blank values that `parse_qs` drops happen before the model sees it.
- `time.sleep` is not modelled as time. Sleeps are ghost counters: `naps` for one second and `backoffs` for two seconds.
- Console output is not modelled: the `print` calls and `display_results`.
- `save_results` writes no files in the model. Directory creation, file names, `json.dump` and the `csv.writer` text encoding are not modelled. `CsvTable` builds the rows handed to the writer.
- The model only admits decoded bodies that are JSON objects. Their `data` is a list of records (absent counts as empty), and their `paging.next` is present or absent. The other JSON shapes do not fit this and behave in the source as follows:
  - A body that is a JSON string or array: `"error" in data` is a substring or element test, and a match breaks as an API error (app.py:95). Otherwise `data.get` raises, and the generic handler (app.py:122-124) returns the records gathered. A `null` or number body raises at line 95 into that handler.
  - A falsy `data` (`null`, `""`, `0`, `false`, `{}`) breaks like an empty page (app.py:100-102).
  - A non-empty string or object `data` goes through `all_ads.extend`, so its characters or its keys become records. The loop then goes on to `paging` (app.py:108) and may follow the next link. The model cannot represent this.
  - A non-zero number or `true` as `data` raises a TypeError at `extend` into the generic handler.
  - A `paging` that is `null` or not an object is not modelled either.
- Ads.Value, Ads.Row: a record field is only a string or a list of strings. A `null`, number, boolean or object field cannot be represented, and neither can a list holding a non-string item. In the source, `', '.join` raises a TypeError on such a list field (app.py:180-182), and `save_results` does not catch it. A `null` in a copied column (app.py:178, 179, 183) is `None`, which `csv.writer` writes as an empty cell.
- KeyboardInterrupt and other unexpected exceptions are modelled only when they occur during a request, as transport outcomes. Either way the loop returns the records gathered so far, wherever they arise.
- In recent versions of `requests`, `response.json()` raises an exception that the `RequestException` handler catches before the `JSONDecodeError` handler. The model keeps a separate reason for an invalid body. The records returned are the same either way.
- Fetcher.TakePage: the page checks that follow the attempt loop (app.py:95-117) sit in this helper method rather than inline in the `while` body. Their order and their exits are unchanged.
