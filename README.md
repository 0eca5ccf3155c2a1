# InPost air-quality map job — Dafny model

The repository runs one job as two serverless handlers: `lambda_handler`
(AWS Lambda, `lambda_function.py`) and `generate_map` (Google Cloud
Functions, `gcp-crf/main.py`). The job reads the InPost points API with a
bearer token, learns `total_pages` from an initial GET, fetches every page
on a thread pool of `min(32, total_pages)` workers, folds the pages'
`items` into `all_points` in completion order, counts the points whose
air-quality level has a colour (`points_added`), draws them on a folium map,
uploads the map to S3 or GCS and answers 200 or 500.

This project models the decision and aggregation logic of that job:

- `Json.dfy` — the values `response.json()` can produce and the Python
  operations the job applies to them (`in`, `[...]`, `.get`,
  `list.extend`, membership in the colour dict, reading a count), each
  with the exception Python raises reported as `None`.
- `PageFetcher.dfy` — `fetch_page`: an abstract HTTP outcome in, the page's
  `items` value or the empty list out.
- `Collector.dfy` — the worker cap, the submitted pages, and the fan-in loop
  (`FanIn`, a `while` loop proved against the fold `Gather` / `Completed` /
  `Progress`), with the lemmas that the fold keeps every item, does not
  depend on the completion order, and prints the progress lines it should.
- `PointFilter.dfy` — the loop over `all_points` (`AddPoints`, proved
  against `CountRenderable`) and the classification of one point
  (`Classify`: skip, draw, or raise).
- `Pipeline.dfy` — the guards before the first page fetch (`Check`), the
  whole job as a function (`Job`) and as a method (`RunJob`, which chooses
  an arbitrary completion order with `:|` and still returns `Job`), and the
  two platform responses (`LambdaHandler`, `GenerateMap`).

Notes on what the code does, which the model keeps:

- No counter of failed pages exists. `fetch_page` turns every failure into
  the empty list, so a failed page still counts as completed
  (`FailedPageCompletes`).
- `completed` does not always reach `total_pages`. It is incremented after
  `all_points.extend(...)` inside the same `try`. A page whose `items` is
  JSON null, a number or a bool makes `extend` raise. That page is then
  neither absorbed nor counted, and the final progress line is then
  missing (`CompletedCountsIterablePages`, `NullItemsNotCompleted`).
- `total_pages <= 0` answers 500. `min(32, total_pages)` is then not
  positive, the thread pool refuses it, and the outer handler answers 500
  (`Check`).
- Some malformed points abort the whole job with 500 instead of being
  skipped (`Classify`, `Aborts`). Such a point is either not a dict, or it
  has a level that is not null and a location, and then one of these holds:
  the location is null, a number or a bool (`in` raises); or the location
  passes both `in` tests and the level is a list or a dict (unhashable);
  or the location is a list or string that passes both `in` tests and the
  level is a palette level (subscripting the location raises). A point
  whose level is missing or null, or whose location fails either `in`
  test, is skipped whatever else it holds.
- A bool `total_pages` acts as 0 or 1, because Python's bool is an int
  (`AsInt`).

## Model

| member | source | states |
|---|---|---|
| `Json.Contains` | lambda_function.py:104-107 | Python's `key in v`: a key test on a dict, an element test on a list, a test that `key` occurs at some index of a string, and TypeError exactly on null, numbers and bools |
| `Json.Iterate` | lambda_function.py:93 | what `list.extend(v)` appends: exactly a list's elements, as many items as a string has characters or a dict has keys; TypeError exactly on null, numbers and bools |
| `Json.IterateElements` | lambda_function.py:93 | `extend` with a string appends its one-character strings in order, and with a dict its keys in insertion order |
| `Json.IsSubstringIffOccurs` | lambda_function.py:49 | the front-to-back scan for a substring succeeds exactly when the substring occurs at some index |
| `Json.Subscript` | lambda_function.py:55 | `v[key]` answers exactly on a dict holding `key`, with the value stored under it; KeyError or TypeError otherwise |
| `Json.Get` | lambda_function.py:104 | `v.get(key)` raises exactly on a non-dict, and on a dict gives the stored value exactly when the key is present, None otherwise |
| `Json.InStringKeyedDict` | lambda_function.py:111 | `v in d` for a dict with string keys raises exactly on a list or dict and is true exactly for a string among the keys |
| `Json.AsInt` | lambda_function.py:63 | `total_pages` reads as a count exactly when it is an int, as itself, or a bool, as 0 or 1 |
| `PageFetcher.FetchPage` | lambda_function.py:65-80 | `fetch_page` returns the body's `items` value exactly when the status is 200 and the decoded body is a dict with an "items" key; every other outcome, including a raised exception, gives the empty list |
| `Collector.WorkerCap` | lambda_function.py:63 | the worker count is at most 32 and at most `total_pages`, and equals one of them |
| `Collector.PoolStartsIffPages` | gcp-crf/main.py:55 | the pool starts exactly when `total_pages >= 1`; it then has `total_pages` workers up to 32 |
| `Collector.Submitted` | lambda_function.py:85 | the submitted pages are 1, 2, ..., `total_pages` in order, none when `total_pages <= 0` |
| `Collector.SubmittedOnce` | gcp-crf/main.py:77 | every page in 1..`total_pages` is submitted exactly once and no other page number is submitted |
| `Collector.FanIn` | lambda_function.py:88-98 | after the fan-in loop over the futures' results, `all_points`, `completed` and the progress lines are those of the fold over the completion order |
| `Collector.GatherPermutation` | gcp-crf/main.py:81-86 | any two completion orders of the same pages yield the same multiset of items in `all_points` and the same `completed` |
| `Collector.GatherKeepsEveryPage` | lambda_function.py:89-94 | `all_points` holds exactly the items of the absorbed pages, each as often as the pages hold it; so its length is the sum of their item counts and every page's items are in it |
| `Collector.CompletedCountsIterablePages` | lambda_function.py:91-98 | `completed` never exceeds the number of pages and equals it exactly when no page's `extend` raised |
| `Collector.FailedPageCompletes` | gcp-crf/main.py:57-72 | a failed fetch contributes no item and still counts one completion |
| `Collector.NullItemsNotCompleted` | lambda_function.py:91-98 | a page whose "items" is null adds nothing and is not completed, so a one-page job prints no progress line |
| `Collector.ProgressIsMarks` | lambda_function.py:95-96 | the progress lines are those of the counts 1..`completed` that meet the condition, in increasing order, whatever the completion order |
| `Collector.MarksExactly` | gcp-crf/main.py:87-88 | a progress line is printed at count m exactly when m was reached and `m % 10 == 0 or m == total_pages` |
| `Collector.FinalProgressLine` | lambda_function.py:94-96 | when every page's result is a list, `completed` ends at `total_pages` and the last progress line is for `total_pages` |
| `PointFilter.Classify` | lambda_function.py:102-124 | a point is drawn exactly when it is a dict whose level is a palette level and whose location is a dict holding latitude and longitude; it raises exactly in the cases of `Aborts` |
| `PointFilter.CountRenderable` | gcp-crf/main.py:96-103 | the number of drawable points is at most the number of points |
| `PointFilter.CountRenderableAll` | lambda_function.py:101-124 | every point is counted exactly when every point is drawable |
| `PointFilter.AddPoints` | lambda_function.py:101-124 | the filter loop raises exactly when some point raises, and otherwise ends with `points_added` equal to the number of drawable points |
| `PointFilter.CountRenderablePermutation` | gcp-crf/main.py:93-116 | the number of drawable points depends only on the multiset of `all_points`, not on its order |
| `PointFilter.AnyAbortsPermutation` | lambda_function.py:102-115 | whether the filter loop raises depends only on which points `all_points` holds, not on their order |
| `Pipeline.Check` | lambda_function.py:14-63 | the job stops with the token error exactly when the token is absent or empty; with the status error exactly on a non-200 initial response; with the format error exactly when the body lacks "total_pages"; it goes on exactly when the token is set and the 200 body is a dict whose "total_pages" reads as an integer n >= 1, and then with n pages and a startable pool |
| `Pipeline.Job` | gcp-crf/main.py:37-173 | the job succeeds exactly when the guards pass, no point raises and publishing succeeds; a guard's failure is the job's failure; on success `points_added <= len(all_points)` |
| `Pipeline.RunJob` | lambda_function.py:39-200 | whatever order the pages complete in, the job's result is `Job`; no request without a token, only the initial request when a guard stops, and otherwise one request per submitted page |
| `Pipeline.PagesRequestedOnce` | gcp-crf/main.py:75-77 | each page 1..`total_pages` is requested exactly once, other pages never, and no page when a guard stops the job |
| `Pipeline.PublishedSummary` | gcp-crf/main.py:167-168 | a successful job reports `total_pages`, the total number of items all pages contributed (`len(all_points)`), and separately the drawable count |
| `Pipeline.S3Bucket` | lambda_function.py:150-151 | the bucket is `S3_BUCKET_NAME` when set, otherwise "inpost-map-data" |
| `Pipeline.LambdaEnvelope` | lambda_function.py:170-200 | status 200 with the summary and bucket exactly on success, 500 with neither on every failure |
| `Pipeline.LambdaHandler` | lambda_function.py:12-55 | `lambda_handler` answers 500 without any request when the token is missing, 500 after only the initial request when a guard stops, and 200 only after the guards pass and the upload succeeds |
| `Pipeline.CloudEnvelope` | gcp-crf/main.py:166-173 | status 200 with the summary exactly on success, 500 on every failure |
| `Pipeline.GenerateMap` | gcp-crf/main.py:13-47 | `generate_map` answers 500 without any request when the token is missing, 500 after only the initial request when a guard stops, and 200 only after the guards pass and the upload succeeds |

## Left out

- HTTP and JSON decoding: each GET is an input outcome (a status and a decoded body, an undecodable body, or a raised exception); URLs, headers and query parameters are not modelled.
- Threads: `ThreadPoolExecutor` and `as_completed` are replaced by an arbitrary completion order over the submitted pages. The request log lists page requests in submission order, although the pool issues them concurrently.
- `future.result()` is taken never to raise: `fetch_page` catches every `Exception`. `BaseException`s such as `KeyboardInterrupt` are not modelled.
- folium: the map, the `Circle` drawn per point, the title and the popup HTML are rendering. folium's own checks on coordinate values are not modelled, so drawing a counted point never raises in the model.
- Saving `/tmp/index.html` and the S3 or GCS upload are one input, `published`. The fixed GCS bucket name and the object key are not modelled.
- Timing, dates, float formatting, every `print` other than the progress line, and the exact message strings.
- JSON numbers other than integers are kept as reals; NaN and infinities are not represented. Dict keys are distinct in Python, and the model looks a key up at its first occurrence.
