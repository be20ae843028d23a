# Speedalyze, modelled in Dafny

Speedalyze benchmarks web frameworks and shows the results on a dashboard.
This project models and proves the sequential logic at its core. There are
four parts.

1. **The k6 load script** (`benchmarks/benchmark.js`).
   - One iteration of the default function runs create, then detail, update
     and delete on the created id, then list.
   - Each request adds one sample to the `requests` counter and one to the
     `errors` rate.
   - `handleSummary` turns k6's metrics into the fixed-shape report.
   - `options` holds the stage table and the threshold table.
   - HTTP is an oracle `serve: (S, Request) -> (S, Response)`. So the
     iteration runs against any server, and in particular against the two
     store models (`Workload`, `Summary`, `K6Options`, `Results`).
2. **The two Go benchmark services** (gin and echo). Each has an in-memory
   store: a map from int64 id to item, plus a `nextID` counter.
   - Every handler is a pure function from the old store to the new store
     and the response. That function is what the k6 iteration composes with.
   - Every handler is also a method of a `Server` class that updates the
     `items` and `nextID` fields in place, proved equal to the function
     (`ItemStore`, `GinService`, `EchoService`, `GoStrconv`).
   - Echo's `parseID` answers a malformed id with 400 but returns what
     `c.JSON` returned as its error. That is nil unless the write failed, so
     the handler carries on with id 0.
   - An echo handler is therefore modelled as the sequence of responses it
     writes. The client sees the status of the first write; with more than
     one write, the body is not a single JSON document.
   - `jsonErr` stands for the rare failing write.
3. **The Open Graph image route** (`website/app/api/get-og-image/route.tsx`).
   It keeps a one-entry cache of a screenshot, fresh for 30 minutes and
   written only on a successful miss. The screenshot service is a fallible
   oracle, and the clock is a parameter (`OgCache`).
4. **The dashboard derivations.**
   - `data.ts`: `getAllFrameworks` with its mean and maximum figures and the
     language label, plus the shipped `frameworkData` constant
     (`DashboardData`).
   - `rankings.tsx`: the sort, filter and row-expansion state of the
     rankings table as a class. `sortedFrameworks` is an in-place insertion
     sort of a fresh array (`Rankings`, `JsCollections`).
   - `hero.tsx` and `og-image/page.tsx`: the top-three selection and the
     language badges (`TopFrameworks`). Both pages use the same expression,
     so one function `TopFrameworks.Top` serves both, and their selections
     agree by construction.

Numbers are unbounded integers and reals. Go's int64 wrap-around in
`atomic.AddInt64` is written out (`GoStrconv.Wrap64`). Each store has two
invariants:

- `Wf`: every key holds the item with that id. Every handler keeps it.
- `Valid`: additionally, every id lies in `1..nextID`. Every handler keeps
  it until `nextID` would overflow.

A JavaScript number in a boolean position (`||`, `!`, `?:`) is modelled as
"present and not 0".

Two facts about the code as written come out of the proofs:

- The hero's blue badge for "Go" is never shown. The language key is
  `golang`, and `getAllFrameworks` labels it "Golang"
  (`TopFrameworks.ShippedSelection`).
- The 13 stages take 560 s. The report's environment calls the run "10m",
  and `handleSummary` falls back to 600 000 ms when k6 gives no duration
  (`K6Options.StagesLast560s`).

## Model

| member | source | states |
|---|---|---|
| GoStrconv.Wrap64 | benchmarks/golang/gin/main.go:92 | `atomic.AddInt64`'s result is always an int64. It equals the exact sum when that is in range, and MaxInt64 + 1 wraps to MinInt64. |
| GoStrconv.ParseInt | benchmarks/golang/gin/main.go:142-150 | `strconv.ParseInt(s, 10, 64)` accepts only values in the int64 range and rejects the empty string. |
| GoStrconv.ParseFormat | benchmarks/golang/gin/main.go:142-150 | For every int64, parsing its decimal text (as `Itoa` or `%d` writes it) gives the same number back. |
| GoStrconv.ParseRejectsWord | benchmarks/golang/gin/main.go:144-148 | "undefined", "-" and "12a" are not parsed as ids. |
| ItemStore.Seed | benchmarks/golang/gin/main.go:30-35 | `init` leaves ids 1..10, the i-th named "item-" followed by i's digits with value 10·i, and nextID = 10. The resulting store is Valid. |
| ItemStore.SeedNames | benchmarks/golang/echo/main.go:30-35 | The seed names are decimal numerals: item 7 is "item-7" with value 70, and item 10 is "item-10" with value 100. |
| ItemStore.ValuesCount | benchmarks/golang/gin/main.go:59-63 | When keys hold the items with those ids, the map has as many distinct values as keys, so the list has as many items as the store. |
| ItemStore.CollectItems | benchmarks/golang/gin/main.go:59-62 | The `range` loop over the map collects every stored item exactly once, in whatever order: a permutation of the map's values. |
| GinService.List | benchmarks/golang/gin/main.go:56-64 | 200, and an item is listed exactly when it is stored under its id; the count equals the map size. |
| GinService.Get | benchmarks/golang/gin/main.go:67-80 | 200 with the stored item iff the id parses and is present; 400 "invalid id" when it does not parse; 404 when it is absent. |
| GinService.Create | benchmarks/golang/gin/main.go:83-98 | 201 iff the body binds with non-zero Name and Value under `required`. Then it stores `Item{nextID+1, name, value}` under nextID+1, sets nextID to that id, and issues an id not stored before. Otherwise 400 and nothing changes. Keeps Wf, and keeps Valid below MaxInt64. |
| GinService.Update | benchmarks/golang/gin/main.go:101-123 | Checks the id, then the binding, then presence: 400, 400 or 404 with no change. 200 iff all three pass, and then only that key is replaced, with ID = id. The key set and nextID never change. |
| GinService.Delete | benchmarks/golang/gin/main.go:126-139 | 204 iff the id parses and is present, and then exactly that key is removed. Otherwise 400 or 404 and no change. nextID never changes. |
| GinService.ParseId | benchmarks/golang/gin/main.go:142-150 | An id that parses is an int64, and its decimal text parses back to it. An empty parameter never parses. |
| GinService.Serve | benchmarks/golang/gin/main.go:45-49 | The five routes keep Wf, keep Valid below MaxInt64, and advance nextID by at most one. Only a create answers 201, and it issues nextID + 1; every other answer leaves nextID alone. |
| GinService.Run | benchmarks/golang/gin/main.go:45-49 | Serving requests one after another keeps Wf and answers each request once. |
| GinService.IdsNeverReused | benchmarks/golang/gin/main.go:83-98 | Over any request sequence short of overflow, the store stays Valid and nextID only grows. The ids issued by creates strictly increase, and none was ever stored before. |
| GinService.DeletedIdNotReissued | benchmarks/golang/gin/main.go:126-139 | After a successful delete, no create in any later request sequence (short of overflow) issues the deleted id again. |
| GinService.Server.constructor | benchmarks/golang/gin/main.go:23-35 | The package state after `init`: the ten seed items and nextID = 10. |
| GinService.Server.ListItems | benchmarks/golang/gin/main.go:56-64 | The loop-built response is `List` of the current store. |
| GinService.Server.GetItem | benchmarks/golang/gin/main.go:67-80 | The response is `Get` of the current store. |
| GinService.Server.CreateItem | benchmarks/golang/gin/main.go:83-98 | The new fields and the response are `Create` of the old store. |
| GinService.Server.UpdateItem | benchmarks/golang/gin/main.go:101-123 | The new fields and the response are `Update` of the old store. |
| GinService.Server.DeleteItem | benchmarks/golang/gin/main.go:126-139 | The new fields and the response are `Delete` of the old store. |
| EchoService.ParseId | benchmarks/golang/echo/main.go:141-148 | A parsable id gives that id, no error and no write. Otherwise it writes 400 "invalid id" and returns id 0, with an error only if that write failed. |
| EchoService.Seen | benchmarks/golang/echo/main.go:145 | The client sees the first write's status. With one write it sees that response; with more, the body is not one JSON document. |
| EchoService.List | benchmarks/golang/echo/main.go:60-68 | 200 with every stored item exactly once; the count equals the map size. |
| EchoService.Get | benchmarks/golang/echo/main.go:71-83 | The client sees 200 iff the id parses and is present, 404 when it is absent, and 400 first on a malformed id. With a Valid store and a successful write, 404 follows. |
| EchoService.Create | benchmarks/golang/echo/main.go:86-100 | 201 iff the body decodes (no field validation), storing `Item{nextID+1, …}`. A bind error gives 400 before any id is drawn, so nothing changes. Keeps Wf, and keeps Valid below MaxInt64. |
| EchoService.Update | benchmarks/golang/echo/main.go:103-123 | The store changes only at the effective id (the parsed one, or 0 after a malformed one). With a Valid store, a malformed id changes nothing. The client sees 200 iff the id parses, the body decodes and the id is present. The key set and nextID never change. |
| EchoService.Delete | benchmarks/golang/echo/main.go:126-138 | 204 iff the id parses and is present, and then only that key is removed. With a Valid store, a malformed id changes nothing. nextID never changes. |
| EchoService.Serve | benchmarks/golang/echo/main.go:50-54 | The five routes, seen by the client. Only a create answers 201, and it issues nextID + 1; every other answer leaves nextID alone. Keeps Wf and Valid. |
| EchoService.Run | benchmarks/golang/echo/main.go:50-54 | Serving requests one after another keeps Wf and answers each request once. |
| EchoService.IdsNeverReused | benchmarks/golang/echo/main.go:86-100 | Over any request sequence short of overflow, the store stays Valid and nextID only grows. The ids issued by creates strictly increase, and none was ever stored before. |
| EchoService.MalformedIdFallsThrough | benchmarks/golang/echo/main.go:141-148 | GET with "abc" writes 400 and then 404 for id 0. DELETE with "abc" leaves a Valid store unchanged. |
| EchoService.Server.constructor | benchmarks/golang/echo/main.go:23-35 | The package state after `init`: the ten seed items and nextID = 10. |
| EchoService.Server.ParseParam | benchmarks/golang/echo/main.go:141-148 | Returns what `ParseId` returns. |
| EchoService.Server.ListItems | benchmarks/golang/echo/main.go:60-68 | The loop-built response is `List` of the current store. |
| EchoService.Server.GetItem | benchmarks/golang/echo/main.go:71-83 | The writes are `Get` of the current store. |
| EchoService.Server.CreateItem | benchmarks/golang/echo/main.go:86-100 | The new fields and the response are `Create` of the old store. |
| EchoService.Server.UpdateItem | benchmarks/golang/echo/main.go:103-123 | The new fields and the writes are `Update` of the old store. |
| EchoService.Server.DeleteItem | benchmarks/golang/echo/main.go:126-138 | The new fields and the writes are `Delete` of the old store. |
| Workload.IdText | benchmarks/benchmark.js:73-74 | `JSON.parse(res.body).id` in a URL. It throws (None) exactly for an empty or non-JSON body. An item body gives the id's decimal text. |
| Workload.Issue | benchmarks/benchmark.js:58-66 | One group's request appends the call with the iteration's ts, the response, a counter sample of 1 tagged with its route, and a rate sample true iff the status is not the expected one. |
| Workload.CreateGroup | benchmarks/benchmark.js:52-134 | The create is always sent first. Detail, update and delete follow (4 requests) exactly when it answered 201 with a readable id; otherwise only the create is sent. The group throws exactly when the 201 body is not one JSON document. |
| Workload.Run | benchmarks/benchmark.js:47-155 | The iteration starts with the create. It aborts exactly when the create group threw, and otherwise its last request is the list. |
| Workload.Accounting | benchmarks/benchmark.js:47-155 | In every iteration, the samples align one-to-one with the requests: a count of 1 on its route and "failed" iff the status is unexpected, all with the same ts. It issues 5 or 2 requests, or exactly 1 when reading the created id threw. |
| Workload.CreateFailureSkipsDependents | benchmarks/benchmark.js:68-71 | A create answered with anything but 201 is followed only by list: two requests and two counter samples, with the create's error sample true. |
| Workload.CreateSuccessOrder | benchmarks/benchmark.js:73-134 | After a 201 with a readable id, the requests are create, detail, update, delete, list. The middle three use that id, and all five share ts, whatever detail, update and delete answer. |
| Workload.UnparsableCreateAborts | benchmarks/benchmark.js:73 | A 201 with an empty body makes `JSON.parse` throw: one request, and the iteration aborts. |
| Workload.ScriptPayloadsBind | benchmarks/benchmark.js:57-101 | The create payload `{item, 100}` and the update payload `{item-upd, 200}` both pass gin's `required` bindings. |
| Workload.RunOnSuccess | benchmarks/benchmark.js:52-154 | After a 201 with a readable id, the final state, the responses and the error samples are those of the five calls chained through the server. |
| Workload.GinSteps | benchmarks/golang/gin/main.go:83-139 | On a Valid gin store, the five requests get 201 with the new item, 200, 200 with the updated item, 204, and 200, and the store ends with its original items. |
| Workload.EchoSteps | benchmarks/golang/echo/main.go:71-138 | The same five answers from the echo store, each handler writing once. |
| Workload.GinIterationSucceeds | benchmarks/benchmark.js:47-155 | Against a Valid gin store short of overflow, the statuses are 201, 200, 200, 204, 200 and no error sample is true. The items end unchanged and nextID is one higher. |
| Workload.EchoIterationSucceeds | benchmarks/benchmark.js:47-155 | The same against the echo store. |
| Workload.GinRunHasNoErrors | benchmarks/benchmark.js:41 | Any number of sequential iterations against gin, short of overflow, yield 5 samples each and none failed, so `errors` stays at rate 0, below the 0.01 threshold. The items end unchanged. |
| Workload.Counter.Add | benchmarks/benchmark.js:60 | `requests.add` appends one sample. |
| Workload.Rate.Add | benchmarks/benchmark.js:66 | `errorRate.add` appends one sample. |
| Workload.Send | benchmarks/benchmark.js:53-66 | One group: the server's answer, one counter sample and one rate sample appended, and the ghost outcome advanced by `Issue`. |
| Workload.Iteration | benchmarks/benchmark.js:47-155 | The imperative iteration, with its early return and its thrown parse, returns exactly `Run`'s state, requests, responses and abort flag. It appends exactly `Run`'s samples to the two metrics. |
| Summary.FirstTruthy | benchmarks/benchmark.js:178-179 | `a \|\| b \|\| … \|\| 0` is the first truthy operand, or 0 when there is none. |
| Summary.DurationSeconds | benchmarks/benchmark.js:190 | The duration divisor is never 0. A truthy `testRunDurationMs` is read in seconds (ms / 1000), and the divisor is 600 s when it is missing or 0. |
| Summary.SummaryShape | benchmarks/benchmark.js:161-205 | For any metrics: the three label arrays are list, detail, create, update, delete, and the environment is {50, "10m", those endpoints}. Every numeric array has 5 entries, each computed for the label at its position. |
| Summary.P50Fallback | benchmarks/benchmark.js:176-178 | p50 is med, else p(90), else avg, else 0; a missing value and 0 are skipped alike. |
| Summary.MissingMetricsReadZero | benchmarks/benchmark.js:176-204 | When an endpoint's latency and error metrics are missing, p50, p95 and the error rate read 0 rather than failing. |
| Summary.P50 | benchmarks/benchmark.js:175-178 | The p50 entry is 0 or one of the recorded med, p(90) and avg values. It is 0 when the endpoint has no latency metric. |
| Summary.P95 | benchmarks/benchmark.js:175-179 | The p95 entry is the endpoint's recorded p(95), and 0 when that value or the whole metric is missing. |
| Summary.ErrorRate | benchmarks/benchmark.js:201-204 | The error-rate entry is the endpoint's recorded `errors` rate, and 0 when that value or the whole metric is missing. |
| Summary.CounterValues | benchmarks/benchmark.js:182-188 | The counter read is `requests{route:ep}` when its count is truthy, else `requests{route=ep}` when recorded. Failing both, the count read is falsy. |
| Summary.Rps | benchmarks/benchmark.js:190-197 | A truthy endpoint count c gives an rps that, times the duration, is c. Failing that, the `http_reqs` total is spread over the duration and the 5 endpoints. Failing both, rps is 0. |
| Summary.Summarize | benchmarks/benchmark.js:161-205 | The report is well shaped, for the run's environment, with the five endpoints as every label array. |
| Summary.RpsCases | benchmarks/benchmark.js:182-197 | rps is count / duration from `requests{route:ep}` when truthy, else from `requests{route=ep}`. With neither, it is `http_reqs` / duration / 5 when that metric exists, else 0. |
| Summary.CounterExample | benchmarks/benchmark.js:190-191 | A count of 6000 over a 600 000 ms run gives 10 rps. |
| Summary.HttpReqsExample | benchmarks/benchmark.js:194-197 | Only `http_reqs` = 30000 and no duration give every endpoint 10 rps. |
| Summary.HandleSummary | benchmarks/benchmark.js:157-210 | The `forEach` that pushes onto the arrays builds exactly `Summarize(data)`, which is well shaped. |
| Summary.EndpointFigures | benchmarks/benchmark.js:174-204 | The loop body's four figures are the endpoint's p50, p95, rps and error rate. |
| K6Options.MaxTarget | benchmarks/benchmark.js:14-28 | No stage's target exceeds the result, and some stage reaches it. |
| K6Options.StageTable | benchmarks/benchmark.js:14-28 | 13 stages. The first twelve alternate 20 s and 70 s, with targets alternating in pairs between 10 and 50. The last is 20 s to 0. |
| K6Options.StagesLast560s | benchmarks/benchmark.js:14-28 | The stages last 560 s in total, less than 600. |
| K6Options.RunFitsFallback | benchmarks/benchmark.js:14-30 | Even with the full 30 s graceful stop, a run ends by 590 s, inside the 600 s the duration fallback assumes. The ramp-down grace equals the stop grace. |
| K6Options.PeakIsReportedVus | benchmarks/benchmark.js:14-28 | The largest stage target equals the report's `vus` of 50. |
| K6Options.ThresholdTable | benchmarks/benchmark.js:33-42 | One p95 threshold per endpoint, in the report's endpoint order, at 200, 200, 300, 300 and 200 ms, then `errors` with rate < 0.01. |
| OgCache.Respond | website/app/api/get-og-image/route.tsx:13-47 | HIT iff an image is cached and younger than 30 minutes, with the cached bytes and the cache unchanged. Otherwise a successful fetch is a MISS with those bytes, stored with the request's start time. A failed fetch gives 500 "Failed to generate OG image." and leaves the cache unchanged. |
| OgCache.LocalhostFallbackIsDead | website/app/api/get-og-image/route.tsx:26 | The URL is always the environment value (or "undefined") followed by "/og-image"; the localhost alternative is never used. |
| OgCache.TargetUrl | website/app/api/get-og-image/route.tsx:26 | The screenshot URL always ends in "/og-image", preceded by the environment value, or "undefined" when it is unset. |
| OgCache.FreshnessBoundary | website/app/api/get-og-image/route.tsx:6-17 | An image exactly 30 minutes old is stale, while at 1 ms less it is fresh. The initial cache always misses. |
| OgCache.RefreshThenHit | website/app/api/get-og-image/route.tsx:15-36 | After a successful refresh at `now`, every request before `now` + 30 min is a HIT on those bytes, whatever the screenshot service would answer. |
| OgCache.Route.constructor | website/app/api/get-og-image/route.tsx:3-9 | The cache starts as `{image: null, timestamp: 0}`. |
| OgCache.Route.Get | website/app/api/get-og-image/route.tsx:13-47 | The new cache fields and the response are `Respond` of the old cache. The returned `asked` names the URL the screenshot service was asked for: none on a HIT, the target URL on every miss. |
| DashboardData.FrameworkDataShaped | website/app/lib/data.ts:1-61 | Every shipped benchmarks block is well shaped, with the endpoints as labels, the run's environment and one rps figure repeated across the endpoints. |
| DashboardData.Max | website/app/lib/data.ts:71 | `Math.max(...p95)` is an entry, and no entry exceeds it. |
| DashboardData.MinOf | website/app/lib/data.ts:70 | The smallest entry is an entry, and no entry is below it (the lower end for the mean). |
| DashboardData.Mean | website/app/lib/data.ts:70-72 | The mean, taken once per entry, gives the sum of the entries. |
| DashboardData.MeanWithinRange | website/app/lib/data.ts:70-72 | The mean of a non-empty array lies between its smallest and its largest entry. |
| DashboardData.MeanOfFive | website/app/lib/data.ts:70-72 | The mean of five endpoint figures is their sum divided by five. |
| DashboardData.LanguageLabel | website/app/lib/data.ts:75 | "node" is shown as "Node.js". Any other key keeps its length and its tail, with the first character upper-cased. |
| DashboardData.GolangLabel | website/app/lib/data.ts:75 | "golang" is shown as "Golang". |
| DashboardData.ToFramework | website/app/lib/data.ts:69-87 | The pushed record has the label, the copied name, benchmarks, logo, logoFilter, url, codeBase, description and lastUpdated, and the mean p50, the maximum p95 and the mean rps. |
| DashboardData.Block | website/app/lib/data.ts:68-88 | One record per framework of a language, in array order. |
| DashboardData.AllFrameworks | website/app/lib/data.ts:64-92 | Every flattened record carries the display label of one of the languages in the data. |
| DashboardData.AllFrameworksLayout | website/app/lib/data.ts:67-89 | The k-th framework of the l-th language is record number (frameworks of earlier languages) + k, and there is one record per framework. |
| DashboardData.LayoutLength | website/app/lib/data.ts:64-92 | The flattened list holds exactly one record per framework of the data. |
| DashboardData.GetAllFrameworks | website/app/lib/data.ts:64-92 | The nested `forEach` pushes build exactly `AllFrameworks(data)`. |
| DashboardData.PushLanguage | website/app/lib/data.ts:68-88 | The inner loop appends exactly that language's `Block`. |
| DashboardData.ShippedFigures | website/app/lib/data.ts:1-61 | With the shipped numbers, Gin's mean p50 is 1.0027 ms and Echo's is 0.54206 ms. |
| JsCollections.Distinct | website/app/sections/rankings.tsx:17 | `new Set(...)` holds every value of the input, only values of the input, and none twice. |
| JsCollections.DistinctOrder | website/app/sections/rankings.tsx:17 | It lists the values in the order of their first occurrence. |
| JsCollections.Lower | website/app/sections/rankings.tsx:62-64 | `toLowerCase` keeps the length and leaves no capital A–Z. Each capital becomes the small letter at the same place in the alphabet, and every other character is kept. |
| JsCollections.LowerIdempotent | website/app/sections/rankings.tsx:31 | Lower-casing an already lower-cased string changes nothing, so comparing lower-cased names is insensitive to case on both sides. |
| JsCollections.IncludesWitness | website/app/sections/rankings.tsx:62-64 | When `includes` holds, the substring occurs at some position. |
| JsCollections.IncludesAt | website/app/sections/rankings.tsx:62-64 | An occurrence at any position makes `includes` hold. |
| Rankings.NextSort | website/app/sections/rankings.tsx:69-75 | The key becomes the clicked one. The direction is ascending iff that column was active and descending; otherwise it is descending. |
| Rankings.SortCycles | website/app/sections/rankings.tsx:69-75 | Repeated clicks on one column alternate descending and ascending. |
| Rankings.SortIndicator | website/app/sections/rankings.tsx:77-80 | None iff the column is not active; ↑ when ascending, ↓ when descending. |
| Rankings.Toggle | website/app/sections/rankings.tsx:82-87 | The id's flag is negated, with absent counting as false. Every other entry is kept, and only that id is added. |
| Rankings.ToggleTwice | website/app/sections/rankings.tsx:82-87 | Toggling the same row twice restores what every row shows. |
| Rankings.InsertLast | website/app/sections/rankings.tsx:49-57 | One pass of the sort: the prefix grows by one and stays sorted. The array is a permutation of before, and nothing past the pass is touched. |
| Rankings.SortedFrameworks | website/app/sections/rankings.tsx:49-57 | A fresh array (the list it copies is untouched), sorted by the active column in the active direction, and a permutation of the list. |
| Rankings.Filter | website/app/sections/rankings.tsx:59-67 | Every kept row matches the query and the selected language. |
| Rankings.FilterConcat | website/app/sections/rankings.tsx:59-67 | Filtering keeps order: the rows kept from a + b are those kept from a, then those kept from b. |
| Rankings.FilterCounts | website/app/sections/rankings.tsx:59-67 | A row is kept exactly as often as it occurs when it matches, and never otherwise. |
| Rankings.NoFilterKeepsAll | website/app/sections/rankings.tsx:59-67 | An empty query with language 'all' keeps every row. |
| Rankings.FilterSorted | website/app/sections/rankings.tsx:59 | Filtering a sorted list leaves it sorted, and keeps only rows of the list. |
| Rankings.Languages | website/app/sections/rankings.tsx:17 | 'all' first, then each language once, in order of first appearance. |
| Rankings.FindByName | website/app/sections/rankings.tsx:31 | `find` gives the first framework whose name equals the query ignoring ASCII case, or none when no name does. |
| Rankings.AutoExpand | website/app/sections/rankings.tsx:29-37 | A non-empty `framework` parameter marks expanded only the row `name-language` of the first match. No match, or an empty or missing parameter, changes nothing. |
| Rankings.RankingsView.constructor | website/app/sections/rankings.tsx:13-18 | Sort by avgResponseTime ascending, language 'all', no rows expanded, no frameworks yet, empty query. |
| Rankings.RankingsView.Mount | website/app/sections/rankings.tsx:21-47 | The mount effect loads `AllFrameworks(frameworkData)` and applies `AutoExpand` for the query parameter. |
| Rankings.RankingsView.LoadFrameworks | website/app/sections/rankings.tsx:22-23 | `setAllFrameworks(getAllFrameworks())`. |
| Rankings.RankingsView.ExpandQueried | website/app/sections/rankings.tsx:29-37 | The expanded rows become `AutoExpand` of the old ones. |
| Rankings.RankingsView.RequestSort | website/app/sections/rankings.tsx:69-75 | The sort state becomes `NextSort` of the old one, and nothing else changes. |
| Rankings.RankingsView.GetSortIndicator | website/app/sections/rankings.tsx:77-80 | None iff the column is not the active one, else the active direction's arrow. |
| Rankings.RankingsView.ToggleRowExpansion | website/app/sections/rankings.tsx:82-87 | The expanded rows become `Toggle` of the old ones, and nothing else changes. |
| Rankings.RankingsView.SelectLanguage | website/app/sections/rankings.tsx:100 | The selected language becomes the one clicked, and nothing else changes. |
| Rankings.RankingsView.SetSearchQuery | website/app/sections/rankings.tsx:112 | The query becomes the typed text, and nothing else changes. |
| Rankings.RankingsView.FilteredFrameworks | website/app/sections/rankings.tsx:49-67 | The rendered rows are sorted by the active column and direction, and all match. Each framework appears as often as in `allFrameworks` if it matches, otherwise not at all. |
| TopFrameworks.Insert | website/app/sections/hero.tsx:7 | Inserting into a list sorted by mean response time keeps it sorted and adds exactly that one framework. |
| TopFrameworks.SortByAvg | website/app/sections/hero.tsx:7 | `sort((a, b) => a.avgResponseTime - b.avgResponseTime)` is non-decreasing and a permutation. |
| TopFrameworks.Top | website/app/sections/hero.tsx:6-8 | The selection has min(3, n) frameworks and is non-decreasing in mean response time. |
| TopFrameworks.NoneOmittedIsFaster | website/app/sections/hero.tsx:7-8 | The selected and the omitted frameworks together are exactly the input. No omitted framework is faster than any selected one. |
| TopFrameworks.OmittedAfterLastShown | website/app/og-image/page.tsx:6-8 | Every framework the Open Graph page leaves out is at least as slow as the last one it shows. |
| TopFrameworks.BadgeColour | website/app/sections/hero.tsx:26-31 | Red iff the label is exactly "Rust", blue iff exactly "Go", green otherwise. |
| TopFrameworks.Badges | website/app/sections/hero.tsx:23 | Every framework's language has a badge, none twice, in order of first appearance. |
| TopFrameworks.ShippedRecords | website/app/lib/data.ts:64-92 | The shipped data gives two records, Gin then Echo, both labelled "Golang", with means 1.0027 and 0.54206. |
| TopFrameworks.ShippedSelection | website/app/sections/hero.tsx:6-31 | On the shipped data, the top list is Echo then Gin, and the single badge "Golang" is green. |

## Left out

- The k6 engine is not modelled: spawning and retiring VUs, ramping between stages, graceful stop, percentile computation and threshold evaluation. The stage and threshold tables are kept as constants.
- Real HTTP is not modelled: `http.get/post/put/del`, URLs beyond their path parameter and `ts`, headers and tags. A request is a `Request` value, and the server is an oracle or one of the store models.
- JSON encoding and decoding are not modelled. A request body is the decoded `Input`, or None when it does not decode; a response body is a value. `JSON.parse` is modelled only to the extent of throwing on an empty or non-JSON body.
- `console.log` diagnostics are left out, and so are the `check`/`group` metrics k6 records by itself.
- Go concurrency is not modelled: `sync.RWMutex`, `atomic.AddInt64`'s atomicity, and the window in `createItem` between drawing an id and storing the item. Every handler is one sequential step.
- Routing, middleware (Logger, Recover, Gzip, BodyLimit) and server start-up are left out. So is the binder's error text; a binding error is `BindFailure`.
- An echo handler's non-nil error return after a failing write of its second answer is left out, as is what echo's error handler would then do. Only the failing 400 write of `parseID` is modelled (`jsonErr`).
- The order in which `range` visits a Go map is unspecified, so a list body is a multiset.
- JavaScript number precision is not modelled: an `id` above 2^53 would be rounded by `JSON.parse`.
- NaN and ±Infinity are excluded. Means and maxima require non-empty arrays; the shipped data satisfies this.
- `toLowerCase` and `toUpperCase` are modelled on ASCII letters only.
- OgCache.Route.Get: the handler `await`s the screenshot, so on a real server two missing requests can interleave, and the later one to finish overwrites the cache with its own, earlier start time. The model runs each GET as one step, so RefreshThenHit holds for requests served one after another only.
- Rankings.SortedFrameworks: the model sorts with a stable insertion sort. It states sortedness and permutation but not the exact order among equal keys that the browser's `Array.prototype.sort` gives.
- React machinery, the DOM, `setTimeout` scrolling and `URLSearchParams` are left out. The parsed `framework` parameter is an input to `Mount`.
- The screenshot SDK, `Buffer`, environment variables and `Response` objects are left out. A fetch either yields bytes or fails, and the environment URL is a parameter.
- Presentation-only code is left out: the JSX around the computed values, `toFixed` formatting, the charts component, the layout, the footer and the page wrapper.
