# CircleCI Insights exporter, modelled in Dafny

This project models the collection pipeline of a Prometheus exporter for
CircleCI Insights. The exporter reads its configuration from the environment
and walks the Insights API over every (repository, branch) scope, or over
every ((repository, workflow), branch) scope for jobs. It follows
`next_page_token` page by page, tags each decoded page with its scope, and
then rewrites six gauge vectors with one sample per item.

The model abstracts three things:

- HTTP and JSON: the upstream is a function from a request (URL and
  Circle-Token) to a reply. A reply is either a transport error, which carries
  status 0, or a response with a status and an already-decoded page, or a
  marker that the body did not decode.
- The gauge vectors: each is a map from label tuple to value inside the
  class `Gauges.GaugeSet`. Reset empties the map; `With(labels).Set(v)` is a
  map update.
- The environment: a `map<string, string>` in which an absent key reads as "".

Modules:

- `Config` models `pkg/config/config.go`.
- `Insights` holds the decoded page shape and the nested item walk `Flatten`.
- `Gauges` holds the registry: `Written` is the last-write-wins
  specification, and `GaugeSet` is the object that gets reset and set.
- `Paging` holds the paginated walk that workflows.go and jobs.go share. The
  functions `Chain` (one scope) and `Run` (all scopes) are its specification.
  The methods `FetchScope`, `FetchRow` and `CollectCross` are the page loop,
  the branch loop and the outer loop.
- `Scopes` builds the repository × branch scope order.
- `Workflows` and `Jobs` model the two paginated exporters.
- `Exporter` models main.go: the interval, the single-page collector and the
  snapshot.

Three behaviours of the code are modelled as written and proved as lemmas:

- The page token is shared across scopes. After a scope that needed more than
  one page, the next scope's first request carries that scope's last non-empty
  token (`Paging.StaleToken`).
- The token follows `&page-token` with no `=` (`Workflows.WorkflowsUrlToken`,
  `Jobs.JobsUrlToken`).
- In the workflow and job collectors, a status of 300 or more anywhere ends collection with an empty result and no
  error, discarding every earlier scope (`Paging.StopDiscards`,
  `Workflows.SkipExportsNothing`, `Jobs.SkipWritesNothing`).

## Model

| member | source | states |
|---|---|---|
| Config.GetCircleCIToken | pkg/config/config.go:9-16 | succeeds exactly when CIRCLECI_TOKEN is non-empty and then returns it verbatim; otherwise the value is "" and there is an error |
| Config.Split | pkg/config/config.go:20 | strings.Split never returns an empty list |
| Config.SplitCount | pkg/config/config.go:20 | splitting on "," yields one more part than there are commas |
| Config.SplitJoin | pkg/config/config.go:20 | joining the parts with "," gives back the original value |
| Config.SplitPartsClean | pkg/config/config.go:20 | no part contains a comma |
| Config.GetConfigForName | pkg/config/config.go:18-23 | each list is non-empty exactly when both `<name>_REPOSITORY` and `<name>_BRANCH` are non-empty; when they are, the lists are the comma splits of the two variables (and join back to them); otherwise both are empty |
| Config.GetRepositoryConfig | pkg/config/config.go:25-39 | the slug is "gh" whenever the GITHUB pair is complete (even if BITBUCKET is too), else "bb" when BITBUCKET is complete, else ""; success exactly when one pair is complete; on success the lists are that pair's splits; otherwise empty lists and the missing-variables error |
| Config.GetReportingWindow | pkg/config/config.go:44-52 | the window is never empty: REPORTING_WINDOW verbatim when set, "last-7-days" otherwise |
| Config.ReportingWindowUnchecked | pkg/config/config.go:41-52 | any non-empty REPORTING_WINDOW comes back unchanged, so a value outside the five documented windows stays outside them |
| Insights.FlattenAt | pkg/api/v2/insights/summary/workflows/workflows.go:131-139 | the nested walk has one entry per item; item m of page k is entry ItemCount(pages before k) + m |
| Insights.FlattenIndex | pkg/api/v2/insights/summary/workflows/workflows.go:131-139 | every entry of the walk comes from some item of some page |
| Insights.Walk | pkg/api/v2/insights/summary/workflows/workflows.go:131-139 | the loop over pages and items produces exactly the walk `Flatten` |
| Gauges.Value | pkg/api/v2/insights/summary/workflows/workflows.go:148-153 | success_rate and standard_deviation are copied; min, max, median and p95 are converted from ints |
| Gauges.WrittenKeys | pkg/api/v2/insights/summary/workflows/workflows.go:141-155 | a label tuple has a sample exactly when some write used it |
| Gauges.WrittenLastWins | pkg/api/v2/insights/summary/workflows/workflows.go:141-155 | the sample under a label tuple is the value of the last write with that tuple |
| Gauges.GaugeSet.ResetAll | pkg/api/v2/insights/summary/workflows/workflows.go:118-123 | all six gauges are empty afterwards |
| Gauges.GaugeSet.SetAll | pkg/api/v2/insights/summary/workflows/workflows.go:148-153 | each gauge is updated under the labels and nowhere else |
| Gauges.GaugeSet.WriteItems | pkg/api/v2/insights/summary/workflows/workflows.go:141-155 | starting from reset gauges, each gauge ends equal to `Written` of the items in walk order |
| Insights.TransportText | pkg/api/v2/insights/summary/workflows/workflows.go:221-232 | a failed send is reported as "failed to get response body: " and its cause, a failed body read as "failed to read response body: " and its cause |
| Paging.Chain | pkg/api/v2/insights/summary/workflows/workflows.go:183-215 | the page loop of one scope: request with the current token; stop on a status of 300 or more, a transport failure or an undecodable body; otherwise keep the page and go on with its next_page_token until it is empty |
| Paging.Run | pkg/api/v2/insights/summary/workflows/workflows.go:181-217 | the scope loops: each scope's page loop in order, the token carried over from scope to scope, and the first stop ending the whole collection |
| Paging.FetchScope | pkg/api/v2/insights/summary/workflows/workflows.go:183-215 | the page loop of one scope returns the outcome of `Chain`; when that chain completes, it appends the scope's pages to the collection in order |
| Paging.FetchRow | pkg/api/v2/insights/summary/workflows/workflows.go:182-216 | the branch loop either stops the run with that run's outcome, or leaves the run to go on with the remaining scopes from the new token, budget and collection |
| Paging.CollectCross | pkg/api/v2/insights/summary/workflows/workflows.go:181-217 | the nested loops return exactly `Collect` over the cross-product scopes |
| Paging.ChainShape | pkg/api/v2/insights/summary/workflows/workflows.go:209-214 | a completed scope ends at the first page whose next_page_token is empty; it spends one request per page; the token it leaves behind is the last non-empty one |
| Paging.ChainServed | pkg/api/v2/insights/summary/workflows/workflows.go:184-207 | page k of a scope is the decoded 2xx body of the request that carries the token before page k |
| Paging.ChainNonSuccess | pkg/api/v2/insights/summary/workflows/workflows.go:191-195 | a scope that is skipped was skipped for a status of 300 or more |
| Paging.RunSkipped | pkg/api/v2/insights/summary/workflows/workflows.go:191-195 | a skipped collection carries a status of 300 or more |
| Paging.RunGroups | pkg/api/v2/insights/summary/workflows/workflows.go:181-217 | a successful collection is what was collected before, then for each scope in order the pages of that scope's chain, tagged with the scope; the first chain starts from the run's token and fuel and every later one from what the previous chain left; each chain ends at the first empty token |
| Paging.ChainsServed | pkg/api/v2/insights/summary/workflows/workflows.go:184-207 | in linked chains, page m of scope k is the 2xx decoded reply to the request for scope k carrying the token before page m |
| Paging.ChainFuelMonotone | pkg/api/v2/insights/summary/workflows/workflows.go:183-215 | the request budget only bounds a scope: more budget gives the same finished or aborted result |
| Paging.RunFuelMonotone | pkg/api/v2/insights/summary/workflows/workflows.go:181-217 | a collection that did not run out of budget has the same outcome with any larger budget |
| Paging.StaleToken | pkg/api/v2/insights/summary/workflows/workflows.go:209-214 | after a scope with two or more pages, the rest of the walk starts from that scope's last non-empty token, not from "" |
| Paging.TransportErrorFails | pkg/api/v2/insights/summary/workflows/workflows.go:191-199 | a transport error passes the status check and ends the run with "failed to call API " followed by the helper's "failed to get response body: " or "failed to read response body: " text |
| Paging.StopDiscards | pkg/api/v2/insights/summary/workflows/workflows.go:192-203 | a skip or an error returns the same outcome whatever was collected before it |
| Scopes.CrossAt | pkg/api/v2/insights/summary/workflows/workflows.go:181-182 | there are \|outer\| × \|branches\| scopes, and the pair (i, j) is scope i × \|branches\| + j |
| Workflows.GetV2WorkflowInsights | pkg/api/v2/insights/summary/workflows/workflows.go:160-219 | returns exactly `CollectWorkflows`: the paginated walk over repository × branch with the configured window and token |
| Workflows.WorkflowScopeOrder | pkg/api/v2/insights/summary/workflows/workflows.go:181-182 | repositories are outside and branches inside: (repository i, branch j) is scope i × \|branches\| + j |
| Workflows.CollectedByScope | pkg/api/v2/insights/summary/workflows/workflows.go:181-217 | a successful collection concatenates, in scope order, the pages each scope's chain fetched; the first scope starts from the empty token and each later one from the token the previous scope left; each group ends at the first empty token; page m of scope k is the 2xx decoded reply to that scope's URL with the token before page m |
| Workflows.WorkflowsUrl | pkg/api/v2/insights/summary/workflows/workflows.go:184 | the request URL of a (repository, branch) scope, with the reporting window and the page token appended after "&page-token" |
| Workflows.WorkflowsUrlToken | pkg/api/v2/insights/summary/workflows/workflows.go:184 | the token is appended directly after "&page-token", with no "=" |
| Workflows.ExportResult | pkg/api/v2/insights/summary/workflows/workflows.go:125-157 | an error is wrapped with "failed to get workflow insights: "; the budget running out is reported as such; otherwise one list entry per collected item, and a skip lists nothing |
| Workflows.Export | pkg/api/v2/insights/summary/workflows/workflows.go:115-158 | the result is `ExportResult` of the collection; every gauge is exactly `Written` of the collected items' writes, and stays empty after an error or a skip |
| Workflows.ExportListsItem | pkg/api/v2/insights/summary/workflows/workflows.go:131-139 | item m of page k is listed at position ItemCount(pages before k) + m as (page's repository, item name); duplicates are kept |
| Workflows.ListFollowsRows | pkg/api/v2/insights/summary/workflows/workflows.go:131-155 | the returned list and the gauge writes visit the items in the same order |
| Workflows.ExportedLabels | pkg/api/v2/insights/summary/workflows/workflows.go:141-155 | each gauge holds a {workflow, repo, branch} tuple exactly when some collected item carries it |
| Workflows.ExportedValue | pkg/api/v2/insights/summary/workflows/workflows.go:141-155 | an item whose labels no later item reuses has its own metrics in every gauge |
| Workflows.SkipExportsNothing | pkg/api/v2/insights/summary/workflows/workflows.go:191-195 | after a skip, Export returns an empty list with no error and writes no gauge |
| Workflows.ErrorExportsNothing | pkg/api/v2/insights/summary/workflows/workflows.go:125-128 | after a collection error, Export returns the wrapped error and the gauges stay reset |
| Jobs.GetV2WorkflowJobsInsights | pkg/api/v2/insights/summary/jobs/jobs.go:143-199 | returns exactly `CollectJobs`: the paginated walk over (repository, workflow) × branch |
| Jobs.JobScopeOrder | pkg/api/v2/insights/summary/jobs/jobs.go:160-161 | every input pair, duplicates included, is crossed with every branch in order, and each scope carries its repository, workflow and branch |
| Jobs.JobsUrl | pkg/api/v2/insights/summary/jobs/jobs.go:163 | the request URL of a ((repository, workflow), branch) scope, with "?branch=", the reporting window and the page token appended after "&page-token" |
| Jobs.JobsUrlToken | pkg/api/v2/insights/summary/jobs/jobs.go:163 | the token is appended directly after "&page-token", with no "=" |
| Jobs.JobsExportResult | pkg/api/v2/insights/summary/jobs/jobs.go:118-140 | a collection error is wrapped with "failed to get workflow jobs insights: "; a skip or a success returns no error |
| Jobs.Export | pkg/api/v2/insights/summary/jobs/jobs.go:110-141 | the result is `JobsExportResult`; every job gauge is exactly `Written` of the collected items' writes under {job, workflow, repo, branch} |
| Jobs.JobExportedLabels | pkg/api/v2/insights/summary/jobs/jobs.go:123-138 | each job gauge holds a label tuple exactly when some collected item carries it |
| Jobs.JobExportedValue | pkg/api/v2/insights/summary/jobs/jobs.go:123-138 | an item whose labels no later item reuses has its own metrics in every job gauge |
| Jobs.SkipWritesNothing | pkg/api/v2/insights/summary/jobs/jobs.go:170-174 | after a skip, Export succeeds and no job gauge is written |
| Jobs.ErrorWritesNothing | pkg/api/v2/insights/summary/jobs/jobs.go:118-121 | after a collection error, Export returns the wrapped error and the job gauges stay reset |
| Exporter.DigitRun | main.go:172 | the length of the leading run of digits: everything before it is a digit, the character after it is not, and it is the whole string exactly when the string is all digits |
| Exporter.ScanRun | main.go:172 | the left-to-right digit scan of strconv.ParseUint ends in a range error exactly when the leading digit run is worth more than 2^64 - 1, whatever follows; otherwise in a syntax error when a non-digit follows, and with the value of the digits when none does |
| Exporter.Atoi | main.go:172 | strconv.Atoi: an optional sign and at least one digit; a leading digit run past 2^64 - 1 gives the bound of the sign and a range error even when a non-digit follows; any other non-digit or no digits gives 0 and a syntax error; an all-digit value outside int64 gives the nearest bound and a range error |
| Exporter.AtoiDecimal | main.go:172 | Atoi reads back the decimal text of every int64 |
| Exporter.GetInterval | main.go:165-178 | 300 when CIRCLECI_API_INTERVAL is empty; otherwise the Atoi value; an Atoi error gives 0 and the wrapped error |
| Exporter.IntervalRoundTrip | main.go:165-178 | an int64 written in decimal is read back as the interval |
| Exporter.IntervalNotPositive | main.go:172-177 | zero and negative intervals are accepted without error |
| Exporter.GetGitHubRepos | main.go:240-247 | GITHUB_REPOSITORY empty gives an empty list and an error; otherwise its comma split, which joins back to the variable |
| Exporter.GetGitHubBranches | main.go:249-256 | GITHUB_BRANCH empty gives an empty list and an error; otherwise its comma split, which joins back to the variable |
| Exporter.SnapshotUrl | main.go:201 | the request URL of a (repository, branch) scope: no page token, and the window fixed to "last-7-days" |
| Exporter.Once | main.go:193-227 | the walk over the scopes: one request each; a failed send or body read ends it with "failed to get response body: " or "failed to read response body: " and the cause, an undecodable body with "failed to parse response body: "; every decoded body is kept whatever its status |
| Exporter.FetchRepo | main.go:194-226 | the branch loop either ends the walk with its error, or leaves it to go on with the remaining scopes and the new collection |
| Exporter.GetV2WorkflowInsights | main.go:180-229 | returns exactly `CollectOnce`: one request per (repository, branch), with no token and the window fixed to "last-7-days" |
| Exporter.OnceShape | main.go:193-227 | a successful collection holds one page per scope, in scope order: that scope's decoded reply, whatever its status |
| Exporter.OnceFails | main.go:208-222 | a failed collection failed at a scope whose reply was a transport error, reported with the text of the step that failed, or did not decode; every earlier reply decoded; nothing collected is returned |
| Exporter.MissingReposCollectsNothing | main.go:185-186 | the getters' errors are discarded: with GITHUB_REPOSITORY unset, collection succeeds with nothing |
| Exporter.SnapshotError | main.go:141-144 | snapshot returns an error exactly when collection failed, wrapped with "failed to get workflow insights: " |
| Exporter.Snapshot | main.go:133-163 | the error is `SnapshotError` of the collection; every gauge is exactly `Written` of this cycle's items, and stays empty after an error |
| Exporter.SnapshotExportsItem | main.go:146-159 | after a successful snapshot, every item of the page for (repository i, branch j) has a sample under {item name, repository i, branch j} in every gauge |
| Exporter.SnapshotFailureLeavesGaugesEmpty | main.go:133-144 | a failed snapshot returns the wrapped error and leaves every gauge empty |

## Left out

- Request construction is not modelled: every URL is treated as sendable. The Go code discards the error of `http.NewRequestWithContext` (workflows.go:187, jobs.go:166, main.go:204) and then calls `req.Header.Add` on the result. When the URL does not parse, the request is nil and that call panics, ending the process. For example, a GITHUB_BRANCH or REPORTING_WINDOW value holding a control byte such as a trailing newline, or a repository or workflow name holding a bad `%` escape, does this. The model sends such a request to the upstream and goes on collecting.
- HTTP transport is an abstract upstream function. This covers `http.DefaultClient.Do`, `ioutil.ReadAll` and `defer res.Body.Close()`. A failed send and a failed body read are transport errors with status 0 that say which step failed; their cause stands for the error text of the HTTP client.
- JSON decoding is abstracted: pages arrive already decoded, or marked as undecodable.
  - Every page is decoded fresh into a new value. The Go code decodes every page into one reused variable (workflows.go:161/201/206, jobs.go:144/180/185, main.go:181/219/224), and the model does not capture the effects of that reuse:
    - A page that omits or nulls `next_page_token` keeps the previous page's token.
    - Items are overwritten in place. `json.Unmarshal` decodes a page's `items` into the backing array of the slice that earlier collected pages still share. Any later page with at least one item rewrites the first items of earlier pages (up to the array's capacity) before the slice grows. For example, with repositories [r], branches [b1, b2] and one page each with items [a] then [x], Go writes x's metrics under {x, r, b1}, lists (r, x) twice and never exports a. The model exports a under {a, r, b1}.
    - A body without an `items` key keeps the previous page's items. In main.go a non-2xx JSON error body decodes, so the previous scope's items are exported again under this scope's labels.
  - The `interface{}` token of main.go is not used by that collector, so it is left out.
- Error texts are modelled up to the part the code writes itself: the prefixes "failed to get response body: " and "failed to read response body: " (written by the API helpers in workflows.go and jobs.go, and by the collector itself in main.go), "failed to call API ", and main.go's "failed to parse response body: ". Text produced by the HTTP client and the JSON decoder is not modelled. strconv's quoting of the input in its errors is written without escaping.
- Paging.Chain: an undecodable page gives only "failed to parse response body". The Go message (workflows.go:203, jobs.go:182) goes on with ". body " and the raw response body, then ", err " and the decoder error; neither that text nor the raw body is modelled.
- Paging.Run and Paging.Chain: the request budget `fuel` is not in the Go code. The Go loop has no cap, so a server that always returns a next token makes it loop forever; the model returns OutOfFuel instead. `Paging.RunFuelMonotone` shows that a larger budget never changes a result that did not run out.
- Workflows.ExportResult: on error, Go returns `[]WorkflowWithRepo{}` beside the error. The model's `Error(msg)` carries only the message.
- Prometheus is reduced to map semantics. `NewGaugeVec` options (names, help texts), `MustRegister`, `Register()` and `promhttp.Handler` are left out.
- `main()` is left out: the ticker goroutine, `ListenAndServe` and `log.Fatal` are process control and concurrency. The `log.Fatal` on a missing token inside the collectors is a precondition (`GetCircleCIToken(env).Ok()`) on the methods that would reach it. `log.Printf`, `fmt.Printf` and `fmt.Println` are output only.
- Gauges.Value: float values are opaque 64-bit patterns that are only copied. `float64(int)` conversions are kept symbolic as `Converted(n)`, so rounding of integers above 2^53 is not modelled.
- Metric fields the exporters never read, and the `time.Time` window fields, are dropped from the page type.
- `config.GetGitHubRepos` and `config.GetGitHubBranches` are called by workflows.go and jobs.go but are not part of config.go. The repository and branch lists are inputs to those collectors. The errors those getters would return ("failed to read GitHub repository", "failed to read GitHub branch") are not modelled.
- main.go's `getCircleCIToken` (main.go:231-238) is identical to config.go's and is modelled once, as `Config.GetCircleCIToken`.
- The loops are split across methods without changing their behaviour:
  - The repository, branch and page loops of the two paginated collectors are the three shared methods of `Paging`.
  - A stopped page loop hands back its reason, and the collector returns `Finish` of it.
  - The two item walks of `Export` are `Insights.Walk` and `GaugeSet.WriteItems`.
- Exporter.Atoi assumes a 64-bit `int`.
- magefiles/ and local/kubecontext/ are developer tooling and are not part of this model.
