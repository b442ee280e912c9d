/**
 * The job exporter (pkg/api/v2/insights/summary/jobs/jobs.go): a paginated
 * collection over every ((repository, workflow), branch) scope, where the
 * (repository, workflow) pairs are the list the workflow exporter returned,
 * then the six job gauges rewritten from the collected pages.
 */
module Jobs {
  import opened Config
  import opened Insights
  import opened Gauges
  import opened Paging
  import opened Scopes
  import opened Workflows

  /** The scope of one paginated walk: a repository, one of its workflows, and a branch. */
  datatype JobScope = JobScope(repo: string, workflow: string, branch: string)

  /** A collected page tagged with its repository, workflow and branch. */
  type WorkflowJobsInsightWithRepo = Tagged<JobScope>

  /** The label tuple {job, workflow, repo, branch} of the job gauges. */
  datatype JobLabels = JobLabels(job: string, workflow: string, repo: string, branch: string)

  /** The request URL; the page token follows "&page-token" with no "=" in between. */
  function JobsUrl(repo: string, workflow: string, branch: string, window: string, pageToken: string): string
  {
    InsightsBase + repo + "/workflows/" + workflow + "/jobs" + "?branch=" + branch + "&reporting-window=" + window + "&page-token" + pageToken
  }

  /** The URL of a scope's request for a given page token. */
  function JobUrlFor(window: string): (JobScope, string) -> string
  {
    (s: JobScope, t: string) => JobsUrl(s.repo, s.workflow, s.branch, window, t)
  }

  function MkJobScope(): (WorkflowWithRepo, string) -> JobScope
  {
    (w: WorkflowWithRepo, branch: string) => JobScope(w.repo, w.workflow, branch)
  }

  /** The scopes in walk order: (repository, workflow) pairs outside, branches inside. */
  function JobScopes(workflowWithRepos: seq<WorkflowWithRepo>, branches: seq<string>): seq<JobScope>
  {
    Cross(workflowWithRepos, branches, MkJobScope())
  }

  /** What getV2WorkflowJobsInsights returns. */
  function CollectJobs(env: Env, up: Upstream, workflowWithRepos: seq<WorkflowWithRepo>, branches: seq<string>, fuel: nat)
    : Outcome<seq<WorkflowJobsInsightWithRepo>>
  {
    Collect(up, JobUrlFor(GetReportingWindow(env)), GetCircleCIToken(env).value, JobScopes(workflowWithRepos, branches), fuel)
  }

  /**
   * getV2WorkflowJobsInsights. The branch list is a parameter: the config
   * getter the Go code calls for it is not part of config.go. A missing token
   * makes the Go code exit, so a token is required.
   */
  method GetV2WorkflowJobsInsights(env: Env, upstream: Upstream, workflowWithRepos: seq<WorkflowWithRepo>,
                                   branches: seq<string>, fuel: nat)
    returns (r: Outcome<seq<WorkflowJobsInsightWithRepo>>)
    requires GetCircleCIToken(env).Ok()
    ensures r == CollectJobs(env, upstream, workflowWithRepos, branches, fuel)
  {
    var reportingWindow := GetReportingWindow(env);
    var circleToken := GetCircleCIToken(env).value;
    r := CollectCross(upstream, JobUrlFor(reportingWindow), circleToken, workflowWithRepos, branches, MkJobScope(), fuel);
  }

  /** The {job, workflow, repo, branch} labels Export writes an item's metrics under. */
  function JobLabelsOf(): (JobScope, Item) -> JobLabels
  {
    (s: JobScope, it: Item) => JobLabels(it.name, s.workflow, s.repo, s.branch)
  }

  /** Every gauge write of Export, in order; a skipped collection writes nothing. */
  function JobRows(c: Outcome<seq<WorkflowJobsInsightWithRepo>>): seq<(JobLabels, Metrics)>
  {
    if c.Done? then Flatten(c.value, RowFor(JobLabelsOf())) else []
  }

  const JobsErrorPrefix := "failed to get workflow jobs insights: "

  /** What Export returns: success (also after a skip), the wrapped error, or an exhausted budget. */
  function JobsExportResult(c: Outcome<seq<WorkflowJobsInsightWithRepo>>): (r: Outcome<()>)
    ensures r.Error? <==> c.Error?
    ensures c.Error? ==> r.msg == JobsErrorPrefix + c.msg
    ensures r.OutOfFuel? <==> c.OutOfFuel?
    ensures r.Done? <==> c.Done? || c.Skipped?
  {
    match c
    case Error(msg) => Error(JobsErrorPrefix + msg)
    case OutOfFuel => OutOfFuel
    case _ => Done(())
  }

  /**
   * Export: reset the six job gauges, collect over the discovered workflows
   * and every branch, then write every item's metrics under its
   * {job, workflow, repo, branch} labels, in collection order.
   */
  method Export(env: Env, upstream: Upstream, workflowWithRepos: seq<WorkflowWithRepo>, branches: seq<string>, fuel: nat,
                gauges: GaugeSet<JobLabels>)
    returns (r: Outcome<()>)
    requires GetCircleCIToken(env).Ok()
    modifies gauges
    ensures r == JobsExportResult(CollectJobs(env, upstream, workflowWithRepos, branches, fuel))
    ensures forall f :: gauges.Contents(f) == Written(JobRows(CollectJobs(env, upstream, workflowWithRepos, branches, fuel)), f)
  {
    gauges.ResetAll();
    var c := GetV2WorkflowJobsInsights(env, upstream, workflowWithRepos, branches, fuel);
    if c.Error? {
      return Error(JobsErrorPrefix + c.msg);
    }
    if c.OutOfFuel? {
      return OutOfFuel;
    }
    var wfJobsInsightWithRepos := if c.Done? then c.value else [];
    gauges.WriteItems(wfJobsInsightWithRepos, JobLabelsOf());
    return Done(());
  }

  /** The ((repository, workflow) i, branch j) walk is the (i * |branches| + j)-th scope. */
  lemma JobScopeOrder(workflowWithRepos: seq<WorkflowWithRepo>, branches: seq<string>, i: nat, j: nat)
    requires i < |workflowWithRepos| && j < |branches|
    ensures |JobScopes(workflowWithRepos, branches)| == |workflowWithRepos| * |branches|
    ensures i * |branches| + j < |JobScopes(workflowWithRepos, branches)|
    ensures JobScopes(workflowWithRepos, branches)[i * |branches| + j]
         == JobScope(workflowWithRepos[i].repo, workflowWithRepos[i].workflow, branches[j])
  {
    CrossAt(workflowWithRepos, branches, MkJobScope(), i, j);
  }

  /**
   * After Export the job gauges hold exactly the label tuples of the collected
   * items: a tuple is present if and only if some item of some page carries it.
   */
  lemma JobExportedLabels(ts: seq<WorkflowJobsInsightWithRepo>, f: Field, labels: JobLabels)
    ensures labels in Written(JobRows(Done(ts)), f) <==>
      exists k, m :: 0 <= k < |ts| && 0 <= m < |ts[k].page.items| &&
        labels == JobLabels(ts[k].page.items[m].name, ts[k].scope.workflow, ts[k].scope.repo, ts[k].scope.branch)
  {
    var rows := JobRows(Done(ts));
    WrittenKeys(rows, f, labels);
    FlattenLength(ts, RowFor(JobLabelsOf()));
    if labels in Written(rows, f) {
      var i :| 0 <= i < |rows| && rows[i].0 == labels;
      var k, m := FlattenIndex(ts, i);
      FlattenAt(ts, RowFor(JobLabelsOf()), k, m);
    }
    if exists k, m :: 0 <= k < |ts| && 0 <= m < |ts[k].page.items| &&
        labels == JobLabels(ts[k].page.items[m].name, ts[k].scope.workflow, ts[k].scope.repo, ts[k].scope.branch) {
      var k, m :| 0 <= k < |ts| && 0 <= m < |ts[k].page.items| &&
        labels == JobLabels(ts[k].page.items[m].name, ts[k].scope.workflow, ts[k].scope.repo, ts[k].scope.branch);
      FlattenAt(ts, RowFor(JobLabelsOf()), k, m);
    }
  }

  /** When no later item carries the same labels, the job gauges hold item `m` of page `k`'s own metrics. */
  lemma JobExportedValue(ts: seq<WorkflowJobsInsightWithRepo>, f: Field, k: nat, m: nat)
    requires k < |ts| && m < |ts[k].page.items|
    requires var i := ItemCount(ts[..k]) + m;
      forall j :: i < j < |JobRows(Done(ts))| ==> JobRows(Done(ts))[j].0 != JobRows(Done(ts))[i].0
    ensures var labels := JobLabels(ts[k].page.items[m].name, ts[k].scope.workflow, ts[k].scope.repo, ts[k].scope.branch);
      labels in Written(JobRows(Done(ts)), f) && Written(JobRows(Done(ts)), f)[labels] == Value(ts[k].page.items[m].metrics, f)
  {
    FlattenAt(ts, RowFor(JobLabelsOf()), k, m);
    WrittenLastWins(JobRows(Done(ts)), f, ItemCount(ts[..k]) + m);
  }

  /** A skipped job collection leaves the job gauges empty and Export succeeds. */
  lemma SkipWritesNothing(c: Outcome<seq<WorkflowJobsInsightWithRepo>>, f: Field)
    requires c.Skipped?
    ensures JobsExportResult(c) == Done(())
    ensures Written(JobRows(c), f) == map[]
  {
  }

  /** The token is appended right after "&page-token", with no "=". */
  lemma JobsUrlToken(repo: string, workflow: string, branch: string, window: string, pageToken: string)
    ensures JobsUrl(repo, workflow, branch, window, pageToken) == JobsUrl(repo, workflow, branch, window, "") + pageToken
    ensures var u := JobsUrl(repo, workflow, branch, window, ""); u[|u| - |"&page-token"|..] == "&page-token"
  {
  }

  /** After a failed collection Export returns the wrapped error and the job gauges stay reset. */
  lemma ErrorWritesNothing(c: Outcome<seq<WorkflowJobsInsightWithRepo>>, f: Field)
    requires c.Error?
    ensures JobsExportResult(c) == Error(JobsErrorPrefix + c.msg)
    ensures Written(JobRows(c), f) == map[]
  {
  }
}
