/**
 * The workflow exporter (pkg/api/v2/insights/summary/workflows/workflows.go):
 * a paginated collection over every (repository, branch) scope, then the six
 * workflow gauges rewritten from the collected pages, and the flat list of
 * (repository, workflow) pairs that drives the job exporter.
 */
module Workflows {
  import opened Config
  import opened Insights
  import opened Gauges
  import opened Paging
  import opened Scopes

  /** The scope of one paginated walk: a repository and a branch. */
  datatype WorkflowScope = WorkflowScope(repo: string, branch: string)

  /** A collected page tagged with its repository and branch. */
  type WorkflowInsightWithRepo = Tagged<WorkflowScope>

  /** One (repository, workflow name) entry of Export's result. */
  datatype WorkflowWithRepo = WorkflowWithRepo(repo: string, workflow: string)

  /** The label tuple {workflow, repo, branch} of the workflow gauges. */
  datatype WorkflowLabels = WorkflowLabels(workflow: string, repo: string, branch: string)

  const InsightsBase := "https://circleci.com/api/v2/insights/gh/"

  /** The request URL; the page token follows "&page-token" with no "=" in between. */
  function WorkflowsUrl(repo: string, branch: string, window: string, pageToken: string): string
  {
    InsightsBase + repo + "/workflows?" + "&branch=" + branch + "&reporting-window=" + window + "&page-token" + pageToken
  }

  /** The URL of a scope's request for a given page token. */
  function UrlFor(window: string): (WorkflowScope, string) -> string
  {
    (s: WorkflowScope, t: string) => WorkflowsUrl(s.repo, s.branch, window, t)
  }

  function MkScope(): (string, string) -> WorkflowScope
  {
    (repo: string, branch: string) => WorkflowScope(repo, branch)
  }

  /** The scopes in walk order: repositories outside, branches inside. */
  function WorkflowScopes(repos: seq<string>, branches: seq<string>): seq<WorkflowScope>
  {
    Cross(repos, branches, MkScope())
  }

  /** What getV2WorkflowInsights returns, given the environment, the upstream and the repository and branch lists. */
  function CollectWorkflows(env: Env, up: Upstream, repos: seq<string>, branches: seq<string>, fuel: nat): Outcome<seq<WorkflowInsightWithRepo>>
  {
    Collect(up, UrlFor(GetReportingWindow(env)), GetCircleCIToken(env).value, WorkflowScopes(repos, branches), fuel)
  }

  /**
   * getV2WorkflowInsights. The repository and branch lists are parameters: the
   * config getters the Go code calls for them are not part of config.go. A
   * missing token makes the Go code exit, so a token is required.
   */
  method GetV2WorkflowInsights(env: Env, upstream: Upstream, repos: seq<string>, branches: seq<string>, fuel: nat)
    returns (r: Outcome<seq<WorkflowInsightWithRepo>>)
    requires GetCircleCIToken(env).Ok()
    ensures r == CollectWorkflows(env, upstream, repos, branches, fuel)
  {
    var reportingWindow := GetReportingWindow(env);
    var circleToken := GetCircleCIToken(env).value;
    r := CollectCross(upstream, UrlFor(reportingWindow), circleToken, repos, branches, MkScope(), fuel);
  }

  /** The pages getV2WorkflowInsights hands to Export: a skip is an empty, error-free result. */
  function Collected(c: Outcome<seq<WorkflowInsightWithRepo>>): (ts: seq<WorkflowInsightWithRepo>)
    ensures c.Done? ==> ts == c.value
    ensures !c.Done? ==> ts == []
  {
    if c.Done? then c.value else []
  }

  /** The (repository, workflow name) entry Export lists for an item. */
  function WorkflowOf(): (WorkflowScope, Item) -> WorkflowWithRepo
  {
    (s: WorkflowScope, it: Item) => WorkflowWithRepo(s.repo, it.name)
  }

  /** The {workflow, repo, branch} labels Export writes an item's metrics under. */
  function LabelsOf(): (WorkflowScope, Item) -> WorkflowLabels
  {
    (s: WorkflowScope, it: Item) => WorkflowLabels(it.name, s.repo, s.branch)
  }

  /** Every gauge write of Export, in order. */
  function WorkflowRows(ts: seq<WorkflowInsightWithRepo>): seq<(WorkflowLabels, Metrics)>
  {
    Flatten(ts, RowFor(LabelsOf()))
  }

  const ExportErrorPrefix := "failed to get workflow insights: "

  /** What Export returns for a collection outcome. */
  function ExportResult(c: Outcome<seq<WorkflowInsightWithRepo>>): (r: Outcome<seq<WorkflowWithRepo>>)
    ensures r.Error? <==> c.Error?
    ensures c.Error? ==> r.msg == ExportErrorPrefix + c.msg
    ensures r.OutOfFuel? <==> c.OutOfFuel?
    ensures !r.Skipped?
    ensures r.Done? ==> |r.value| == ItemCount(Collected(c))
  {
    match c
    case Error(msg) => Error(ExportErrorPrefix + msg)
    case OutOfFuel => OutOfFuel
    case _ => FlattenLength(Collected(c), WorkflowOf()); Done(Flatten(Collected(c), WorkflowOf()))
  }

  /**
   * Export: reset the six gauges, collect, then list every item's
   * (repository, workflow) pair and write every item's metrics under its
   * {workflow, repo, branch} labels, in collection order.
   */
  method Export(env: Env, upstream: Upstream, repos: seq<string>, branches: seq<string>, fuel: nat,
                gauges: GaugeSet<WorkflowLabels>)
    returns (r: Outcome<seq<WorkflowWithRepo>>)
    requires GetCircleCIToken(env).Ok()
    modifies gauges
    ensures r == ExportResult(CollectWorkflows(env, upstream, repos, branches, fuel))
    ensures forall f :: gauges.Contents(f) == Written(WorkflowRows(Collected(CollectWorkflows(env, upstream, repos, branches, fuel))), f)
  {
    gauges.ResetAll();
    var c := GetV2WorkflowInsights(env, upstream, repos, branches, fuel);
    if c.Error? {
      return Error(ExportErrorPrefix + c.msg);
    }
    if c.OutOfFuel? {
      return OutOfFuel;
    }
    var wfInsightWithRepos := if c.Done? then c.value else [];
    var workflowWithRepos := Walk(wfInsightWithRepos, WorkflowOf());
    gauges.WriteItems(wfInsightWithRepos, LabelsOf());
    return Done(workflowWithRepos);
  }

  /** Export lists item `m` of collected page `k` at position ItemCount(ts[..k]) + m, with that page's repository. */
  lemma ExportListsItem(c: Outcome<seq<WorkflowInsightWithRepo>>, k: nat, m: nat)
    requires c.Done? && k < |c.value| && m < |c.value[k].page.items|
    ensures var r := ExportResult(c);
      && r.Done?
      && ItemCount(c.value[..k]) + m < |r.value|
      && r.value[ItemCount(c.value[..k]) + m] == WorkflowWithRepo(c.value[k].scope.repo, c.value[k].page.items[m].name)
  {
    FlattenAt(c.value, WorkflowOf(), k, m);
  }

  /**
   * The list and the gauge writes walk the items in the same order: entry `i`
   * of the list names the repository and workflow of the `i`-th write.
   */
  lemma ListFollowsRows(ts: seq<WorkflowInsightWithRepo>, i: nat)
    requires i < ItemCount(ts)
    ensures |Flatten(ts, WorkflowOf())| == |WorkflowRows(ts)| == ItemCount(ts)
    ensures Flatten(ts, WorkflowOf())[i] == WorkflowWithRepo(WorkflowRows(ts)[i].0.repo, WorkflowRows(ts)[i].0.workflow)
  {
    var k, m := FlattenIndex(ts, i);
    FlattenAt(ts, WorkflowOf(), k, m);
    FlattenAt(ts, RowFor(LabelsOf()), k, m);
  }

  /**
   * After Export every gauge holds exactly the label tuples of the collected
   * items: a tuple is present if and only if some item of some page carries it.
   */
  lemma ExportedLabels(ts: seq<WorkflowInsightWithRepo>, f: Field, labels: WorkflowLabels)
    ensures labels in Written(WorkflowRows(ts), f) <==>
      exists k, m :: 0 <= k < |ts| && 0 <= m < |ts[k].page.items| &&
        labels == WorkflowLabels(ts[k].page.items[m].name, ts[k].scope.repo, ts[k].scope.branch)
  {
    var rows := WorkflowRows(ts);
    WrittenKeys(rows, f, labels);
    FlattenLength(ts, RowFor(LabelsOf()));
    if labels in Written(rows, f) {
      var i :| 0 <= i < |rows| && rows[i].0 == labels;
      var k, m := FlattenIndex(ts, i);
      FlattenAt(ts, RowFor(LabelsOf()), k, m);
    }
    if exists k, m :: 0 <= k < |ts| && 0 <= m < |ts[k].page.items| &&
        labels == WorkflowLabels(ts[k].page.items[m].name, ts[k].scope.repo, ts[k].scope.branch) {
      var k, m :| 0 <= k < |ts| && 0 <= m < |ts[k].page.items| &&
        labels == WorkflowLabels(ts[k].page.items[m].name, ts[k].scope.repo, ts[k].scope.branch);
      FlattenAt(ts, RowFor(LabelsOf()), k, m);
    }
  }

  /**
   * When no later item carries the same labels, the gauges hold item `m` of
   * page `k`'s own metrics; otherwise the later write wins.
   */
  lemma ExportedValue(ts: seq<WorkflowInsightWithRepo>, f: Field, k: nat, m: nat)
    requires k < |ts| && m < |ts[k].page.items|
    requires var i := ItemCount(ts[..k]) + m;
      forall j :: i < j < |WorkflowRows(ts)| ==> WorkflowRows(ts)[j].0 != WorkflowRows(ts)[i].0
    ensures var labels := WorkflowLabels(ts[k].page.items[m].name, ts[k].scope.repo, ts[k].scope.branch);
      labels in Written(WorkflowRows(ts), f) && Written(WorkflowRows(ts), f)[labels] == Value(ts[k].page.items[m].metrics, f)
  {
    FlattenAt(ts, RowFor(LabelsOf()), k, m);
    WrittenLastWins(WorkflowRows(ts), f, ItemCount(ts[..k]) + m);
  }

  /** The (repository i, branch j) walk is the (i * |branches| + j)-th scope, and there are |repos| * |branches| of them. */
  lemma WorkflowScopeOrder(repos: seq<string>, branches: seq<string>, i: nat, j: nat)
    requires i < |repos| && j < |branches|
    ensures |WorkflowScopes(repos, branches)| == |repos| * |branches|
    ensures i * |branches| + j < |WorkflowScopes(repos, branches)|
    ensures WorkflowScopes(repos, branches)[i * |branches| + j] == WorkflowScope(repos[i], branches[j])
  {
    CrossAt(repos, branches, MkScope(), i, j);
  }

  /**
   * A successful collection is, scope by scope in walk order, each scope's
   * pages up to the first one without a next page token. The first scope's
   * first request carries the empty token; each later scope starts from the
   * token the previous one left. Page `m` of scope `k` is the 2xx reply to the
   * request for that scope's URL with the token before it.
   */
  lemma CollectedByScope(env: Env, up: Upstream, repos: seq<string>, branches: seq<string>, fuel: nat)
    returns (groups: seq<seq<Page>>, tokens: seq<string>, fuels: seq<nat>)
    requires CollectWorkflows(env, up, repos, branches, fuel).Done?
    ensures var scopes := WorkflowScopes(repos, branches);
      && |groups| == |tokens| == |fuels| == |scopes|
      && (|scopes| > 0 ==> tokens[0] == "" && fuels[0] == fuel)
      && CollectWorkflows(env, up, repos, branches, fuel).value == Concat(scopes, groups)
    ensures var scopes, url, auth := WorkflowScopes(repos, branches), UrlFor(GetReportingWindow(env)), GetCircleCIToken(env).value;
      forall k :: 0 <= k < |scopes| ==>
        Chain(up, url, auth, scopes[k], tokens[k], fuels[k]).Going? &&
        Chain(up, url, auth, scopes[k], tokens[k], fuels[k]).items == groups[k] &&
        (k + 1 < |scopes| ==> tokens[k + 1] == Chain(up, url, auth, scopes[k], tokens[k], fuels[k]).token)
    ensures forall k :: 0 <= k < |groups| ==> CompleteChain(groups[k])
    ensures var scopes := WorkflowScopes(repos, branches);
      forall k, m :: 0 <= k < |groups| && 0 <= m < |groups[k]| ==>
        Serves(up(Request(WorkflowsUrl(scopes[k].repo, scopes[k].branch, GetReportingWindow(env), TokenBefore(tokens[k], groups[k], m)),
                          GetCircleCIToken(env).value)),
               groups[k][m])
  {
    var scopes := WorkflowScopes(repos, branches);
    var url, auth := UrlFor(GetReportingWindow(env)), GetCircleCIToken(env).value;
    groups, tokens, fuels := RunGroups(up, url, auth, scopes, "", fuel, []);
    ChainsServed(up, url, auth, scopes, groups, tokens, fuels);
  }

  /**
   * The token is appended right after "&page-token", with no "=": the URL for
   * a token is the URL for "" followed by the token itself.
   */
  lemma WorkflowsUrlToken(repo: string, branch: string, window: string, pageToken: string)
    ensures WorkflowsUrl(repo, branch, window, pageToken) == WorkflowsUrl(repo, branch, window, "") + pageToken
    ensures var u := WorkflowsUrl(repo, branch, window, ""); u[|u| - |"&page-token"|..] == "&page-token"
  {
  }

  /** After a skipped collection Export returns an empty list, no error, and writes no gauge. */
  lemma SkipExportsNothing(c: Outcome<seq<WorkflowInsightWithRepo>>, f: Field)
    requires c.Skipped?
    ensures ExportResult(c) == Done([])
    ensures Written(WorkflowRows(Collected(c)), f) == map[]
  {
  }

  /** After a failed collection Export returns the wrapped error and the gauges stay reset. */
  lemma ErrorExportsNothing(c: Outcome<seq<WorkflowInsightWithRepo>>, f: Field)
    requires c.Error?
    ensures ExportResult(c) == Error(ExportErrorPrefix + c.msg)
    ensures Written(WorkflowRows(Collected(c)), f) == map[]
  {
  }
}
