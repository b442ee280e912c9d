/**
 * The original single-binary exporter (main.go): the polling interval read
 * from the environment, its own GITHUB_REPOSITORY / GITHUB_BRANCH getters, a
 * collector that fetches exactly one page per (repository, branch) without
 * pagination and without a status check, and the snapshot that rewrites the
 * six workflow gauges from it.
 */
module Exporter {
  import opened Wrappers
  import opened Config
  import opened Insights
  import opened Gauges
  import opened Scopes
  import opened Workflows

  // ---------------------------------------------------------------------------
  // getInterval and the strconv.Atoi it relies on (64-bit int)

  const MinInt64: int := -0x8000_0000_0000_0000
  const MaxInt64: int := 0x7fff_ffff_ffff_ffff

  predicate IsDigit(c: char)
  {
    '0' <= c <= '9'
  }

  predicate AllDigits(s: string)
  {
    forall i :: 0 <= i < |s| ==> IsDigit(s[i])
  }

  /** The number a string of decimal digits spells, most significant digit first. */
  function DigitsValue(s: string): nat
    requires AllDigits(s)
  {
    if s == [] then 0 else DigitsValue(s[..|s| - 1]) * 10 + (s[|s| - 1] as int - '0' as int)
  }

  /** The digits after an optional leading '+' or '-'. */
  function Unsigned(s: string): string
  {
    if |s| > 0 && (s[0] == '+' || s[0] == '-') then s[1..] else s
  }

  /** The error texts of strconv.Atoi; the input is quoted without escaping. */
  function SyntaxError(s: string): string
  {
    "strconv.Atoi: parsing \"" + s + "\": invalid syntax"
  }

  function RangeError(s: string): string
  {
    "strconv.Atoi: parsing \"" + s + "\": value out of range"
  }

  const MaxUint64: int := 0xffff_ffff_ffff_ffff

  /** The length of the run of decimal digits `u` starts with. */
  function DigitRun(u: string): (n: nat)
    ensures n <= |u| && AllDigits(u[..n])
    ensures n < |u| ==> !IsDigit(u[n])
    ensures n == |u| <==> AllDigits(u)
  {
    if u == [] || !IsDigit(u[0]) then 0
    else
      var n := 1 + DigitRun(u[1..]);
      assert u[..n] == [u[0]] + u[1..][..n - 1];
      n
  }

  /** How strconv.ParseUint's scan of a base-10 string ends. */
  datatype Scanned = Parsed(value: nat) | BadDigit | Overflow

  /**
   * strconv.ParseUint's loop from position `i` on, the digits before `i`
   * having been read: a non-digit is a syntax error and a digit that takes
   * the value past 2^64 - 1 a range error, whichever comes first.
   */
  function Scan(u: string, i: nat): Scanned
    requires i <= |u| && AllDigits(u[..i]) && DigitsValue(u[..i]) <= MaxUint64
    decreases |u| - i
  {
    if i == |u| then (assert u[..i] == u; Parsed(DigitsValue(u)))
    else if !IsDigit(u[i]) then BadDigit
    else
      assert u[..i + 1][..i] == u[..i];
      if DigitsValue(u[..i + 1]) > MaxUint64 then Overflow else Scan(u, i + 1)
  }

  /** A longer prefix of a digit string is worth at least as much. */
  lemma {:induction false} DigitsMonotone(u: string, i: nat, j: nat)
    requires i <= j <= |u| && AllDigits(u[..j])
    ensures AllDigits(u[..i]) && DigitsValue(u[..i]) <= DigitsValue(u[..j])
    decreases j - i
  {
    assert u[..j][..i] == u[..i];
    if i < j {
      assert u[..j][..j - 1] == u[..j - 1];
      DigitsMonotone(u, i, j - 1);
    }
  }

  /**
   * The scan ends in a range error exactly when the leading digit run is worth
   * more than 2^64 - 1, whatever follows it; otherwise in a syntax error at
   * the first non-digit, or with the value of the whole string.
   */
  lemma {:induction false} ScanRun(u: string, i: nat)
    requires i <= DigitRun(u) && DigitsValue(u[..i]) <= MaxUint64
    ensures Scan(u, i) == (if DigitsValue(u[..DigitRun(u)]) > MaxUint64 then Overflow
                           else if DigitRun(u) < |u| then BadDigit
                           else Parsed(DigitsValue(u)))
    decreases |u| - i
  {
    var n := DigitRun(u);
    DigitsMonotone(u, i, n);
    if i == n {
      assert u[..n] == u || n < |u|;
    } else {
      assert u[..i + 1][..i] == u[..i];
      DigitsMonotone(u, i + 1, n);
      if DigitsValue(u[..i + 1]) <= MaxUint64 {
        ScanRun(u, i + 1);
      }
    }
  }

  /** The value strconv.Atoi clamps an out-of-range input to: the bound of its sign. */
  function Bound(s: string): int
  {
    if |s| > 0 && s[0] == '-' then MinInt64 else MaxInt64
  }

  /**
   * strconv.Atoi: an optional sign then at least one decimal digit; leading
   * zeros are allowed. A syntax error gives 0, a value outside int64 the
   * nearest bound, each with its error. The digits are read left to right,
   * so a digit run worth more than 2^64 - 1 is a range error even when a
   * non-digit follows it.
   */
  function Atoi(s: string): (r: ValueErr<int>)
    ensures r.Ok() ==> MinInt64 <= r.value <= MaxInt64
    ensures r.Ok() ==> Unsigned(s) != "" && AllDigits(Unsigned(s))
    ensures r.Ok() ==> r.value == (if s[0] == '-' then -(DigitsValue(Unsigned(s)) as int) else DigitsValue(Unsigned(s)))
    ensures Unsigned(s) == "" ==> r == ValueErr(0, Some(SyntaxError(s)))
    ensures var u := Unsigned(s);
      DigitsValue(u[..DigitRun(u)]) > MaxUint64 ==> r == ValueErr(Bound(s), Some(RangeError(s)))
    ensures var u := Unsigned(s);
      !AllDigits(u) && DigitsValue(u[..DigitRun(u)]) <= MaxUint64 ==> r == ValueErr(0, Some(SyntaxError(s)))
    ensures Unsigned(s) != "" && AllDigits(Unsigned(s)) ==>
      var v: int := if s[0] == '-' then -(DigitsValue(Unsigned(s)) as int) else DigitsValue(Unsigned(s));
      && (r.Ok() <==> MinInt64 <= v <= MaxInt64)
      && (v > MaxInt64 ==> r == ValueErr(MaxInt64, Some(RangeError(s))))
      && (v < MinInt64 ==> r == ValueErr(MinInt64, Some(RangeError(s))))
  {
    var digits := Unsigned(s);
    if digits == [] then ValueErr(0, Some(SyntaxError(s)))
    else
      assert digits[..0] == [];
      ScanRun(digits, 0);
      match Scan(digits, 0)
      case BadDigit => ValueErr(0, Some(SyntaxError(s)))
      case Overflow =>
        assert digits[..|digits|] == digits;
        ValueErr(Bound(s), Some(RangeError(s)))
      case Parsed(n) =>
        var v: int := if s[0] == '-' then -(n as int) else n;
        if v > MaxInt64 then ValueErr(MaxInt64, Some(RangeError(s)))
        else if v < MinInt64 then ValueErr(MinInt64, Some(RangeError(s)))
        else ValueErr(v, None)
  }

  /** The decimal digits of `n`, without leading zeros (strconv.Itoa for n >= 0). */
  function Digits(n: nat): string
  {
    if n < 10 then [('0' as int + n) as char] else Digits(n / 10) + [('0' as int + n % 10) as char]
  }

  /** strconv.Itoa: the canonical decimal text of `n`. */
  function Decimal(n: int): string
  {
    if n < 0 then "-" + Digits(-n) else Digits(n)
  }

  lemma {:induction false} DigitsRoundTrip(n: nat)
    ensures Digits(n) != [] && AllDigits(Digits(n)) && DigitsValue(Digits(n)) == n
    ensures IsDigit(Digits(n)[0])
  {
    if n >= 10 {
      DigitsRoundTrip(n / 10);
      var s := Digits(n);
      assert s[..|s| - 1] == Digits(n / 10);
    }
  }

  /** Atoi reads back every int64 that Itoa prints. */
  lemma AtoiDecimal(n: int)
    requires MinInt64 <= n <= MaxInt64
    ensures Atoi(Decimal(n)) == ValueErr(n, None)
  {
    var u := Digits(if n < 0 then -n else n);
    DigitsRoundTrip(if n < 0 then -n else n);
    assert Unsigned(Decimal(n)) == u;
    assert u[..DigitRun(u)] == u;
  }

  const IntervalKey := "CIRCLECI_API_INTERVAL"
  const DefaultInterval := 300
  const IntervalErrorPrefix := "failed to read CircleCI Config: "

  /**
   * getInterval: 300 seconds when CIRCLECI_API_INTERVAL is unset or empty,
   * otherwise its Atoi value; an Atoi error gives 0 and the wrapped error.
   */
  function GetInterval(env: Env): (r: ValueErr<int>)
    ensures Getenv(env, IntervalKey) == "" ==> r == ValueErr(DefaultInterval, None)
    ensures Getenv(env, IntervalKey) != "" ==> (r.Ok() <==> Atoi(Getenv(env, IntervalKey)).Ok())
    ensures Getenv(env, IntervalKey) != "" && r.Ok() ==> r.value == Atoi(Getenv(env, IntervalKey)).value
    ensures !r.Ok() ==> r.value == 0 && r.err == Some(IntervalErrorPrefix + Atoi(Getenv(env, IntervalKey)).err.value)
  {
    var text := Getenv(env, IntervalKey);
    if |text| == 0 then ValueErr(DefaultInterval, None)
    else
      var parsed := Atoi(text);
      if !parsed.Ok() then ValueErr(0, Some(IntervalErrorPrefix + parsed.err.value))
      else ValueErr(parsed.value, None)
  }

  /** Any int64 written in canonical decimal is the interval, in seconds. */
  lemma IntervalRoundTrip(env: Env, n: int)
    requires MinInt64 <= n <= MaxInt64 && Getenv(env, IntervalKey) == Decimal(n)
    ensures GetInterval(env) == ValueErr(n, None)
  {
    AtoiDecimal(n);
    DigitsRoundTrip(if n < 0 then -n else n);
  }

  /**
   * The interval is not checked for sign: zero and negative values come back
   * without error, though the ticker they feed needs a positive duration.
   */
  lemma IntervalNotPositive(env: Env, n: int)
    requires MinInt64 <= n <= 0 && Getenv(env, IntervalKey) == Decimal(n)
    ensures GetInterval(env).Ok() && GetInterval(env).value <= 0
  {
    IntervalRoundTrip(env, n);
  }

  // ---------------------------------------------------------------------------
  // main.go's own configuration getters

  const RepositoryKey := "GITHUB_REPOSITORY"
  const BranchKey := "GITHUB_BRANCH"
  const MissingRepository := "missing environment variable GITHUB_REPOSITORY"
  const MissingBranch := "missing environment variable GITHUB_BRANCH"

  /** getGitHubRepos: the comma-split GITHUB_REPOSITORY, or ([], error) when it is unset or empty. */
  function GetGitHubRepos(env: Env): (r: ValueErr<seq<string>>)
    ensures r.Ok() <==> Getenv(env, RepositoryKey) != ""
    ensures r.Ok() ==> r.value == Split(Getenv(env, RepositoryKey), ',')
    ensures r.Ok() ==> |r.value| >= 1 && Join(r.value, ',') == Getenv(env, RepositoryKey)
    ensures !r.Ok() ==> r.value == [] && r.err == Some(MissingRepository)
  {
    var text := Getenv(env, RepositoryKey);
    if |text| == 0 then ValueErr([], Some(MissingRepository))
    else SplitJoin(text, ','); ValueErr(Split(text, ','), None)
  }

  /** getGitHubBranches: the comma-split GITHUB_BRANCH, or ([], error) when it is unset or empty. */
  function GetGitHubBranches(env: Env): (r: ValueErr<seq<string>>)
    ensures r.Ok() <==> Getenv(env, BranchKey) != ""
    ensures r.Ok() ==> r.value == Split(Getenv(env, BranchKey), ',')
    ensures r.Ok() ==> |r.value| >= 1 && Join(r.value, ',') == Getenv(env, BranchKey)
    ensures !r.Ok() ==> r.value == [] && r.err == Some(MissingBranch)
  {
    var text := Getenv(env, BranchKey);
    if |text| == 0 then ValueErr([], Some(MissingBranch))
    else SplitJoin(text, ','); ValueErr(Split(text, ','), None)
  }

  // ---------------------------------------------------------------------------
  // The single-page collector

  /** The request URL: no page token, and the window fixed to "last-7-days". */
  function SnapshotUrl(repo: string, branch: string): string
  {
    InsightsBase + repo + "/workflows?" + "&branch=" + branch + "&reporting-window=" + "last-7-days"
  }

  const SnapshotParseError := "failed to parse response body: "

  /**
   * The walk over the remaining `scopes` with `acc` collected so far: one
   * request per scope; a transport error or an undecodable body ends the walk
   * with an error, and any decodable body is kept whatever the status.
   */
  function Once(up: Upstream, auth: string, scopes: seq<WorkflowScope>, acc: seq<WorkflowInsightWithRepo>)
    : (r: Outcome<seq<WorkflowInsightWithRepo>>)
    decreases |scopes|
  {
    if scopes == [] then Done(acc)
    else
      var reply := up(Request(SnapshotUrl(scopes[0].repo, scopes[0].branch), auth));
      if reply.TransportError? then Error(TransportText(reply.failure, reply.cause))
      else if reply.body.None? then Error(SnapshotParseError)
      else Once(up, auth, scopes[1..], acc + [Tagged(scopes[0], reply.body.value)])
  }

  /**
   * What main.go's getV2WorkflowInsights returns. The errors of the two list
   * getters are discarded, so a missing variable walks an empty list.
   */
  function CollectOnce(env: Env, up: Upstream): Outcome<seq<WorkflowInsightWithRepo>>
  {
    Once(up, GetCircleCIToken(env).value, WorkflowScopes(GetGitHubRepos(env).value, GetGitHubBranches(env).value), [])
  }

  /** The reply main.go's collector gets for `scope`. */
  function ReplyFor(up: Upstream, auth: string, scope: WorkflowScope): Reply
  {
    up(Request(SnapshotUrl(scope.repo, scope.branch), auth))
  }

  /** The inner loop over the branches of one repository, in branch order. */
  method FetchRepo(upstream: Upstream, circleToken: string, repo: string, branches: seq<string>,
                   ghost rest: seq<WorkflowScope>, acc: seq<WorkflowInsightWithRepo>)
    returns (err: Option<string>, acc': seq<WorkflowInsightWithRepo>)
    ensures err.Some? ==> Once(upstream, circleToken, Row(repo, branches, MkScope()) + rest, acc) == Error(err.value)
    ensures err.None? ==> Once(upstream, circleToken, Row(repo, branches, MkScope()) + rest, acc) == Once(upstream, circleToken, rest, acc')
  {
    acc' := acc;
    assert branches[0..] == branches;
    for j := 0 to |branches|
      invariant Once(upstream, circleToken, Row(repo, branches, MkScope()) + rest, acc)
             == Once(upstream, circleToken, Row(repo, branches[j..], MkScope()) + rest, acc')
    {
      var branch := branches[j];
      ghost var scope := WorkflowScope(repo, branch);
      ghost var tail := Row(repo, branches[j + 1..], MkScope()) + rest;
      RowFrom(repo, branches, MkScope(), j);
      assert Row(repo, branches[j..], MkScope()) + rest == [scope] + tail;
      var url := SnapshotUrl(repo, branch);
      var reply := upstream(Request(url, circleToken));
      if reply.TransportError? {
        return Some(TransportText(reply.failure, reply.cause)), acc';
      }
      if reply.body.None? {
        return Some(SnapshotParseError), acc';
      }
      acc' := acc' + [Tagged(WorkflowScope(repo, branch), reply.body.value)];
    }
    assert branches[|branches|..] == [];
    assert Row(repo, branches[|branches|..], MkScope()) + rest == rest;
    err := None;
  }

  /**
   * main.go's getV2WorkflowInsights. A missing token makes the Go code exit,
   * so a token is required.
   */
  method GetV2WorkflowInsights(env: Env, upstream: Upstream) returns (r: Outcome<seq<WorkflowInsightWithRepo>>)
    requires GetCircleCIToken(env).Ok()
    ensures r == CollectOnce(env, upstream)
  {
    var wfInsightWithRepos: seq<WorkflowInsightWithRepo> := [];
    var repos := GetGitHubRepos(env).value;
    var branches := GetGitHubBranches(env).value;
    var circleToken := GetCircleCIToken(env).value;
    assert repos[0..] == repos;
    for i := 0 to |repos|
      invariant Once(upstream, circleToken, Cross(repos[i..], branches, MkScope()), wfInsightWithRepos) == CollectOnce(env, upstream)
    {
      CrossFrom(repos, branches, MkScope(), i);
      var err;
      err, wfInsightWithRepos := FetchRepo(upstream, circleToken, repos[i], branches, Cross(repos[i + 1..], branches, MkScope()),
                                           wfInsightWithRepos);
      if err.Some? {
        return Error(err.value);
      }
    }
    assert repos[|repos|..] == [];
    r := Done(wfInsightWithRepos);
  }

  /**
   * A successful single-page walk holds exactly one page per scope, in scope
   * order: the decoded body of that scope's reply, whatever its status.
   */
  lemma {:induction false} OnceShape(up: Upstream, auth: string, scopes: seq<WorkflowScope>, acc: seq<WorkflowInsightWithRepo>, k: nat)
    requires Once(up, auth, scopes, acc).Done?
    requires k < |scopes|
    ensures var ts := Once(up, auth, scopes, acc).value;
      && |ts| == |acc| + |scopes|
      && ts[..|acc|] == acc
      && ReplyFor(up, auth, scopes[k]).Response?
      && ReplyFor(up, auth, scopes[k]).body.Some?
      && ts[|acc| + k] == Tagged(scopes[k], ReplyFor(up, auth, scopes[k]).body.value)
    decreases |scopes|
  {
    var next := acc + [Tagged(scopes[0], ReplyFor(up, auth, scopes[0]).body.value)];
    if |scopes| == 1 {
      assert scopes[1..] == [];
    } else if k == 0 {
      OnceShape(up, auth, scopes[1..], next, 0);
      assert Once(up, auth, scopes, acc).value[..|next|] == next;
    } else {
      OnceShape(up, auth, scopes[1..], next, k - 1);
      assert Once(up, auth, scopes, acc).value[..|next|] == next;
    }
  }

  /** A failed walk failed at some scope: every earlier reply decoded, and that one did not. */
  lemma {:induction false} OnceFails(up: Upstream, auth: string, scopes: seq<WorkflowScope>, acc: seq<WorkflowInsightWithRepo>)
    returns (k: nat)
    requires Once(up, auth, scopes, acc).Error?
    ensures k < |scopes|
    ensures forall i :: 0 <= i < k ==> ReplyFor(up, auth, scopes[i]).Response? && ReplyFor(up, auth, scopes[i]).body.Some?
    ensures var reply := ReplyFor(up, auth, scopes[k]);
      || (reply.TransportError? && Once(up, auth, scopes, acc).msg == TransportText(reply.failure, reply.cause))
      || (reply.Response? && reply.body.None? && Once(up, auth, scopes, acc).msg == SnapshotParseError)
    decreases |scopes|
  {
    var reply := ReplyFor(up, auth, scopes[0]);
    if reply.TransportError? || reply.body.None? {
      k := 0;
    } else {
      var k' := OnceFails(up, auth, scopes[1..], acc + [Tagged(scopes[0], reply.body.value)]);
      k := k' + 1;
      forall i | 0 <= i < k
        ensures ReplyFor(up, auth, scopes[i]).Response? && ReplyFor(up, auth, scopes[i]).body.Some?
      {
        if i > 0 {
          assert scopes[i] == scopes[1..][i - 1];
        }
      }
    }
  }

  /** With GITHUB_REPOSITORY unset no request is made, and the walk succeeds with nothing. */
  lemma MissingReposCollectsNothing(env: Env, up: Upstream)
    requires Getenv(env, RepositoryKey) == ""
    ensures CollectOnce(env, up) == Done([])
  {
    assert GetGitHubRepos(env).value == [];
  }

  // ---------------------------------------------------------------------------
  // snapshot

  const SnapshotErrorPrefix := "failed to get workflow insights: "

  /** What snapshot returns for a collection outcome: nil, or the wrapped error. */
  function SnapshotError(c: Outcome<seq<WorkflowInsightWithRepo>>): (err: Option<string>)
    ensures err.None? <==> !c.Error?
    ensures c.Error? ==> err == Some(SnapshotErrorPrefix + c.msg)
  {
    if c.Error? then Some(SnapshotErrorPrefix + c.msg) else None
  }

  /**
   * snapshot: reset the six gauges, collect one page per (repository, branch),
   * then write every item's metrics under its {workflow, repo, branch} labels.
   */
  method Snapshot(env: Env, upstream: Upstream, gauges: GaugeSet<WorkflowLabels>) returns (err: Option<string>)
    requires GetCircleCIToken(env).Ok()
    modifies gauges
    ensures err == SnapshotError(CollectOnce(env, upstream))
    ensures forall f :: gauges.Contents(f) == Written(WorkflowRows(Collected(CollectOnce(env, upstream))), f)
  {
    gauges.ResetAll();
    var c := GetV2WorkflowInsights(env, upstream);
    if c.Error? {
      return Some(SnapshotErrorPrefix + c.msg);
    }
    var wfInsightWithRepos := if c.Done? then c.value else [];
    gauges.WriteItems(wfInsightWithRepos, LabelsOf());
    return None;
  }

  /**
   * After a successful snapshot, every item of the page fetched for
   * (repository i, branch j) is exported under {item name, repository i, branch j}.
   */
  lemma SnapshotExportsItem(env: Env, up: Upstream, f: Field, i: nat, j: nat, m: nat)
    requires CollectOnce(env, up).Done?
    requires i < |GetGitHubRepos(env).value| && j < |GetGitHubBranches(env).value|
    requires var scope := WorkflowScope(GetGitHubRepos(env).value[i], GetGitHubBranches(env).value[j]);
      ReplyFor(up, GetCircleCIToken(env).value, scope).Response? &&
      ReplyFor(up, GetCircleCIToken(env).value, scope).body.Some? &&
      m < |ReplyFor(up, GetCircleCIToken(env).value, scope).body.value.items|
    ensures var repo, branch := GetGitHubRepos(env).value[i], GetGitHubBranches(env).value[j];
      var item := ReplyFor(up, GetCircleCIToken(env).value, WorkflowScope(repo, branch)).body.value.items[m];
      WorkflowLabels(item.name, repo, branch) in Written(WorkflowRows(Collected(CollectOnce(env, up))), f)
  {
    var repos, branches := GetGitHubRepos(env).value, GetGitHubBranches(env).value;
    var auth := GetCircleCIToken(env).value;
    var scopes := WorkflowScopes(repos, branches);
    var k := i * |branches| + j;
    WorkflowScopeOrder(repos, branches, i, j);
    OnceShape(up, auth, scopes, [], k);
    var ts := CollectOnce(env, up).value;
    var item := ReplyFor(up, auth, scopes[k]).body.value.items[m];
    ExportedLabels(ts, f, WorkflowLabels(item.name, repos[i], branches[j]));
  }

  /** A failed snapshot returns the wrapped error and leaves every gauge empty. */
  lemma SnapshotFailureLeavesGaugesEmpty(c: Outcome<seq<WorkflowInsightWithRepo>>, f: Field)
    requires c.Error?
    ensures SnapshotError(c) == Some(SnapshotErrorPrefix + c.msg)
    ensures Written(WorkflowRows(Collected(c)), f) == map[]
  {
  }
}
