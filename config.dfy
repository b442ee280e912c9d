/**
 * Configuration resolution from the process environment (pkg/config/config.go).
 * The environment is a map; a variable that is absent reads as "", as with os.Getenv.
 */
module Config {
  import opened Wrappers

  type Env = map<string, string>

  /** os.Getenv: the value of `key`, or "" when it is unset. */
  function Getenv(env: Env, key: string): (v: string)
    ensures key !in env ==> v == ""
    ensures key in env ==> v == env[key]
  {
    if key in env then env[key] else ""
  }

  // ---------------------------------------------------------------------------
  // strings.Split and strings.Join with a one-character separator

  /** Number of occurrences of `c` in `s`. */
  function Count(s: string, c: char): nat
  {
    if s == [] then 0 else (if s[0] == c then 1 else 0) + Count(s[1..], c)
  }

  /**
   * strings.Split(s, [sep]): the maximal separator-free pieces of `s`, in order.
   * Like Go's, it never returns an empty list: Split("", sep) is [""].
   */
  function Split(s: string, sep: char): (parts: seq<string>)
    ensures |parts| >= 1
  {
    if s == [] then [""]
    else
      var rest := Split(s[1..], sep);
      if s[0] == sep then [""] + rest
      else [[s[0]] + rest[0]] + rest[1..]
  }

  /** strings.Join(parts, [sep]). */
  function Join(parts: seq<string>, sep: char): string
  {
    if parts == [] then ""
    else if |parts| == 1 then parts[0]
    else parts[0] + [sep] + Join(parts[1..], sep)
  }

  /** Splitting yields one more part than there are separators. */
  lemma {:induction false} SplitCount(s: string, sep: char)
    ensures |Split(s, sep)| == Count(s, sep) + 1
  {
    if s != [] {
      SplitCount(s[1..], sep);
    }
  }

  /** Joining the parts with the same separator gives back the input. */
  lemma {:induction false} SplitJoin(s: string, sep: char)
    ensures Join(Split(s, sep), sep) == s
  {
    if s != [] {
      var rest := Split(s[1..], sep);
      SplitJoin(s[1..], sep);
      if s[0] == sep {
        assert Split(s, sep)[1..] == rest;
      } else {
        var parts := Split(s, sep);
        assert parts[1..] == rest[1..];
        if |rest| > 1 {
          assert Join(rest, sep) == rest[0] + [sep] + Join(rest[1..], sep);
        }
      }
    }
  }

  /** No part contains the separator. */
  lemma {:induction false} SplitPartsClean(s: string, sep: char)
    ensures forall k :: 0 <= k < |Split(s, sep)| ==> sep !in Split(s, sep)[k]
  {
    if s != [] {
      SplitPartsClean(s[1..], sep);
      var rest := Split(s[1..], sep);
      var parts := Split(s, sep);
      if s[0] != sep {
        assert parts[0] == [s[0]] + rest[0];
        forall k | 1 <= k < |parts| ensures sep !in parts[k] {
          assert parts[k] == rest[k];
        }
      } else {
        forall k | 1 <= k < |parts| ensures sep !in parts[k] {
          assert parts[k] == rest[k - 1];
        }
      }
    }
  }

  // ---------------------------------------------------------------------------
  // The configuration getters

  const TokenKey := "CIRCLECI_TOKEN"
  const WindowKey := "REPORTING_WINDOW"
  const DefaultReportingWindow := "last-7-days"

  /** GetCircleCIToken: the token verbatim, or ("", error) when it is unset or empty. */
  function GetCircleCIToken(env: Env): (r: ValueErr<string>)
    ensures r.Ok() <==> Getenv(env, TokenKey) != ""
    ensures r.Ok() ==> r.value == Getenv(env, TokenKey)
    ensures !r.Ok() ==> r.value == ""
  {
    var token := Getenv(env, TokenKey);
    if |token| == 0 then ValueErr("", Some("missing environment variable CIRCLECI_TOKEN"))
    else ValueErr(token, None)
  }

  /** Both `<name>_REPOSITORY` and `<name>_BRANCH` hold a non-empty value. */
  predicate Complete(env: Env, name: string)
  {
    Getenv(env, name + "_REPOSITORY") != "" && Getenv(env, name + "_BRANCH") != ""
  }

  /**
   * GetConfigForName: the comma-split repository and branch lists of `name`,
   * or two empty lists unless both variables are set.
   */
  function GetConfigForName(env: Env, name: string): (r: (seq<string>, seq<string>))
    ensures |r.0| > 0 <==> Complete(env, name)
    ensures |r.1| > 0 <==> Complete(env, name)
    ensures Complete(env, name) ==>
      r.0 == Split(Getenv(env, name + "_REPOSITORY"), ',') && r.1 == Split(Getenv(env, name + "_BRANCH"), ',')
    ensures Complete(env, name) ==>
      Join(r.0, ',') == Getenv(env, name + "_REPOSITORY") && Join(r.1, ',') == Getenv(env, name + "_BRANCH")
    ensures !Complete(env, name) ==> r == ([], [])
  {
    var repos := Getenv(env, name + "_REPOSITORY");
    var branches := Getenv(env, name + "_BRANCH");
    if |repos| > 0 && |branches| > 0 then
      SplitJoin(repos, ',');
      SplitJoin(branches, ',');
      (Split(repos, ','), Split(branches, ','))
    else
      ([], [])
  }

  const MissingRepositoryConfig :=
    "Missing environment variables. Define either GITHUB_REPOSITORY and GITHUB_BRANCH, or BITBUCKET_REPOSITORY and BITBUCKET_BRANCH"

  /** The monitored repositories and branches, and the VCS slug of the insights URL. */
  datatype RepositoryConfig = RepositoryConfig(repos: seq<string>, branches: seq<string>, vcsSlug: string)

  /**
   * GetRepositoryConfig: the GITHUB pair with slug "gh" whenever it is complete,
   * else the BITBUCKET pair with slug "bb", else empty lists, "" and an error.
   */
  function GetRepositoryConfig(env: Env): (r: ValueErr<RepositoryConfig>)
    ensures r.value.vcsSlug == (if Complete(env, "GITHUB") then "gh" else if Complete(env, "BITBUCKET") then "bb" else "")
    ensures r.Ok() <==> Complete(env, "GITHUB") || Complete(env, "BITBUCKET")
    ensures !r.Ok() ==> r.value == RepositoryConfig([], [], "") && r.err == Some(MissingRepositoryConfig)
    ensures r.Ok() ==>
      var name := if Complete(env, "GITHUB") then "GITHUB" else "BITBUCKET";
      r.value.repos == Split(Getenv(env, name + "_REPOSITORY"), ',') &&
      r.value.branches == Split(Getenv(env, name + "_BRANCH"), ',')
  {
    var (repos, branches) := GetConfigForName(env, "GITHUB");
    if |repos| > 0 && |branches| > 0 then
      ValueErr(RepositoryConfig(repos, branches, "gh"), None)
    else
      var (repos', branches') := GetConfigForName(env, "BITBUCKET");
      if |repos'| > 0 && |branches'| > 0 then
        ValueErr(RepositoryConfig(repos', branches', "bb"), None)
      else
        ValueErr(RepositoryConfig([], [], ""), Some(MissingRepositoryConfig))
  }

  /** GetReportingWindow: REPORTING_WINDOW verbatim, or "last-7-days" when it is unset or empty. */
  function GetReportingWindow(env: Env): (w: string)
    ensures w != ""
    ensures Getenv(env, WindowKey) != "" ==> w == Getenv(env, WindowKey)
    ensures Getenv(env, WindowKey) == "" ==> w == DefaultReportingWindow
  {
    var window := Getenv(env, WindowKey);
    if |window| == 0 then DefaultReportingWindow else window
  }

  /** The five reporting windows the insights API documents. */
  predicate DocumentedWindow(w: string)
  {
    w in {"last-24-hours", "last-7-days", "last-30-days", "last-60-days", "last-90-days"}
  }

  /**
   * The window is passed through unchecked: any non-empty value, documented
   * or not, is used as it is.
   */
  lemma ReportingWindowUnchecked(w: string)
    requires w != ""
    ensures GetReportingWindow(map[WindowKey := w]) == w
    ensures !DocumentedWindow(w) ==> !DocumentedWindow(GetReportingWindow(map[WindowKey := w]))
  {
  }
}
