/**
 * The pagination loop shared by the workflow and job collectors
 * (getV2WorkflowInsights in workflows.go, getV2WorkflowJobsInsights in jobs.go).
 *
 * For every scope in order, requests are issued until a page with an empty
 * next_page_token arrives. The page token lives in ONE variable for the whole
 * run and is only ever overwritten with non-empty tokens, so a scope's first
 * request carries whatever token the previous scope ended with. A status of
 * 300 or more aborts the whole run with an empty result; a transport or
 * decoding failure aborts it with an error. The Go loop has no iteration cap;
 * the model counts requests against `fuel` and reports OutOfFuel when it runs out.
 */
module Paging {
  import opened Wrappers
  import opened Insights
  import opened Scopes

  /** Why a page chain stopped before reaching an empty next_page_token. */
  datatype Stop = NonSuccess(status: int) | Failed(msg: string) | Exhausted

  /** A partial result: items so far, the current page token and the fuel left; or a stop. */
  datatype Progress<T> = Going(items: seq<T>, token: string, fuel: nat) | Stopped(stop: Stop)

  /** Puts `prefix` in front of the items of a partial result. */
  function Extend<T>(prefix: seq<T>, p: Progress<T>): (r: Progress<T>)
    ensures p.Stopped? ==> r == p
    ensures p.Going? ==> r == Going(prefix + p.items, p.token, p.fuel)
  {
    match p
    case Going(items, token, fuel) => Going(prefix + items, token, fuel)
    case Stopped(s) => Stopped(s)
  }

  const ParseError := "failed to parse response body"
  const CallApiPrefix := "failed to call API "

  /**
   * The pages of one scope, starting with page token `token`: the inner `for {}`
   * loop. On success, `token` of the result is the page token variable's value
   * when the loop breaks.
   */
  function Chain<S>(up: Upstream, url: (S, string) -> string, auth: string, scope: S, token: string, fuel: nat): (r: Progress<Page>)
    decreases fuel
  {
    if fuel == 0 then Stopped(Exhausted)
    else
      var reply := up(Request(url(scope, token), auth));
      if StatusOf(reply) >= 300 then Stopped(NonSuccess(StatusOf(reply)))
      else if reply.TransportError? then Stopped(Failed(CallApiPrefix + TransportText(reply.failure, reply.cause)))
      else if reply.body.None? then Stopped(Failed(ParseError))
      else
        var page := reply.body.value;
        if page.nextPageToken == "" then Going([page], token, fuel - 1)
        else Extend([page], Chain(up, url, auth, scope, page.nextPageToken, fuel - 1))
  }

  /** Every page of a scope tagged with that scope. */
  function Tag<S>(scope: S, pages: seq<Page>): (ts: seq<Tagged<S>>)
    ensures |ts| == |pages|
    ensures forall k :: 0 <= k < |ts| ==> ts[k] == Tagged(scope, pages[k])
  {
    seq(|pages|, k requires 0 <= k < |pages| => Tagged(scope, pages[k]))
  }

  lemma TagSnoc<S>(scope: S, pages: seq<Page>, page: Page)
    ensures Tag(scope, pages + [page]) == Tag(scope, pages) + [Tagged(scope, page)]
  {
  }

  /**
   * The run over the remaining `scopes`, with the page token and fuel it starts
   * with and the tagged pages `acc` collected so far.
   */
  function Run<S>(up: Upstream, url: (S, string) -> string, auth: string, scopes: seq<S>,
                  token: string, fuel: nat, acc: seq<Tagged<S>>): (r: Outcome<seq<Tagged<S>>>)
    decreases |scopes|
  {
    if scopes == [] then Done(acc)
    else
      match Chain(up, url, auth, scopes[0], token, fuel)
      case Stopped(stop) => Finish(stop)
      case Going(pages, last, rest) => Run(up, url, auth, scopes[1..], last, rest, acc + Tag(scopes[0], pages))
  }

  /** How a stopped chain ends the whole run: nothing collected so far survives. */
  function Finish<T>(stop: Stop): (r: Outcome<T>)
    ensures stop.NonSuccess? ==> r == Skipped(stop.status)
    ensures stop.Failed? ==> r == Error(stop.msg)
    ensures stop.Exhausted? ==> r == OutOfFuel
  {
    match stop
    case NonSuccess(status) => Skipped(status)
    case Failed(msg) => Error(msg)
    case Exhausted => OutOfFuel
  }

  /** A run whose first scope's chain stops ends there. */
  lemma RunStops<S>(up: Upstream, url: (S, string) -> string, auth: string, scope: S, rest: seq<S>,
                    token: string, fuel: nat, acc: seq<Tagged<S>>)
    requires Chain(up, url, auth, scope, token, fuel).Stopped?
    ensures Run(up, url, auth, [scope] + rest, token, fuel, acc) == Finish(Chain(up, url, auth, scope, token, fuel).stop)
  {
    assert ([scope] + rest)[0] == scope;
  }

  /** A run whose first scope's chain finishes goes on with the rest, from that chain's token and fuel. */
  lemma RunGoesOn<S>(up: Upstream, url: (S, string) -> string, auth: string, scope: S, rest: seq<S>,
                     token: string, fuel: nat, acc: seq<Tagged<S>>)
    requires Chain(up, url, auth, scope, token, fuel).Going?
    ensures var c := Chain(up, url, auth, scope, token, fuel);
      Run(up, url, auth, [scope] + rest, token, fuel, acc) == Run(up, url, auth, rest, c.token, c.fuel, acc + Tag(scope, c.items))
  {
    assert ([scope] + rest)[0] == scope && ([scope] + rest)[1..] == rest;
  }

  /**
   * One request of a chain in progress: `pages` were collected since the
   * chain started, and the next request carries `token`.
   */
  lemma ChainStep<S>(up: Upstream, url: (S, string) -> string, auth: string, scope: S,
                     startToken: string, startFuel: nat, pages: seq<Page>, token: string, fuel: nat)
    requires fuel > 0
    requires Chain(up, url, auth, scope, startToken, startFuel) == Extend(pages, Chain(up, url, auth, scope, token, fuel))
    ensures var reply := up(Request(url(scope, token), auth));
      var whole := Chain(up, url, auth, scope, startToken, startFuel);
      && (StatusOf(reply) >= 300 ==> whole == Stopped(NonSuccess(StatusOf(reply))))
      && (StatusOf(reply) < 300 && reply.TransportError? ==> whole == Stopped(Failed(CallApiPrefix + TransportText(reply.failure, reply.cause))))
      && (StatusOf(reply) < 300 && reply.Response? && reply.body.None? ==> whole == Stopped(Failed(ParseError)))
      && (StatusOf(reply) < 300 && reply.Response? && reply.body.Some? && reply.body.value.nextPageToken == "" ==>
            whole == Going(pages + [reply.body.value], token, fuel - 1))
      && (StatusOf(reply) < 300 && reply.Response? && reply.body.Some? && reply.body.value.nextPageToken != "" ==>
            whole == Extend(pages + [reply.body.value], Chain(up, url, auth, scope, reply.body.value.nextPageToken, fuel - 1)))
  {
  }

  /** A chain with no fuel left stops as exhausted. */
  lemma ChainOutOfFuel<S>(up: Upstream, url: (S, string) -> string, auth: string, scope: S,
                          startToken: string, startFuel: nat, pages: seq<Page>, token: string)
    requires Chain(up, url, auth, scope, startToken, startFuel) == Extend(pages, Chain(up, url, auth, scope, token, 0))
    ensures Chain(up, url, auth, scope, startToken, startFuel) == Stopped(Exhausted)
  {
  }

  /**
   * The page loop of one scope, as both collectors run it: request, stop on a
   * status of 300 or more, a transport error or an undecodable body, append
   * the page tagged with its scope, and go on while the page names a next
   * token. The outcome is the scope's chain; when the chain completes, `acc'`
   * is `acc` followed by its pages.
   */
  method FetchScope<S>(up: Upstream, url: (S, string) -> string, auth: string, scope: S,
                       token: string, fuel: nat, acc: seq<Tagged<S>>)
    returns (p: Progress<Page>, acc': seq<Tagged<S>>)
    ensures p == Chain(up, url, auth, scope, token, fuel)
    ensures p.Going? ==> acc' == acc + Tag(scope, p.items)
  {
    acc' := acc;
    var pageToken := token;
    var budget := fuel;
    var pages: seq<Page> := [];
    while true
      invariant Chain(up, url, auth, scope, token, fuel) == Extend(pages, Chain(up, url, auth, scope, pageToken, budget))
      invariant acc' == acc + Tag(scope, pages)
      decreases budget
    {
      if budget == 0 {
        ChainOutOfFuel(up, url, auth, scope, token, fuel, pages, pageToken);
        return Stopped(Exhausted), acc';
      }
      var reply := up(Request(url(scope, pageToken), auth));
      ChainStep(up, url, auth, scope, token, fuel, pages, pageToken, budget);
      budget := budget - 1;
      var status := StatusOf(reply);
      if status >= 300 {
        return Stopped(NonSuccess(status)), acc';
      }
      if reply.TransportError? {
        return Stopped(Failed(CallApiPrefix + TransportText(reply.failure, reply.cause))), acc';
      }
      if reply.body.None? {
        return Stopped(Failed(ParseError)), acc';
      }
      var page := reply.body.value;
      TagSnoc(scope, pages, page);
      acc' := acc' + [Tagged(scope, page)];
      pages := pages + [page];
      if page.nextPageToken == "" {
        return Going(pages, pageToken, budget), acc';
      }
      pageToken := page.nextPageToken;
    }
  }

  /** A whole collection: empty page token, nothing collected yet. */
  function Collect<S>(up: Upstream, url: (S, string) -> string, auth: string, scopes: seq<S>, fuel: nat): Outcome<seq<Tagged<S>>>
  {
    Run(up, url, auth, scopes, "", fuel, [])
  }

  /**
   * The branch loop of one outer entry: the page loop of each of its scopes in
   * branch order, the page token carried over from scope to scope. `stop` says
   * why the walk ended early; otherwise the run goes on with `rest` from the
   * returned token, budget and collection.
   */
  method FetchRow<O, S>(up: Upstream, url: (S, string) -> string, auth: string, outer: O, branches: seq<string>,
                        mk: (O, string) -> S, ghost rest: seq<S>, token: string, fuel: nat, acc: seq<Tagged<S>>)
    returns (stop: Option<Stop>, token': string, fuel': nat, acc': seq<Tagged<S>>)
    ensures stop.Some? ==> Run(up, url, auth, Row(outer, branches, mk) + rest, token, fuel, acc) == Finish(stop.value)
    ensures stop.None? ==> Run(up, url, auth, Row(outer, branches, mk) + rest, token, fuel, acc) == Run(up, url, auth, rest, token', fuel', acc')
  {
    token', fuel', acc' := token, fuel, acc;
    assert branches[0..] == branches;
    for j := 0 to |branches|
      invariant Run(up, url, auth, Row(outer, branches, mk) + rest, token, fuel, acc)
             == Run(up, url, auth, Row(outer, branches[j..], mk) + rest, token', fuel', acc')
    {
      var scope := mk(outer, branches[j]);
      ghost var tail := Row(outer, branches[j + 1..], mk) + rest;
      RowFrom(outer, branches, mk, j);
      assert Row(outer, branches[j..], mk) + rest == [scope] + tail;
      var p, collected := FetchScope(up, url, auth, scope, token', fuel', acc');
      if p.Stopped? {
        RunStops(up, url, auth, scope, tail, token', fuel', acc');
        return Some(p.stop), token', fuel', acc';
      }
      RunGoesOn(up, url, auth, scope, tail, token', fuel', acc');
      token', fuel', acc' := p.token, p.fuel, collected;
    }
    assert branches[|branches|..] == [];
    assert Row(outer, branches[|branches|..], mk) + rest == rest;
    stop := None;
  }

  /**
   * The whole nested walk of both collectors: for each outer entry, for each
   * branch, page through that scope; a stopped page loop ends the walk.
   */
  method CollectCross<O, S>(up: Upstream, url: (S, string) -> string, auth: string, outers: seq<O>, branches: seq<string>,
                            mk: (O, string) -> S, fuel: nat)
    returns (r: Outcome<seq<Tagged<S>>>)
    ensures r == Collect(up, url, auth, Cross(outers, branches, mk), fuel)
  {
    var collected: seq<Tagged<S>> := [];
    var pageToken := "";
    var budget := fuel;
    assert outers[0..] == outers;
    for i := 0 to |outers|
      invariant Run(up, url, auth, Cross(outers[i..], branches, mk), pageToken, budget, collected)
             == Collect(up, url, auth, Cross(outers, branches, mk), fuel)
    {
      CrossFrom(outers, branches, mk, i);
      var stop;
      stop, pageToken, budget, collected := FetchRow(up, url, auth, outers[i], branches, mk, Cross(outers[i + 1..], branches, mk),
                                                     pageToken, budget, collected);
      if stop.Some? {
        return Finish(stop.value);
      }
    }
    assert outers[|outers|..] == [];
    r := Done(collected);
  }

  // ---------------------------------------------------------------------------
  // What one scope's chain looks like

  /** The page token the k-th request of a chain carries. */
  function TokenBefore(token: string, pages: seq<Page>, k: nat): string
    requires k <= |pages|
  {
    if k == 0 then token else pages[k - 1].nextPageToken
  }

  /** `reply` is a 2xx response whose body decodes to `page`. */
  predicate Serves(reply: Reply, page: Page)
  {
    reply.Response? && reply.status < 300 && reply.body == Some(page)
  }

  /** Pages up to and including the first one whose next_page_token is empty. */
  predicate CompleteChain(pages: seq<Page>)
  {
    && |pages| >= 1
    && pages[|pages| - 1].nextPageToken == ""
    && forall k :: 0 <= k < |pages| - 1 ==> pages[k].nextPageToken != ""
  }

  /**
   * A finished chain ends at the first empty next_page_token, spent one request
   * per page, and leaves behind the last non-empty token, which is the incoming
   * token when the scope had a single page.
   */
  lemma {:induction false} ChainShape<S>(up: Upstream, url: (S, string) -> string, auth: string, scope: S, token: string, fuel: nat)
    requires Chain(up, url, auth, scope, token, fuel).Going?
    ensures var c := Chain(up, url, auth, scope, token, fuel);
      && CompleteChain(c.items)
      && c.fuel + |c.items| == fuel
      && c.token == TokenBefore(token, c.items, |c.items| - 1)
    decreases fuel
  {
    var reply := up(Request(url(scope, token), auth));
    var page := reply.body.value;
    if page.nextPageToken != "" {
      var next := page.nextPageToken;
      var tail := Chain(up, url, auth, scope, next, fuel - 1);
      ChainShape(up, url, auth, scope, next, fuel - 1);
      var c := Chain(up, url, auth, scope, token, fuel);
      assert c.items == [page] + tail.items;
      assert c.items[1..] == tail.items;
    }
  }

  /**
   * The requests of a finished chain: the first carried the incoming token and
   * every later one the previous page's token, and each was answered with a
   * 2xx response decoding to the page collected.
   */
  lemma {:induction false} ChainServed<S>(up: Upstream, url: (S, string) -> string, auth: string, scope: S, token: string, fuel: nat, k: nat)
    requires Chain(up, url, auth, scope, token, fuel).Going?
    requires k < |Chain(up, url, auth, scope, token, fuel).items|
    ensures var c := Chain(up, url, auth, scope, token, fuel);
      Serves(up(Request(url(scope, TokenBefore(token, c.items, k)), auth)), c.items[k])
    decreases fuel
  {
    var reply := up(Request(url(scope, token), auth));
    var page := reply.body.value;
    if k > 0 {
      var next := page.nextPageToken;
      var tail := Chain(up, url, auth, scope, next, fuel - 1);
      var c := Chain(up, url, auth, scope, token, fuel);
      assert c.items == [page] + tail.items;
      ChainServed(up, url, auth, scope, next, fuel - 1, k - 1);
      assert TokenBefore(token, c.items, k) == TokenBefore(next, tail.items, k - 1);
    }
  }

  /** A chain is only skipped for a status of 300 or more. */
  lemma {:induction false} ChainNonSuccess<S>(up: Upstream, url: (S, string) -> string, auth: string, scope: S, token: string, fuel: nat)
    requires Chain(up, url, auth, scope, token, fuel).Stopped?
    requires Chain(up, url, auth, scope, token, fuel).stop.NonSuccess?
    ensures Chain(up, url, auth, scope, token, fuel).stop.status >= 300
    decreases fuel
  {
    var reply := up(Request(url(scope, token), auth));
    if StatusOf(reply) < 300 && reply.Response? && reply.body.Some? && reply.body.value.nextPageToken != "" {
      ChainNonSuccess(up, url, auth, scope, reply.body.value.nextPageToken, fuel - 1);
    }
  }

  /** A chain result with `extra` more fuel. */
  function AddFuel<T>(p: Progress<T>, extra: nat): Progress<T>
  {
    match p
    case Going(items, token, fuel) => Going(items, token, fuel + extra)
    case Stopped(s) => Stopped(s)
  }

  /** Fuel only bounds a chain: with more of it, a chain that finished or aborted does the same. */
  lemma {:induction false} ChainFuelMonotone<S>(up: Upstream, url: (S, string) -> string, auth: string, scope: S, token: string, fuel: nat, extra: nat)
    requires Chain(up, url, auth, scope, token, fuel) != Stopped(Exhausted)
    ensures Chain(up, url, auth, scope, token, fuel + extra) == AddFuel(Chain(up, url, auth, scope, token, fuel), extra)
    decreases fuel
  {
    var reply := up(Request(url(scope, token), auth));
    if StatusOf(reply) < 300 && reply.Response? && reply.body.Some? && reply.body.value.nextPageToken != "" {
      ChainFuelMonotone(up, url, auth, scope, reply.body.value.nextPageToken, fuel - 1, extra);
    }
  }

  // ---------------------------------------------------------------------------
  // What a whole run looks like

  /** Fuel only bounds a run: with more of it, a run that did not run out returns the same. */
  lemma {:induction false} RunFuelMonotone<S>(up: Upstream, url: (S, string) -> string, auth: string, scopes: seq<S>,
                                             token: string, fuel: nat, acc: seq<Tagged<S>>, extra: nat)
    requires Run(up, url, auth, scopes, token, fuel, acc) != OutOfFuel
    ensures Run(up, url, auth, scopes, token, fuel + extra, acc) == Run(up, url, auth, scopes, token, fuel, acc)
    decreases |scopes|
  {
    if scopes != [] {
      var c := Chain(up, url, auth, scopes[0], token, fuel);
      if c != Stopped(Exhausted) {
        ChainFuelMonotone(up, url, auth, scopes[0], token, fuel, extra);
        if c.Going? {
          RunFuelMonotone(up, url, auth, scopes[1..], c.token, c.fuel, acc + Tag(scopes[0], c.items), extra);
        }
      }
    }
  }

  /** A run is only skipped for a status of 300 or more. */
  lemma {:induction false} RunSkipped<S>(up: Upstream, url: (S, string) -> string, auth: string, scopes: seq<S>,
                                       token: string, fuel: nat, acc: seq<Tagged<S>>)
    requires Run(up, url, auth, scopes, token, fuel, acc).Skipped?
    ensures Run(up, url, auth, scopes, token, fuel, acc).status >= 300
    decreases |scopes|
  {
    var c := Chain(up, url, auth, scopes[0], token, fuel);
    if c.Going? {
      RunSkipped(up, url, auth, scopes[1..], c.token, c.fuel, acc + Tag(scopes[0], c.items));
    } else {
      ChainNonSuccess(up, url, auth, scopes[0], token, fuel);
    }
  }

  /** The tagged pages of consecutive scopes, scope by scope. */
  function Concat<S>(scopes: seq<S>, groups: seq<seq<Page>>): seq<Tagged<S>>
    requires |groups| == |scopes|
  {
    if scopes == [] then [] else Tag(scopes[0], groups[0]) + Concat(scopes[1..], groups[1..])
  }

  /** Collecting one more scope's pages in front of the rest. */
  lemma ConcatCons<S>(acc: seq<Tagged<S>>, scope: S, pages: seq<Page>, rest: seq<S>, groups: seq<seq<Page>>)
    requires |groups| == |rest|
    ensures (acc + Tag(scope, pages)) + Concat(rest, groups) == acc + Concat([scope] + rest, [pages] + groups)
  {
    assert ([scope] + rest)[1..] == rest && ([pages] + groups)[1..] == groups;
  }

  /**
   * Scope `k`'s chain, started from `tokens[k]` and `fuels[k]`, finished with
   * the pages `groups[k]`, and left behind the token and fuel scope `k + 1`
   * starts from.
   */
  predicate Linked<S>(up: Upstream, url: (S, string) -> string, auth: string, scopes: seq<S>,
                      groups: seq<seq<Page>>, tokens: seq<string>, fuels: seq<nat>)
  {
    && |groups| == |tokens| == |fuels| == |scopes|
    && (forall k :: 0 <= k < |scopes| ==>
          Chain(up, url, auth, scopes[k], tokens[k], fuels[k]).Going? &&
          Chain(up, url, auth, scopes[k], tokens[k], fuels[k]).items == groups[k])
    && (forall k :: 0 <= k < |scopes| - 1 ==>
          tokens[k + 1] == Chain(up, url, auth, scopes[k], tokens[k], fuels[k]).token &&
          fuels[k + 1] == Chain(up, url, auth, scopes[k], tokens[k], fuels[k]).fuel)
  }

  /** A finished chain in front of linked chains that start where it ends. */
  lemma LinkedCons<S>(up: Upstream, url: (S, string) -> string, auth: string, scope: S, token: string, fuel: nat,
                      rest: seq<S>, groups: seq<seq<Page>>, tokens: seq<string>, fuels: seq<nat>)
    requires Chain(up, url, auth, scope, token, fuel).Going?
    requires Linked(up, url, auth, rest, groups, tokens, fuels)
    requires |rest| > 0 ==> tokens[0] == Chain(up, url, auth, scope, token, fuel).token
    requires |rest| > 0 ==> fuels[0] == Chain(up, url, auth, scope, token, fuel).fuel
    ensures Linked(up, url, auth, [scope] + rest, [Chain(up, url, auth, scope, token, fuel).items] + groups, [token] + tokens, [fuel] + fuels)
  {
    var scopes := [scope] + rest;
    forall k | 1 <= k < |scopes|
      ensures scopes[k] == rest[k - 1]
    {
    }
  }

  /**
   * A successful run returns what was collected before it, followed, for each
   * scope in order, by that scope's chain of pages tagged with it. The chains
   * are linked: scope `k`'s starts from `tokens[k]` and `fuels[k]`, which are
   * the run's own token and fuel for the first scope and what the previous
   * scope's chain left behind for every later one.
   */
  lemma {:induction false} RunGroups<S>(up: Upstream, url: (S, string) -> string, auth: string, scopes: seq<S>,
                                      token: string, fuel: nat, acc: seq<Tagged<S>>)
    returns (groups: seq<seq<Page>>, tokens: seq<string>, fuels: seq<nat>)
    requires Run(up, url, auth, scopes, token, fuel, acc).Done?
    ensures Linked(up, url, auth, scopes, groups, tokens, fuels)
    ensures |scopes| > 0 ==> tokens[0] == token && fuels[0] == fuel
    ensures Run(up, url, auth, scopes, token, fuel, acc).value == acc + Concat(scopes, groups)
    ensures forall k :: 0 <= k < |groups| ==> CompleteChain(groups[k])
    decreases |scopes|
  {
    if scopes == [] {
      groups, tokens, fuels := [], [], [];
    } else {
      var c := Chain(up, url, auth, scopes[0], token, fuel);
      assert [scopes[0]] + scopes[1..] == scopes;
      RunGoesOn(up, url, auth, scopes[0], scopes[1..], token, fuel, acc);
      ChainShape(up, url, auth, scopes[0], token, fuel);
      var g, t, f := RunGroups(up, url, auth, scopes[1..], c.token, c.fuel, acc + Tag(scopes[0], c.items));
      LinkedCons(up, url, auth, scopes[0], token, fuel, scopes[1..], g, t, f);
      groups, tokens, fuels := [c.items] + g, [token] + t, [fuel] + f;
      ConcatCons(acc, scopes[0], c.items, scopes[1..], g);
    }
  }

  /** The pages of chains that finished were each the 2xx reply to the request that fetched them. */
  lemma ChainsServed<S>(up: Upstream, url: (S, string) -> string, auth: string, scopes: seq<S>,
                        groups: seq<seq<Page>>, tokens: seq<string>, fuels: seq<nat>)
    requires Linked(up, url, auth, scopes, groups, tokens, fuels)
    ensures forall k, m :: 0 <= k < |groups| && 0 <= m < |groups[k]| ==>
      Serves(up(Request(url(scopes[k], TokenBefore(tokens[k], groups[k], m)), auth)), groups[k][m])
  {
    forall k, m | 0 <= k < |groups| && 0 <= m < |groups[k]|
      ensures Serves(up(Request(url(scopes[k], TokenBefore(tokens[k], groups[k], m)), auth)), groups[k][m])
    {
      ChainServed(up, url, auth, scopes[k], tokens[k], fuels[k], m);
    }
  }

  /**
   * The stale token: when a scope needed more than one page, the next scope's
   * walk starts from that scope's last non-empty next_page_token, not from "".
   */
  lemma StaleToken<S>(up: Upstream, url: (S, string) -> string, auth: string, scope: S, rest: seq<S>,
                      token: string, fuel: nat, acc: seq<Tagged<S>>)
    requires Chain(up, url, auth, scope, token, fuel).Going?
    requires |Chain(up, url, auth, scope, token, fuel).items| >= 2
    ensures var c := Chain(up, url, auth, scope, token, fuel);
      && c.items[|c.items| - 2].nextPageToken != ""
      && Run(up, url, auth, [scope] + rest, token, fuel, acc)
         == Run(up, url, auth, rest, c.items[|c.items| - 2].nextPageToken, c.fuel, acc + Tag(scope, c.items))
  {
    ChainShape(up, url, auth, scope, token, fuel);
    RunGoesOn(up, url, auth, scope, rest, token, fuel, acc);
  }

  /**
   * A transport error carries status 0, passes the status check, and ends the
   * whole run with "failed to call API " and the helper's text for it.
   */
  lemma TransportErrorFails<S>(up: Upstream, url: (S, string) -> string, auth: string, scope: S, rest: seq<S>,
                               token: string, fuel: nat, acc: seq<Tagged<S>>)
    requires fuel > 0
    requires up(Request(url(scope, token), auth)).TransportError?
    ensures Run(up, url, auth, [scope] + rest, token, fuel, acc)
         == Error(CallApiPrefix + TransportText(up(Request(url(scope, token), auth)).failure, up(Request(url(scope, token), auth)).cause))
  {
    RunStops(up, url, auth, scope, rest, token, fuel, acc);
  }

  /**
   * A run that does not finish returns the same outcome whatever was
   * collected before: a skip or an error discards every earlier page.
   */
  lemma {:induction false} StopDiscards<S>(up: Upstream, url: (S, string) -> string, auth: string, scopes: seq<S>,
                                         token: string, fuel: nat, acc: seq<Tagged<S>>, other: seq<Tagged<S>>)
    requires !Run(up, url, auth, scopes, token, fuel, acc).Done?
    ensures Run(up, url, auth, scopes, token, fuel, other) == Run(up, url, auth, scopes, token, fuel, acc)
    decreases |scopes|
  {
    var c := Chain(up, url, auth, scopes[0], token, fuel);
    if c.Going? {
      StopDiscards(up, url, auth, scopes[1..], c.token, c.fuel, acc + Tag(scopes[0], c.items), other + Tag(scopes[0], c.items));
    }
  }
}
