/**
 * The decoded shape of one CircleCI Insights response page, the upstream that
 * serves it, and the tagging of pages with the scope they were requested for.
 * HTTP and JSON are abstracted: the upstream maps a request to a reply whose
 * body is already decoded (or marked undecodable).
 */
module Insights {
  import opened Wrappers

  /** A float64 carried from a page to a gauge without ever being inspected. */
  datatype Float64 = Float64(bits: bv64)

  /** The statistics of one workflow or job that reach a gauge; the other JSON fields are dropped. */
  datatype Metrics = Metrics(
    successRate: Float64,
    min: int,
    max: int,
    median: int,
    p95: int,
    standardDeviation: Float64)

  /** One entry of `items`: a workflow (or job) name with its statistics. */
  datatype Item = Item(name: string, metrics: Metrics)

  /** One decoded response page; an empty `nextPageToken` means no further pages. */
  datatype Page = Page(nextPageToken: string, items: seq<Item>)

  /** A GET request: its URL and the Circle-Token header. */
  datatype Request = Request(url: string, circleToken: string)

  /** The step of a request that failed: sending it, or reading its body. */
  datatype Failure = SendFailed | ReadFailed

  /**
   * What a request comes back with: a failure of the transport (reported with
   * status 0) and the cause the HTTP client gives, or a status with a body that
   * decodes to a page (Some) or does not (None).
   */
  datatype Reply = TransportError(failure: Failure, cause: string) | Response(status: int, body: Option<Page>)

  function StatusOf(reply: Reply): (status: int)
    ensures reply.TransportError? ==> status == 0
    ensures reply.Response? ==> status == reply.status
  {
    match reply
    case TransportError(_, _) => 0
    case Response(status, _) => status
  }

  const SendFailedPrefix := "failed to get response body: "
  const ReadFailedPrefix := "failed to read response body: "

  /**
   * The error text a transport failure is reported with: the cause, behind the
   * prefix of the step that failed.
   */
  function TransportText(failure: Failure, cause: string): (text: string)
    ensures failure.SendFailed? ==> text == SendFailedPrefix + cause
    ensures failure.ReadFailed? ==> text == ReadFailedPrefix + cause
  {
    match failure
    case SendFailed => SendFailedPrefix + cause
    case ReadFailed => ReadFailedPrefix + cause
  }

  /** The CircleCI API as seen by the collectors. */
  type Upstream = Request -> Reply

  /** A decoded page tagged with the scope (repository, branch, ...) it was requested for. */
  datatype Tagged<S> = Tagged(scope: S, page: Page)

  /**
   * How a collection ends: its pages; Skipped(status) for the abort on a status of 300 or more,
   * which the Go code reports as an empty result with a nil error; an error;
   * or OutOfFuel when the request budget of the model ran out.
   */
  datatype Outcome<T> = Done(value: T) | Skipped(status: int) | Error(msg: string) | OutOfFuel

  /** Number of items on the pages of `ts`. */
  function ItemCount<S>(ts: seq<Tagged<S>>): nat
  {
    if ts == [] then 0 else ItemCount(ts[..|ts| - 1]) + |ts[|ts| - 1].page.items|
  }

  /** One value per item of one tagged page, in item order. */
  function PageEntries<S, X>(t: Tagged<S>, f: (S, Item) -> X): (xs: seq<X>)
    ensures |xs| == |t.page.items|
    ensures forall m :: 0 <= m < |xs| ==> xs[m] == f(t.scope, t.page.items[m])
  {
    seq(|t.page.items|, m requires 0 <= m < |t.page.items| => f(t.scope, t.page.items[m]))
  }

  /**
   * The nested `for _, t := range ts { for _, item := range t.Items { ... } }`
   * walk of the exporters: one value per item, pages in order, items in order.
   */
  function Flatten<S, X>(ts: seq<Tagged<S>>, f: (S, Item) -> X): seq<X>
  {
    if ts == [] then [] else Flatten(ts[..|ts| - 1], f) + PageEntries(ts[|ts| - 1], f)
  }

  /**
   * The walk visits every item exactly once, in collection order: item `m` of
   * page `k` is entry ItemCount(ts[..k]) + m, and nothing else is produced.
   */
  lemma {:induction false} FlattenAt<S, X>(ts: seq<Tagged<S>>, f: (S, Item) -> X, k: nat, m: nat)
    requires k < |ts| && m < |ts[k].page.items|
    ensures |Flatten(ts, f)| == ItemCount(ts)
    ensures ItemCount(ts[..k]) + m < ItemCount(ts)
    ensures Flatten(ts, f)[ItemCount(ts[..k]) + m] == f(ts[k].scope, ts[k].page.items[m])
  {
    var n := |ts| - 1;
    FlattenLength(ts, f);
    if k == n {
      assert ts[..k] == ts[..n];
      FlattenLength(ts[..n], f);
    } else {
      assert ts[..n][..k] == ts[..k];
      FlattenAt(ts[..n], f, k, m);
    }
  }

  /** Conversely, every entry of the walk is some item of some page. */
  lemma {:induction false} FlattenIndex<S>(ts: seq<Tagged<S>>, idx: nat) returns (k: nat, m: nat)
    requires idx < ItemCount(ts)
    ensures k < |ts| && m < |ts[k].page.items|
    ensures idx == ItemCount(ts[..k]) + m
  {
    var n := |ts| - 1;
    if idx < ItemCount(ts[..n]) {
      k, m := FlattenIndex(ts[..n], idx);
      assert ts[..n][..k] == ts[..k];
    } else {
      k, m := n, idx - ItemCount(ts[..n]);
    }
  }

  lemma {:induction false} FlattenLength<S, X>(ts: seq<Tagged<S>>, f: (S, Item) -> X)
    ensures |Flatten(ts, f)| == ItemCount(ts)
  {
    if ts != [] {
      FlattenLength(ts[..|ts| - 1], f);
    }
  }

  /** Walking one more page appends that page's entries. */
  lemma FlattenSnoc<S, X>(ts: seq<Tagged<S>>, t: Tagged<S>, f: (S, Item) -> X)
    ensures Flatten(ts + [t], f) == Flatten(ts, f) + PageEntries(t, f)
  {
    assert (ts + [t])[..|ts|] == ts;
  }

  /** The nested range walk itself, collecting f(scope, item) for every item in order. */
  method Walk<S, X>(ts: seq<Tagged<S>>, f: (S, Item) -> X) returns (xs: seq<X>)
    ensures xs == Flatten(ts, f)
  {
    xs := [];
    for i := 0 to |ts|
      invariant xs == Flatten(ts[..i], f)
    {
      var t := ts[i];
      ghost var entries := PageEntries(t, f);
      for m := 0 to |t.page.items|
        invariant xs == Flatten(ts[..i], f) + entries[..m]
      {
        xs := xs + [f(t.scope, t.page.items[m])];
        assert entries[..m + 1] == entries[..m] + [entries[m]];
      }
      assert entries[..|t.page.items|] == entries;
      assert ts[..i + 1] == ts[..i] + [t];
      FlattenSnoc(ts[..i], t, f);
    }
    assert ts[..|ts|] == ts;
  }
}
