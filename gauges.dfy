/**
 * The metric registry: Prometheus gauge vectors reduced to their map
 * semantics. A gauge vector holds one value per label tuple; Reset empties it
 * and With(labels).Set(v) overwrites the value under `labels`.
 */
module Gauges {
  import opened Insights

  /**
   * What a gauge holds: a float copied from the page, or an integer duration
   * converted with float64(...), kept symbolic.
   */
  datatype GaugeValue = Copied(f: Float64) | Converted(n: int)

  /** The six gauges each exporter keeps, one per statistic. */
  datatype Field = SuccessRate | DurationMin | DurationMax | DurationMedian | DurationP95 | DurationStandardDeviation

  /** The value the exporters write into gauge `f` for an item with statistics `m`. */
  function Value(m: Metrics, f: Field): (v: GaugeValue)
    ensures f == SuccessRate ==> v == Copied(m.successRate)
    ensures f == DurationStandardDeviation ==> v == Copied(m.standardDeviation)
    ensures f == DurationMin ==> v == Converted(m.min)
    ensures f == DurationMax ==> v == Converted(m.max)
    ensures f == DurationMedian ==> v == Converted(m.median)
    ensures f == DurationP95 ==> v == Converted(m.p95)
  {
    match f
    case SuccessRate => Copied(m.successRate)
    case DurationMin => Converted(m.min)
    case DurationMax => Converted(m.max)
    case DurationMedian => Converted(m.median)
    case DurationP95 => Converted(m.p95)
    case DurationStandardDeviation => Copied(m.standardDeviation)
  }

  /**
   * The registry state the gauges reach after writing `rows` in order into an
   * empty registry: gauge `f` receives Value(m, f) under every row's labels.
   */
  function Written<L(==)>(rows: seq<(L, Metrics)>, f: Field): map<L, GaugeValue>
  {
    if rows == [] then map[]
    else Written(rows[..|rows| - 1], f)[rows[|rows| - 1].0 := Value(rows[|rows| - 1].1, f)]
  }

  /** The row written for an item: the labels `labelOf` gives it, and its statistics. */
  function RowFor<S, L>(labelOf: (S, Item) -> L): (S, Item) -> (L, Metrics)
  {
    (s: S, it: Item) => (labelOf(s, it), it.metrics)
  }

  /** A label tuple has a sample exactly when some written row carries it. */
  lemma {:induction false} WrittenKeys<L>(rows: seq<(L, Metrics)>, f: Field, labels: L)
    ensures labels in Written(rows, f) <==> exists i :: 0 <= i < |rows| && rows[i].0 == labels
  {
    if rows != [] {
      var n := |rows| - 1;
      var prefix := rows[..n];
      WrittenKeys(prefix, f, labels);
      if labels != rows[n].0 {
        if i :| 0 <= i < |rows| && rows[i].0 == labels {
          assert prefix[i] == rows[i];
        }
      }
    }
  }

  /** Last write wins: the sample under a label tuple is the value of the last row carrying it. */
  lemma {:induction false} WrittenLastWins<L>(rows: seq<(L, Metrics)>, f: Field, i: nat)
    requires i < |rows|
    requires forall j :: i < j < |rows| ==> rows[j].0 != rows[i].0
    ensures rows[i].0 in Written(rows, f) && Written(rows, f)[rows[i].0] == Value(rows[i].1, f)
  {
    var n := |rows| - 1;
    if i < n {
      var prefix := rows[..n];
      assert prefix[i] == rows[i];
      assert forall j :: i < j < |prefix| ==> prefix[j] == rows[j];
      WrittenLastWins(prefix, f, i);
    }
  }

  /** Writing one more row updates only that row's label tuple. */
  lemma WrittenSnoc<L>(rows: seq<(L, Metrics)>, row: (L, Metrics), f: Field)
    ensures Written(rows + [row], f) == Written(rows, f)[row.0 := Value(row.1, f)]
  {
    assert (rows + [row])[..|rows|] == rows;
  }

  /**
   * The six gauge vectors of one exporter (success_rate and the five
   * duration_metrics_* gauges), each a map from label tuple to value.
   */
  class GaugeSet<L(==)> {
    var successRate: map<L, GaugeValue>
    var durationMin: map<L, GaugeValue>
    var durationMax: map<L, GaugeValue>
    var durationMedian: map<L, GaugeValue>
    var durationP95: map<L, GaugeValue>
    var durationStandardDeviation: map<L, GaugeValue>

    /** The samples gauge `f` currently exposes to a scrape. */
    function Contents(f: Field): map<L, GaugeValue>
      reads this
    {
      match f
      case SuccessRate => successRate
      case DurationMin => durationMin
      case DurationMax => durationMax
      case DurationMedian => durationMedian
      case DurationP95 => durationP95
      case DurationStandardDeviation => durationStandardDeviation
    }

    /** prometheus.NewGaugeVec six times: every gauge starts empty. */
    constructor ()
      ensures forall f :: Contents(f) == map[]
    {
      successRate, durationMin, durationMax := map[], map[], map[];
      durationMedian, durationP95, durationStandardDeviation := map[], map[], map[];
    }

    /** The six Reset() calls that open every refresh cycle. */
    method ResetAll()
      modifies this
      ensures forall f :: Contents(f) == map[]
    {
      successRate := map[];
      durationMin := map[];
      durationMax := map[];
      durationMedian := map[];
      durationP95 := map[];
      durationStandardDeviation := map[];
    }

    /** The six With(labels).Set(...) calls made for one item. */
    method SetAll(labels: L, m: Metrics)
      modifies this
      ensures forall f :: Contents(f) == old(Contents(f))[labels := Value(m, f)]
    {
      successRate := successRate[labels := Copied(m.successRate)];
      durationMin := durationMin[labels := Converted(m.min)];
      durationMax := durationMax[labels := Converted(m.max)];
      durationMedian := durationMedian[labels := Converted(m.median)];
      durationP95 := durationP95[labels := Converted(m.p95)];
      durationStandardDeviation := durationStandardDeviation[labels := Copied(m.standardDeviation)];
    }

    /**
     * The exporters' second walk: SetAll under each item's labels, pages in
     * order, items in order, into freshly reset gauges.
     */
    method WriteItems<S>(ts: seq<Tagged<S>>, labelOf: (S, Item) -> L)
      requires forall f :: Contents(f) == map[]
      modifies this
      ensures forall f :: Contents(f) == Written(Flatten(ts, RowFor(labelOf)), f)
    {
      for i := 0 to |ts|
        invariant forall f :: Contents(f) == Written(Flatten(ts[..i], RowFor(labelOf)), f)
      {
        var t := ts[i];
        ghost var entries := PageEntries(t, RowFor(labelOf));
        assert Flatten(ts[..i], RowFor(labelOf)) + entries[..0] == Flatten(ts[..i], RowFor(labelOf));
        for m := 0 to |t.page.items|
          invariant forall f :: Contents(f) == Written(Flatten(ts[..i], RowFor(labelOf)) + entries[..m], f)
        {
          ghost var before := Flatten(ts[..i], RowFor(labelOf)) + entries[..m];
          SetAll(labelOf(t.scope, t.page.items[m]), t.page.items[m].metrics);
          assert before + [entries[m]] == Flatten(ts[..i], RowFor(labelOf)) + entries[..m + 1];
          forall f
            ensures Contents(f) == Written(before + [entries[m]], f)
          {
            WrittenSnoc(before, entries[m], f);
          }
        }
        assert entries[..|t.page.items|] == entries;
        assert ts[..i + 1] == ts[..i] + [t];
        FlattenSnoc(ts[..i], t, RowFor(labelOf));
      }
      assert ts[..|ts|] == ts;
    }
  }
}
