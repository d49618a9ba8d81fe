/** Metric delta batches and how they merge (`metrics.rs` in the domain crate), over real numbers. */
module MetricBatches {
  import opened Common

  const U32_MAX: nat := 0xFFFF_FFFF
  const U64_MAX: nat := 0xFFFF_FFFF_FFFF_FFFF

  datatype Kind = CounterKind | GaugeKind | DistributionKind

  /** A series identity covers the metric's kind, so a key determines it. */
  datatype Key = Key(series: nat, kind: Kind, bucket: int)

  datatype Aggregate =
    | Counter(sum: real, count: nat)
    | Gauge(last: real, min: real, max: real, sum: real, count: nat)
    | Distribution(min: real, max: real, sum: real, count: nat, bins: seq<nat>)
  {
    function Kind(): Kind {
      match this
      case Counter(_, _) => CounterKind
      case Gauge(_, _, _, _, _) => GaugeKind
      case Distribution(_, _, _, _, _) => DistributionKind
    }

    predicate InRange() {
      count <= U64_MAX && (Distribution? ==> forall i :: 0 <= i < |bins| ==> bins[i] <= U32_MAX)
    }
  }

  datatype Delta = Delta(aggregate: Aggregate, receivedAt: int, trace: Option<nat>)

  datatype Batch = Batch(deltas: map<Key, Delta>, sources: nat, discarded: nat) {
    /** A series determines its kind, and counters are machine integers. */
    predicate Valid() {
      && sources <= U32_MAX && discarded <= U32_MAX
      && forall k :: k in deltas ==> deltas[k].aggregate.Kind() == k.kind && deltas[k].aggregate.InRange()
    }
  }

  const EMPTY := Batch(map[], 0, 0)

  function Saturate(n: nat, maximum: nat): nat { if n <= maximum then n else maximum }

  function Least(a: real, b: real): real { if a <= b then a else b }

  function Greatest(a: real, b: real): real { if a <= b then b else a }

  /** Bin by bin, over the bins both have. */
  function MergeBins(a: seq<nat>, b: seq<nat>): seq<nat> {
    seq(|a|, i requires 0 <= i < |a| => if i < |b| then Saturate(a[i] + b[i], U32_MAX) else a[i])
  }

  function MergeAggregates(a: Aggregate, b: Aggregate): Aggregate
    requires a.Kind() == b.Kind()
  {
    match a
    case Counter(sum, count) => Counter(sum + b.sum, Saturate(count + b.count, U64_MAX))
    case Gauge(_, min, max, sum, count) =>
      Gauge(b.last, Least(min, b.min), Greatest(max, b.max), sum + b.sum, Saturate(count + b.count, U64_MAX))
    case Distribution(min, max, sum, count, bins) =>
      Distribution(Least(min, b.min), Greatest(max, b.max), sum + b.sum, Saturate(count + b.count, U64_MAX),
                   MergeBins(bins, b.bins))
  }

  /** Merging a newer delta into an older one; aggregates of different kinds leave the older one alone. */
  function MergeDeltas(a: Delta, b: Delta): Delta {
    if a.aggregate.Kind() != b.aggregate.Kind() then a
    else Delta(MergeAggregates(a.aggregate, b.aggregate), b.receivedAt, if b.trace.Some? then b.trace else a.trace)
  }

  function Merge(a: Batch, b: Batch): Batch {
    Batch(
      map k | k in a.deltas.Keys + b.deltas.Keys ::
        if k !in a.deltas then b.deltas[k]
        else if k !in b.deltas then a.deltas[k]
        else MergeDeltas(a.deltas[k], b.deltas[k]),
      Saturate(a.sources + b.sources, U32_MAX), Saturate(a.discarded + b.discarded, U32_MAX))
  }

  /** `MetricDeltaBatch::merge` pushes the newer batch's deltas one by one. */
  method MergeInto(a: Batch, b: Batch) returns (merged: Batch)
    ensures merged == Merge(a, b)
  {
    var deltas := a.deltas;
    var rest := b.deltas.Keys;
    while rest != {}
      invariant rest <= b.deltas.Keys && deltas.Keys == a.deltas.Keys + (b.deltas.Keys - rest)
      invariant forall k :: k in deltas ==>
        deltas[k] == if k !in b.deltas || k in rest then (if k in a.deltas then a.deltas[k] else deltas[k])
                     else if k !in a.deltas then b.deltas[k] else MergeDeltas(a.deltas[k], b.deltas[k])
      decreases rest
    {
      var k :| k in rest;
      deltas := deltas[k := if k in deltas then MergeDeltas(deltas[k], b.deltas[k]) else b.deltas[k]];
      rest := rest - {k};
    }
    merged := Batch(deltas, Saturate(a.sources + b.sources, U32_MAX), Saturate(a.discarded + b.discarded, U32_MAX));
  }

  lemma UnionSize<T>(a: set<T>, b: set<T>)
    ensures |a + b| <= |a| + |b|
  {
    var extra := b - a;
    assert a + b == a + extra;
    assert b == extra + (a * b);
  }

  lemma MergeSize(a: Batch, b: Batch)
    ensures |Merge(a, b).deltas| <= |a.deltas| + |b.deltas|
  {
    assert Merge(a, b).deltas.Keys == a.deltas.Keys + b.deltas.Keys;
    UnionSize(a.deltas.Keys, b.deltas.Keys);
  }

  lemma MergeIsValid(a: Batch, b: Batch)
    requires a.Valid() && b.Valid()
    ensures Merge(a, b).Valid()
  {
  }

  lemma MergeAggregatesIsAssociative(a: Aggregate, b: Aggregate, c: Aggregate)
    requires a.Kind() == b.Kind() == c.Kind()
    requires a.Distribution? ==> |a.bins| == |b.bins| == |c.bins|
    ensures MergeAggregates(MergeAggregates(a, b), c) == MergeAggregates(a, MergeAggregates(b, c))
  {
    if a.Distribution? {
      assert MergeBins(MergeBins(a.bins, b.bins), c.bins) == MergeBins(a.bins, MergeBins(b.bins, c.bins));
    }
  }

  lemma MergeDeltasIsAssociative(a: Delta, b: Delta, c: Delta)
    requires a.aggregate.Kind() == b.aggregate.Kind() == c.aggregate.Kind()
    requires a.aggregate.Distribution? ==> |a.aggregate.bins| == |b.aggregate.bins| == |c.aggregate.bins|
    ensures MergeDeltas(MergeDeltas(a, b), c) == MergeDeltas(a, MergeDeltas(b, c))
  {
    MergeAggregatesIsAssociative(a.aggregate, b.aggregate, c.aggregate);
  }

  /** All sketches have the same number of bins. */
  ghost predicate SameBins(a: Batch, bins: nat) {
    forall k :: k in a.deltas && a.deltas[k].aggregate.Distribution? ==> |a.deltas[k].aggregate.bins| == bins
  }

  lemma MergeKeepsBins(a: Batch, b: Batch, bins: nat)
    requires SameBins(a, bins) && SameBins(b, bins)
    ensures SameBins(Merge(a, b), bins)
  {
  }

  function Get(deltas: map<Key, Delta>, k: Key): Option<Delta> {
    if k in deltas then Some(deltas[k]) else None
  }

  function MergeOptions(a: Option<Delta>, b: Option<Delta>): Option<Delta> {
    if a.None? then b else if b.None? then a else Some(MergeDeltas(a.value, b.value))
  }

  lemma MergeGet(a: Batch, b: Batch, k: Key)
    ensures Get(Merge(a, b).deltas, k) == MergeOptions(Get(a.deltas, k), Get(b.deltas, k))
  {
  }

  lemma SameDeltas(l: map<Key, Delta>, r: map<Key, Delta>)
    requires forall k :: Get(l, k) == Get(r, k)
    ensures l == r
  {
    forall k ensures (k in l <==> k in r) && (k in l ==> l[k] == r[k]) {
      assert Get(l, k) == Get(r, k);
    }
  }

  lemma MergeIsAssociative(a: Batch, b: Batch, c: Batch, bins: nat)
    requires a.Valid() && b.Valid() && c.Valid() && SameBins(a, bins) && SameBins(b, bins) && SameBins(c, bins)
    ensures Merge(Merge(a, b), c) == Merge(a, Merge(b, c))
  {
    var l, r := Merge(Merge(a, b), c), Merge(a, Merge(b, c));
    forall k ensures Get(l.deltas, k) == Get(r.deltas, k) {
      if k in a.deltas && k in b.deltas && k in c.deltas {
        MergeDeltasIsAssociative(a.deltas[k], b.deltas[k], c.deltas[k]);
      }
      hide Merge, MergeDeltas;
      MergeGet(a, b, k);
      MergeGet(b, c, k);
      MergeGet(Merge(a, b), c, k);
      MergeGet(a, Merge(b, c), k);
    }
    SameDeltas(l.deltas, r.deltas);
  }

  lemma EmptyIsNeutral(a: Batch)
    requires a.Valid()
    ensures Merge(a, EMPTY) == a == Merge(EMPTY, a)
  {
  }

  /** All batches merged in order. */
  function MergeAll(bs: seq<Batch>): Batch {
    if bs == [] then EMPTY
    else if |bs| == 1 then bs[0]
    else Merge(MergeAll(bs[..|bs| - 1]), bs[|bs| - 1])
  }

  ghost predicate AllValid(bs: seq<Batch>, bins: nat) {
    forall i :: 0 <= i < |bs| ==> bs[i].Valid() && SameBins(bs[i], bins)
  }

  lemma EmptyIsValid(bins: nat)
    ensures EMPTY.Valid() && SameBins(EMPTY, bins)
  {
  }

  lemma {:induction false} MergeAllIsValid(bs: seq<Batch>, bins: nat)
    requires AllValid(bs, bins)
    ensures MergeAll(bs).Valid() && SameBins(MergeAll(bs), bins)
  {
    hide Merge, Batch.Valid, SameBins;
    if bs == [] {
      EmptyIsValid(bins);
    } else if |bs| > 1 {
      var rest, last := bs[..|bs| - 1], bs[|bs| - 1];
      MergeAllIsValid(rest, bins);
      MergeIsValid(MergeAll(rest), last);
      MergeKeepsBins(MergeAll(rest), last, bins);
    }
  }

  lemma MergeAllMore(bs: seq<Batch>, b: Batch)
    requires b.Valid()
    ensures MergeAll(bs + [b]) == Merge(MergeAll(bs), b)
  {
    assert (bs + [b])[..|bs|] == bs;
    if bs == [] { EmptyIsNeutral(b); }
  }

  /** Batching does not matter: merging the parts first gives the merge of all. */
  lemma {:induction false} MergeAllSplits(xs: seq<Batch>, ys: seq<Batch>, bins: nat)
    requires AllValid(xs, bins) && AllValid(ys, bins)
    ensures MergeAll(xs + ys) == Merge(MergeAll(xs), MergeAll(ys))
    decreases |ys|
  {
    MergeAllIsValid(xs, bins);
    if ys == [] {
      assert xs + ys == xs;
      EmptyIsNeutral(MergeAll(xs));
    } else {
      var rest, last := ys[..|ys| - 1], ys[|ys| - 1];
      MergeAllSplits(xs, rest, bins);
      MergeAllIsValid(rest, bins);
      MergeIsAssociative(MergeAll(xs), MergeAll(rest), last, bins);
      hide Merge, MergeAll;
      assert xs + ys == (xs + rest) + [last] && ys == rest + [last];
      MergeAllMore(xs + rest, last);
      MergeAllMore(rest, last);
    }
  }

  // ---- what a merge amounts to ----

  /** The deltas for the key, in the order of their batches. */
  function For(bs: seq<Batch>, k: Key): seq<Delta> {
    if bs == [] then []
    else For(bs[..|bs| - 1], k) + if k in bs[|bs| - 1].deltas then [bs[|bs| - 1].deltas[k]] else []
  }

  function SumOf(ds: seq<Delta>): real {
    if ds == [] then 0.0 else SumOf(ds[..|ds| - 1]) + ds[|ds| - 1].aggregate.sum
  }

  function CountOf(ds: seq<Delta>): nat {
    if ds == [] then 0 else CountOf(ds[..|ds| - 1]) + ds[|ds| - 1].aggregate.count
  }

  function BinOf(ds: seq<Delta>, i: nat): nat {
    if ds == [] then 0
    else
      var a := ds[|ds| - 1].aggregate;
      BinOf(ds[..|ds| - 1], i) + if a.Distribution? && i < |a.bins| then a.bins[i] else 0
  }

  /** The least minimum and the greatest maximum among them. */
  ghost predicate Extremes(ds: seq<Delta>, min: real, max: real)
    requires forall i :: 0 <= i < |ds| ==> !ds[i].aggregate.Counter?
  {
    && (forall i :: 0 <= i < |ds| ==> min <= ds[i].aggregate.min && ds[i].aggregate.max <= max)
    && (exists i :: 0 <= i < |ds| && ds[i].aggregate.min == min)
    && (exists i :: 0 <= i < |ds| && ds[i].aggregate.max == max)
  }

  /** The trace of the last delta that has one. */
  ghost predicate LastTrace(ds: seq<Delta>, trace: Option<nat>) {
    if trace.None? then forall i :: 0 <= i < |ds| ==> ds[i].trace.None?
    else exists i :: 0 <= i < |ds| && ds[i].trace == trace && forall j :: i < j < |ds| ==> ds[j].trace.None?
  }

  ghost predicate SameKind(ds: seq<Delta>, kind: Kind) {
    forall i :: 0 <= i < |ds| ==> ds[i].aggregate.Kind() == kind
  }

  ghost predicate BinsAddUp(ds: seq<Delta>, bins: seq<nat>) {
    forall i :: 0 <= i < |bins| ==> bins[i] == Saturate(BinOf(ds, i), U32_MAX)
  }

  /** What `d` must be to stand for all of `ds`. */
  ghost predicate StandsFor(d: Delta, ds: seq<Delta>) {
    && ds != [] && SameKind(ds, d.aggregate.Kind())
    && d.aggregate.sum == SumOf(ds) && d.aggregate.count == Saturate(CountOf(ds), U64_MAX)
    && d.receivedAt == ds[|ds| - 1].receivedAt && LastTrace(ds, d.trace)
    && (!d.aggregate.Counter? ==> Extremes(ds, d.aggregate.min, d.aggregate.max))
    && (d.aggregate.Gauge? ==> d.aggregate.last == ds[|ds| - 1].aggregate.last)
    && (d.aggregate.Distribution? ==>
          |d.aggregate.bins| == |ds[|ds| - 1].aggregate.bins| && BinsAddUp(ds, d.aggregate.bins))
  }

  function SourcesOf(bs: seq<Batch>): nat {
    if bs == [] then 0 else SourcesOf(bs[..|bs| - 1]) + bs[|bs| - 1].sources
  }

  function DiscardedOf(bs: seq<Batch>): nat {
    if bs == [] then 0 else DiscardedOf(bs[..|bs| - 1]) + bs[|bs| - 1].discarded
  }

  ghost predicate Stands(deltas: map<Key, Delta>, k: Key, ds: seq<Delta>) {
    if k in deltas then StandsFor(deltas[k], ds) else ds == []
  }

  /** `total` has exactly the keys of the batches, under each of them what stands for all their deltas, and their
      measurement counts. */
  ghost predicate Totals(total: Batch, bs: seq<Batch>) {
    && (forall k :: Stands(total.deltas, k, For(bs, k)))
    && total.sources == Saturate(SourcesOf(bs), U32_MAX) && total.discarded == Saturate(DiscardedOf(bs), U32_MAX)
  }

  lemma OneStandsForItself(d: Delta)
    requires d.aggregate.InRange()
    ensures StandsFor(d, [d])
  {
    var ds := [d];
    assert ds[..0] == [] && ds[0] == d;
    if d.trace.Some? { assert ds[0].trace == d.trace; }
    if !d.aggregate.Counter? {
      assert ds[0].aggregate.min == d.aggregate.min && ds[0].aggregate.max == d.aggregate.max;
    }
    if d.aggregate.Distribution? {
      forall i | 0 <= i < |d.aggregate.bins| ensures d.aggregate.bins[i] == Saturate(BinOf(ds, i), U32_MAX) {}
    }
  }

  lemma ExtremesMore(ds: seq<Delta>, e: Delta, min: real, max: real)
    requires ds != [] && !e.aggregate.Counter? && (forall i :: 0 <= i < |ds| ==> !ds[i].aggregate.Counter?)
    requires Extremes(ds, min, max)
    ensures Extremes(ds + [e], Least(min, e.aggregate.min), Greatest(max, e.aggregate.max))
  {
    var more := ds + [e];
    var i :| 0 <= i < |ds| && ds[i].aggregate.min == min;
    var j :| 0 <= j < |ds| && ds[j].aggregate.max == max;
    assert more[i] == ds[i] && more[j] == ds[j] && more[|ds|] == e;
  }

  lemma LastTraceMore(ds: seq<Delta>, e: Delta, trace: Option<nat>)
    requires LastTrace(ds, trace)
    ensures LastTrace(ds + [e], if e.trace.Some? then e.trace else trace)
  {
    var more := ds + [e];
    assert more[|ds|] == e;
    if e.trace.None? && trace.Some? {
      var i :| 0 <= i < |ds| && ds[i].trace == trace && forall j :: i < j < |ds| ==> ds[j].trace.None?;
      assert more[i].trace == trace;
      forall j | i < j < |more| ensures more[j].trace.None? {}
    }
  }

  lemma BinsMore(ds: seq<Delta>, e: Delta, bins: seq<nat>)
    requires BinsAddUp(ds, bins) && e.aggregate.Distribution? && |e.aggregate.bins| == |bins|
    ensures BinsAddUp(ds + [e], MergeBins(bins, e.aggregate.bins))
  {
    assert (ds + [e])[..|ds|] == ds;
  }

  lemma SumsMore(ds: seq<Delta>, e: Delta)
    ensures SumOf(ds + [e]) == SumOf(ds) + e.aggregate.sum && CountOf(ds + [e]) == CountOf(ds) + e.aggregate.count
  {
    assert (ds + [e])[..|ds|] == ds;
  }

  lemma StandsForMore(d: Delta, ds: seq<Delta>, e: Delta)
    requires StandsFor(d, ds) && d.aggregate.Kind() == e.aggregate.Kind()
    requires d.aggregate.Distribution? ==> |d.aggregate.bins| == |e.aggregate.bins|
    ensures StandsFor(MergeDeltas(d, e), ds + [e])
  {
    SumsMore(ds, e);
    LastTraceMore(ds, e, d.trace);
    if !d.aggregate.Counter? { ExtremesMore(ds, e, d.aggregate.min, d.aggregate.max); }
    if d.aggregate.Distribution? { BinsMore(ds, e, d.aggregate.bins); }
    hide Extremes, LastTrace, BinsAddUp, SumOf, CountOf, MergeBins, Least, Greatest;
    assert (ds + [e])[|ds|] == e;
  }

  lemma ForMore(bs: seq<Batch>, b: Batch, k: Key)
    ensures For(bs + [b], k) == For(bs, k) + if k in b.deltas then [b.deltas[k]] else []
    ensures SourcesOf(bs + [b]) == SourcesOf(bs) + b.sources && DiscardedOf(bs + [b]) == DiscardedOf(bs) + b.discarded
  {
    assert (bs + [b])[..|bs|] == bs;
  }

  /** One more batch, for one key. */
  lemma StandsMore(total: Batch, ds: seq<Delta>, b: Batch, bins: nat, k: Key)
    requires Stands(total.deltas, k, ds)
    requires total.Valid() && SameBins(total, bins) && b.Valid() && SameBins(b, bins)
    ensures Stands(Merge(total, b).deltas, k, ds + if k in b.deltas then [b.deltas[k]] else [])
  {
    if k !in b.deltas {
      assert ds + [] == ds;
    } else if k !in total.deltas {
      assert ds + [b.deltas[k]] == [b.deltas[k]];
      OneStandsForItself(b.deltas[k]);
    } else {
      StandsForMore(total.deltas[k], ds, b.deltas[k]);
    }
    hide StandsFor, MergeDeltas;
  }

  lemma TotalsMore(total: Batch, bs: seq<Batch>, b: Batch, bins: nat)
    requires Totals(total, bs) && total.Valid() && SameBins(total, bins) && b.Valid() && SameBins(b, bins)
    ensures Totals(Merge(total, b), bs + [b])
  {
    ForMore(bs, b, Key(0, CounterKind, 0));
    hide Stands, For, SourcesOf, DiscardedOf, Batch.Valid, SameBins;
    forall k ensures Stands(Merge(total, b).deltas, k, For(bs + [b], k)) {
      hide Merge;
      ForMore(bs, b, k);
      StandsMore(total, For(bs, k), b, bins, k);
    }
  }

  /** The merge of any batches, in terms of their deltas alone: sums and clipped counts, extremes that are attained,
      the last value, time and trace, and bins that add up. */
  lemma {:induction false} MergeAllTotals(bs: seq<Batch>, bins: nat)
    requires AllValid(bs, bins)
    ensures Totals(MergeAll(bs), bs)
  {
    if bs == [] {
      assert forall k :: For(bs, k) == [];
    } else {
      var rest, last := bs[..|bs| - 1], bs[|bs| - 1];
      assert bs == rest + [last];
      MergeAllTotals(rest, bins);
      MergeAllIsValid(rest, bins);
      MergeAllMore(rest, last);
      hide Merge, MergeAll, Totals;
      TotalsMore(MergeAll(rest), rest, last, bins);
    }
  }
}
