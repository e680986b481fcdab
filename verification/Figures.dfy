/** The figures derived from the counters of the report, and what the report conserves. */
module Figures {
  import opened Types
  import opened Log
  import opened Counting
  import opened Report
  import Score

  // ---------- Conservation ----------

  lemma {:induction false} ModesPartition(lines: seq<Line>)
    ensures var t := TotalsOf(lines);
      t.all == t.launched + t.previews + t.legacies && t.agents <= t.launched
  {
    if lines != [] { ModesPartition(lines[..|lines| - 1]); }
  }

  lemma RoutesSum(lines: seq<Line>, accept: Line -> bool)
    requires forall line :: accept(line) ==> line.DecisionLine?
    ensures SumOf(Distribution(lines, RouteWhere(accept))) == Count(lines, accept)
  {
    DistributionConserves(lines, RouteWhere(accept));
    TotalIsCount(lines, SizeOf(RouteWhere(accept)), accept);
  }

  lemma LaunchedSum<K(!new)>(lines: seq<Line>, keys: Line -> seq<K>)
    requires forall line :: |keys(line)| == if IsLaunched(line) then 1 else 0
    ensures SumOf(Distribution(lines, keys)) == Count(lines, IsLaunched)
  {
    DistributionConserves(lines, keys);
    TotalIsCount(lines, SizeOf(keys), IsLaunched);
  }

  /**
   * The report conserves decisions: they are launched, preview or legacy; every distribution over
   * launched decisions sums to their number, and the agent's routes to that of the agent's, which are
   * among them.
   */
  lemma ReportConserves(lines: seq<Line>)
    ensures var h := HistoryOf(lines);
      && h.totals.all == h.totals.launched + h.totals.previews + h.totals.legacies
      && h.totals.agents <= h.totals.launched
      && SumOf(h.routes.launched) == h.totals.launched
      && SumOf(h.routes.agent) == h.totals.agents
      && SumOf(h.routes.preview) == h.totals.previews
      && SumOf(h.routes.legacy) == h.totals.legacies
      && SumOf(h.shares.families) == h.totals.launched
      && SumOf(h.shares.efforts) == h.totals.launched
      && SumOf(h.shares.sources) == h.totals.launched
  {
    ModesPartition(lines);
    RoutesSum(lines, IsLaunched);
    RoutesSum(lines, IsAgent);
    RoutesSum(lines, IsPreview);
    RoutesSum(lines, IsLegacy);
    LaunchedSum(lines, LaunchedFamily);
    LaunchedSum(lines, LaunchedEffort);
    LaunchedSum(lines, LaunchedSource);
  }

  /** Events are counted once by kind and once by source. */
  lemma EventsConserve(lines: seq<Line>)
    ensures var f := FeedbackOf(lines); SumOf(f.kinds) == SumOf(f.sources)
  {
    DistributionConserves(lines, FeedbackKind);
    DistributionConserves(lines, SourceOfFeedback);
    SameTotals(lines, SizeOf(FeedbackKind), SizeOf(SourceOfFeedback));
  }

  lemma {:induction false} SameTotals<T(!new)>(items: seq<T>, a: T -> nat, b: T -> nat)
    requires forall t :: a(t) == b(t)
    ensures Total(items, a) == Total(items, b)
  {
    if items != [] { SameTotals(items[..|items| - 1], a, b); }
  }

  // ---------- Feedback by route ----------

  function Column(m: map<Route, map<Kind, nat>>, kind: Kind): map<Route, nat> {
    map route | route in m :: At(m[route], kind)
  }

  /** Events of a kind that name no decision logged before them. */
  function Unjoined(lines: seq<Line>, kind: Kind): nat {
    if lines == [] then 0
    else
      var front, last := lines[..|lines| - 1], lines[|lines| - 1];
      Unjoined(front, kind)
      + if FeedbackKind(last) == [kind] && JoinedRoute(RoutesIn(front), last.feedback).None? then 1 else 0
  }

  /** One more event under a route moves that route's column entry exactly when it is of the column's kind. */
  lemma CountedColumn(m: map<Route, map<Kind, nat>>, route: Route, given: Kind, kind: Kind)
    ensures SumOf(Column(m[route := Increment(KindsAt(m, route), given)], kind))
         == SumOf(Column(m, kind)) + if given == kind then 1 else 0
  {
    var before := Column(m, kind);
    var counted := At(Increment(KindsAt(m, route), given), kind);
    SumReplaced(before, route, counted);
    assert Column(m[route := Increment(KindsAt(m, route), given)], kind) == before[route := counted];
    assert At(before, route) == At(KindsAt(m, route), kind);
  }

  lemma JoinedColumn(m: map<Route, map<Kind, nat>>, routes: map<string, Route>, line: Line, kind: Kind)
    ensures SumOf(Column(CountJoined(m, routes, line), kind))
         == SumOf(Column(m, kind))
            + if FeedbackKind(line) == [kind] && JoinedRoute(routes, line.feedback).Some? then 1 else 0
  {
    if line.FeedbackLine? && line.feedback.kind.Some? && JoinedRoute(routes, line.feedback).Some? {
      CountedColumn(m, JoinedRoute(routes, line.feedback).value, line.feedback.kind.value, kind);
    }
  }

  /** For each kind, the events under routes are those of the distribution that name an earlier decision. */
  lemma {:induction false} FeedbackByRouteConserves(lines: seq<Line>, kind: Kind)
    ensures var f := FeedbackOf(lines); SumOf(Column(f.byRoute, kind)) + Unjoined(lines, kind) == At(f.kinds, kind)
  {
    if lines == [] {
      assert Column(map[], kind) == map[];
    } else {
      var front, last := lines[..|lines| - 1], lines[|lines| - 1];
      FeedbackByRouteConserves(front, kind);
      JoinedColumn(FeedbackByRoute(front), RoutesIn(front), last, kind);
      assert lines == front + [last];
      OneMore(front, last, FeedbackKind);
    }
  }

  // ---------- Rates ----------

  /** A rounded rate in basis points; zero over zero is zero. */
  function Rate(numerator: nat, denominator: nat): nat {
    if denominator == 0 then 0
    else
      var rounded := Score.Rounded(numerator * 10000, denominator);
      if rounded > 10000 then 10000 else rounded
  }

  /** The rate is the share rounded to the nearest basis point: the clamp never bites. */
  predicate IsShare(rate: nat, numerator: nat, denominator: nat) {
    && numerator <= denominator
    && (denominator == 0 ==> rate == 0)
    && 2 * AbsDiff(rate * denominator, numerator * 10000) <= denominator
  }

  lemma RateIsNearest(numerator: nat, denominator: nat)
    requires numerator <= denominator
    ensures IsShare(Rate(numerator, denominator), numerator, denominator)
  {
    if denominator > 0 {
      Score.RoundedIsNearest(numerator * 10000, denominator, 10000);
    }
  }

  datatype Rates = Rates(native: nat, unresolved: nat, invoked: nat, failed: nat, fallback: nat, downgraded: nat)

  function RatesOf(h: History): Rates {
    Rates(
      Rate(h.sums.nativeAgents, h.totals.agents),
      Rate(h.sums.unresolved, h.totals.launched),
      Rate(h.classifier.runs, h.classifier.samples),
      Rate(h.classifier.failures, h.classifier.runs),
      Rate(h.sums.fallbacks, h.totals.launched),
      Rate(h.sums.downgrades, h.totals.launched))
  }

  lemma PartsAreCounted(lines: seq<Line>)
    ensures var h := HistoryOf(lines);
      && h.sums.nativeAgents <= h.totals.agents
      && h.sums.unresolved <= h.totals.launched
      && h.classifier.failures <= h.classifier.runs <= h.classifier.samples <= h.totals.launched
      && h.sums.fallbacks <= h.totals.launched
      && h.sums.downgrades <= h.totals.launched
  {
    CountMonotone(lines, IsAgent, NativeAgent);
    CountMonotone(lines, IsLaunched, Unresolved);
    CountMonotone(lines, ClassifierRun, ClassifierFailure);
    CountMonotone(lines, ClassifierSample, ClassifierRun);
    CountMonotone(lines, IsLaunched, ClassifierSample);
    CountMonotone(lines, IsLaunched, UsedFallback);
    CountMonotone(lines, IsLaunched, Downgraded);
  }

  /** Every reported rate is a share, of one log, of what it is taken of. */
  lemma RatesAreShares(lines: seq<Line>)
    ensures var h, r := HistoryOf(lines), RatesOf(HistoryOf(lines));
      && IsShare(r.native, h.sums.nativeAgents, h.totals.agents)
      && IsShare(r.unresolved, h.sums.unresolved, h.totals.launched)
      && IsShare(r.invoked, h.classifier.runs, h.classifier.samples)
      && IsShare(r.failed, h.classifier.failures, h.classifier.runs)
      && IsShare(r.fallback, h.sums.fallbacks, h.totals.launched)
      && IsShare(r.downgraded, h.sums.downgrades, h.totals.launched)
  {
    var h := HistoryOf(lines);
    PartsAreCounted(lines);
    RateIsNearest(h.sums.nativeAgents, h.totals.agents);
    RateIsNearest(h.sums.unresolved, h.totals.launched);
    RateIsNearest(h.classifier.runs, h.classifier.samples);
    RateIsNearest(h.classifier.failures, h.classifier.runs);
    RateIsNearest(h.sums.fallbacks, h.totals.launched);
    RateIsNearest(h.sums.downgrades, h.totals.launched);
  }

  // ---------- Latency ----------

  datatype Latency = Latency(samples: nat, p50: nat, p95: nat, max: nat)

  function AtMost(): (nat, nat) -> bool { (a, b) => a <= b }

  /** Position of a percentile among sorted samples. */
  function Rank(n: nat, percent: nat): nat
    requires n > 0 && 1 <= percent <= 100
  {
    (n * percent + 99) / 100 - 1
  }

  lemma RankInRange(n: nat, percent: nat)
    requires n > 0 && 1 <= percent <= 100
    ensures Rank(n, percent) < n
    ensures (Rank(n, percent) + 1) * 100 >= n * percent > Rank(n, percent) * 100
  {
  }

  /** The last of the sorted samples is the largest, and sorting loses none. */
  lemma LastIsLargest(samples: seq<nat>)
    requires samples != []
    ensures var sorted := Sorted(samples, AtMost());
      && |sorted| == |samples|
      && sorted[|sorted| - 1] in samples
      && forall x | x in samples :: x <= sorted[|sorted| - 1]
  {
    var sorted := Sorted(samples, AtMost());
    SortedIsPermutation(samples, AtMost());
    forall x | x in samples ensures x <= sorted[|sorted| - 1] {
      assert x in multiset(sorted);
    }
    assert sorted[|sorted| - 1] in multiset(sorted);
  }

  /** The two percentiles and the maximum stand in this order among the sorted samples. */
  lemma PercentilesAreOrdered(samples: seq<nat>)
    requires samples != [] && |Sorted(samples, AtMost())| == |samples|
    ensures Rank(|samples|, 50) <= Rank(|samples|, 95) < |samples|
    ensures var sorted := Sorted(samples, AtMost());
      sorted[Rank(|samples|, 50)] <= sorted[Rank(|samples|, 95)] <= sorted[|samples| - 1]
  {
    SortedIsPermutation(samples, AtMost());
    RankInRange(|samples|, 50);
    RankInRange(|samples|, 95);
  }

  method LatencySummary(samples: seq<nat>) returns (latency: Latency)
    ensures samples == [] ==> latency == Latency(0, 0, 0, 0)
    ensures samples != [] ==>
      && latency.samples == |samples|
      && NearestRank(samples, 50, latency.p50)
      && NearestRank(samples, 95, latency.p95)
      && latency.max in samples && (forall x | x in samples :: x <= latency.max)
      && latency.p50 <= latency.p95 <= latency.max
  {
    if samples == [] {
      return Latency(0, 0, 0, 0);
    }
    var sorted := Sorted(samples, AtMost());
    LastIsLargest(samples);
    PercentilesAreOrdered(samples);
    PercentileIsNearestRank(samples, 50);
    PercentileIsNearestRank(samples, 95);
    latency := Latency(|sorted|, sorted[Rank(|sorted|, 50)], sorted[Rank(|sorted|, 95)], sorted[|sorted| - 1]);
  }

  /** A sample that at least this share of the samples does not exceed, and fewer than it stay below. */
  predicate NearestRank(samples: seq<nat>, percent: nat, v: nat) {
    && v in samples
    && Count(samples, (x: nat) => x <= v) * 100 >= |samples| * percent
    && Count(samples, (x: nat) => x < v) * 100 < |samples| * percent
  }

  lemma {:induction false} CountAll<T>(xs: seq<T>, accept: T -> bool)
    requires forall x | x in xs :: accept(x)
    ensures Count(xs, accept) == |xs|
  {
    if xs != [] { CountAll(xs[..|xs| - 1], accept); }
  }

  lemma {:induction false} CountAtMostLength<T>(xs: seq<T>, accept: T -> bool)
    ensures Count(xs, accept) <= |xs|
  {
    if xs != [] { CountAtMostLength(xs[..|xs| - 1], accept); }
  }

  lemma PercentileIsNearestRank(samples: seq<nat>, percent: nat)
    requires samples != [] && 1 <= percent <= 100
    requires |Sorted(samples, AtMost())| == |samples| && Rank(|samples|, percent) < |samples|
    ensures NearestRank(samples, percent, Sorted(samples, AtMost())[Rank(|samples|, percent)])
  {
    SortedIsPermutation(samples, AtMost());
    var sorted, rank := Sorted(samples, AtMost()), Rank(|samples|, percent);
    assert sorted[rank] in multiset(sorted);
    ReachesPercentile(samples, sorted, rank);
    BelowPercentile(samples, sorted, rank);
    RankInRange(|samples|, percent);
  }

  lemma ReachesPercentile(samples: seq<nat>, sorted: seq<nat>, rank: nat)
    requires multiset(samples) == multiset(sorted) && SortedBy(sorted, AtMost()) && rank < |sorted|
    ensures Count(samples, (x: nat) => x <= sorted[rank]) >= rank + 1
  {
    var low, high := sorted[..rank + 1], sorted[rank + 1..];
    assert sorted == low + high;
    CountPermutes(samples, sorted, (x: nat) => x <= sorted[rank]);
    CountConcat(low, high, (x: nat) => x <= sorted[rank]);
    CountAll(low, (x: nat) => x <= sorted[rank]);
  }

  lemma BelowPercentile(samples: seq<nat>, sorted: seq<nat>, rank: nat)
    requires multiset(samples) == multiset(sorted) && SortedBy(sorted, AtMost()) && rank < |sorted|
    ensures Count(samples, (x: nat) => x < sorted[rank]) <= rank
  {
    var below, rest := sorted[..rank], sorted[rank..];
    assert sorted == below + rest;
    CountPermutes(samples, sorted, (x: nat) => x < sorted[rank]);
    CountConcat(below, rest, (x: nat) => x < sorted[rank]);
    CountAtMostLength(below, (x: nat) => x < sorted[rank]);
    CountNone(rest, (x: nat) => x < sorted[rank]);
  }

  // ---------- Top rules ----------

  /** Lexicographic order of identifiers. */
  predicate Precedes(a: string, b: string) {
    if a == [] then true
    else if b == [] then false
    else if a[0] != b[0] then a[0] < b[0]
    else Precedes(a[1..], b[1..])
  }

  lemma {:induction false} PrecedesIsTotal(a: string, b: string)
    ensures Precedes(a, b) || Precedes(b, a)
  {
    if a != [] && b != [] && a[0] == b[0] { PrecedesIsTotal(a[1..], b[1..]); }
  }

  lemma {:induction false} PrecedesIsTransitive(a: string, b: string, c: string)
    requires Precedes(a, b) && Precedes(b, c)
    ensures Precedes(a, c)
  {
    if a != [] && a[0] == b[0] == c[0] { PrecedesIsTransitive(a[1..], b[1..], c[1..]); }
  }

  type Entry = (string, nat)

  /** More frequent first, then by identifier. */
  function Outranks(): (Entry, Entry) -> bool {
    (a: Entry, b: Entry) => a.1 > b.1 || (a.1 == b.1 && Precedes(a.0, b.0))
  }

  lemma OutranksIsTotal()
    ensures TotalOrder(Outranks())
  {
    forall a: Entry, b: Entry ensures Outranks()(a, b) || Outranks()(b, a) {
      PrecedesIsTotal(a.0, b.0);
    }
    forall a: Entry, b: Entry, c: Entry | Outranks()(a, b) && Outranks()(b, c) ensures Outranks()(a, c) {
      if a.1 == b.1 == c.1 { PrecedesIsTransitive(a.0, b.0, c.0); }
    }
  }

  /** The ten most frequent rules: no rule that is left out outranks one that is kept. */
  method TopRules(counts: map<string, nat>) returns (top: seq<Entry>)
    ensures |top| == if |counts| < 10 then |counts| else 10
    ensures SortedBy(top, Outranks())
    ensures forall e | e in top :: e.0 in counts && counts[e.0] == e.1
    ensures forall i, j | 0 <= i < j < |top| :: top[i].0 != top[j].0
    ensures forall id, e | id in counts && (id, counts[id]) !in top && e in top :: Outranks()(e, (id, counts[id]))
  {
    var entries := EntriesOf(counts);
    var sorted := Sorted(entries, Outranks());
    OutranksIsTotal();
    SortedIsPermutation(entries, Outranks());
    DistinctStaysDistinct(entries, sorted);
    SameElements(entries, sorted);
    top := if |sorted| < 10 then sorted else sorted[..10];
    forall id, e | id in counts && (id, counts[id]) !in top && e in top ensures Outranks()(e, (id, counts[id])) {
      DroppedIsOutranked(sorted, |top|, e, (id, counts[id]));
    }
  }

  lemma SameElements(xs: seq<Entry>, ys: seq<Entry>)
    requires multiset(xs) == multiset(ys)
    ensures forall e :: e in xs <==> e in ys
  {
    assert forall e :: e in xs <==> e in multiset(xs);
    assert forall e :: e in ys <==> e in multiset(ys);
  }

  lemma DroppedIsOutranked(sorted: seq<Entry>, kept: nat, e: Entry, dropped: Entry)
    requires SortedBy(sorted, Outranks()) && kept <= |sorted|
    requires e in sorted[..kept] && dropped in sorted && dropped !in sorted[..kept]
    ensures Outranks()(e, dropped)
  {
    var i :| 0 <= i < kept && sorted[..kept][i] == e;
    assert sorted == sorted[..kept] + sorted[kept..];
    var j :| 0 <= j < |sorted| - kept && sorted[kept..][j] == dropped;
    assert sorted[kept + j] == dropped;
  }

  predicate DistinctIds(entries: seq<Entry>) {
    forall i, j | 0 <= i < j < |entries| :: entries[i].0 != entries[j].0
  }

  method EntriesOf(counts: map<string, nat>) returns (entries: seq<Entry>)
    ensures |entries| == |counts| && DistinctIds(entries)
    ensures forall e | e in entries :: e.0 in counts && counts[e.0] == e.1
    ensures forall id | id in counts :: (id, counts[id]) in entries
  {
    entries := [];
    var rest := counts.Keys;
    while rest != {}
      invariant rest <= counts.Keys && |entries| + |rest| == |counts|
      invariant DistinctIds(entries)
      invariant forall e | e in entries :: e.0 in counts && counts[e.0] == e.1 && e.0 !in rest
      invariant forall id | id in counts && id !in rest :: (id, counts[id]) in entries
    {
      var id :| id in rest;
      rest := rest - {id};
      entries := entries + [(id, counts[id])];
    }
  }

  /** A permutation of entries with distinct identifiers has distinct identifiers too. */
  lemma DistinctStaysDistinct(entries: seq<Entry>, shuffled: seq<Entry>)
    requires DistinctIds(entries) && multiset(entries) == multiset(shuffled)
    ensures DistinctIds(shuffled)
  {
    SameElements(entries, shuffled);
    forall i, j | 0 <= i < j < |shuffled| ensures shuffled[i].0 != shuffled[j].0 {
      CountIsOne(entries, shuffled[i]);
      assert shuffled[i] in entries && shuffled[j] in entries;
      if shuffled[i] == shuffled[j] {
        TwiceInMultiset(shuffled, i, j);
      } else {
        var a :| 0 <= a < |entries| && entries[a] == shuffled[i];
        var b :| 0 <= b < |entries| && entries[b] == shuffled[j];
        assert a != b;
      }
    }
  }

  lemma TwiceInMultiset(xs: seq<Entry>, i: nat, j: nat)
    requires i < j < |xs| && xs[i] == xs[j]
    ensures multiset(xs)[xs[i]] >= 2
  {
    assert xs == xs[..j] + xs[j..];
    assert xs[i] == xs[..j][i] && xs[j] == xs[j..][0];
    assert xs[i] in multiset(xs[..j]) && xs[i] in multiset(xs[j..]);
  }

  lemma {:induction false} CountIsOne(entries: seq<Entry>, e: Entry)
    requires DistinctIds(entries)
    ensures multiset(entries)[e] <= 1
  {
    if entries != [] {
      var front, last := entries[..|entries| - 1], entries[|entries| - 1];
      assert entries == front + [last];
      CountIsOne(front, e);
      if last == e {
        assert e !in front;
      }
    }
  }
}
