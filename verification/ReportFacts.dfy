/** What each number of the report counts, told by the records of the log. */
module ReportFacts {
  import opened Types
  import opened Log
  import opened Counting
  import opened Report

  // ---------- What is counted ----------

  /** The modes of decision that the report tells apart; what the agent does is also started. */
  datatype Where = Anywhere | Started | ByAgent | Previewed | Old

  predicate In(where_: Where, mode: Option<Mode>) {
    match where_
    case Anywhere => true
    case Started => mode == Some(Launched) || mode == Some(Agent)
    case ByAgent => mode == Some(Agent)
    case Previewed => mode == Some(Preview)
    case Old => mode == None || mode == Some(OtherMode)
  }

  /** What a decision record says. */
  datatype Fact =
    | Anything | FellBack | WasDowngraded | Generic | KeptNative
    | Classified | RanClassifier | FailedClassifier
    | OfFamily(family: ModelFamily) | AtEffort(effort: ReasoningLevel) | From(source: RouteSource)
    | Took(micros: nat)

  predicate Says(d: DecisionRecord, fact: Fact) {
    match fact
    case Anything => true
    case FellBack => d.facts.fallbackCatalog
    case WasDowngraded => d.facts.downgraded
    case Generic =>
      && d.source != NativePreserved && d.facts.noMatchedRules
      && d.facts.dimensions == Dimensions(1, 1, 1, 0, 1, 1, 0)
      && !(d.facts.schemaVersion < 2 && d.facts.classifierRan && d.facts.classifierSucceeded)
    case KeptNative => d.source == NativePreserved
    case Classified => d.facts.schemaVersion < 2
    case RanClassifier => d.facts.schemaVersion < 2 && d.facts.classifierRan
    case FailedClassifier => d.facts.schemaVersion < 2 && d.facts.classifierRan && !d.facts.classifierSucceeded
    case OfFamily(family) => d.family == family
    case AtEffort(effort) => d.effort == effort
    case From(source) => d.source == source
    case Took(micros) => d.facts.schemaVersion >= 2 && d.facts.elapsedMicros == micros > 0
  }

  /** The lines that record a decision of this mode that says this. */
  function Decided(where_: Where, fact: Fact): Line -> bool {
    (line: Line) => line.DecisionLine? && In(where_, line.decision.mode) && Says(line.decision, fact)
  }

  lemma CountedAs(lines: seq<Line>, counted: Line -> bool, where_: Where, fact: Fact)
    requires forall line :: counted(line) == Decided(where_, fact)(line)
    ensures Count(lines, counted) == Count(lines, Decided(where_, fact))
  {
    CountSame(lines, counted, Decided(where_, fact));
  }

  /** Counting lines is counting their positions. */
  lemma {:induction false} CountIsPositions(lines: seq<Line>, accept: Line -> bool)
    ensures Count(lines, accept) == |set i: nat | i < |lines| && accept(lines[i])|
  {
    var here := set i: nat | i < |lines| && accept(lines[i]);
    if lines != [] {
      var front, last := lines[..|lines| - 1], |lines| - 1;
      CountIsPositions(front, accept);
      var before := set i: nat | i < |front| && accept(front[i]);
      assert here == if accept(lines[last]) then before + {last} else before;
    }
  }

  // ---------- Totals and sums ----------

  lemma ModesAreTold(mode: Option<Mode>)
    ensures In(Old, mode) <==> !In(Previewed, mode) && !In(Started, mode)
  {
    if mode.Some? {
      match mode.value
      case Preview =>
      case Launched =>
      case Agent =>
      case OtherMode =>
    }
  }

  /** How many decisions there are of each mode; a missing mode, or one no longer written, is legacy. */
  lemma TotalsAreExact(lines: seq<Line>)
    ensures var t := HistoryOf(lines).totals;
      && t.all == Count(lines, Decided(Anywhere, Anything)) && t.launched == Count(lines, Decided(Started, Anything))
      && t.agents == Count(lines, Decided(ByAgent, Anything))
      && t.previews == Count(lines, Decided(Previewed, Anything)) && t.legacies == Count(lines, Decided(Old, Anything))
  {
    CountedAs(lines, IsDecision, Anywhere, Anything);
    CountedAs(lines, IsLaunched, Started, Anything);
    CountedAs(lines, IsAgent, ByAgent, Anything);
    CountedAs(lines, IsPreview, Previewed, Anything);
    forall line: Line ensures IsLegacy(line) == Decided(Old, Anything)(line) {
      if line.DecisionLine? { ModesAreTold(line.decision.mode); }
    }
    CountedAs(lines, IsLegacy, Old, Anything);
  }

  function StartedConfidence(line: Line): nat {
    if line.DecisionLine? && In(Started, line.decision.mode) then line.decision.facts.confidence else 0
  }

  /** Fallbacks, downgrades and generic decisions among what was started, and native routes the agent kept. */
  lemma SumsAreExact(lines: seq<Line>)
    ensures var s := HistoryOf(lines).sums;
      && s.fallbacks == Count(lines, Decided(Started, FellBack))
      && s.downgrades == Count(lines, Decided(Started, WasDowngraded))
      && s.unresolved == Count(lines, Decided(Started, Generic))
      && s.nativeAgents == Count(lines, Decided(ByAgent, KeptNative))
      && s.confidence == Total(lines, StartedConfidence)
  {
    CountedAs(lines, UsedFallback, Started, FellBack);
    CountedAs(lines, Downgraded, Started, WasDowngraded);
    CountedAs(lines, Unresolved, Started, Generic);
    CountedAs(lines, NativeAgent, ByAgent, KeptNative);
    SameTotal(lines, Confidence, StartedConfidence);
  }

  lemma {:induction false} SameTotal(lines: seq<Line>, a: Line -> nat, b: Line -> nat)
    requires forall line :: a(line) == b(line)
    ensures Total(lines, a) == Total(lines, b)
  {
    if lines != [] { SameTotal(lines[..|lines| - 1], a, b); }
  }

  /** The classifier is counted in records of the first schema only. */
  lemma ClassifierIsExact(lines: seq<Line>)
    ensures var c := HistoryOf(lines).classifier;
      && c.samples == Count(lines, Decided(Started, Classified))
      && c.runs == Count(lines, Decided(Started, RanClassifier))
      && c.failures == Count(lines, Decided(Started, FailedClassifier))
  {
    CountedAs(lines, ClassifierSample, Started, Classified);
    CountedAs(lines, ClassifierRun, Started, RanClassifier);
    CountedAs(lines, ClassifierFailure, Started, FailedClassifier);
  }

  // ---------- Distributions ----------

  function Multiplicity<K(==)>(keys: Line -> seq<K>, k: K): Line -> nat { (line: Line) => multiset(keys(line))[k] }

  lemma {:induction false} KeysAddUp<K>(lines: seq<Line>, keys: Line -> seq<K>, k: K)
    ensures At(Distribution(lines, keys), k) == Total(lines, Multiplicity(keys, k))
    ensures multiset(Collected(lines, keys))[k] == Total(lines, Multiplicity(keys, k))
  {
    if lines != [] {
      KeysAddUp(lines[..|lines| - 1], keys, k);
      IncrementAllCounts(Distribution(lines[..|lines| - 1], keys), keys(lines[|lines| - 1]), k);
    }
  }

  /** Every line has at most one key, and the key is `k` exactly on the accepted lines. */
  ghost predicate KeyMarks<K>(keys: Line -> seq<K>, k: K, accept: Line -> bool) {
    forall line :: |keys(line)| <= 1 && (keys(line) == [k] <==> accept(line))
  }

  /** Then the counter of the key is the number of accepted lines. */
  lemma KeyIsCounted<K>(lines: seq<Line>, keys: Line -> seq<K>, k: K, accept: Line -> bool)
    requires KeyMarks(keys, k, accept)
    ensures At(Distribution(lines, keys), k) == Count(lines, accept)
    ensures multiset(Collected(lines, keys))[k] == Count(lines, accept)
  {
    forall line: Line ensures Multiplicity(keys, k)(line) == if accept(line) then 1 else 0 {
      assert |keys(line)| <= 1 && (keys(line) == [k] <==> accept(line));
      if |keys(line)| == 1 { assert keys(line) == [keys(line)[0]]; }
    }
    KeysAddUp(lines, keys, k);
    TotalIsCount(lines, Multiplicity(keys, k), accept);
  }

  lemma FamilyIsCounted(lines: seq<Line>, family: ModelFamily)
    ensures At(Distribution(lines, LaunchedFamily), family) == Count(lines, Decided(Started, OfFamily(family)))
  {
    KeyIsCounted(lines, LaunchedFamily, family, Decided(Started, OfFamily(family)));
  }

  lemma EffortIsCounted(lines: seq<Line>, effort: ReasoningLevel)
    ensures At(Distribution(lines, LaunchedEffort), effort) == Count(lines, Decided(Started, AtEffort(effort)))
  {
    KeyIsCounted(lines, LaunchedEffort, effort, Decided(Started, AtEffort(effort)));
  }

  lemma SourceIsCounted(lines: seq<Line>, source: RouteSource)
    ensures At(Distribution(lines, LaunchedSource), source) == Count(lines, Decided(Started, From(source)))
  {
    KeyIsCounted(lines, LaunchedSource, source, Decided(Started, From(source)));
  }

  /** How often each family, effort and source was started. */
  lemma SharesAreExact(lines: seq<Line>, family: ModelFamily, effort: ReasoningLevel, source: RouteSource)
    ensures var s := HistoryOf(lines).shares;
      && At(s.families, family) == Count(lines, Decided(Started, OfFamily(family)))
      && At(s.efforts, effort) == Count(lines, Decided(Started, AtEffort(effort)))
      && At(s.sources, source) == Count(lines, Decided(Started, From(source)))
  {
    FamilyIsCounted(lines, family);
    EffortIsCounted(lines, effort);
    SourceIsCounted(lines, source);
  }

  /** The lines that record a decision of this mode for this family and effort. */
  function Routed(where_: Where, family: ModelFamily, effort: ReasoningLevel): Line -> bool {
    (line: Line) => line.DecisionLine? && In(where_, line.decision.mode)
      && line.decision.family == family && line.decision.effort == effort
  }

  lemma RouteIsCounted(lines: seq<Line>, accept: Line -> bool, where_: Where, family: ModelFamily,
                       effort: ReasoningLevel)
    requires forall line :: accept(line) == Decided(where_, Anything)(line)
    ensures At(Distribution(lines, RouteWhere(accept)), (family, effort))
         == Count(lines, Routed(where_, family, effort))
  {
    forall line: Line
      ensures var keys := RouteWhere(accept)(line);
        |keys| <= 1 && (keys == [(family, effort)] <==> Routed(where_, family, effort)(line))
    {
      assert accept(line) == Decided(where_, Anything)(line);
      if accept(line) {
        var key := (line.decision.family, line.decision.effort);
        assert RouteWhere(accept)(line) == [key];
        assert [key] == [(family, effort)] <==> key == (family, effort) by { assert [key][0] == key; }
      }
    }
    KeyIsCounted(lines, RouteWhere(accept), (family, effort), Routed(where_, family, effort));
  }

  /** How often each route was started, taken by the agent, previewed or taken in a legacy mode. */
  lemma RoutesAreExact(lines: seq<Line>, family: ModelFamily, effort: ReasoningLevel)
    ensures var r := HistoryOf(lines).routes;
      && At(r.launched, (family, effort)) == Count(lines, Routed(Started, family, effort))
      && At(r.agent, (family, effort)) == Count(lines, Routed(ByAgent, family, effort))
      && At(r.preview, (family, effort)) == Count(lines, Routed(Previewed, family, effort))
      && At(r.legacy, (family, effort)) == Count(lines, Routed(Old, family, effort))
  {
    RouteIsCounted(lines, IsLaunched, Started, family, effort);
    RouteIsCounted(lines, IsAgent, ByAgent, family, effort);
    RouteIsCounted(lines, IsPreview, Previewed, family, effort);
    forall line: Line ensures IsLegacy(line) == Decided(Old, Anything)(line) {
      if line.DecisionLine? { ModesAreTold(line.decision.mode); }
    }
    RouteIsCounted(lines, IsLegacy, Old, family, effort);
  }

  function RaisedBy(id: string): Line -> nat {
    (line: Line) => if Decided(Started, Anything)(line) then multiset(line.decision.facts.raising)[id] else 0
  }

  function LoweredBy(id: string): Line -> nat {
    (line: Line) => if Decided(Started, Anything)(line) then multiset(line.decision.facts.lowering)[id] else 0
  }

  lemma RulesOfLine(line: Line, id: string)
    ensures multiset(RaisingRules(line))[id] == RaisedBy(id)(line)
    ensures multiset(LoweringRules(line))[id] == LoweredBy(id)(line)
  {
    assert IsLaunched(line) == Decided(Started, Anything)(line);
    var none: seq<string> := [];
    assert multiset(none)[id] == 0;
  }

  /** Each rule is counted as often as the records of what was started name it, raising and lowering apart. */
  lemma RulesAreExact(lines: seq<Line>, id: string)
    ensures var rules := HistoryOf(lines).rules;
      && At(rules.raising, id) == Total(lines, RaisedBy(id)) && At(rules.lowering, id) == Total(lines, LoweredBy(id))
  {
    KeysAddUp(lines, RaisingRules, id);
    KeysAddUp(lines, LoweringRules, id);
    forall line: Line { RulesOfLine(line, id); }
    SameTotal(lines, Multiplicity(RaisingRules, id), RaisedBy(id));
    SameTotal(lines, Multiplicity(LoweringRules, id), LoweredBy(id));
  }

  /** Latencies are sampled from what was started under a later schema, and a latency of zero is none. */
  lemma LatenciesAreExact(lines: seq<Line>, micros: nat)
    ensures multiset(HistoryOf(lines).sums.latencies)[micros] == Count(lines, Decided(Started, Took(micros)))
  {
    KeyIsCounted(lines, LatencySample, micros, Decided(Started, Took(micros)));
  }

  function OfKind(kind: Kind): Line -> bool { (line: Line) => line.FeedbackLine? && line.feedback.kind == Some(kind) }

  function FromSource(source: Option<FeedbackSource>): Line -> bool {
    (line: Line) => line.FeedbackLine? && line.feedback.kind.Some? && line.feedback.source == source
  }

  /** Events with a kind are counted by kind and by source, joined or not. */
  lemma EventsAreExact(lines: seq<Line>, kind: Kind, source: Option<FeedbackSource>)
    ensures var f := HistoryOf(lines).feedback;
      At(f.kinds, kind) == Count(lines, OfKind(kind)) && At(f.sources, source) == Count(lines, FromSource(source))
  {
    KeyIsCounted(lines, FeedbackKind, kind, OfKind(kind));
    KeyIsCounted(lines, SourceOfFeedback, source, FromSource(source));
  }

  // ---------- Feedback by route ----------

  predicate Decides(line: Line, id: string) { line.DecisionLine? && line.decision.id == id }

  /** The last decision of this identifier before position `end`. */
  predicate LastDecision(lines: seq<Line>, id: string, at: nat, end: nat) {
    at < end <= |lines| && Decides(lines[at], id) && forall k | at < k < end :: !Decides(lines[k], id)
  }

  lemma {:induction false} RoutesAreLast(lines: seq<Line>, id: string, end: nat, at: nat)
    requires end <= |lines| && LastDecision(lines, id, at, end)
    ensures id in RoutesIn(lines[..end])
    ensures RoutesIn(lines[..end])[id] == (lines[at].decision.family, lines[at].decision.effort)
    decreases end
  {
    assert lines[..end][..end - 1] == lines[..end - 1];
    if at < end - 1 { RoutesAreLast(lines, id, end - 1, at); }
  }

  lemma {:induction false} RoutesHaveDecisions(lines: seq<Line>, id: string, end: nat)
    requires end <= |lines| && id in RoutesIn(lines[..end])
    ensures exists at: nat :: LastDecision(lines, id, at, end)
    decreases end
  {
    assert lines[..end][..end - 1] == lines[..end - 1];
    if Decides(lines[end - 1], id) {
      assert LastDecision(lines, id, end - 1, end);
    } else {
      RoutesHaveDecisions(lines, id, end - 1);
      var at: nat :| LastDecision(lines, id, at, end - 1);
      assert LastDecision(lines, id, at, end);
    }
  }

  /** An event of this kind, for a decision that last went this route before it. */
  ghost predicate EventUnder(lines: seq<Line>, i: nat, route: Route, kind: Kind) {
    && i < |lines| && lines[i].FeedbackLine? && lines[i].feedback.kind == Some(kind)
    && lines[i].feedback.decisionId.Some?
    && exists at: nat :: LastDecision(lines, lines[i].feedback.decisionId.value, at, i)
                    && (lines[at].decision.family, lines[at].decision.effort) == route
  }

  /** The numbers below a limit that a test accepts. */
  ghost function Below(n: nat, accept: nat -> bool): set<nat> { set i: nat | i < n && accept(i) }

  lemma BelowGrows(n: nat, accept: nat -> bool)
    ensures |Below(n + 1, accept)| == |Below(n, accept)| + if accept(n) then 1 else 0
  {
    assert Below(n + 1, accept) == if accept(n) then Below(n, accept) + {n} else Below(n, accept);
  }

  ghost function EventsUnder(lines: seq<Line>, n: nat, route: Route, kind: Kind): set<nat> {
    Below(n, (i: nat) => EventUnder(lines, i, route, kind))
  }

  lemma EventIsJoined(lines: seq<Line>, i: nat, route: Route, kind: Kind)
    requires i < |lines|
    ensures EventUnder(lines, i, route, kind) <==>
      lines[i].FeedbackLine? && lines[i].feedback.kind == Some(kind)
      && JoinedRoute(RoutesIn(lines[..i]), lines[i].feedback) == Some(route)
  {
    if lines[i].FeedbackLine? && lines[i].feedback.decisionId.Some? {
      var id := lines[i].feedback.decisionId.value;
      if id in RoutesIn(lines[..i]) {
        RoutesHaveDecisions(lines, id, i);
        var at: nat :| LastDecision(lines, id, at, i);
        RoutesAreLast(lines, id, i, at);
        assert forall other: nat | LastDecision(lines, id, other, i) :: other == at;
      } else if at: nat :| LastDecision(lines, id, at, i) {
        RoutesAreLast(lines, id, i, at);
      }
    }
  }

  lemma JoinCountsOne(m: map<Route, map<Kind, nat>>, routes: map<string, Route>, line: Line, route: Route, kind: Kind)
    ensures At(KindsAt(CountJoined(m, routes, line), route), kind)
         == At(KindsAt(m, route), kind)
            + if line.FeedbackLine? && line.feedback.kind == Some(kind)
                 && JoinedRoute(routes, line.feedback) == Some(route) then 1 else 0
  {
  }

  /** Each event is counted under the route that its decision last went before the event, and nowhere else. */
  lemma {:induction false} EventsAreCountedByRoute(lines: seq<Line>, n: nat, route: Route, kind: Kind)
    requires n <= |lines|
    ensures At(KindsAt(FeedbackByRoute(lines[..n]), route), kind) == |EventsUnder(lines, n, route, kind)|
    decreases n
  {
    if n > 0 {
      var front := lines[..n - 1];
      assert lines[..n][..n - 1] == front;
      EventsAreCountedByRoute(lines, n - 1, route, kind);
      EventIsJoined(lines, n - 1, route, kind);
      JoinCountsOne(FeedbackByRoute(front), RoutesIn(front), lines[n - 1], route, kind);
      BelowGrows(n - 1, (i: nat) => EventUnder(lines, i, route, kind));
    }
  }
}
