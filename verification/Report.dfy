/** The history report: one pass over the log into counters, and the figures derived from them. */
module Report {
  import opened Types
  import opened Log
  import opened Counting

  // ---------- What each line is counted as ----------

  type Route = (ModelFamily, ReasoningLevel)

  predicate IsDecision(line: Line) { line.DecisionLine? }

  predicate IsPreview(line: Line) { line.DecisionLine? && line.decision.mode == Some(Preview) }

  predicate IsAgent(line: Line) { line.DecisionLine? && line.decision.mode == Some(Agent) }

  predicate IsLaunched(line: Line) {
    line.DecisionLine? && (line.decision.mode == Some(Launched) || line.decision.mode == Some(Agent))
  }

  /** Records from before the mode was stored, and modes that nobody writes any more. */
  predicate IsLegacy(line: Line) { line.DecisionLine? && !IsPreview(line) && !IsLaunched(line) }

  function RouteOf(d: DecisionRecord): Route { (d.family, d.effort) }

  function RouteWhere(accept: Line -> bool): Line -> seq<Route> {
    (line: Line) => if accept(line) && line.DecisionLine? then [RouteOf(line.decision)] else []
  }

  function LaunchedFamily(line: Line): seq<ModelFamily> { if IsLaunched(line) then [line.decision.family] else [] }

  function LaunchedEffort(line: Line): seq<ReasoningLevel> { if IsLaunched(line) then [line.decision.effort] else [] }

  function LaunchedSource(line: Line): seq<RouteSource> { if IsLaunched(line) then [line.decision.source] else [] }

  predicate NativeAgent(line: Line) { IsAgent(line) && line.decision.source.NativePreserved? }

  /** Nothing moved the decision off its generic baseline. */
  predicate Unresolved(line: Line) {
    && IsLaunched(line) && !line.decision.source.NativePreserved?
    && line.decision.facts.noMatchedRules && line.decision.facts.dimensions == DEFAULT_DIMENSIONS
    && (line.decision.facts.schemaVersion >= 2 || !line.decision.facts.classifierRan
        || !line.decision.facts.classifierSucceeded)
  }

  function Confidence(line: Line): nat { if IsLaunched(line) then line.decision.facts.confidence else 0 }

  predicate ClassifierSample(line: Line) { IsLaunched(line) && line.decision.facts.schemaVersion <= 1 }

  predicate ClassifierRun(line: Line) { ClassifierSample(line) && line.decision.facts.classifierRan }

  predicate ClassifierFailure(line: Line) { ClassifierRun(line) && !line.decision.facts.classifierSucceeded }

  function LatencySample(line: Line): seq<nat> {
    if IsLaunched(line) && line.decision.facts.schemaVersion >= 2 && line.decision.facts.elapsedMicros > 0
    then [line.decision.facts.elapsedMicros] else []
  }

  predicate UsedFallback(line: Line) { IsLaunched(line) && line.decision.facts.fallbackCatalog }

  predicate Downgraded(line: Line) { IsLaunched(line) && line.decision.facts.downgraded }

  function RaisingRules(line: Line): seq<string> { if IsLaunched(line) then line.decision.facts.raising else [] }

  function LoweringRules(line: Line): seq<string> { if IsLaunched(line) then line.decision.facts.lowering else [] }

  function FeedbackKind(line: Line): seq<Kind> {
    if line.FeedbackLine? && line.feedback.kind.Some? then [line.feedback.kind.value] else []
  }

  /** None stands for events from before the source was stored. */
  function SourceOfFeedback(line: Line): seq<Option<FeedbackSource>> {
    if line.FeedbackLine? && line.feedback.kind.Some? then [line.feedback.source] else []
  }

  /** The route of each decision logged so far, the last record of an identifier winning. */
  function RoutesIn(lines: seq<Line>): map<string, Route> {
    if lines == [] then map[]
    else
      var earlier := RoutesIn(lines[..|lines| - 1]);
      match lines[|lines| - 1]
      case DecisionLine(d) => earlier[d.id := RouteOf(d)]
      case _ => earlier
  }

  /** The route an event is counted under: that of a decision logged before it. */
  function JoinedRoute(routes: map<string, Route>, f: FeedbackRecord): Option<Route> {
    if f.decisionId.Some? && f.decisionId.value in routes then Some(routes[f.decisionId.value]) else None
  }

  function KindsAt(m: map<Route, map<Kind, nat>>, route: Route): map<Kind, nat> {
    if route in m then m[route] else map[]
  }

  function CountJoined(m: map<Route, map<Kind, nat>>, routes: map<string, Route>, line: Line)
    : map<Route, map<Kind, nat>>
  {
    if line.FeedbackLine? && line.feedback.kind.Some? && JoinedRoute(routes, line.feedback).Some? then
      var route := JoinedRoute(routes, line.feedback).value;
      m[route := Increment(KindsAt(m, route), line.feedback.kind.value)]
    else m
  }

  function FeedbackByRoute(lines: seq<Line>): map<Route, map<Kind, nat>> {
    if lines == [] then map[]
    else CountJoined(FeedbackByRoute(lines[..|lines| - 1]), RoutesIn(lines[..|lines| - 1]), lines[|lines| - 1])
  }

  // ---------- The pass ----------

  datatype Totals = Totals(all: nat, launched: nat, agents: nat, previews: nat, legacies: nat)

  datatype Routes = Routes(
    launched: map<Route, nat>,
    agent: map<Route, nat>,
    preview: map<Route, nat>,
    legacy: map<Route, nat>)

  datatype Shares = Shares(
    families: map<ModelFamily, nat>,
    efforts: map<ReasoningLevel, nat>,
    sources: map<RouteSource, nat>)

  datatype Classifier = Classifier(samples: nat, runs: nat, failures: nat)

  datatype Sums = Sums(
    nativeAgents: nat,
    unresolved: nat,
    confidence: nat,
    fallbacks: nat,
    downgrades: nat,
    latencies: seq<nat>)

  datatype RuleCounts = RuleCounts(raising: map<string, nat>, lowering: map<string, nat>)

  datatype Feedback = Feedback(
    routes: map<string, Route>,
    kinds: map<Kind, nat>,
    sources: map<Option<FeedbackSource>, nat>,
    byRoute: map<Route, map<Kind, nat>>)

  /** Every counter of the report. */
  datatype History = History(
    totals: Totals,
    routes: Routes,
    shares: Shares,
    classifier: Classifier,
    sums: Sums,
    rules: RuleCounts,
    feedback: Feedback)

  function TotalsOf(lines: seq<Line>): Totals {
    Totals(Count(lines, IsDecision), Count(lines, IsLaunched), Count(lines, IsAgent),
           Count(lines, IsPreview), Count(lines, IsLegacy))
  }

  function RoutesOf(lines: seq<Line>): Routes {
    Routes(
      Distribution(lines, RouteWhere(IsLaunched)),
      Distribution(lines, RouteWhere(IsAgent)),
      Distribution(lines, RouteWhere(IsPreview)),
      Distribution(lines, RouteWhere(IsLegacy)))
  }

  function SharesOf(lines: seq<Line>): Shares {
    Shares(Distribution(lines, LaunchedFamily), Distribution(lines, LaunchedEffort),
        Distribution(lines, LaunchedSource))
  }

  function ClassifierOf(lines: seq<Line>): Classifier {
    Classifier(Count(lines, ClassifierSample), Count(lines, ClassifierRun), Count(lines, ClassifierFailure))
  }

  function SumsOf(lines: seq<Line>): Sums {
    Sums(Count(lines, NativeAgent), Count(lines, Unresolved), Total(lines, Confidence),
         Count(lines, UsedFallback), Count(lines, Downgraded), Collected(lines, LatencySample))
  }

  function RuleCountsOf(lines: seq<Line>): RuleCounts {
    RuleCounts(Distribution(lines, RaisingRules), Distribution(lines, LoweringRules))
  }

  function FeedbackOf(lines: seq<Line>): Feedback {
    Feedback(RoutesIn(lines), Distribution(lines, FeedbackKind),
             Distribution(lines, SourceOfFeedback), FeedbackByRoute(lines))
  }

  /** The report that counting each figure on its own would give. */
  function HistoryOf(lines: seq<Line>): History {
    History(TotalsOf(lines), RoutesOf(lines), SharesOf(lines), ClassifierOf(lines),
            SumsOf(lines), RuleCountsOf(lines), FeedbackOf(lines))
  }

  method AddTotals(before: Totals, d: DecisionRecord, ghost lines: seq<Line>) returns (after: Totals)
    requires before == TotalsOf(lines)
    ensures after == TotalsOf(lines + [DecisionLine(d)])
  {
    assert (lines + [DecisionLine(d)])[..|lines|] == lines;
    after := before.(all := before.all + 1);
    if d.mode == Some(Preview) {
      after := after.(previews := after.previews + 1);
    } else if d.mode != Some(Launched) && d.mode != Some(Agent) {
      after := after.(legacies := after.legacies + 1);
    } else {
      after := after.(launched := after.launched + 1);
      if d.mode == Some(Agent) {
        after := after.(agents := after.agents + 1);
      }
    }
  }

  lemma OneMoreRoute(lines: seq<Line>, d: DecisionRecord, accept: Line -> bool)
    ensures Distribution(lines + [DecisionLine(d)], RouteWhere(accept))
         == if accept(DecisionLine(d)) then Increment(Distribution(lines, RouteWhere(accept)), RouteOf(d))
            else Distribution(lines, RouteWhere(accept))
  {
    OneMore(lines, DecisionLine(d), RouteWhere(accept));
  }

  method AddRoute(before: Routes, d: DecisionRecord, ghost lines: seq<Line>) returns (after: Routes)
    requires before == RoutesOf(lines)
    ensures after == RoutesOf(lines + [DecisionLine(d)])
  {
    OneMoreRoute(lines, d, IsLaunched);
    OneMoreRoute(lines, d, IsAgent);
    OneMoreRoute(lines, d, IsPreview);
    OneMoreRoute(lines, d, IsLegacy);
    var route := RouteOf(d);
    after := before;
    if d.mode == Some(Preview) {
      after := after.(preview := Increment(after.preview, route));
    } else if d.mode != Some(Launched) && d.mode != Some(Agent) {
      after := after.(legacy := Increment(after.legacy, route));
    } else {
      if d.mode == Some(Agent) {
        after := after.(agent := Increment(after.agent, route));
      }
      after := after.(launched := Increment(after.launched, route));
    }
  }

  method AddShares(before: Shares, d: DecisionRecord, ghost lines: seq<Line>) returns (after: Shares)
    requires before == SharesOf(lines) && IsLaunched(DecisionLine(d))
    ensures after == SharesOf(lines + [DecisionLine(d)])
  {
    OneMore(lines, DecisionLine(d), LaunchedFamily);
    OneMore(lines, DecisionLine(d), LaunchedEffort);
    OneMore(lines, DecisionLine(d), LaunchedSource);
    after := Shares(Increment(before.families, d.family),
                    Increment(before.efforts, d.effort),
                    Increment(before.sources, d.source));
  }

  method AddClassifier(before: Classifier, d: DecisionRecord, ghost lines: seq<Line>) returns (after: Classifier)
    requires before == ClassifierOf(lines) && IsLaunched(DecisionLine(d))
    ensures after == ClassifierOf(lines + [DecisionLine(d)])
  {
    assert (lines + [DecisionLine(d)])[..|lines|] == lines;
    after := before;
    if d.facts.schemaVersion <= 1 {
      var ran, failed := d.facts.classifierRan, d.facts.classifierRan && !d.facts.classifierSucceeded;
      after := Classifier(before.samples + 1, before.runs + (if ran then 1 else 0),
                          before.failures + if failed then 1 else 0);
    }
  }

  method AddSums(before: Sums, d: DecisionRecord, ghost lines: seq<Line>) returns (after: Sums)
    requires before == SumsOf(lines) && IsLaunched(DecisionLine(d))
    ensures after == SumsOf(lines + [DecisionLine(d)])
  {
    assert (lines + [DecisionLine(d)])[..|lines|] == lines;
    var facts := d.facts;
    var native := d.mode == Some(Agent) && d.source.NativePreserved?;
    var generic := !d.source.NativePreserved? && facts.noMatchedRules && facts.dimensions == DEFAULT_DIMENSIONS
                   && (facts.schemaVersion >= 2 || !facts.classifierRan || !facts.classifierSucceeded);
    var latencies := before.latencies;
    if facts.schemaVersion >= 2 && facts.elapsedMicros > 0 {
      latencies := latencies + [facts.elapsedMicros];
    }
    after := Sums(
      before.nativeAgents + if native then 1 else 0,
      before.unresolved + if generic then 1 else 0,
      before.confidence + facts.confidence,
      before.fallbacks + if facts.fallbackCatalog then 1 else 0,
      before.downgrades + if facts.downgraded then 1 else 0,
      latencies);
  }

  method CountRules(before: map<string, nat>, rules: seq<string>) returns (counts: map<string, nat>)
    ensures counts == IncrementAll(before, rules)
  {
    counts := before;
    for i := 0 to |rules|
      invariant counts == IncrementAll(before, rules[..i])
    {
      assert rules[..i + 1][..i] == rules[..i];
      counts := Increment(counts, rules[i]);
    }
    assert rules[..|rules|] == rules;
  }

  method AddRules(before: RuleCounts, d: DecisionRecord, ghost lines: seq<Line>) returns (after: RuleCounts)
    requires before == RuleCountsOf(lines) && IsLaunched(DecisionLine(d))
    ensures after == RuleCountsOf(lines + [DecisionLine(d)])
  {
    assert (lines + [DecisionLine(d)])[..|lines|] == lines;
    var raising := CountRules(before.raising, d.facts.raising);
    var lowering := CountRules(before.lowering, d.facts.lowering);
    after := RuleCounts(raising, lowering);
  }

  method AddFeedback(before: Feedback, f: FeedbackRecord, ghost lines: seq<Line>) returns (after: Feedback)
    requires before == FeedbackOf(lines)
    ensures after == FeedbackOf(lines + [FeedbackLine(f)])
  {
    assert (lines + [FeedbackLine(f)])[..|lines|] == lines;
    OneMore(lines, FeedbackLine(f), FeedbackKind);
    OneMore(lines, FeedbackLine(f), SourceOfFeedback);
    after := before;
    if f.kind.Some? {
      var byRoute := before.byRoute;
      var route := JoinedRoute(before.routes, f);
      if route.Some? {
        byRoute := byRoute[route.value := Increment(KindsAt(byRoute, route.value), f.kind.value)];
      }
      after := Feedback(before.routes, Increment(before.kinds, f.kind.value), Increment(before.sources, f.source),
          byRoute);
    }
  }

  /** Lines that are no launched decision leave these counters alone; so do decisions the feedback's. */
  lemma NotLaunchedCountsNothing(lines: seq<Line>, line: Line)
    requires !IsLaunched(line)
    ensures SharesOf(lines + [line]) == SharesOf(lines) && ClassifierOf(lines + [line]) == ClassifierOf(lines)
    ensures SumsOf(lines + [line]) == SumsOf(lines) && RuleCountsOf(lines + [line]) == RuleCountsOf(lines)
  {
    assert (lines + [line])[..|lines|] == lines;
  }

  lemma NoDecisionCountsNothing(lines: seq<Line>, line: Line)
    requires !line.DecisionLine?
    ensures TotalsOf(lines + [line]) == TotalsOf(lines) && RoutesOf(lines + [line]) == RoutesOf(lines)
  {
    assert (lines + [line])[..|lines|] == lines;
  }

  lemma NoFeedbackCountsNothing(lines: seq<Line>, line: Line)
    requires !line.FeedbackLine?
    ensures var before, after := FeedbackOf(lines), FeedbackOf(lines + [line]);
      && after.kinds == before.kinds && after.sources == before.sources && after.byRoute == before.byRoute
      && after.routes == if line.DecisionLine? then before.routes[line.decision.id := RouteOf(line.decision)]
                         else before.routes
  {
    assert (lines + [line])[..|lines|] == lines;
  }

  method AddDecision(before: History, d: DecisionRecord, ghost lines: seq<Line>) returns (after: History)
    requires before == HistoryOf(lines)
    ensures after == HistoryOf(lines + [DecisionLine(d)])
  {
    var totals := AddTotals(before.totals, d, lines);
    var routes := AddRoute(before.routes, d, lines);
    var feedback := before.feedback.(routes := before.feedback.routes[d.id := RouteOf(d)]);
    NoFeedbackCountsNothing(lines, DecisionLine(d));
    if d.mode != Some(Launched) && d.mode != Some(Agent) {
      NotLaunchedCountsNothing(lines, DecisionLine(d));
      return History(totals, routes, before.shares, before.classifier, before.sums, before.rules, feedback);
    }
    var shares := AddShares(before.shares, d, lines);
    var classifier := AddClassifier(before.classifier, d, lines);
    var sums := AddSums(before.sums, d, lines);
    var rules := AddRules(before.rules, d, lines);
    after := History(totals, routes, shares, classifier, sums, rules, feedback);
  }

  /** One pass gives what counting each figure on its own would give. */
  method BuildReport(lines: seq<Line>) returns (h: History)
    ensures h == HistoryOf(lines)
  {
    h := HistoryOf([]);
    for i := 0 to |lines|
      invariant h == HistoryOf(lines[..i])
    {
      assert lines[..i + 1] == lines[..i] + [lines[i]];
      match lines[i]
      case DecisionLine(d) => h := AddDecision(h, d, lines[..i]);
      case FeedbackLine(f) =>
        NotLaunchedCountsNothing(lines[..i], lines[i]);
        NoDecisionCountsNothing(lines[..i], lines[i]);
        var feedback := AddFeedback(h.feedback, f, lines[..i]);
        h := h.(feedback := feedback);
      case OtherLine =>
        NotLaunchedCountsNothing(lines[..i], lines[i]);
        NoDecisionCountsNothing(lines[..i], lines[i]);
        NoFeedbackCountsNothing(lines[..i], lines[i]);
    }
    assert lines[..|lines|] == lines;
  }
}
