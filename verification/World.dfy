/**
 * Any number of agents and launches sharing one decision log and one calibration file. Deriving or
 * resetting a calibration is split into its load, analyse and write steps, which other processes may
 * interleave, overwriting each other's results.
 */
module World {
  import opened Types
  import opened Agent
  import opened Tuning
  import opened Log
  import Json

  /** Where a process stands in deriving a calibration. */
  datatype Phase =
    | Idle
    | MustLoad(repo: string)
    | MustErase(repo: string)
    | MustAnalyze(repo: string, loaded: map<string, Applied>)
    | MustWrite(changed: map<string, Applied>)

  datatype Process = Process(cfg: Config, router: Router, phase: Phase)

  datatype World = World(processes: seq<Process>, log: seq<Line>, store: map<string, Applied>)

  const EMPTY_WORLD := World([], [], map[])

  datatype Action =
    | Start(cfg: Config)
    | Message(i: nat, e: Event)
    | Load(i: nat)
    | Analyze(i: nat)
    | Write(i: nat)
    | GiveUp(i: nat)
    | Launch(record: DecisionRecord)
    | Garble
    | Tune(cfg: Config, repo: string)
    | Reset(cfg: Config, repo: string)
    | Erase(i: nat)

  predicate Fresh(log: seq<Line>, id: string) {
    forall l | l in log :: l.DecisionLine? ==> l.decision.id != id
  }

  /** When an action can happen; decision identifiers are assumed fresh, and feedback is never given by hand. */
  predicate Enabled(w: World, a: Action) {
    match a
    case Message(i, e) =>
      && i < |w.processes| && w.processes[i].phase.Idle?
      && (e.env.decisionId.Some? ==> Fresh(w.log, e.env.decisionId.value))
    case Load(i) => i < |w.processes| && w.processes[i].phase.MustLoad?
    case Analyze(i) => i < |w.processes| && w.processes[i].phase.MustAnalyze?
    case Write(i) => i < |w.processes| && w.processes[i].phase.MustWrite?
    case Erase(i) => i < |w.processes| && w.processes[i].phase.MustErase?
    case GiveUp(i) => i < |w.processes|
    case Launch(record) => Fresh(w.log, record.id)
    case _ => true
  }

  function WithPhase(w: World, i: nat, phase: Phase): World
    requires i < |w.processes|
  {
    w.(processes := w.processes[i := w.processes[i].(phase := phase)])
  }

  function Apply(w: World, a: Action): World
    requires Enabled(w, a)
  {
    match a
    case Start(cfg) => w.(processes := w.processes + [Process(cfg, IDLE, Idle)])
    case Message(i, e) =>
      var p := w.processes[i];
      var effect := Handle(p.cfg, p.router, e);
      var phase := if effect.calibrate.Some? then MustLoad(effect.calibrate.value) else Idle;
      w.(processes := w.processes[i := Process(p.cfg, effect.router, phase)], log := w.log + effect.lines)
    case Load(i) => WithPhase(w, i, MustAnalyze(w.processes[i].phase.repo, w.store))
    case Analyze(i) =>
      var MustAnalyze(repo, loaded) := w.processes[i].phase;
      var changed := Saved(loaded, TuningOf(repo, CountsFor(w.log, repo), loaded));
      WithPhase(w, i, if changed == loaded then Idle else MustWrite(changed))
    case Write(i) => WithPhase(w, i, Idle).(store := w.processes[i].phase.changed)
    case GiveUp(i) => WithPhase(w, i, Idle)
    case Launch(record) => w.(log := w.log + [DecisionLine(record)])
    case Garble => w.(log := w.log + [OtherLine])
    case Tune(cfg, repo) => w.(processes := w.processes + [Process(cfg, IDLE, MustLoad(repo))])
    case Reset(cfg, repo) => w.(processes := w.processes + [Process(cfg, IDLE, MustErase(repo))])
    case Erase(i) =>
      var changed := w.store - {w.processes[i].phase.repo};
      WithPhase(w, i, if changed == w.store then Idle else MustWrite(changed))
  }

  /** The actions form a run from this world. */
  predicate IsRun(w: World, actions: seq<Action>)
    decreases |actions|
  {
    actions == [] || (Enabled(w, actions[0]) && IsRun(Apply(w, actions[0]), actions[1..]))
  }

  function After(w: World, actions: seq<Action>): World
    requires IsRun(w, actions)
    decreases |actions|
  {
    if actions == [] then w else After(Apply(w, actions[0]), actions[1..])
  }

  // ---------- What a saved calibration rests on ----------

  function EventFor(id: string): Line -> bool {
    (line: Line) => line.FeedbackLine? && line.feedback.decisionId == Some(id)
  }

  /** No decision has received more than one feedback event. */
  ghost predicate OneEventPerDecision(log: seq<Line>) {
    forall id :: Count(log, EventFor(id)) <= 1
  }

  /** A logged decision of the repository, neither preview nor native-preserved, with an event of this kind. */
  ghost predicate DecidedAs(log: seq<Line>, repo: string, id: string, kind: Kind) {
    exists d, f :: DecidedBy(log, repo, id, kind, d, f)
  }

  ghost predicate DecidedBy(log: seq<Line>, repo: string, id: string, kind: Kind,
                            d: DecisionRecord, f: FeedbackRecord)
  {
    && DecisionLine(d) in log && d.id == id && d.repo == repo && d.mode != Some(Preview) && !d.source.NativePreserved?
    && FeedbackLine(f) in log && f.decisionId == Some(id) && f.kind == Some(kind)
  }

  ghost predicate EligibleDecision(log: seq<Line>, repo: string, id: string) {
    DecidedAs(log, repo, id, Right) || DecidedAs(log, repo, id, Underpowered) || DecidedAs(log, repo, id, Overkill)
  }

  function DirectionOf(a: Applied): Kind { if a.offset > 0 then Underpowered else Overkill }

  /**
   * The offset is plus or minus five; at least three distinct decisions of the repository point the
   * calibration's way, and they are at least 70% of all its eligible decisions.
   */
  ghost predicate Backing(log: seq<Line>, repo: string, a: Applied, pointing: set<string>, eligible: set<string>) {
    && (forall id :: id in pointing <==> DecidedAs(log, repo, id, DirectionOf(a)))
    && (forall id :: id in eligible <==> EligibleDecision(log, repo, id))
    && (a.offset == OFFSET || a.offset == -OFFSET)
    && |pointing| >= 3
    && |pointing| * 10 >= |eligible| * 7
  }

  ghost predicate BackedAt(log: seq<Line>, repo: string, a: Applied) {
    exists pointing: set<string>, eligible: set<string> :: Backing(log, repo, a, pointing, eligible)
  }

  /** The calibration was backed by the log as it stood when the calibration was derived. */
  ghost predicate Backed(log: seq<Line>, repo: string, a: Applied) {
    exists n: nat | n <= |log| :: BackedAt(log[..n], repo, a)
  }

  ghost predicate AllBacked(log: seq<Line>, store: map<string, Applied>) {
    forall repo | repo in store :: Backed(log, repo, store[repo])
  }

  lemma BackedStays(log: seq<Line>, more: seq<Line>, store: map<string, Applied>)
    requires AllBacked(log, store)
    ensures AllBacked(log + more, store)
  {
    forall repo | repo in store ensures Backed(log + more, repo, store[repo]) {
      var n: nat :| n <= |log| && BackedAt(log[..n], repo, store[repo]);
      assert (log + more)[..n] == log[..n];
    }
  }

  // ---------- Counting events is counting decisions ----------

  /** Decisions named by the feedback lines that a predicate accepts. */
  function Named(log: seq<Line>, accept: Line -> bool): set<string> {
    set l | l in log && accept(l) && l.FeedbackLine? && l.feedback.decisionId.Some? :: l.feedback.decisionId.value
  }

  lemma {:induction false} EventsAreDecisions(log: seq<Line>, accept: Line -> bool)
    requires OneEventPerDecision(log)
    requires forall l | l in log && accept(l) :: l.FeedbackLine? && l.feedback.decisionId.Some?
    ensures Count(log, accept) == |Named(log, accept)|
  {
    if log != [] {
      var front, last := log[..|log| - 1], log[|log| - 1];
      assert log == front + [last];
      forall id ensures Count(front, EventFor(id)) <= 1 {
      }
      EventsAreDecisions(front, accept);
      if accept(last) {
        var id := last.feedback.decisionId.value;
        if id in Named(front, accept) {
          var l :| l in front && accept(l) && l.feedback.decisionId.value == id;
          CountPositive(front, l, EventFor(id));
          assert false;
        }
        assert Named(log, accept) == Named(front, accept) + {id};
      } else {
        assert Named(log, accept) == Named(front, accept);
      }
    }
  }

  function EligibleIn(decisions: map<string, DecisionInfo>, repo: string): Line -> bool {
    (line: Line) =>
      ClassOf(line, decisions) in
        [Some((repo, CountsAs(Right))), Some((repo, CountsAs(Underpowered))), Some((repo, CountsAs(Overkill)))]
  }

  lemma {:induction false} EligibleCounts(log: seq<Line>, decisions: map<string, DecisionInfo>, repo: string)
    ensures Count(log, EligibleIn(decisions, repo)) == TallyOf(log, decisions, repo).Eligible()
  {
    if log != [] { EligibleCounts(log[..|log| - 1], decisions, repo); }
  }

  /** The join accepts a line for a kind exactly when the line names a decision of that kind. */
  lemma JoinedMeansDecided(log: seq<Line>, repo: string, kind: Kind, id: string)
    requires UniqueIds(log) && !kind.OtherKind?
    ensures id in Named(log, InClass(DecisionsIn(log), repo, CountsAs(kind))) <==> DecidedAs(log, repo, id, kind)
  {
    var accept := InClass(DecisionsIn(log), repo, CountsAs(kind));
    if id in Named(log, accept) {
      var l :| l in log && accept(l) && l.feedback.decisionId == Some(id);
      EntriesComeFromRecords(log, id);
      var d :| DecisionLine(d) in log && d.id == id && DecisionsIn(log)[id] == InfoOf(d);
      assert DecidedBy(log, repo, id, kind, d, l.feedback);
    }
    if DecidedAs(log, repo, id, kind) {
      var d, f :| DecidedBy(log, repo, id, kind, d, f);
      DecisionsAreRecords(log, d);
      assert accept(FeedbackLine(f));
    }
  }

  /** A recommendation derived from a log with unique decisions and one event per decision is backed by it. */
  lemma RecommendationIsBacked(log: seq<Line>, repo: string, a: Applied)
    requires UniqueIds(log) && OneEventPerDecision(log)
    requires Recommend(CountsFor(log, repo)).proposed == Some(a.offset)
    ensures BackedAt(log, repo, a)
  {
    var decisions := DecisionsIn(log);
    var way := InClass(decisions, repo, CountsAs(DirectionOf(a)));
    var pointing, eligible := Named(log, way), Named(log, EligibleIn(decisions, repo));
    EventsAreDecisions(log, way);
    EventsAreDecisions(log, EligibleIn(decisions, repo));
    EligibleCounts(log, decisions, repo);
    NamedDecisions(log, repo, DirectionOf(a));
    assert Backing(log, repo, a, pointing, eligible);
  }

  /**
   * Conversely, whatever is backed by the decisions of a log is recommended: three distinct decisions
   * pointing one way, 70% of the eligible ones, are enough.
   */
  lemma BackingIsRecommended(log: seq<Line>, repo: string, a: Applied)
    requires UniqueIds(log) && OneEventPerDecision(log) && BackedAt(log, repo, a)
    ensures Recommend(CountsFor(log, repo)).proposed == Some(a.offset)
  {
    var pointing: set<string>, eligible: set<string> :| Backing(log, repo, a, pointing, eligible);
    var decisions := DecisionsIn(log);
    var way := InClass(decisions, repo, CountsAs(DirectionOf(a)));
    EventsAreDecisions(log, way);
    EventsAreDecisions(log, EligibleIn(decisions, repo));
    EligibleCounts(log, decisions, repo);
    NamedDecisions(log, repo, DirectionOf(a));
    assert pointing == Named(log, way);
    assert eligible == Named(log, EligibleIn(decisions, repo));
    ThresholdsExclude(CountsFor(log, repo));
  }

  lemma NamedDecisions(log: seq<Line>, repo: string, kind: Kind)
    requires UniqueIds(log) && !kind.OtherKind?
    ensures forall id ::
      id in Named(log, InClass(DecisionsIn(log), repo, CountsAs(kind))) <==> DecidedAs(log, repo, id, kind)
    ensures forall id :: id in Named(log, EligibleIn(DecisionsIn(log), repo)) <==> EligibleDecision(log, repo, id)
  {
    forall id
      ensures id in Named(log, InClass(DecisionsIn(log), repo, CountsAs(kind))) <==> DecidedAs(log, repo, id, kind)
    {
      JoinedMeansDecided(log, repo, kind, id);
    }
    forall id ensures id in Named(log, EligibleIn(DecisionsIn(log), repo)) <==> EligibleDecision(log, repo, id) {
      JoinedMeansDecided(log, repo, Right, id);
      JoinedMeansDecided(log, repo, Underpowered, id);
      JoinedMeansDecided(log, repo, Overkill, id);
      EligibleIsOneOfThree(log, DecisionsIn(log), repo, id);
    }
  }

  lemma EligibleIsOneOfThree(log: seq<Line>, decisions: map<string, DecisionInfo>, repo: string, id: string)
    ensures id in Named(log, EligibleIn(decisions, repo)) <==>
      || id in Named(log, InClass(decisions, repo, CountsAs(Right)))
      || id in Named(log, InClass(decisions, repo, CountsAs(Underpowered)))
      || id in Named(log, InClass(decisions, repo, CountsAs(Overkill)))
  {
  }

  // ---------- Why feedback given by hand is left out ----------

  lemma SameEventThrice(d: DecisionRecord, event: Line)
    requires event == FeedbackLine(FeedbackRecord(Some(d.id), Some(Overkill), Some(Manual)))
    requires !InfoOf(d).preview && !InfoOf(d).native
    ensures CountsFor([DecisionLine(d), event, event, event], d.repo) == NOTHING.(overkill := 3)
  {
    var log := [DecisionLine(d), event, event, event];
    var decisions := map[d.id := InfoOf(d)];
    assert DecisionsIn(log[..1]) == decisions by { assert log[..1][..0] == []; }
    assert log[..2][..1] == log[..1] && log[..3][..2] == log[..2] && log[..4][..3] == log[..3] && log[..4] == log;
    assert DecisionsIn(log[..2]) == decisions;
    assert DecisionsIn(log[..3]) == decisions;
    assert DecisionsIn(log) == decisions;
    assert log[..1] == [] + [DecisionLine(d)] && log[..2] == log[..1] + [event];
    assert log[..3] == log[..2] + [event] && log == log[..3] + [event];
    TallyStep([], DecisionLine(d), decisions, d.repo);
    TallyStep(log[..1], event, decisions, d.repo);
    TallyStep(log[..2], event, decisions, d.repo);
    TallyStep(log[..3], event, decisions, d.repo);
  }

  /** Three events given by hand for the same decision recommend a calibration that only one decision backs. */
  lemma RepeatedEventsAreNotBacking(d: DecisionRecord, a: Applied)
    requires !InfoOf(d).preview && !InfoOf(d).native && a.offset == -OFFSET
    ensures var event := FeedbackLine(FeedbackRecord(Some(d.id), Some(Overkill), Some(Manual)));
      var log := [DecisionLine(d), event, event, event];
      Recommend(CountsFor(log, d.repo)).proposed == Some(a.offset) && !BackedAt(log, d.repo, a)
  {
    var event := FeedbackLine(FeedbackRecord(Some(d.id), Some(Overkill), Some(Manual)));
    var log := [DecisionLine(d), event, event, event];
    SameEventThrice(d, event);
    if pointing: set<string>, eligible: set<string> :| Backing(log, d.repo, a, pointing, eligible) {
      forall id | id in pointing ensures id in {d.id} {
        var e, f :| DecidedBy(log, d.repo, id, Overkill, e, f);
        assert FeedbackLine(f) in log;
      }
      SubsetSize(pointing, {d.id});
      assert false;
    }
  }

  lemma SubsetSize<T>(small: set<T>, large: set<T>)
    requires small <= large
    ensures |small| <= |large|
  {
    assert large == small + (large - small);
  }
}
