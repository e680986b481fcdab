/**
 * Safety of automatic calibration: whatever the interleaving of agents, launches, crashes and resets,
 * every calibration in the file is backed by distinct decisions of its own repository.
 */
module WorldSafety {
  import opened Types
  import opened Agent
  import opened AgentProperties
  import opened Tuning
  import opened Log
  import opened World
  import Json
  import AgentRouter

  // ---------- Which decision a thread still answers for ----------

  function HeldBy(p: Process, t: string): Option<string> { ThreadOf(p.router, t).decisionId }

  /** The thread may still log an event for the decision it holds. */
  predicate Awaits(p: Process, t: string) { HeldBy(p, t).Some? && !ThreadOf(p.router, t).feedbackRecorded }

  /** Every event names a logged decision. */
  predicate EventsNameDecisions(log: seq<Line>) {
    forall l | l in log && l.FeedbackLine? && l.feedback.decisionId.Some? :: !Fresh(log, l.feedback.decisionId.value)
  }

  /** Every held decision is logged and held by one thread only; one without its event is still awaited. */
  ghost predicate Books(ps: seq<Process>, log: seq<Line>) {
    && EventsNameDecisions(log)
    && (forall i, t | 0 <= i < |ps| && HeldBy(ps[i], t).Some? :: !Fresh(log, HeldBy(ps[i], t).value))
    && (forall i, t, j, u | 0 <= i < |ps| && 0 <= j < |ps|
                            && HeldBy(ps[i], t).Some? && HeldBy(ps[i], t) == HeldBy(ps[j], u) ::
          i == j && t == u)
    && (forall i, t | 0 <= i < |ps| && Awaits(ps[i], t) :: Count(log, EventFor(HeldBy(ps[i], t).value)) == 0)
  }

  /** Stores that a process has read or is about to write. */
  function InFlight(phase: Phase): map<string, Applied> {
    match phase
    case MustAnalyze(_, loaded) => loaded
    case MustWrite(changed) => changed
    case _ => map[]
  }

  ghost predicate Sound(w: World) {
    && UniqueIds(w.log)
    && OneEventPerDecision(w.log)
    && Books(w.processes, w.log)
    && AllBacked(w.log, w.store)
    && forall i | 0 <= i < |w.processes| :: AllBacked(w.log, InFlight(w.processes[i].phase))
  }

  // ---------- What one message does to the books of its process ----------

  /** The books of this thread are as before, or it now holds no decision. */
  predicate KeepsMark(p: Process, q: Process, t: string) {
    HeldBy(q, t).None? || (HeldBy(q, t) == HeldBy(p, t) && Awaits(q, t) == Awaits(p, t))
  }

  ghost predicate Quiet(p: Process, q: Process, lines: seq<Line>) {
    lines == [] && forall t :: KeepsMark(p, q, t)
  }

  /** The thread logged the one event of the decision it holds. */
  ghost predicate Records(p: Process, q: Process, lines: seq<Line>, t: string) {
    && Awaits(p, t) && HeldBy(q, t) == HeldBy(p, t) && !Awaits(q, t)
    && |lines| == 1 && lines[0].FeedbackLine? && lines[0].feedback.decisionId == HeldBy(p, t)
    && forall u | u != t :: KeepsMark(p, q, u)
  }

  /** The thread now holds the decision that was just logged. */
  ghost predicate Commits(p: Process, q: Process, lines: seq<Line>, t: string) {
    && |lines| == 1 && lines[0].DecisionLine? && HeldBy(q, t) == Some(lines[0].decision.id)
    && forall u | u != t :: KeepsMark(p, q, u)
  }

  /** The three things a message can do to the thread it addresses. */
  predicate MarkMoves(before: ThreadState, after: ThreadState, lines: seq<Line>) {
    || (lines == [] && (after.decisionId.None?
                        || (after.decisionId == before.decisionId
                            && after.feedbackRecorded == before.feedbackRecorded)))
    || (before.decisionId.Some? && !before.feedbackRecorded
        && after.feedbackRecorded && after.decisionId == before.decisionId
        && |lines| == 1 && lines[0].FeedbackLine? && lines[0].feedback.decisionId == before.decisionId)
    || (|lines| == 1 && lines[0].DecisionLine? && after.decisionId == Some(lines[0].decision.id)
        && !after.feedbackRecorded)
  }

  lemma TurnMovesMark(cfg: Config, r: Router, m: Json.Value, env: Env, t: string)
    requires ThreadIdOf(m) == Some(t) && Calls(m, "turn/start")
    ensures var effect := ClientMessage(cfg, r, m, env);
      && MarkMoves(ThreadOf(r, t), ThreadOf(effect.router, t), effect.lines)
      && (effect.lines == [] || effect.lines[0].FeedbackLine?)
  {
  }

  lemma ClientMovesMark(cfg: Config, r: Router, m: Json.Value, env: Env, t: string)
    requires ThreadIdOf(m) == Some(t)
    ensures var effect := ClientMessage(cfg, r, m, env);
      && MarkMoves(ThreadOf(r, t), ThreadOf(effect.router, t), effect.lines)
      && (effect.lines == [] || effect.lines[0].FeedbackLine?)
  {
    if Calls(m, "turn/start") {
      TurnMovesMark(cfg, r, m, env, t);
    }
  }

  lemma ServerMovesMark(r: Router, m: Json.Value, env: Env, t: string)
    requires AnswersFor(r, m) == Some(t)
    ensures var effect := ServerMessage(r, m, env);
      && MarkMoves(ThreadOf(r, t), ThreadOf(effect.router, t), effect.lines)
      && (effect.lines == [] || (effect.lines[0].DecisionLine? && env.decisionId == Some(effect.lines[0].decision.id)))
  {
  }

  /** A message moves at most the mark of the thread it addresses. */
  lemma HandlingKeepsItsOwnBooks(p: Process, e: Event, q: Process)
    requires q.router == Handle(p.cfg, p.router, e).router
    ensures var lines := Handle(p.cfg, p.router, e).lines;
      || Quiet(p, q, lines)
      || (exists t :: Records(p, q, lines, t))
      || (exists t :: Commits(p, q, lines, t) && e.env.decisionId == Some(lines[0].decision.id))
  {
    var lines := Handle(p.cfg, p.router, e).lines;
    var addressed := match e case Client(m, _) => ThreadIdOf(m) case Server(m, _) => AnswersFor(p.router, m);
    forall u | addressed != Some(u) ensures KeepsMark(p, q, u) {
      OtherThreadsUntouched(p.cfg, p.router, e, u);
    }
    match addressed
    case None => assert Quiet(p, q, lines);
    case Some(t) =>
      match e {
        case Client(m, env) => ClientMovesMark(p.cfg, p.router, m, env, t);
        case Server(m, env) => ServerMovesMark(p.router, m, env, t);
      }
      MovedMark(p, q, lines, t);
  }

  lemma MovedMark(p: Process, q: Process, lines: seq<Line>, t: string)
    requires MarkMoves(ThreadOf(p.router, t), ThreadOf(q.router, t), lines)
    requires forall u | u != t :: KeepsMark(p, q, u)
    ensures Quiet(p, q, lines) || Records(p, q, lines, t) || Commits(p, q, lines, t)
  {
    if lines == [] {
      assert forall u :: u != t ==> KeepsMark(p, q, u);
    }
  }

  // ---------- The books survive every log line ----------

  lemma CountOneMore(log: seq<Line>, line: Line, accept: Line -> bool)
    ensures Count(log + [line], accept) == Count(log, accept) + if accept(line) then 1 else 0
  {
    assert (log + [line])[..|log|] == log;
  }

  lemma LoggedStaysLogged(log: seq<Line>, line: Line, id: string)
    ensures Fresh(log + [line], id) <==> Fresh(log, id) && (line.DecisionLine? ==> line.decision.id != id)
  {
    assert forall l :: l in log + [line] <==> l in log || l == line;
  }

  /** A decision that is not logged yet has no event. */
  lemma FreshHasNoEvent(log: seq<Line>, id: string)
    requires EventsNameDecisions(log) && Fresh(log, id)
    ensures Count(log, EventFor(id)) == 0
  {
    CountNone(log, EventFor(id));
  }

  lemma QuietKeepsBooks(ps: seq<Process>, log: seq<Line>, i: nat, q: Process)
    requires Books(ps, log) && i < |ps| && forall t :: KeepsMark(ps[i], q, t)
    ensures Books(ps[i := q], log)
  {
    var after := ps[i := q];
    forall j, u | 0 <= j < |after| && HeldBy(after[j], u).Some?
      ensures HeldBy(after[j], u) == HeldBy(ps[j], u) && Awaits(after[j], u) == Awaits(ps[j], u)
    {
      assert KeepsMark(ps[i], q, u);
    }
  }

  lemma EventKeepsLogUnique(log: seq<Line>, line: Line)
    requires UniqueIds(log) && OneEventPerDecision(log) && EventsNameDecisions(log)
    requires line.DecisionLine? ==> Fresh(log, line.decision.id)
    requires line.FeedbackLine? && line.feedback.decisionId.Some? ==>
      && !Fresh(log, line.feedback.decisionId.value)
      && Count(log, EventFor(line.feedback.decisionId.value)) == 0
    ensures UniqueIds(log + [line]) && OneEventPerDecision(log + [line]) && EventsNameDecisions(log + [line])
  {
    forall id ensures Count(log + [line], HasId(id)) <= 1 {
      CountOneMore(log, line, HasId(id));
      if HasId(id)(line) { CountNone(log, HasId(id)); }
    }
    forall id ensures Count(log + [line], EventFor(id)) <= 1 {
      CountOneMore(log, line, EventFor(id));
    }
    forall l | l in log + [line] && l.FeedbackLine? && l.feedback.decisionId.Some?
      ensures !Fresh(log + [line], l.feedback.decisionId.value)
    {
      LoggedStaysLogged(log, line, l.feedback.decisionId.value);
    }
  }

  /** Recording an event closes the only thread that could have recorded it. */
  lemma RecordKeepsBooks(ps: seq<Process>, log: seq<Line>, i: nat, q: Process, lines: seq<Line>, t: string)
    requires Books(ps, log) && i < |ps| && Records(ps[i], q, lines, t)
    requires EventsNameDecisions(log + lines)
    ensures Books(ps[i := q], log + lines)
  {
    var line := lines[0];
    assert lines == [line];
    var after := ps[i := q];
    forall j, u | 0 <= j < |after| && HeldBy(after[j], u).Some? ensures HeldBy(after[j], u) == HeldBy(ps[j], u) {
      assert KeepsMark(ps[i], q, u) || u == t;
    }
    forall j, u | 0 <= j < |after| && HeldBy(after[j], u).Some? ensures !Fresh(log + lines, HeldBy(after[j], u).value) {
      LoggedStaysLogged(log, line, HeldBy(after[j], u).value);
    }
    forall j, u | 0 <= j < |after| && Awaits(after[j], u)
      ensures Count(log + lines, EventFor(HeldBy(after[j], u).value)) == 0
    {
      assert KeepsMark(ps[i], q, u) || u == t;
      CountOneMore(log, line, EventFor(HeldBy(after[j], u).value));
    }
  }

  /** A committed decision is new, so no other thread holds it and no event names it. */
  lemma CommitKeepsBooks(ps: seq<Process>, log: seq<Line>, i: nat, q: Process, lines: seq<Line>, t: string)
    requires Books(ps, log) && i < |ps| && Commits(ps[i], q, lines, t)
    requires Fresh(log, lines[0].decision.id) && EventsNameDecisions(log + lines)
    ensures Books(ps[i := q], log + lines)
  {
    var line := lines[0];
    assert lines == [line];
    var after := ps[i := q];
    forall j, u | 0 <= j < |after| && HeldBy(after[j], u).Some? && (j != i || u != t)
      ensures HeldBy(after[j], u) == HeldBy(ps[j], u) && HeldBy(ps[j], u).value != line.decision.id
      ensures Awaits(after[j], u) == Awaits(ps[j], u)
    {
      assert KeepsMark(ps[i], q, u) || u == t;
    }
    forall j, u | 0 <= j < |after| && HeldBy(after[j], u).Some? ensures !Fresh(log + lines, HeldBy(after[j], u).value) {
      LoggedStaysLogged(log, line, HeldBy(after[j], u).value);
    }
    forall j, u | 0 <= j < |after| && Awaits(after[j], u)
      ensures Count(log + lines, EventFor(HeldBy(after[j], u).value)) == 0
    {
      CountOneMore(log, line, EventFor(HeldBy(after[j], u).value));
      if j == i && u == t { FreshHasNoEvent(log, line.decision.id); }
    }
  }

  /** A line written by no agent: a launch's decision, or anything unreadable. */
  lemma ForeignLineKeepsBooks(ps: seq<Process>, log: seq<Line>, line: Line)
    requires Books(ps, log) && !line.FeedbackLine? && EventsNameDecisions(log + [line])
    ensures Books(ps, log + [line])
  {
    forall j, u | 0 <= j < |ps| && HeldBy(ps[j], u).Some? ensures !Fresh(log + [line], HeldBy(ps[j], u).value) {
      LoggedStaysLogged(log, line, HeldBy(ps[j], u).value);
    }
    forall j, u | 0 <= j < |ps| && Awaits(ps[j], u)
      ensures Count(log + [line], EventFor(HeldBy(ps[j], u).value)) == 0
    {
      CountOneMore(log, line, EventFor(HeldBy(ps[j], u).value));
    }
  }

  /** A process that has just started holds no decision. */
  lemma NewcomerKeepsBooks(ps: seq<Process>, log: seq<Line>, p: Process)
    requires Books(ps, log) && p.router == IDLE
    ensures Books(ps + [p], log)
  {
    assert forall t :: HeldBy(p, t).None?;
  }

  // ---------- Every action keeps the world sound ----------

  lemma InFlightStays(w: World, more: seq<Line>)
    requires Sound(w)
    ensures AllBacked(w.log + more, w.store)
    ensures forall i | 0 <= i < |w.processes| :: AllBacked(w.log + more, InFlight(w.processes[i].phase))
  {
    BackedStays(w.log, more, w.store);
    forall i | 0 <= i < |w.processes| ensures AllBacked(w.log + more, InFlight(w.processes[i].phase)) {
      BackedStays(w.log, more, InFlight(w.processes[i].phase));
    }
  }

  lemma MessageKeepsBooks(w: World, i: nat, e: Event)
    requires Sound(w) && Enabled(w, Message(i, e))
    ensures var after := Apply(w, Message(i, e));
      UniqueIds(after.log) && OneEventPerDecision(after.log) && Books(after.processes, after.log)
  {
    var p, q := w.processes[i], Apply(w, Message(i, e)).processes[i];
    var lines := Handle(p.cfg, p.router, e).lines;
    HandlingKeepsItsOwnBooks(p, e, q);
    if Quiet(p, q, lines) {
      QuietKeepsBooks(w.processes, w.log, i, q);
      assert w.log + lines == w.log;
    } else if t :| Records(p, q, lines, t) {
      assert lines == [lines[0]];
      EventKeepsLogUnique(w.log, lines[0]);
      RecordKeepsBooks(w.processes, w.log, i, q, lines, t);
    } else {
      var t :| Commits(p, q, lines, t) && e.env.decisionId == Some(lines[0].decision.id);
      assert lines == [lines[0]];
      EventKeepsLogUnique(w.log, lines[0]);
      CommitKeepsBooks(w.processes, w.log, i, q, lines, t);
    }
  }

  lemma MessageKeepsSound(w: World, i: nat, e: Event)
    requires Sound(w) && Enabled(w, Message(i, e))
    ensures Sound(Apply(w, Message(i, e)))
  {
    MessageKeepsBooks(w, i, e);
    InFlightStays(w, Handle(w.processes[i].cfg, w.processes[i].router, e).lines);
  }

  /** A changed phase touches no books. */
  lemma PhaseKeepsSound(w: World, i: nat, phase: Phase)
    requires Sound(w) && i < |w.processes| && AllBacked(w.log, InFlight(phase))
    ensures Sound(WithPhase(w, i, phase))
  {
    QuietKeepsBooks(w.processes, w.log, i, w.processes[i].(phase := phase));
  }

  /** What an analysis adds to the loaded calibrations is backed by the log it read. */
  lemma AnalysisIsBacked(log: seq<Line>, repo: string, loaded: map<string, Applied>)
    requires UniqueIds(log) && OneEventPerDecision(log) && AllBacked(log, loaded)
    ensures AllBacked(log, Saved(loaded, TuningOf(repo, CountsFor(log, repo), loaded)))
  {
    var counts := CountsFor(log, repo);
    var saved := Saved(loaded, TuningOf(repo, counts, loaded));
    forall r | r in saved ensures Backed(log, r, saved[r]) {
      if r == repo && saved != loaded {
        RecommendationIsBacked(log, repo, saved[repo]);
        assert log[..|log|] == log;
      } else {
        assert r in loaded && saved[r] == loaded[r];
      }
    }
  }

  lemma ForeignLineKeepsSound(w: World, line: Line)
    requires Sound(w) && !line.FeedbackLine? && (line.DecisionLine? ==> Fresh(w.log, line.decision.id))
    ensures Sound(w.(log := w.log + [line]))
  {
    EventKeepsLogUnique(w.log, line);
    ForeignLineKeepsBooks(w.processes, w.log, line);
    InFlightStays(w, [line]);
  }

  lemma NewcomerKeepsSound(w: World, p: Process)
    requires Sound(w) && p.router == IDLE && InFlight(p.phase) == map[]
    ensures Sound(w.(processes := w.processes + [p]))
  {
    NewcomerKeepsBooks(w.processes, w.log, p);
  }

  lemma AnalyzeKeepsSound(w: World, i: nat)
    requires Sound(w) && Enabled(w, Analyze(i))
    ensures Sound(Apply(w, Analyze(i)))
  {
    var MustAnalyze(repo, loaded) := w.processes[i].phase;
    AnalysisIsBacked(w.log, repo, loaded);
    var changed := Saved(loaded, TuningOf(repo, CountsFor(w.log, repo), loaded));
    PhaseKeepsSound(w, i, if changed == loaded then Idle else MustWrite(changed));
  }

  lemma EraseKeepsSound(w: World, i: nat)
    requires Sound(w) && Enabled(w, Erase(i))
    ensures Sound(Apply(w, Erase(i)))
  {
    var changed := w.store - {w.processes[i].phase.repo};
    PhaseKeepsSound(w, i, if changed == w.store then Idle else MustWrite(changed));
  }

  /** Every enabled action, of whichever process, keeps the world sound. */
  lemma StepKeepsSound(w: World, a: Action)
    requires Sound(w) && Enabled(w, a)
    ensures Sound(Apply(w, a))
  {
    match a
    case Start(cfg) => NewcomerKeepsSound(w, Process(cfg, IDLE, Idle));
    case Tune(cfg, repo) => NewcomerKeepsSound(w, Process(cfg, IDLE, MustLoad(repo)));
    case Message(i, e) => MessageKeepsSound(w, i, e);
    case Load(i) => PhaseKeepsSound(w, i, MustAnalyze(w.processes[i].phase.repo, w.store));
    case Analyze(i) => AnalyzeKeepsSound(w, i);
    case Write(i) => PhaseKeepsSound(w, i, Idle);
    case GiveUp(i) => PhaseKeepsSound(w, i, Idle);
    case Launch(record) => ForeignLineKeepsSound(w, DecisionLine(record));
    case Garble => ForeignLineKeepsSound(w, OtherLine);
    case Reset(cfg, repo) => NewcomerKeepsSound(w, Process(cfg, IDLE, MustErase(repo)));
    case Erase(i) => EraseKeepsSound(w, i);
  }

  lemma {:induction false} RunsStaySound(w: World, actions: seq<Action>)
    requires Sound(w) && IsRun(w, actions)
    ensures Sound(After(w, actions))
    decreases |actions|
  {
    if actions != [] {
      StepKeepsSound(w, actions[0]);
      RunsStaySound(Apply(w, actions[0]), actions[1..]);
    }
  }

  /**
   * In every interleaved run of any number of agents, launches, tunings, resets and crashes that
   * starts from an empty log and store, each saved calibration is plus or minus five and was, when it
   * was derived, backed by at least three distinct logged decisions of its repository all pointing its
   * way, at least 70% of the repository's eligible ones, none of them preview or native-preserved; and
   * no decision ever has two events.
   */
  lemma EveryCalibrationIsBacked(actions: seq<Action>, repo: string)
    requires IsRun(EMPTY_WORLD, actions)
    ensures var w := After(EMPTY_WORLD, actions);
      && OneEventPerDecision(w.log)
      && (repo in w.store ==> Backed(w.log, repo, w.store[repo]))
  {
    RunsStaySound(EMPTY_WORLD, actions);
  }

  // ---------- The agent alone ----------

  /** Loading, analysing and writing a calibration, one after the other. */
  function Calibrates(w: World, i: nat): World
    requires i < |w.processes| && w.processes[i].phase.MustLoad?
  {
    var analyzed := Apply(Apply(w, Load(i)), Analyze(i));
    if analyzed.processes[i].phase.Idle? then analyzed else Apply(analyzed, Write(i))
  }

  lemma CalibratesAtOnce(w: World, i: nat)
    requires i < |w.processes| && w.processes[i].phase.MustLoad?
    ensures Calibrates(w, i)
         == WithPhase(w, i, Idle).(store := AgentRouter.Calibrated(w.log, w.store, w.processes[i].phase.repo))
  {
  }

  /** One message of a process, followed by what it leaves to be done for the calibration. */
  function Uninterrupted(w: World, i: nat, e: Event): World
    requires Enabled(w, Message(i, e))
  {
    var sent := Apply(w, Message(i, e));
    if sent.processes[i].phase.Idle? then sent else Calibrates(sent, i)
  }

  /**
   * When no other process comes between, the steps of the world leave the log, the calibrations and
   * the state that the agent's methods leave in one call.
   */
  lemma AgentRunsWorldSteps(w: World, i: nat, e: Event)
    requires Enabled(w, Message(i, e))
    ensures var p := w.processes[i];
      var effect, after := Handle(p.cfg, p.router, e), Uninterrupted(w, i, e);
      && after.log == w.log + effect.lines
      && after.store == AgentRouter.AfterStep(effect, after.log, w.store, true)
      && after.processes == w.processes[i := Process(p.cfg, effect.router, Idle)]
  {
    var sent := Apply(w, Message(i, e));
    if !sent.processes[i].phase.Idle? {
      CalibratesAtOnce(sent, i);
    }
  }
}
