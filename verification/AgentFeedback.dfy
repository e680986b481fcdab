/** What the agent logs and learns from a message, told by how the pin of the thread moves. */
module AgentFeedback {
  import opened Types
  import opened Text
  import opened Json
  import opened Wire
  import opened Agent
  import opened AgentProperties
  import opened Log

  // ---------- How a pin moves ----------

  predicate FamilyRises(before: ThreadState, after: ThreadState) {
    before.family.Some? && after.family.Some? && after.family.value.Rank() > before.family.value.Rank()
  }

  predicate EffortRises(before: ThreadState, after: ThreadState) {
    before.effort.Some? && after.effort.Some? && after.effort.value.Rank() > before.effort.value.Rank()
  }

  /** Family or effort of the thread became stronger. */
  predicate Strengthens(before: ThreadState, after: ThreadState) {
    FamilyRises(before, after) || EffortRises(before, after)
  }

  predicate Weakens(before: ThreadState, after: ThreadState) { Strengthens(after, before) }

  function EventOf(state: ThreadState, kind: Kind, source: FeedbackSource): Line {
    FeedbackLine(FeedbackRecord(state.decisionId, Some(kind), Some(source)))
  }

  /** The thread may log an event for its decision. */
  predicate MayLearn(state: ThreadState) {
    && state.initialized && !state.source.NativePreserved?
    && state.decisionId.Some? && state.repo.Some? && !state.feedbackRecorded
  }

  /** Exactly this is logged: a stronger route says underpowered, a weaker one overkill, a crossed one nothing. */
  predicate LearnsFromMove(before: ThreadState, after: ThreadState, lines: seq<Line>) {
    && (lines == [EventOf(before, Underpowered, ExplicitRouteChange)]
        <==> Strengthens(before, after) && !Weakens(before, after))
    && (lines == [EventOf(before, Overkill, ExplicitRouteChange)]
        <==> Weakens(before, after) && !Strengthens(before, after))
  }

  // ---------- Settings updates ----------

  lemma UpdateMovesRanks(cfg: Config, state: ThreadState, params: Value)
    requires MayLearn(state)
    ensures var route := Unpinned(cfg, ParseExplicitRoute(params));
      var after := SettingsApplied(state, route, params);
      var feedback := SettingsFeedback(state, route);
      && (feedback == Some((Underpowered, ExplicitRouteChange)) <==>
            Strengthens(state, after) && !Weakens(state, after))
      && (feedback == Some((Overkill, ExplicitRouteChange)) <==> Weakens(state, after) && !Strengthens(state, after))
      && (feedback.Some? ==> feedback.value.0 in [Underpowered, Overkill] && feedback.value.1.ExplicitRouteChange?)
  {
  }

  /**
   * A settings update of a thread that may learn logs exactly one event when it makes the pin purely
   * stronger (underpowered) or purely weaker (overkill), and nothing otherwise.
   */
  lemma UpdateIsLearned(cfg: Config, r: Router, m: Value, env: Env, t: string)
    requires MayLearn(ThreadOf(r, t)) && env.appended
    requires ThreadIdOf(m) == Some(t) && Calls(m, "thread/settings/update")
    ensures var effect := ClientMessage(cfg, r, m, env);
      var before, after := ThreadOf(r, t), ThreadOf(effect.router, t);
      && LearnsFromMove(before, after, effect.lines)
      && (effect.lines != [] <==> Strengthens(before, after) != Weakens(before, after))
      && (effect.calibrate == if effect.lines == [] then None else before.repo)
  {
    var state, params := ThreadOf(r, t), ParamsOf(m);
    assert ClientMessage(cfg, r, m, env) == SettingsUpdate(cfg, r, t, m, env);
    UpdateMovesRanks(cfg, state, params);
  }

  // ---------- Follow-up turns ----------

  lemma TurnMovesRanks(cfg: Config, state: ThreadState, params: Value)
    ensures var after := KeptState(cfg, state, params);
      var change := FeedbackForChange(state, Differing(cfg, state, ParseExplicitRoute(params)));
      && (change == Some(Underpowered) <==> Strengthens(state, after) && !Weakens(state, after))
      && (change == Some(Overkill) <==> Weakens(state, after) && !Strengthens(state, after))
      && (change.Some? ==> change.value in [Underpowered, Overkill])
  {
  }

  /** What the prompt of a turn says about the turn before it. */
  function Correction(cfg: Config, m: Value): Option<Kind> {
    var prompt := PromptText(ParamsOf(m));
    if prompt.Some? then cfg.correction(prompt.value) else None
  }

  /**
   * A follow-up of a thread that may learn logs the event of a purely stronger or purely weaker pin,
   * otherwise the correction its prompt expresses, otherwise nothing.
   */
  lemma FollowUpIsLearned(cfg: Config, r: Router, m: Value, env: Env, t: string)
    requires MayLearn(ThreadOf(r, t)) && env.appended
    requires ThreadIdOf(m) == Some(t) && Calls(m, "turn/start")
    ensures var effect := ClientMessage(cfg, r, m, env);
      var before, after := ThreadOf(r, t), ThreadOf(effect.router, t);
      && LearnsFromMove(before, after, effect.lines)
      && (Strengthens(before, after) == Weakens(before, after) ==>
            effect.lines == match Correction(cfg, m)
                            case Some(kind) => [EventOf(before, kind, ImplicitCorrection)]
                            case None => [])
      && (effect.calibrate == if effect.lines == [] then None else before.repo)
  {
    var state := ThreadOf(r, t);
    assert ClientMessage(cfg, r, m, env) == KeepTurn(cfg, r, t, m, PromptText(ParamsOf(m)), env);
    TurnMovesRanks(cfg, state, ParamsOf(m));
  }

  // ---------- Everybody else ----------

  /** A settings update of a thread that may not learn, or whose event cannot be written, logs nothing. */
  lemma UpdateIsIgnored(cfg: Config, r: Router, m: Value, env: Env, t: string)
    requires !MayLearn(ThreadOf(r, t)) || !env.appended
    requires ThreadIdOf(m) == Some(t) && Calls(m, "thread/settings/update")
    ensures ClientMessage(cfg, r, m, env).lines == [] && ClientMessage(cfg, r, m, env).calibrate == None
  {
    assert ClientMessage(cfg, r, m, env) == SettingsUpdate(cfg, r, t, m, env);
  }

  lemma FollowUpIsIgnored(cfg: Config, r: Router, m: Value, env: Env, t: string)
    requires !MayLearn(ThreadOf(r, t)) || !env.appended
    requires ThreadIdOf(m) == Some(t) && Calls(m, "turn/start")
    ensures ClientMessage(cfg, r, m, env).lines == [] && ClientMessage(cfg, r, m, env).calibrate == None
  {
    if ThreadOf(r, t).initialized {
      assert ClientMessage(cfg, r, m, env) == KeepTurn(cfg, r, t, m, PromptText(ParamsOf(m)), env);
    }
  }

  /** Only settings updates and turns ever log an event. */
  lemma OnlyOwnMessagesAreLearned(cfg: Config, r: Router, e: Event, line: Line)
    requires line in Handle(cfg, r, e).lines && line.FeedbackLine?
    ensures e.Client? && ThreadIdOf(e.message).Some?
         && (Calls(e.message, "turn/start") || Calls(e.message, "thread/settings/update"))
  {
  }
}
