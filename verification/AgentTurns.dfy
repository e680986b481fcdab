/** How a thread gets its pin: the choice that waits for its first turn, the accepted turn, the resumed thread. */
module AgentTurns {
  import opened Types
  import opened Text
  import opened Json
  import opened Wire
  import opened Agent
  import opened AgentProperties
  import Log

  // ---------- The first turn is routed with the waiting choice ----------

  /** What a first turn forwards and leaves outstanding is what routing this model, effort and prompt gives. */
  predicate RoutedWith(cfg: Config, r: Router, message: Value, t: string, effect: Effect,
                       model: Option<string>, effort: Option<ReasoningLevel>)
    requires IsFirstTurn(r, message, t)
  {
    var params := ParamsOf(message);
    match cfg.resolve(model, effort, PromptText(params).value)
    case None => effect.forwarded == message && effect.router.pending == r.pending
    case Some(route) =>
      && effect.forwarded == (if Preserves(cfg, route, params) then message else Routed(message, route))
      && (Get(message, Id).Some? ==>
            effect.router.pending
              == r.pending[Get(message, Id).value := PendingTurn(t, FirstRoute(cfg, route, params))])
      && (Get(message, Id).None? ==> effect.router.pending == r.pending)
  }

  /** The value routed with: the command line's where it pins one, else the chosen one, else the command line's. */
  predicate Decides<T(==)>(pinned: bool, commandLine: Option<T>, chosen: Option<T>, used: Option<T>) {
    if pinned || chosen.None? then used == commandLine else used == chosen
  }

  function ChosenModel(next: Option<ExplicitRoute>): Option<string> { if next.Some? then next.value.model else None }

  function ChosenEffort(next: Option<ExplicitRoute>): Option<ReasoningLevel> {
    if next.Some? then next.value.effort else None
  }

  lemma FirstTurnUsesWaitingChoice(cfg: Config, r: Router, message: Value, env: Env, t: string,
                                   model: Option<string>, effort: Option<ReasoningLevel>)
    requires IsFirstTurn(r, message, t)
    requires Decides(cfg.ModelPinned(), cfg.model, ChosenModel(ThreadOf(r, t).nextExplicit), model)
    requires Decides(cfg.EffortPinned(), cfg.effort, ChosenEffort(ThreadOf(r, t).nextExplicit), effort)
    ensures RoutedWith(cfg, r, message, t, ClientMessage(cfg, r, message, env), model, effort)
  {
    var next := ThreadOf(r, t).nextExplicit;
    assert TurnModel(cfg, next) == model && TurnEffort(cfg, next) == effort;
    assert ClientMessage(cfg, r, message, env) == FirstTurn(cfg, r, t, message, PromptText(ParamsOf(message)).value);
  }

  /** What the update names and the command line leaves free. */
  predicate Waits(cfg: Config, named: ExplicitRoute, before: ThreadState, after: ThreadState) {
    var freeModel, freeEffort := !cfg.ModelPinned() && named.model.Some?, !cfg.EffortPinned() && named.effort.Some?;
    && !after.initialized
    && (freeModel || freeEffort ==>
          && ChosenModel(after.nextExplicit) == (if freeModel then named.model else None)
          && ChosenEffort(after.nextExplicit) == (if freeEffort then named.effort else None))
    && (!freeModel && !freeEffort ==> after.nextExplicit == before.nextExplicit)
  }

  lemma RecordingKeepsWaiting(state: ThreadState, feedback: Option<(Log.Kind, Log.FeedbackSource)>, env: Env)
    ensures var after := Recorded(state, feedback, env);
      after.initialized == state.initialized && after.nextExplicit == state.nextExplicit
  {
  }

  /** A settings update before the first turn keeps what it names and the command line leaves free waiting. */
  lemma UpdateWaits(cfg: Config, r: Router, update: Value, env: Env, t: string)
    requires Calls(update, "thread/settings/update") && ThreadIdOf(update) == Some(t) && !ThreadOf(r, t).initialized
    ensures Waits(cfg, ParseExplicitRoute(ParamsOf(update)), ThreadOf(r, t),
                  ThreadOf(ClientMessage(cfg, r, update, env).router, t))
  {
    var route := Unpinned(cfg, ParseExplicitRoute(ParamsOf(update)));
    assert ClientMessage(cfg, r, update, env) == SettingsUpdate(cfg, r, t, update, env);
    RecordingKeepsWaiting(SettingsApplied(ThreadOf(r, t), route, ParamsOf(update)),
                          SettingsFeedback(ThreadOf(r, t), route), env);
  }

  /**
   * A model or effort chosen before the first turn, and left alone by the run in between, is what
   * that turn is routed, forwarded and later pinned with; where the command line pins model or effort,
   * the command line's value is.
   */
  lemma ChosenRouteIsUsed(cfg: Config, r: Router, update: Value, events: seq<Event>, message: Value, env: Env,
                          t: string, model: Option<string>, effort: Option<ReasoningLevel>)
    requires Calls(update, "thread/settings/update") && ThreadIdOf(update) == Some(t) && !ThreadOf(r, t).initialized
    requires var named := ParseExplicitRoute(ParamsOf(update));
      && ((!cfg.ModelPinned() && named.model.Some?) || (!cfg.EffortPinned() && named.effort.Some?))
      && Decides(cfg.ModelPinned(), cfg.model, named.model, model)
      && Decides(cfg.EffortPinned(), cfg.effort, named.effort, effort)
    requires var chosen := ClientMessage(cfg, r, update, env).router;
      Unaddressed(cfg, chosen, events, t) && IsFirstTurn(Run(cfg, chosen, events), message, t)
    ensures var later := Run(cfg, ClientMessage(cfg, r, update, env).router, events);
      RoutedWith(cfg, later, message, t, ClientMessage(cfg, later, message, env), model, effort)
  {
    var chosen := ClientMessage(cfg, r, update, env).router;
    UpdateWaits(cfg, r, update, env, t);
    ThreadsAreIsolatedOverRuns(cfg, chosen, events, t);
    FirstTurnUsesWaitingChoice(cfg, Run(cfg, chosen, events), message, env, t, model, effort);
  }

  // ---------- When Codex's own route is kept ----------

  /** A first turn keeps Codex's route if and only if it names a model and evidence is thin or the root another. */
  lemma RouteIsKeptExactlyWhen(cfg: Config, r: Router, message: Value, env: Env, t: string)
    requires IsFirstTurn(r, message, t) && ResolvedFirst(cfg, r, message, t).Some? && Get(message, Id).Some?
    requires !ResolvedFirst(cfg, r, message, t).value.source.NativePreserved?
    ensures var params, route := ParamsOf(message), ResolvedFirst(cfg, r, message, t).value;
      var waiting := ClientMessage(cfg, r, message, env).router.pending;
      && Get(message, Id).value in waiting
      && (waiting[Get(message, Id).value].route.source.NativePreserved? <==>
            && ParseExplicitRoute(params).model.Some?
            && (!route.decisive || TextAt(params, Cwd) !in [None, Some(cfg.root)]))
  {
  }

  /** A kept route with an effort is pinned exactly as a first turn without text would pin it. */
  lemma KeptRouteIsCodexRoute(cfg: Config, route: ResolvedRoute, params: Value, state: ThreadState, id: Option<string>)
    requires Preserves(cfg, route, params) && ParseExplicitRoute(params).effort.Some?
    ensures var kept := CommittedState(state, FirstRoute(cfg, route, params), id);
      kept == Unclassified(state, params).(decisionId := id, repo := Some(route.repo), feedbackRecorded := false)
  {
  }

  /** A kept route without an effort is pinned to the listed default of its model, else to Medium. */
  lemma KeptRouteWithoutEffort(cfg: Config, route: ResolvedRoute, params: Value, state: ThreadState, id: Option<string>)
    requires Preserves(cfg, route, params) && ParseExplicitRoute(params).effort.None?
    ensures var kept := CommittedState(state, FirstRoute(cfg, route, params), id);
      var listed := cfg.catalogDefault(ParseExplicitRoute(params).model.value);
      && kept.model == ParseExplicitRoute(params).model && kept.source.NativePreserved?
      && kept.effort == (if listed.Some? then listed else Some(Medium))
      && kept.nativeEffort == NativeName(kept.effort)
  {
  }

  // ---------- What acceptance installs and logs ----------

  /** Decision, committed route and thread agree field by field. */
  predicate LogsPin(d: Log.DecisionRecord, route: ResolvedRoute, state: ThreadState) {
    && state.decisionId == Some(d.id)
    && state.repo == Some(d.repo) && d.repo == route.repo
    && state.family == Some(d.family) && d.family == route.family
    && state.effort == Some(d.effort) && d.effort == route.displayLevel
    && state.source == d.source == route.source
    && d.mode == Some(Log.Agent) && d.facts == route.facts
    && state.initialized && !state.feedbackRecorded
    && state.model == Some(route.model) && state.nativeEffort == route.nativeEffort
    && state.serviceTier == route.serviceTier
  }

  /** The logged decision is the route the thread is then pinned to, and the thread holds it as not yet learned from. */
  lemma LoggedDecisionIsThePin(r: Router, key: Value, message: Value, env: Env)
    requires key in r.pending && key !in r.resumes
    requires Get(message, Id) == Some(key) && Get(message, Error).None? && env.decisionId.Some?
    ensures var effect, turn := ServerMessage(r, message, env), r.pending[key];
      && |effect.lines| == 1 && effect.lines[0].DecisionLine?
      && LogsPin(effect.lines[0].decision, turn.route, ThreadOf(effect.router, turn.threadId))
      && env.decisionId == Some(effect.lines[0].decision.id)
      && key !in effect.router.pending && effect.calibrate == None
  {
  }

  // ---------- Resumed threads ----------

  /** A resumed thread takes over what its stored route names and nothing else, as a route that is not cauto's. */
  lemma ResumeTakesStoredRoute(r: Router, key: Value, message: Value, env: Env, result: Value)
    requires key in r.resumes && Get(message, Id) == Some(key)
    requires Get(message, Error).None? && Get(message, Result) == Some(result)
    ensures var effect, t := ServerMessage(r, message, env), r.resumes[key];
      var before, after := ThreadOf(r, t), ThreadOf(effect.router, t);
      var model, effort := TextAt(result, Model), ParseText(TextAt(result, ResumedEffort));
      && after.initialized && after.source.NativePreserved?
      && (model.Some? ==> after.model == model && after.family == Some(FamilyOf(model.value)))
      && (model.None? ==> after.model == before.model && after.family == before.family)
      && (effort.Some? ==> after.effort == effort && after.nativeEffort == Some(effort.value.NativeName()))
      && (effort.None? ==> after.effort == before.effort && after.nativeEffort == before.nativeEffort)
      && after.serviceTier == TextAt(result, ServiceTier)
      && after.decisionId == before.decisionId && after.feedbackRecorded == before.feedbackRecorded
      && after.nextExplicit == before.nextExplicit && after.repo == before.repo
      && key !in effect.router.resumes && effect.router.pending == r.pending && effect.lines == []
  {
  }

  /** A failed or empty resume settles its request and leaves every thread alone. */
  lemma FailedResumeChangesNoThread(r: Router, key: Value, message: Value, env: Env)
    requires key in r.resumes && Get(message, Id) == Some(key)
    requires Get(message, Error).Some? || Get(message, Result).None?
    ensures ServerMessage(r, message, env).router == r.(resumes := r.resumes - {key})
  {
  }

  /** A resume request waits for its response under the thread it names. */
  lemma ResumeIsOutstanding(cfg: Config, r: Router, message: Value, env: Env, t: string, key: Value)
    requires Calls(message, "thread/resume") && ThreadIdOf(message) == Some(t) && Get(message, Id) == Some(key)
    ensures ClientMessage(cfg, r, message, env) == Effect(r.(resumes := r.resumes[key := t]), message, [], None)
  {
    assert "thread/resume"[0] != "initialize"[0];
  }

  // ---------- The prompt of a turn ----------

  function TextItem(text: string): Value { Object(map[Type := Str("text"), Key.Text := Str(text)]) }

  function TurnParams(items: seq<Value>): Value { Object(map[Key.Input := List(items)]) }

  predicate IsTextItem(item: Value) { TextAt(item, Type) == Some("text") && TextAt(item, Key.Text).Some? }

  lemma {:induction false} FragmentsConcatenate(xs: seq<Value>, ys: seq<Value>)
    ensures TextFragments(xs + ys) == TextFragments(xs) + TextFragments(ys)
  {
    if xs == [] {
      assert xs + ys == ys;
    } else {
      assert (xs + ys)[1..] == xs[1..] + ys;
      FragmentsConcatenate(xs[1..], ys);
    }
  }

  lemma {:induction false} OnlyTextCounts(items: seq<Value>)
    requires forall item | item in items :: !IsTextItem(item)
    ensures TextFragments(items) == []
  {
    if items != [] {
      assert !IsTextItem(items[0]);
      OnlyTextCounts(items[1..]);
    }
  }

  lemma TextCounts(text: string)
    ensures TextFragments([TextItem(text)]) == [text]
  {
    assert [TextItem(text)][1..] == [];
  }

  lemma {:induction false} LinesJoin(fragments: seq<string>, last: string)
    requires fragments != []
    ensures JoinLines(fragments + [last]) == JoinLines(fragments) + "\n" + last
  {
    if |fragments| == 1 {
      assert (fragments + [last])[1..] == [last];
    } else {
      assert (fragments + [last])[1..] == fragments[1..] + [last];
      LinesJoin(fragments[1..], last);
    }
  }

  lemma InputIsRead(items: seq<Value>)
    ensures PromptText(TurnParams(items))
         == if TextFragments(items) == [] then None else Some(JoinLines(TextFragments(items)))
  {
  }

  /** Items that are not text are no prompt; one more text item is one more line of it. */
  lemma PromptIsTheTextItems(items: seq<Value>, others: seq<Value>, text: string)
    requires forall item | item in others :: !IsTextItem(item)
    ensures var before := PromptText(TurnParams(items));
      && PromptText(TurnParams(items + others)) == before
      && PromptText(TurnParams(items + [TextItem(text)]))
         == Some(if before.Some? then before.value + "\n" + text else text)
    ensures PromptText(TurnParams([])) == None
  {
    InputIsRead(items);
    InputIsRead(items + others);
    InputIsRead(items + [TextItem(text)]);
    InputIsRead([]);
    FragmentsConcatenate(items, others);
    OnlyTextCounts(others);
    assert TextFragments(items) + [] == TextFragments(items);
    FragmentsConcatenate(items, [TextItem(text)]);
    TextCounts(text);
    if TextFragments(items) != [] {
      LinesJoin(TextFragments(items), text);
    } else {
      assert [] + [text] == [text];
    }
  }

  // ---------- What later messages do to a pin ----------

  /** The command line names no model, no family and forwards no model. */
  predicate ModelIsFree(cfg: Config) { cfg.model.None? && cfg.family.None? && cfg.native.model.None? }

  predicate EffortIsFree(cfg: Config) { cfg.effort.None? && cfg.native.effortRaw.None? }

  predicate TierIsFree(cfg: Config) { !cfg.fast && !cfg.noFast && cfg.native.serviceTier.None? }

  function NativeOf(effort: ReasoningLevel): Option<string> { Some(effort.NativeName()) }

  /** Decision and repository stay what they were. */
  predicate SameDecision(before: ThreadState, after: ThreadState) {
    after.decisionId == before.decisionId && after.repo == before.repo && after.nextExplicit == before.nextExplicit
  }

  lemma KeptPinIsExact(cfg: Config, before: ThreadState, params: Value)
    ensures var after, named := KeptState(cfg, before, params), ParseExplicitRoute(params);
      var held := if before.nativeEffort.Some? then before.nativeEffort
                  else if before.effort.Some? then NativeOf(before.effort.value) else None;
      && after.model == (if ModelIsFree(cfg) && named.model.Some? && before.model.Some? then named.model
                         else before.model)
      && after.family == (if after.model != before.model then Some(FamilyOf(after.model.value)) else before.family)
      && (if EffortIsFree(cfg) && named.effort.Some? && held.Some? && held != NativeOf(named.effort.value)
          then after.effort == named.effort && after.nativeEffort == NativeOf(named.effort.value)
          else after.effort == before.effort && after.nativeEffort == before.nativeEffort)
      && after.serviceTier == (if TierIsFree(cfg) && Get(params, ServiceTier).Some? then TextAt(params, ServiceTier)
                               else before.serviceTier)
      && SameDecision(before, after) && after.source == before.source
  {
  }

  lemma RecordingKeepsRoute(state: ThreadState, feedback: Option<(Log.Kind, Log.FeedbackSource)>, env: Env)
    ensures var after := Recorded(state, feedback, env); after == state.(feedbackRecorded := after.feedbackRecorded)
    ensures state.feedbackRecorded ==> Recorded(state, feedback, env).feedbackRecorded
  {
  }

  /**
   * A follow-up moves a pinned model to the one it names where the command line leaves the model free, a
   * held effort to the one it names where that is another and free, the tier to the one it sends where
   * that is free, and nothing else; a model or effort that is not held is not taken from it.
   */
  lemma FollowUpPinIsExact(cfg: Config, r: Router, m: Value, env: Env, t: string)
    requires ThreadOf(r, t).initialized && ThreadIdOf(m) == Some(t) && Calls(m, "turn/start")
    ensures var params, named, before := ParamsOf(m), ParseExplicitRoute(ParamsOf(m)), ThreadOf(r, t);
      var after := ThreadOf(ClientMessage(cfg, r, m, env).router, t);
      var held := if before.nativeEffort.Some? then before.nativeEffort
                  else if before.effort.Some? then NativeOf(before.effort.value) else None;
      && after.model == (if ModelIsFree(cfg) && named.model.Some? && before.model.Some? then named.model
                         else before.model)
      && after.family == (if after.model != before.model then Some(FamilyOf(after.model.value)) else before.family)
      && (if EffortIsFree(cfg) && named.effort.Some? && held.Some? && held != NativeOf(named.effort.value)
          then after.effort == named.effort && after.nativeEffort == NativeOf(named.effort.value)
          else after.effort == before.effort && after.nativeEffort == before.nativeEffort)
      && after.serviceTier == (if TierIsFree(cfg) && Get(params, ServiceTier).Some? then TextAt(params, ServiceTier)
                               else before.serviceTier)
      && SameDecision(before, after) && after.source == before.source
  {
    var state, params := ThreadOf(r, t), ParamsOf(m);
    assert ClientMessage(cfg, r, m, env) == KeepTurn(cfg, r, t, m, PromptText(params), env);
    KeptPinIsExact(cfg, state, params);
    RecordingKeepsRoute(KeptState(cfg, state, params), KeptFeedback(cfg, state, params, PromptText(params)), env);
  }

  lemma AppliedPinIsExact(cfg: Config, before: ThreadState, params: Value)
    requires before.initialized
    ensures var named, route := ParseExplicitRoute(params), Unpinned(cfg, ParseExplicitRoute(params));
      var freeModel, freeEffort := ModelIsFree(cfg) && named.model.Some?, EffortIsFree(cfg) && named.effort.Some?;
      var after := SettingsApplied(before, route, params);
      && (route == ExplicitRoute(None, None) <==> !freeModel && !freeEffort)
      && after.model == (if freeModel then named.model else before.model)
      && after.family == (if freeModel then Some(FamilyOf(named.model.value)) else before.family)
      && after.effort == (if freeEffort then named.effort else before.effort)
      && after.nativeEffort == (if freeEffort then NativeOf(named.effort.value) else before.nativeEffort)
      && after.serviceTier == (if Get(params, ServiceTier).Some? then TextAt(params, ServiceTier)
                               else before.serviceTier)
      && after.source.Explicit? && SameDecision(before, after)
  {
  }

  /**
   * A settings update of a started thread takes every model and effort it names that the command line
   * leaves free and, only if there is one, the tier it sends; the route counts as explicit from then on.
   */
  lemma UpdatePinIsExact(cfg: Config, r: Router, m: Value, env: Env, t: string)
    requires ThreadOf(r, t).initialized && ThreadIdOf(m) == Some(t) && Calls(m, "thread/settings/update")
    ensures var params, named, before := ParamsOf(m), ParseExplicitRoute(ParamsOf(m)), ThreadOf(r, t);
      var after := ThreadOf(ClientMessage(cfg, r, m, env).router, t);
      var freeModel, freeEffort := ModelIsFree(cfg) && named.model.Some?, EffortIsFree(cfg) && named.effort.Some?;
      && after.model == (if freeModel then named.model else before.model)
      && after.family == (if freeModel then Some(FamilyOf(named.model.value)) else before.family)
      && after.effort == (if freeEffort then named.effort else before.effort)
      && after.nativeEffort == (if freeEffort then NativeOf(named.effort.value) else before.nativeEffort)
      && after.serviceTier == (if (freeModel || freeEffort) && Get(params, ServiceTier).Some?
                               then TextAt(params, ServiceTier) else before.serviceTier)
      && after.source == (if freeModel || freeEffort then Explicit else before.source)
      && SameDecision(before, after)
  {
    var state, params := ThreadOf(r, t), ParamsOf(m);
    var route := Unpinned(cfg, ParseExplicitRoute(params));
    assert ClientMessage(cfg, r, m, env) == SettingsUpdate(cfg, r, t, m, env);
    AppliedPinIsExact(cfg, state, params);
    RecordingKeepsRoute(SettingsApplied(state, route, params), SettingsFeedback(state, route), env);
  }

  /** A first turn without text starts the thread on the route it carries, as one that is not cauto's. */
  lemma TextlessTurnPinsItsRoute(cfg: Config, r: Router, m: Value, env: Env, t: string)
    requires !ThreadOf(r, t).initialized && ThreadIdOf(m) == Some(t) && Calls(m, "turn/start")
    requires PromptText(ParamsOf(m)).None?
    ensures var params, named, before := ParamsOf(m), ParseExplicitRoute(ParamsOf(m)), ThreadOf(r, t);
      var effect := ClientMessage(cfg, r, m, env);
      var after := ThreadOf(effect.router, t);
      && after.initialized && after.source.NativePreserved? && SameDecision(before, after)
      && (named.model.Some? ==> after.model == named.model && after.family == Some(FamilyOf(named.model.value)))
      && (named.effort.Some? ==> after.effort == named.effort && after.nativeEffort == NativeOf(named.effort.value))
      && (named.model.None? ==> after.model == before.model && after.family == before.family)
      && (named.effort.None? ==> after.effort == before.effort && after.nativeEffort == before.nativeEffort)
      && after.serviceTier == TextAt(params, ServiceTier)
      && effect.forwarded == m && effect.lines == []
  {
  }

  /** A follow-up of a thread without a model is forwarded as it is. */
  lemma ModellessFollowUpIsForwarded(cfg: Config, r: Router, m: Value, env: Env, t: string)
    requires ThreadOf(r, t).initialized && ThreadIdOf(m) == Some(t) && Calls(m, "turn/start")
    requires ThreadOf(r, t).model.None?
    ensures ClientMessage(cfg, r, m, env).forwarded == m
  {
    assert ClientMessage(cfg, r, m, env) == KeepTurn(cfg, r, t, m, PromptText(ParamsOf(m)), env);
  }
}
