/** What holds of a thread's pin over every message and every run. */
module AgentProperties {
  import opened Types
  import opened Text
  import opened Json
  import opened Wire
  import opened Agent
  import Log

  /** The route a thread is pinned to. */
  datatype Pin = Pin(model: Option<string>, effort: Option<ReasoningLevel>, nativeEffort: Option<string>)

  function PinOf(state: ThreadState): Pin { Pin(state.model, state.effort, state.nativeEffort) }

  // ---------- Who may touch a thread ----------

  /** The thread a server message answers for, if it answers an outstanding request. */
  function AnswersFor(r: Router, message: Value): Option<string> {
    var key := Get(message, Id);
    if key.Some? && key.value in r.resumes then Some(r.resumes[key.value])
    else if key.Some? && key.value in r.pending then Some(r.pending[key.value].threadId)
    else None
  }

  /** The message is a turn or settings update of this thread, or a response to one of its requests. */
  predicate Addresses(r: Router, e: Event, t: string) {
    match e
    case Client(m, _) => ThreadIdOf(m) == Some(t) && (Calls(m, "turn/start") || Calls(m, "thread/settings/update"))
    case Server(m, _) => AnswersFor(r, m) == Some(t)
  }

  /** The route names a value that the command line leaves free and that is not the pinned one. */
  predicate Differs(cfg: Config, state: ThreadState, route: ExplicitRoute) {
    || (!cfg.ModelPinned() && route.model.Some? && route.model != state.model)
    || (!cfg.EffortPinned() && route.effort.Some?
        && (route.effort != state.effort || NativeName(route.effort) != state.nativeEffort))
  }

  /** The event is a legitimate reason for the pin of an initialised thread to move. */
  predicate MayMovePin(cfg: Config, r: Router, e: Event, t: string) {
    && Addresses(r, e, t)
    && match e
       case Client(m, _) => Differs(cfg, ThreadOf(r, t), ParseExplicitRoute(ParamsOf(m)))
       case Server(m, _) => Get(m, Error).None?
  }

  /** A message that does not address a thread leaves the whole state of that thread alone. */
  lemma OtherThreadsUntouched(cfg: Config, r: Router, e: Event, t: string)
    requires !Addresses(r, e, t)
    ensures var after := Handle(cfg, r, e).router;
      (t in after.threads <==> t in r.threads) && ThreadOf(after, t) == ThreadOf(r, t)
  {
  }

  lemma TurnMovesPinForCause(cfg: Config, r: Router, m: Value, env: Env, t: string)
    requires ThreadOf(r, t).initialized && ThreadIdOf(m) == Some(t) && Calls(m, "turn/start")
    ensures var after := ThreadOf(ClientMessage(cfg, r, m, env).router, t);
      && after.initialized
      && (PinOf(after) != PinOf(ThreadOf(r, t)) ==> Differs(cfg, ThreadOf(r, t), ParseExplicitRoute(ParamsOf(m))))
  {
    assert ClientMessage(cfg, r, m, env) == KeepTurn(cfg, r, t, m, PromptText(ParamsOf(m)), env);
  }

  lemma AppliedSettingsMovePinForCause(cfg: Config, state: ThreadState, params: Value)
    requires state.initialized
    ensures var after := SettingsApplied(state, Unpinned(cfg, ParseExplicitRoute(params)), params);
      after.initialized && (PinOf(after) != PinOf(state) ==> Differs(cfg, state, ParseExplicitRoute(params)))
  {
  }

  lemma RecordingKeepsPin(state: ThreadState, feedback: Option<(Log.Kind, Log.FeedbackSource)>, env: Env)
    ensures var after := Recorded(state, feedback, env);
      PinOf(after) == PinOf(state) && after.initialized == state.initialized
  {
  }

  lemma SettingsMovePinForCause(cfg: Config, r: Router, m: Value, env: Env, t: string)
    requires ThreadOf(r, t).initialized && ThreadIdOf(m) == Some(t) && Calls(m, "thread/settings/update")
    ensures var after := ThreadOf(ClientMessage(cfg, r, m, env).router, t);
      && after.initialized
      && (PinOf(after) != PinOf(ThreadOf(r, t)) ==> Differs(cfg, ThreadOf(r, t), ParseExplicitRoute(ParamsOf(m))))
  {
    var state, params := ThreadOf(r, t), ParamsOf(m);
    var route := Unpinned(cfg, ParseExplicitRoute(params));
    assert ClientMessage(cfg, r, m, env) == SettingsUpdate(cfg, r, t, m, env);
    AppliedSettingsMovePinForCause(cfg, state, params);
    RecordingKeepsPin(SettingsApplied(state, route, params), SettingsFeedback(state, route), env);
  }

  lemma ServerMovesPinForCause(r: Router, m: Value, env: Env, t: string)
    requires ThreadOf(r, t).initialized && AnswersFor(r, m) == Some(t)
    ensures var after := ThreadOf(ServerMessage(r, m, env).router, t);
      after.initialized && (PinOf(after) != PinOf(ThreadOf(r, t)) ==> Get(m, Error).None?)
  {
  }

  /** An initialised thread stays initialised, and its pin moves only for a legitimate reason of its own. */
  lemma PinMovesOnlyForCause(cfg: Config, r: Router, e: Event, t: string)
    requires ThreadOf(r, t).initialized
    ensures var after := ThreadOf(Handle(cfg, r, e).router, t);
      && after.initialized
      && (PinOf(after) != PinOf(ThreadOf(r, t)) ==> MayMovePin(cfg, r, e, t))
  {
    if !Addresses(r, e, t) {
      OtherThreadsUntouched(cfg, r, e, t);
    } else {
      match e
      case Client(m, env) =>
        if Calls(m, "turn/start") {
          TurnMovesPinForCause(cfg, r, m, env, t);
        } else {
          SettingsMovePinForCause(cfg, r, m, env, t);
        }
      case Server(m, env) => ServerMovesPinForCause(r, m, env, t);
    }
  }

  /** Model and effort pinned on the command line are moved by no client message at all. */
  lemma CommandLinePinsHold(cfg: Config, r: Router, message: Value, env: Env, t: string)
    requires ThreadOf(r, t).initialized
    ensures var after := ThreadOf(ClientMessage(cfg, r, message, env).router, t);
      && (cfg.ModelPinned() ==> after.model == ThreadOf(r, t).model)
      && (cfg.EffortPinned() ==>
            after.effort == ThreadOf(r, t).effort && after.nativeEffort == ThreadOf(r, t).nativeEffort)
  {
    if !Addresses(r, Client(message, env), t) {
      OtherThreadsUntouched(cfg, r, Client(message, env), t);
    } else if Calls(message, "turn/start") {
      assert ClientMessage(cfg, r, message, env)
          == KeepTurn(cfg, r, t, message, PromptText(ParamsOf(message)), env);
    }
  }

  // ---------- Whole runs ----------

  function Run(cfg: Config, r: Router, events: seq<Event>): Router
    decreases |events|
  {
    if events == [] then r else Run(cfg, Handle(cfg, r, events[0]).router, events[1..])
  }

  /** No event of the run, in the state it arrives in, may move the pin of the thread. */
  predicate Undisturbed(cfg: Config, r: Router, events: seq<Event>, t: string)
    decreases |events|
  {
    events == []
    || (!MayMovePin(cfg, r, events[0], t) && Undisturbed(cfg, Handle(cfg, r, events[0]).router, events[1..], t))
  }

  predicate Unaddressed(cfg: Config, r: Router, events: seq<Event>, t: string)
    decreases |events|
  {
    events == []
    || (!Addresses(r, events[0], t) && Unaddressed(cfg, Handle(cfg, r, events[0]).router, events[1..], t))
  }

  /**
   * Over every interleaving of messages of any number of threads, an initialised thread stays
   * initialised, and its pin at the end is its pin at the start unless one of its own messages or
   * responses was entitled to move it.
   */
  lemma {:induction false} PinIsStableOverRuns(cfg: Config, r: Router, events: seq<Event>, t: string)
    requires ThreadOf(r, t).initialized
    ensures ThreadOf(Run(cfg, r, events), t).initialized
    ensures Undisturbed(cfg, r, events, t) ==> PinOf(ThreadOf(Run(cfg, r, events), t)) == PinOf(ThreadOf(r, t))
    decreases |events|
  {
    if events != [] {
      PinMovesOnlyForCause(cfg, r, events[0], t);
      PinIsStableOverRuns(cfg, Handle(cfg, r, events[0]).router, events[1..], t);
    }
  }

  /** A run that never addresses a thread leaves every field of it alone. */
  lemma {:induction false} ThreadsAreIsolatedOverRuns(cfg: Config, r: Router, events: seq<Event>, t: string)
    requires Unaddressed(cfg, r, events, t)
    ensures ThreadOf(Run(cfg, r, events), t) == ThreadOf(r, t)
    decreases |events|
  {
    if events != [] {
      OtherThreadsUntouched(cfg, r, events[0], t);
      ThreadsAreIsolatedOverRuns(cfg, Handle(cfg, r, events[0]).router, events[1..], t);
    }
  }

  // ---------- What goes over the wire ----------

  /** The parameters carry exactly this pin at top level and in any collaboration settings object. */
  predicate Carries(params: Value, state: ThreadState) {
    && state.model.Some?
    && Get(params, Model) == Some(Str(state.model.value))
    && AsText(Get(params, Effort)) == PinnedEffort(state)
    && (Get(params, Effort).Some? <==> PinnedEffort(state).Some?)
    && (SettingsOf(params).Some? && SettingsOf(params).value.Object? ==>
          && GetIn(SettingsOf(params), Model) == Some(Str(state.model.value))
          && GetIn(SettingsOf(params), ReasoningEffort) == Some(EffortOrNull(PinnedEffort(state))))
  }

  /**
   * Every follow-up turn of an initialised thread with a pinned model is forwarded with exactly the
   * pin the thread holds afterwards; its other members, and the rest of the message, are unchanged.
   */
  lemma FollowUpsCarryThePin(cfg: Config, r: Router, message: Value, env: Env, t: string)
    requires Calls(message, "turn/start") && ThreadIdOf(message) == Some(t) && ThreadOf(r, t).initialized
    requires ThreadOf(r, t).model.Some?
    ensures var effect := ClientMessage(cfg, r, message, env);
      && Carries(ParamsOf(effect.forwarded), ThreadOf(effect.router, t))
      && (forall k | k !in {Model, Effort, CollaborationMode, ServiceTier} ::
            Get(ParamsOf(effect.forwarded), k) == Get(ParamsOf(message), k))
      && (forall k | k != Params :: Get(effect.forwarded, k) == Get(message, k))
  {
    var kept := KeptState(cfg, ThreadOf(r, t), ParamsOf(message));
    var params := ParamsOf(message).fields;
    var written := Rewritten(params, kept.model.value, PinnedEffort(kept), kept.serviceTier);
    assert ParamsOf(ClientMessage(cfg, r, message, env).forwarded) == Object(written);
    CarriesRewritten(params, kept);
  }

  lemma CarriesRewritten(params: map<Key, Value>, state: ThreadState)
    requires state.model.Some?
    ensures Carries(Object(Rewritten(params, state.model.value, PinnedEffort(state), state.serviceTier)), state)
  {
  }

  /**
   * The service tier on the wire of a follow-up is the one the thread holds, unless the command line
   * pins the tier, the thread holds none and Codex sends one: then it passes through.
   */
  lemma FollowUpTierAgreesExactlyWhen(cfg: Config, r: Router, message: Value, env: Env, t: string)
    requires Calls(message, "turn/start") && ThreadIdOf(message) == Some(t) && ThreadOf(r, t).initialized
    requires ThreadOf(r, t).model.Some?
    ensures var effect := ClientMessage(cfg, r, message, env);
      TextAt(ParamsOf(effect.forwarded), ServiceTier) == ThreadOf(effect.router, t).serviceTier
      <==> !(cfg.TierPinned() && ThreadOf(r, t).serviceTier.None? && ServiceTierAt(ParamsOf(message)).Some?)
  {
    var kept := KeptState(cfg, ThreadOf(r, t), ParamsOf(message));
    assert ClientMessage(cfg, r, message, env) == KeepTurn(cfg, r, t, message, PromptText(ParamsOf(message)), env);
    assert ParamsOf(ClientMessage(cfg, r, message, env).forwarded)
        == Object(Rewritten(ParamsOf(message).fields, kept.model.value, PinnedEffort(kept), kept.serviceTier));
  }

  /** Every message but a turn of a thread is forwarded byte for byte. */
  lemma OnlyTurnsAreRewritten(cfg: Config, r: Router, e: Event)
    ensures var effect := Handle(cfg, r, e);
      effect.forwarded != e.message ==>
        && e.Client? && Calls(e.message, "turn/start")
        && ThreadIdOf(e.message).Some?
  {
  }

  // ---------- The first turn ----------

  predicate IsFirstTurn(r: Router, message: Value, t: string) {
    && Calls(message, "turn/start") && ThreadIdOf(message) == Some(t) && !ThreadOf(r, t).initialized
    && PromptText(ParamsOf(message)).Some?
  }

  function ResolvedFirst(cfg: Config, r: Router, message: Value, t: string): Option<ResolvedRoute>
    requires IsFirstTurn(r, message, t)
  {
    var next := ThreadOf(r, t).nextExplicit;
    cfg.resolve(TurnModel(cfg, next), TurnEffort(cfg, next), PromptText(ParamsOf(message)).value)
  }

  /** So is a first turn that routing refuses, or whose own route it keeps, or that has no text. */
  lemma RefusedAndKeptTurnsAreForwarded(cfg: Config, r: Router, message: Value, env: Env, t: string)
    requires Calls(message, "turn/start") && ThreadIdOf(message) == Some(t) && !ThreadOf(r, t).initialized
    requires IsFirstTurn(r, message, t) ==>
      var route := ResolvedFirst(cfg, r, message, t);
      route.None? || Preserves(cfg, route.value, ParamsOf(message))
    ensures ClientMessage(cfg, r, message, env).forwarded == message
  {
  }

  /**
   * The pin of a thread is what an accepted first turn sent: always the model; on a rewritten turn
   * the effort too, and on a preserved turn the effort exactly when Codex sent one.
   */
  predicate PinsTheWire(wire: Value, preserved: bool, state: ThreadState) {
    && state.initialized
    && ParseExplicitRoute(wire).model == state.model
    && (!preserved ==>
          && AsText(EffortValue(wire)) == state.nativeEffort
          && ParseExplicitRoute(wire).effort == ParseText(state.nativeEffort))
    && (preserved ==>
          && (ParseExplicitRoute(wire).effort == state.effort <==> ParseExplicitRoute(wire).effort.Some?)
          && (ParseExplicitRoute(wire).effort.Some? ==>
                NativeName(ParseExplicitRoute(wire).effort) == state.nativeEffort))
  }

  /** What a first turn sends is what accepting it would pin. */
  lemma FirstTurnWire(cfg: Config, r: Router, message: Value, env: Env, t: string, before: ThreadState,
        id: Option<string>)
    requires IsFirstTurn(r, message, t) && ResolvedFirst(cfg, r, message, t).Some?
    ensures var route := ResolvedFirst(cfg, r, message, t).value;
      PinsTheWire(ParamsOf(ClientMessage(cfg, r, message, env).forwarded), Preserves(cfg, route, ParamsOf(message)),
                  CommittedState(before, FirstRoute(cfg, route, ParamsOf(message)), id))
  {
    var route := ResolvedFirst(cfg, r, message, t).value;
    var params := ParamsOf(message);
    if !Preserves(cfg, route, params) {
      RewrittenReadsBack(params.fields, route.model, route.nativeEffort, route.serviceTier);
      assert ParamsOf(ClientMessage(cfg, r, message, env).forwarded)
          == Object(Rewritten(params.fields, route.model, route.nativeEffort, route.serviceTier));
      RewrittenEffortText(params.fields, route.model, route.nativeEffort, route.serviceTier);
    }
  }

  /** The event would settle or reuse this request identifier. */
  predicate Reuses(e: Event, key: Value) {
    match e
    case Client(m, _) => Get(m, Id) == Some(key) && (Calls(m, "turn/start") || Calls(m, "thread/resume"))
    case Server(m, _) => Get(m, Id) == Some(key)
  }

  /** What is outstanding under an identifier. */
  function Outstanding(r: Router, key: Value): (Option<PendingTurn>, Option<string>) {
    (if key in r.pending then Some(r.pending[key]) else None, if key in r.resumes then Some(r.resumes[key]) else None)
  }

  lemma TurnsLeaveRequestsOutstanding(cfg: Config, r: Router, m: Value, env: Env, t: string, key: Value)
    requires Calls(m, "turn/start") && ThreadIdOf(m) == Some(t) && Get(m, Id) != Some(key)
    ensures Outstanding(ClientMessage(cfg, r, m, env).router, key) == Outstanding(r, key)
  {
  }

  lemma ClientsLeaveRequestsOutstanding(cfg: Config, r: Router, m: Value, env: Env, key: Value)
    requires !Reuses(Client(m, env), key)
    ensures Outstanding(ClientMessage(cfg, r, m, env).router, key) == Outstanding(r, key)
  {
    if Calls(m, "turn/start") && ThreadIdOf(m).Some? {
      TurnsLeaveRequestsOutstanding(cfg, r, m, env, ThreadIdOf(m).value, key);
    }
  }

  lemma ServerLeavesRequestsOutstanding(r: Router, m: Value, env: Env, key: Value)
    requires !Reuses(Server(m, env), key)
    ensures Outstanding(ServerMessage(r, m, env).router, key) == Outstanding(r, key)
  {
  }

  lemma OthersLeaveRequestsOutstanding(cfg: Config, r: Router, e: Event, key: Value)
    requires !Reuses(e, key)
    ensures Outstanding(Handle(cfg, r, e).router, key) == Outstanding(r, key)
  {
    match e
    case Client(m, env) => ClientsLeaveRequestsOutstanding(cfg, r, m, env, key);
    case Server(m, env) => ServerLeavesRequestsOutstanding(r, m, env, key);
  }

  /** Over a run that neither settles nor reuses an identifier, what is outstanding under it stays. */
  lemma {:induction false} RequestsStayOutstanding(cfg: Config, r: Router, events: seq<Event>, key: Value)
    requires forall e | e in events :: !Reuses(e, key)
    ensures Outstanding(Run(cfg, r, events), key) == Outstanding(r, key)
    decreases |events|
  {
    if events != [] {
      OthersLeaveRequestsOutstanding(cfg, r, events[0], key);
      RequestsStayOutstanding(cfg, Handle(cfg, r, events[0]).router, events[1..], key);
    }
  }

  lemma FirstTurnIsOutstanding(cfg: Config, r: Router, message: Value, env: Env, t: string)
    requires IsFirstTurn(r, message, t) && ResolvedFirst(cfg, r, message, t).Some?
    requires Get(message, Id).Some? && Get(message, Id).value !in r.resumes
    ensures Outstanding(ClientMessage(cfg, r, message, env).router, Get(message, Id).value)
         == (Some(PendingTurn(t, FirstRoute(cfg, ResolvedFirst(cfg, r, message, t).value, ParamsOf(message)))), None)
  {
  }

  lemma AcceptanceCommits(r: Router, turn: PendingTurn, key: Value, response: Value, env: Env)
    requires Outstanding(r, key) == (Some(turn), None)
    requires Get(response, Id) == Some(key) && Get(response, Error).None?
    ensures ThreadOf(ServerMessage(r, response, env).router, turn.threadId)
         == CommittedState(ThreadOf(r, turn.threadId), turn.route, env.decisionId)
  {
  }

  /**
   * Whatever any thread, the server or other clients do between a first turn and its acceptance, as
   * long as the identifier of the turn is not reused while it is in flight, the thread ends up pinned
   * to what went over the wire.
   */
  lemma AcceptedTurnPinsTheWire(
      cfg: Config, r: Router, message: Value, env: Env, t: string, events: seq<Event>, response: Value, env': Env)
    requires IsFirstTurn(r, message, t) && ResolvedFirst(cfg, r, message, t).Some?
    requires Get(message, Id).Some? && Get(message, Id).value !in r.resumes
    requires forall e | e in events :: !Reuses(e, Get(message, Id).value)
    requires Get(response, Id) == Get(message, Id) && Get(response, Error).None?
    ensures var sent := ClientMessage(cfg, r, message, env);
      var accepted := ServerMessage(Run(cfg, sent.router, events), response, env').router;
      PinsTheWire(ParamsOf(sent.forwarded),
                  Preserves(cfg, ResolvedFirst(cfg, r, message, t).value, ParamsOf(message)),
                  ThreadOf(accepted, t))
  {
    var sent, key := ClientMessage(cfg, r, message, env), Get(message, Id).value;
    var later := Run(cfg, sent.router, events);
    var turn := PendingTurn(t, FirstRoute(cfg, ResolvedFirst(cfg, r, message, t).value, ParamsOf(message)));
    FirstTurnIsOutstanding(cfg, r, message, env, t);
    RequestsStayOutstanding(cfg, sent.router, events, key);
    AcceptanceCommits(later, turn, key, response, env');
    FirstTurnWire(cfg, r, message, env, t, ThreadOf(later, t), env'.decisionId);
  }

  lemma RewrittenEffortText(params: map<Key, Value>, model: string, effort: Option<string>, tier: Option<string>)
    ensures AsText(EffortValue(Object(Rewritten(params, model, effort, tier)))) == effort
  {
  }

  // ---------- Feedback from changed routes ----------

  /** Undoing a change of model and effort is feedback the other way, and undoing an ambiguous one is none. */
  lemma UndoingAChangeReversesItsFeedback(state: ThreadState, next: ExplicitRoute)
    requires state.model.Some? && state.effort.Some? && state.family == Some(FamilyOf(state.model.value))
    requires next.model.Some? && next.effort.Some?
    ensures var change := FeedbackForChange(state, next);
      var undo := FeedbackForChange(Adopted(state, next), ExplicitRoute(state.model, state.effort));
      && (change == Some(Log.Underpowered) <==> undo == Some(Log.Overkill))
      && (change == Some(Log.Overkill) <==> undo == Some(Log.Underpowered))
      && (change == None <==> undo == None)
  {
  }

  // ---------- Echoes ----------

  predicate Canonical(native: Option<string>) {
    native.Some? && native == NativeName(ParseText(native))
  }

  /** The parameters say exactly what the thread is pinned to. */
  predicate Echoes(params: Value, state: ThreadState) {
    ParseExplicitRoute(params) == ExplicitRoute(state.model, ParseText(PinnedEffort(state)))
  }

  /**
   * A follow-up that echoes the pin leaves it alone exactly when the effort is pinned on the command
   * line or the native effort is written canonically; a pinned level that agrees with its native
   * value never turns an echo into feedback.
   */
  lemma EchoChangesNothing(cfg: Config, state: ThreadState, params: Value)
    requires state.model.Some? && ParseText(PinnedEffort(state)).Some? && Echoes(params, state)
    ensures PinOf(KeptState(cfg, state, params)) == PinOf(state)
       <==> cfg.EffortPinned() || Canonical(PinnedEffort(state))
    ensures state.effort == ParseText(PinnedEffort(state)) || Canonical(PinnedEffort(state)) ==>
      FeedbackForChange(state, Differing(cfg, state, ParseExplicitRoute(params))).None?
  {
    var level := ParseText(PinnedEffort(state)).value;
    if state.nativeEffort.None? {
      NativeNameRoundTrip(state.effort.value);
    }
  }

  /** A catalog that lists `High` instead of `high` makes the first echo move the stored native effort. */
  lemma NonCanonicalEchoMovesThePin(cfg: Config)
    requires !cfg.EffortPinned()
    ensures var state := NEW_THREAD.(
        initialized := true, model := Some("gpt-sol"), effort := Some(High), nativeEffort := Some("High"));
      var params := Object(map[Model := Str("gpt-sol"), Effort := Str("High")]);
      Echoes(params, state) && KeptState(cfg, state, params).nativeEffort == Some("high")
  {
    assert LevelText("High") == "high";
    assert "High"[0] != "high"[0];
  }

  /**
   * A settings update leaves the service tier of its thread alone if and only if the thread is not
   * initialised, or no unpinned route is named, or no new tier is sent. Whether the command line pins
   * the tier makes no difference.
   */
  lemma SettingsUpdateMovesTierExactlyWhen(cfg: Config, r: Router, t: string, update: Value, env: Env)
    requires Calls(update, "thread/settings/update") && ThreadIdOf(update) == Some(t)
    ensures ThreadOf(ClientMessage(cfg, r, update, env).router, t).serviceTier == ThreadOf(r, t).serviceTier
      <==> !(&& ThreadOf(r, t).initialized
             && Unpinned(cfg, ParseExplicitRoute(ParamsOf(update))) != ExplicitRoute(None, None)
             && Get(ParamsOf(update), ServiceTier).Some?
             && ServiceTierAt(ParamsOf(update)) != ThreadOf(r, t).serviceTier)
  {
    assert ClientMessage(cfg, r, update, env) == SettingsUpdate(cfg, r, t, update, env);
  }

  // ---------- Quirks that the join has to make up for ----------

  /** A settings update turns a native-preserved thread into an explicit one without touching its decision. */
  lemma SettingsUpdateHidesPreservation(cfg: Config, r: Router, t: string, update: Value, env: Env)
    requires t in r.threads && r.threads[t].initialized && r.threads[t].source.NativePreserved?
    requires Calls(update, "thread/settings/update") && ThreadIdOf(update) == Some(t)
    requires Unpinned(cfg, ParseExplicitRoute(ParamsOf(update))) != ExplicitRoute(None, None)
    ensures var updated := ClientMessage(cfg, r, update, env);
      && updated.lines == []
      && t in updated.router.threads
      && var state := updated.router.threads[t];
         && state.initialized && state.source.Explicit?
         && state.decisionId == r.threads[t].decisionId && state.repo == r.threads[t].repo
         && state.feedbackRecorded == r.threads[t].feedbackRecorded
  {
  }

  /** A settings update of this thread that names a route the command line leaves free. */
  predicate MovesRoute(cfg: Config, e: Event, t: string) {
    && e.Client? && Calls(e.message, "thread/settings/update") && ThreadIdOf(e.message) == Some(t)
    && Unpinned(cfg, ParseExplicitRoute(ParamsOf(e.message))) != ExplicitRoute(None, None)
  }

  lemma TurnKeepsPreservation(cfg: Config, r: Router, m: Value, env: Env, t: string)
    requires ThreadOf(r, t).initialized && ThreadOf(r, t).source.NativePreserved?
    requires ThreadIdOf(m) == Some(t) && Calls(m, "turn/start")
    ensures var after := ThreadOf(ClientMessage(cfg, r, m, env).router, t);
      after.decisionId == ThreadOf(r, t).decisionId && after.source.NativePreserved?
  {
    assert ClientMessage(cfg, r, m, env) == KeepTurn(cfg, r, t, m, PromptText(ParamsOf(m)), env);
  }

  lemma UpdateEndsPreservationExactlyWhen(cfg: Config, r: Router, m: Value, env: Env, t: string)
    requires ThreadOf(r, t).initialized && ThreadOf(r, t).source.NativePreserved?
    requires ThreadIdOf(m) == Some(t) && Calls(m, "thread/settings/update")
    ensures var after := ThreadOf(ClientMessage(cfg, r, m, env).router, t);
      && after.decisionId == ThreadOf(r, t).decisionId
      && (!after.source.NativePreserved? <==> MovesRoute(cfg, Client(m, env), t))
  {
    assert ClientMessage(cfg, r, m, env) == SettingsUpdate(cfg, r, t, m, env);
  }

  lemma ClientEndsPreservationExactlyWhen(cfg: Config, r: Router, m: Value, env: Env, t: string)
    requires ThreadOf(r, t).initialized && ThreadOf(r, t).source.NativePreserved?
    requires ThreadIdOf(m) == Some(t)
    ensures var after := ThreadOf(ClientMessage(cfg, r, m, env).router, t);
      && after.decisionId == ThreadOf(r, t).decisionId
      && (!after.source.NativePreserved? <==> MovesRoute(cfg, Client(m, env), t))
  {
    if Calls(m, "turn/start") {
      TurnKeepsPreservation(cfg, r, m, env, t);
      assert "turn/start"[1] != "thread/settings/update"[1];
    } else if Calls(m, "thread/settings/update") {
      UpdateEndsPreservationExactlyWhen(cfg, r, m, env, t);
    } else {
      OtherThreadsUntouched(cfg, r, Client(m, env), t);
    }
  }

  lemma ServerKeepsPreservation(r: Router, m: Value, env: Env, t: string)
    requires ThreadOf(r, t).source.NativePreserved? && env.decisionId != ThreadOf(r, t).decisionId
    ensures var after := ThreadOf(ServerMessage(r, m, env).router, t);
      after.decisionId == ThreadOf(r, t).decisionId ==> after.source.NativePreserved?
  {
  }

  /**
   * A thread stops counting as native-preserved while it keeps its native-preserved decision if and
   * only if the message is a settings update of its own that names a route the command line leaves free.
   */
  lemma PreservationEndsExactlyWhen(cfg: Config, r: Router, e: Event, t: string)
    requires ThreadOf(r, t).initialized && ThreadOf(r, t).source.NativePreserved?
    requires e.env.decisionId != ThreadOf(r, t).decisionId
    ensures var after := ThreadOf(Handle(cfg, r, e).router, t);
      after.decisionId == ThreadOf(r, t).decisionId && !after.source.NativePreserved? <==> MovesRoute(cfg, e, t)
  {
    match e
    case Client(m, env) =>
      if ThreadIdOf(m) == Some(t) {
        ClientEndsPreservationExactlyWhen(cfg, r, m, env, t);
      } else {
        OtherThreadsUntouched(cfg, r, e, t);
      }
    case Server(m, env) => ServerKeepsPreservation(r, m, env, t);
  }

  /** What a turn whose prompt is a correction logs: nothing on a preserved thread, one event otherwise. */
  lemma CorrectionLogs(cfg: Config, r: Router, t: string, turn: Value, env: Env)
    requires t in r.threads && r.threads[t].initialized && CanRecord(r.threads[t]) && env.appended
    requires Calls(turn, "turn/start") && ThreadIdOf(turn) == Some(t)
    requires PromptText(ParamsOf(turn)).Some? && cfg.correction(PromptText(ParamsOf(turn)).value).Some?
    ensures var lines := ClientMessage(cfg, r, turn, env).lines;
      if r.threads[t].source.NativePreserved? then lines == []
      else |lines| == 1 && lines[0].FeedbackLine? && lines[0].feedback.decisionId == r.threads[t].decisionId
  {
  }

  /**
   * So a correction after a settings update is logged against a native-preserved decision, which the
   * same correction before it would not have been; the tuning join has to exclude it.
   */
  lemma SettingsUpdateReopensNativeDecisions(
      cfg: Config, r: Router, t: string, update: Value, turn: Value, env: Env, env': Env)
    requires t in r.threads && r.threads[t].initialized && r.threads[t].source.NativePreserved?
        && CanRecord(r.threads[t])
    requires Calls(update, "thread/settings/update") && ThreadIdOf(update) == Some(t)
    requires Unpinned(cfg, ParseExplicitRoute(ParamsOf(update))) != ExplicitRoute(None, None)
    requires Calls(turn, "turn/start") && ThreadIdOf(turn) == Some(t) && env'.appended
    requires PromptText(ParamsOf(turn)).Some? && cfg.correction(PromptText(ParamsOf(turn)).value).Some?
    ensures ClientMessage(cfg, r, turn, env').lines == []
    ensures var lines := ClientMessage(cfg, ClientMessage(cfg, r, update, env).router, turn, env').lines;
      |lines| == 1 && lines[0].FeedbackLine? && lines[0].feedback.decisionId == r.threads[t].decisionId
  {
    SettingsUpdateHidesPreservation(cfg, r, t, update, env);
    CorrectionLogs(cfg, r, t, turn, env');
    CorrectionLogs(cfg, ClientMessage(cfg, r, update, env).router, t, turn, env');
  }

  lemma FirstTurnConsumes(cfg: Config, r: Router, message: Value, env: Env, t: string)
    requires IsFirstTurn(r, message, t)
    ensures var after := ClientMessage(cfg, r, message, env).router;
      && ThreadOf(after, t) == ThreadOf(r, t).(nextExplicit := None)
      && after.resumes == r.resumes
  {
  }

  lemma RejectionChangesNoThread(r: Router, response: Value, env: Env, t: string)
    requires Get(response, Error).Some?
    ensures ThreadOf(ServerMessage(r, response, env).router, t) == ThreadOf(r, t)
  {
  }

  /** A rejected first turn uses up the waiting explicit route: nothing of it is left for the next one. */
  lemma RejectedTurnConsumesTheRoute(
      cfg: Config, r: Router, message: Value, env: Env, t: string, response: Value, env': Env)
    requires IsFirstTurn(r, message, t)
    requires Get(response, Id) == Get(message, Id) && Get(response, Error).Some?
    ensures var after := ServerMessage(ClientMessage(cfg, r, message, env).router, response, env').router;
      ThreadOf(after, t) == ThreadOf(r, t).(nextExplicit := None)
  {
    FirstTurnConsumes(cfg, r, message, env, t);
    RejectionChangesNoThread(ClientMessage(cfg, r, message, env).router, response, env', t);
  }
}
