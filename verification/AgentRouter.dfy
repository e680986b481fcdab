/** The adaptive agent as it runs: three maps updated in place, a shared log and a shared calibration file. */
module AgentRouter {
  import opened Types
  import opened Text
  import opened Json
  import opened Wire
  import opened Agent
  import opened Tuning
  import Log

  /** The state directory: the append-only log and the calibration file. */
  class StateDir {
    var log: seq<Log.Line>
    var calibrations: map<string, Applied>

    constructor ()
      ensures log == [] && calibrations == map[]
    {
      log, calibrations := [], map[];
    }
  }

  /** The calibrations after deriving one repository's recommendation from a log and saving it. */
  function Calibrated(log: seq<Log.Line>, store: map<string, Applied>, repo: string): map<string, Applied> {
    Saved(store, TuningOf(repo, CountsFor(log, repo), store))
  }

  /** The calibrations after a step: untouched unless feedback was logged and the files could be used. */
  function AfterStep(effect: Effect, log: seq<Log.Line>, store: map<string, Applied>, filesUsable: bool)
    : map<string, Applied>
  {
    if effect.calibrate.Some? && filesUsable then Calibrated(log, store, effect.calibrate.value) else store
  }

  /** Without feedback, or without usable files, a step leaves the calibrations alone. */
  lemma OnlyFeedbackCalibrates(effect: Effect, log: seq<Log.Line>, store: map<string, Applied>, filesUsable: bool)
    ensures effect.calibrate.None? || !filesUsable ==> AfterStep(effect, log, store, filesUsable) == store
    ensures effect.calibrate.Some? && filesUsable ==>
      AfterStep(effect, log, store, filesUsable) - {effect.calibrate.value} == store - {effect.calibrate.value}
  {
  }

  class AgentRouter {
    const cfg: Config
    const dir: StateDir
    var threads: map<string, ThreadState>
    var pending: map<Value, PendingTurn>
    var pendingResumes: map<Value, string>

    constructor (cfg: Config, dir: StateDir)
      ensures State() == IDLE && this.cfg == cfg && this.dir == dir
    {
      this.cfg, this.dir := cfg, dir;
      threads, pending, pendingResumes := map[], map[], map[];
    }

    function State(): Router
      reads this
    {
      Router(threads, pending, pendingResumes)
    }

    /** The state, the log and the calibrations changed exactly as the effect says. */
    twostate predicate Performed(effect: Effect, filesUsable: bool)
      reads this, dir
    {
      && State() == effect.router
      && dir.log == old(dir.log) + effect.lines
      && dir.calibrations == AfterStep(effect, dir.log, old(dir.calibrations), filesUsable)
    }

    /** Derives a repository's recommendation from the whole log and saves it. */
    method Recalibrate(repo: string)
      modifies dir`calibrations
      ensures dir.calibrations == Calibrated(dir.log, old(dir.calibrations), repo)
    {
      var log, loaded := dir.log, dir.calibrations;
      var tunings := AnalyzeRepository(log, loaded, Some(repo));
      assert repo in tunings.Keys;
      var tuning := tunings[repo];
      assert tuning == TuningOf(repo, CountsFor(log, repo), loaded);
      var store := new CalibrationStore(loaded);
      var change := store.SaveRecommendation(tuning);
      dir.calibrations := store.repositories;
    }

    /**
     * Appends one feedback event for the thread's decision, marks the decision, and derives the
     * repository's calibration from the whole log.
     */
    method RecordFeedback(state: ThreadState, kind: Log.Kind, source: Log.FeedbackSource, env: Env, filesUsable: bool)
      returns (after: ThreadState)
      modifies dir
      ensures after == Recorded(state, Some((kind, source)), env)
      ensures dir.log == old(dir.log) + RecordedLines(state, Some((kind, source)), env)
      ensures dir.calibrations ==
        var repo := RecordedJob(state, Some((kind, source)), env);
        if repo.Some? && filesUsable then Calibrated(dir.log, old(dir.calibrations), repo.value)
            else old(dir.calibrations)
    {
      after := state;
      if state.feedbackRecorded || state.decisionId.None? || state.repo.None? || !env.appended {
        return;
      }
      dir.log := dir.log + [Log.FeedbackLine(Log.FeedbackRecord(state.decisionId, Some(kind), Some(source)))];
      after := after.(feedbackRecorded := true);
      if filesUsable {
        Recalibrate(state.repo.value);
      }
    }

    /** Takes a settings update into an initialised thread, or keeps it waiting for the first turn. */
    static method ApplySettings(initial: ThreadState, route: ExplicitRoute, params: Value) returns (state: ThreadState)
      requires route.model.Some? || route.effort.Some?
      ensures state == SettingsApplied(initial, route, params)
    {
      state := initial;
      if state.initialized {
        if route.model.Some? {
          state := state.(family := Some(FamilyOf(route.model.value)), model := route.model);
        }
        if route.effort.Some? {
          state := state.(effort := route.effort, nativeEffort := NativeName(route.effort));
        }
        if Get(params, ServiceTier).Some? {
          state := state.(serviceTier := ServiceTierAt(params));
        }
        if route.model.Some? || route.effort.Some? {
          state := state.(source := Explicit);
        }
      } else {
        state := state.(nextExplicit := Some(route));
      }
    }

    /** Takes the values of a later turn that differ from the pin and that nothing pins. */
    method ApplyIncoming(initial: ThreadState, params: Value) returns (state: ThreadState)
      ensures state == KeptState(cfg, initial, params)
    {
      state := initial;
      var change := Differing(cfg, state, ParseExplicitRoute(params));
      if change.model.Some? {
        state := state.(family := Some(FamilyOf(change.model.value)), model := change.model);
      }
      if change.effort.Some? {
        state := state.(effort := change.effort, nativeEffort := NativeName(change.effort));
      }
      if !cfg.TierPinned() && Get(params, ServiceTier).Some? {
        state := state.(serviceTier := ServiceTierAt(params));
      }
    }

    /** The model and effort a first turn is routed with, the waiting explicit route included. */
    method TurnChoices(next: Option<ExplicitRoute>) returns (model: Option<string>, effort: Option<ReasoningLevel>)
      ensures model == TurnModel(cfg, next) && effort == TurnEffort(cfg, next)
    {
      model, effort := cfg.model, cfg.effort;
      if cfg.model.None? && cfg.family.None? && cfg.native.model.None? && next.Some? && next.value.model.Some? {
        model := next.value.model;
      }
      if cfg.effort.None? && cfg.native.effortRaw.None? && next.Some? && next.value.effort.Some? {
        effort := next.value.effort;
      }
    }

    /** The requested change without what the command line pins. */
    method UnpinnedChange(params: Value) returns (route: ExplicitRoute)
      ensures route == Unpinned(cfg, ParseExplicitRoute(params))
    {
      route := ParseExplicitRoute(params);
      if cfg.model.Some? || cfg.family.Some? || cfg.native.model.Some? {
        route := route.(model := None);
      }
      if cfg.effort.Some? || cfg.native.effortRaw.Some? {
        route := route.(effort := None);
      }
    }

    method NoteExplicitRoute(t: string, message: Value, env: Env, filesUsable: bool)
      modifies this, dir
      ensures Performed(SettingsUpdate(cfg, old(State()), t, message, env), filesUsable)
    {
      var params := ParamsOf(message);
      var route := UnpinnedChange(params);
      if route.model.None? && route.effort.None? {
        return;
      }
      var state := if t in threads then threads[t] else NEW_THREAD;
      var feedback: Option<Log.Kind> := None;
      if !state.source.NativePreserved? && state.initialized && state.decisionId.Some? && !state.feedbackRecorded {
        feedback := FeedbackForChange(state, route);
      }
      state := ApplySettings(state, route, params);
      if feedback.Some? {
        state := RecordFeedback(state, feedback.value, Log.ExplicitRouteChange, env, filesUsable);
      }
      threads := threads[t := state];
    }

    method KeepSessionRoute(t: string, message: Value, prompt: Option<string>, env: Env, filesUsable: bool)
      returns (forwarded: Value)
      requires ParamsOf(message).Object?
      modifies this, dir
      ensures var effect := KeepTurn(cfg, old(State()), t, message, prompt, env);
        forwarded == effect.forwarded && Performed(effect, filesUsable)
    {
      var params := ParamsOf(message);
      var state := if t in threads then threads[t] else NEW_THREAD;
      var explicit := FeedbackForChange(state, Differing(cfg, state, ParseExplicitRoute(params)));
      state := ApplyIncoming(state, params);
      forwarded := message;
      if state.model.Some? {
        var rewritten := RewriteTurnParams(params.fields, state.model.value, PinnedEffort(state), state.serviceTier);
        forwarded := WithParams(message, rewritten);
      }
      if !state.source.NativePreserved? {
        if explicit.Some? {
          state := RecordFeedback(state, explicit.value, Log.ExplicitRouteChange, env, filesUsable);
        } else if prompt.Some? && cfg.correction(prompt.value).Some? {
          state := RecordFeedback(state, cfg.correction(prompt.value).value, Log.ImplicitCorrection, env, filesUsable);
        }
      }
      threads := threads[t := state];
    }

    method PinUnclassifiedSession(t: string, params: Value)
      modifies this
      ensures State() == WithThread(old(State()), t, Unclassified(ThreadOf(old(State()), t), params))
    {
      var incoming := ParseExplicitRoute(params);
      var state := if t in threads then threads[t] else NEW_THREAD;
      state := state.(initialized := true, source := NativePreserved);
      if incoming.model.Some? {
        state := state.(family := Some(FamilyOf(incoming.model.value)), model := incoming.model);
      }
      if incoming.effort.Some? {
        state := state.(effort := incoming.effort, nativeEffort := NativeName(incoming.effort));
      }
      state := state.(serviceTier := ServiceTierAt(params));
      threads := threads[t := state];
    }

    method RouteInitialTurn(t: string, message: Value, prompt: string) returns (forwarded: Value)
      requires ParamsOf(message).Object?
      modifies this
      ensures var effect := FirstTurn(cfg, old(State()), t, message, prompt);
        forwarded == effect.forwarded && State() == effect.router && effect.lines == [] && effect.calibrate.None?
    {
      forwarded := message;
      var state := if t in threads then threads[t] else NEW_THREAD;
      var next := state.nextExplicit;
      threads := threads[t := state.(nextExplicit := None)];
      var model, effort := TurnChoices(next);
      var resolved := cfg.resolve(model, effort, prompt);
      if resolved.None? {
        return;
      }
      var params := ParamsOf(message);
      var route := resolved.value;
      if Preserves(cfg, route, params) {
        route := PreservedRoute(cfg, route, params);
      } else {
        var rewritten := RewriteTurnParams(params.fields, route.model, route.nativeEffort, route.serviceTier);
        forwarded := WithParams(message, rewritten);
      }
      var key := Get(forwarded, Id);
      if key.None? {
        return;
      }
      pending := pending[key.value := PendingTurn(t, route)];
    }

    method CommitTurn(key: Value, message: Value, env: Env)
      requires key in pending
      modifies this, dir
      ensures Performed(Commit(old(State()), key, message, env), true)
    {
      var turn := pending[key];
      pending := pending - {key};
      if Get(message, Error).Some? {
        return;
      }
      var route := turn.route;
      if env.decisionId.Some? {
        dir.log := dir.log + [DecisionLineOf(env.decisionId.value, route)];
      }
      var state := if turn.threadId in threads then threads[turn.threadId] else NEW_THREAD;
      state := state.(initialized := true, family := Some(route.family), effort := Some(route.displayLevel));
      state := state.(model := Some(route.model), nativeEffort := route.nativeEffort, serviceTier := route.serviceTier);
      state := state.(decisionId := env.decisionId, repo := Some(route.repo), feedbackRecorded := false);
      state := state.(source := route.source);
      threads := threads[turn.threadId := state];
    }

    method NoteResumeResponse(t: string, message: Value)
      modifies this
      ensures var result := Get(message, Result);
        State() == if Get(message, Error).Some? || result.None? then old(State())
                   else WithThread(old(State()), t, ResumedState(ThreadOf(old(State()), t), result.value))
    {
      var result := Get(message, Result);
      if Get(message, Error).Some? || result.None? {
        return;
      }
      var model := TextAt(result.value, Model);
      var effort := ParseText(TextAt(result.value, ResumedEffort));
      var state := if t in threads then threads[t] else NEW_THREAD;
      state := state.(initialized := true, source := NativePreserved);
      if model.Some? {
        state := state.(family := Some(FamilyOf(model.value)), model := model);
      }
      if effort.Some? {
        state := state.(effort := effort, nativeEffort := NativeName(effort));
      }
      state := state.(serviceTier := ServiceTierAt(result.value));
      threads := threads[t := state];
    }

    /** One message from the client; the result is the message as forwarded to the server. */
    method HandleClient(message: Value, env: Env, filesUsable: bool) returns (forwarded: Value)
      modifies this, dir
      ensures var effect := ClientMessage(cfg, old(State()), message, env);
        forwarded == effect.forwarded && Performed(effect, filesUsable)
    {
      forwarded := message;
      if Calls(message, "initialize") {
        return;
      }
      var thread := ThreadIdOf(message);
      if Calls(message, "thread/resume") && Get(message, Id).Some? && thread.Some? {
        pendingResumes := pendingResumes[Get(message, Id).value := thread.value];
        return;
      }
      if Calls(message, "thread/settings/update") && thread.Some? {
        NoteExplicitRoute(thread.value, message, env, filesUsable);
        return;
      }
      if !Calls(message, "turn/start") || thread.None? {
        return;
      }
      var prompt := PromptText(ParamsOf(message));
      if thread.value in threads && threads[thread.value].initialized {
        forwarded := KeepSessionRoute(thread.value, message, prompt, env, filesUsable);
        return;
      }
      if prompt.None? {
        PinUnclassifiedSession(thread.value, ParamsOf(message));
        return;
      }
      forwarded := RouteInitialTurn(thread.value, message, prompt.value);
    }

    /** One message from the server; server messages are always forwarded as they are. */
    method HandleServer(message: Value, env: Env)
      modifies this, dir
      ensures Performed(ServerMessage(old(State()), message, env), true)
    {
      var key := Get(message, Id);
      if key.Some? {
        if key.value in pendingResumes {
          var thread := pendingResumes[key.value];
          pendingResumes := pendingResumes - {key.value};
          NoteResumeResponse(thread, message);
          return;
        }
        if key.value in pending {
          CommitTurn(key.value, message, env);
        }
      }
    }
  }
}
