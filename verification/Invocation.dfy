/** What an invocation's flags, forwarded overrides, configuration and repository state do to its route. */
module Invocation {
  import opened Types
  import opened Text
  import opened Features
  import Score
  import opened Select
  import opened Route
  import opened Rules
  import opened Args
  import opened Capabilities
  import Launch
  import opened Resolve

  // ---------- Contradictions ----------

  /** Two places that may both name a value name the same one. */
  predicate Agree<T(==)>(a: Option<T>, b: Option<T>) { a.None? || b.None? || a == b }

  /**
   * An invocation is accepted if and only if at most one of model and family is named, everything that
   * is named twice is the same, and a forwarded tier stands beside no Fast flag.
   */
  lemma AcceptedExactlyWhen(s: Setup)
    ensures !Contradictory(s) <==>
      && (s.family.Some? ==> s.model.None? && s.native.model.None?)
      && Agree(s.model, s.native.model) && Agree(s.effort, s.native.effort)
      && (s.native.serviceTier.None? || (!s.fast && !s.noFast && !s.inheritFast))
  {
  }

  // ---------- Explicit choices ----------

  /** The effort that is named, cauto's own before the forwarded one; without a prompt the configured one. */
  function NamedEffort(s: Setup): Option<ReasoningLevel> {
    if s.effort.Some? then s.effort
    else if s.native.effort.Some? then s.native.effort
    else if s.hasPrompt then None else Some(s.config.defaultEffort)
  }

  function CommandLineModel(s: Setup): Option<string> { if s.model.Some? then s.model else s.native.model }

  /** The family that is named, directly or by a model; without a prompt that of the configured model. */
  function NamedFamily(s: Setup): Option<ModelFamily> {
    if s.family.Some? then s.family
    else if CommandLineModel(s).Some? then Some(FamilyOf(CommandLineModel(s).value))
    else if s.hasPrompt then None else Some(FamilyOf(s.config.defaultModel))
  }

  /** A named effort is decided; beside one, so is a named family. */
  lemma NamedRouteIsDecided(s: Setup, a: Assessment, applied: Application)
    requires NamedEffort(s).Some?
    ensures var decision := DecisionFor(s, a, applied);
      && decision.effort == NamedEffort(s).value
      && (NamedFamily(s).Some? ==> decision.family == NamedFamily(s).value)
  {
    var base, c := Score.NormalizedScore(applied.dimensions, s.config.weights), Assembled(s, a, applied);
    assert c.explicitEffort == NamedEffort(s) && c.explicitFamily == NamedFamily(s);
    ExplicitEffortWins(a.taskType, applied.dimensions, base, c);
    if NamedFamily(s).Some? { ExplicitFamilyYieldsOnlyToUltra(a.taskType, applied.dimensions, base, c); }
  }

  /** A named family alone is decided too, unless a large parallel task gets Ultra or Max on Sol. */
  lemma NamedFamilyIsDecided(s: Setup, a: Assessment, applied: Application)
    requires NamedFamily(s).Some?
    ensures var decision := DecisionFor(s, a, applied);
      decision.family == NamedFamily(s).value || (decision.family == Sol && decision.ultraCandidate)
  {
    var base, c := Score.NormalizedScore(applied.dimensions, s.config.weights), Assembled(s, a, applied);
    assert c.explicitFamily == NamedFamily(s);
    ExplicitFamilyYieldsOnlyToUltra(a.taskType, applied.dimensions, base, c);
  }

  /** cauto's own model comes before a forwarded one, and the configured one is used only without a prompt. */
  lemma ModelIsLaunched(s: Setup, d: Decision, models: seq<Model>)
    requires Conclude(s, d, models).Routed?
    ensures var launched := Conclude(s, d, models).route.preset.modelId;
      && (s.model.Some? ==> SameIgnoringCase(launched, s.model.value))
      && (s.model.None? && s.native.model.Some? ==> SameIgnoringCase(launched, s.native.model.value))
      && (CommandLineModel(s).None? && !s.hasPrompt ==> SameIgnoringCase(launched, s.config.defaultModel))
  {
    var id := RequestFor(s, d).modelId;
    if id.Some? {
      FindModelIsFirst(models, id.value);
    }
  }

  /**
   * A model that the catalog does not list is launched as it was named, with the decided effort below
   * Max and no tier; a stronger effort is refused, and so is an unlisted configured model.
   */
  lemma UnlistedModelIsLaunched(s: Setup, d: Decision, models: seq<Model>, id: string)
    requires forall m | m in models :: !SameIgnoringCase(m.id, id)
    ensures CommandLineModel(s) == Some(id) && d.effort.Rank() < Max.Rank() ==>
      && Conclude(s, d, models).Routed? && !Conclude(s, d, models).route.downgraded
      && Conclude(s, d, models).route.preset == Preset(id, FamilyOf(id), d.effort, Some(d.effort.NativeName()), None)
    ensures CommandLineModel(s) == Some(id) && d.effort.Rank() >= Max.Rank() ==>
      Conclude(s, d, models) == Unavailable(UnlistedPresetNotProven)
    ensures CommandLineModel(s).None? && !s.hasPrompt && s.config.defaultModel == id ==>
      Conclude(s, d, models) == Unavailable(ModelUnknown)
  {
    FindModelIsFirst(models, id);
  }

  /** The route counts as explicit if and only if the command line names a model, a family or an effort. */
  lemma SourceIsExact(s: Setup, d: Decision, models: seq<Model>)
    requires Conclude(s, d, models).Routed?
    ensures var source := Conclude(s, d, models).route.source;
      && (source == Local <==>
            s.model.None? && s.family.None? && s.effort.None? && s.native.model.None? && s.native.effortRaw.None?)
      && (source != Local ==> source == Explicit)
  {
  }

  // ---------- Ultra ----------

  /** Two different matched rules raise parallel work. */
  predicate TwoRaiseParallel(matches: seq<Rule>) {
    exists i, j | 0 <= i < j < |matches| :: matches[i].deltas.parallel > 0 && matches[j].deltas.parallel > 0
  }

  lemma {:induction false} RaisingRulesAreCounted(matches: seq<Rule>)
    ensures ParallelRules(matches) >= 1 <==> exists i | 0 <= i < |matches| :: matches[i].deltas.parallel > 0
    ensures ParallelRules(matches) >= 2 <==> TwoRaiseParallel(matches)
  {
    if matches != [] {
      var front, last := matches[..|matches| - 1], |matches| - 1;
      RaisingRulesAreCounted(front);
      assert forall i | 0 <= i < last :: front[i] == matches[i];
      if matches[last].deltas.parallel > 0 {
        if i :| 0 <= i < last && front[i].deltas.parallel > 0 {
          assert matches[i].deltas.parallel > 0;
        }
      }
    }
  }

  /** A flag, the prompt, the repository's instructions or the configuration lets Ultra through. */
  predicate Allows(s: Setup, a: Assessment) {
    || s.allowUltra || a.delegationRequested
    || (!s.delegationNeedsRequest && (s.instructionsDelegate || !s.config.ultraRequiresOptIn))
  }

  /**
   * Without a named effort and bounds from rules, Ultra is decided if and only if the task scores 69 or
   * more before calibration, has parallel work of 3 or more, in tracks that the prompt or two matched
   * rules speak of, and Ultra is allowed.
   */
  lemma UltraIsDecidedExactlyWhen(s: Setup, a: Assessment, applied: Application)
    requires NamedEffort(s).None? && applied.bounds.effortFloor.None? && applied.bounds.effortCeiling.None?
    ensures DecisionFor(s, a, applied).effort == Ultra <==>
      && Score.NormalizedScore(applied.dimensions, s.config.weights) >= 69 && applied.dimensions.parallel >= 3
      && (a.parallelTracks || TwoRaiseParallel(applied.matches))
      && Allows(s, a)
  {
    RaisingRulesAreCounted(applied.matches);
    UltraExactlyWhen(a.taskType, applied.dimensions,
                     Score.NormalizedScore(applied.dimensions, s.config.weights), Assembled(s, a, applied));
  }

  // ---------- Repository state and rules ----------

  /** The repository's calibration reaches the score of the decision. */
  lemma CalibrationIsUsed(s: Setup, a: Assessment, applied: Application)
    ensures CalibrationApplied(a.taskType, Score.NormalizedScore(applied.dimensions, s.config.weights), s.calibration,
                               DecisionFor(s, a, applied).score)
  {
    var base := Score.NormalizedScore(applied.dimensions, s.config.weights);
    Score.ScoreIsNearestPercentage(applied.dimensions, s.config.weights);
    CalibrationReachesTheScore(a.taskType, applied.dimensions, base, Assembled(s, a, applied), applied.conflicts);
  }

  /** Nothing but the score, the prior route and the margin decides. */
  predicate LeftToTheScore(s: Setup, a: Assessment, applied: Application) {
    && NamedEffort(s).None? && NamedFamily(s).None? && applied.bounds == Bounds(None, None, None, None)
    && !AtRisk(a.taskType, applied.dimensions) && !DecisionFor(s, a, applied).ultraCandidate
  }

  /** Then the previous route of the repository is kept or left by the margin the configuration asks for. */
  lemma PriorRouteIsUsed(s: Setup, a: Assessment, applied: Application)
    requires LeftToTheScore(s, a, applied)
    ensures var decision := DecisionFor(s, a, applied);
      && decision.effort == EffortWithHysteresis(decision.score, s.priorEffort, s.margin)
      && decision.family == FamilyWithHysteresis(applied.dimensions, decision.score, s.priorFamily, s.margin)
  {
  }

  /** A risky task gets at least High and a family of rank 2, where nothing is named and no rule sets a ceiling. */
  lemma RiskIsEscalated(s: Setup, a: Assessment, applied: Application)
    requires NamedEffort(s).None? && NamedFamily(s).None? && AtRisk(a.taskType, applied.dimensions)
    requires applied.bounds.familyCeiling.None? && applied.bounds.effortCeiling.None?
    ensures var decision := DecisionFor(s, a, applied);
      decision.effort.Rank() >= High.Rank() && decision.family.Rank() == 2
  {
  }

  /** A bound of the rules without a contradicting one holds of the decision, where nothing is named. */
  lemma RuleBoundsHold(s: Setup, a: Assessment, applied: Application)
    requires NamedEffort(s).None? && NamedFamily(s).None?
    requires applied.bounds.familyFloor.None? || applied.bounds.familyCeiling.None?
    requires applied.bounds.effortFloor.None? || applied.bounds.effortCeiling.None?
    ensures var decision, bounds := DecisionFor(s, a, applied), applied.bounds;
      && (bounds.effortFloor.Some? ==>
            decision.effort.Rank() >= (if Allows(s, a) then bounds.effortFloor.value.Rank()
                                       else if bounds.effortFloor == Some(Ultra) then Max.Rank()
                                       else bounds.effortFloor.value.Rank()))
      && (bounds.effortCeiling.Some? ==> decision.effort.Rank() <= bounds.effortCeiling.value.Rank())
      && (bounds.familyFloor.Some? ==> decision.family.Rank() >= bounds.familyFloor.value.Rank())
      && (bounds.familyCeiling.Some? && !decision.ultraCandidate && decision.effort != Ultra
          && bounds.effortFloor != Some(Ultra) ==>
            decision.family.Rank() <= bounds.familyCeiling.value.Rank())
  {
    var base, c := Score.NormalizedScore(applied.dimensions, s.config.weights), Assembled(s, a, applied);
    if c.effortFloor.Some? { EffortFloorHolds(a.taskType, applied.dimensions, base, c); }
    if c.effortCeiling.Some? { EffortCeilingHolds(a.taskType, applied.dimensions, base, c); }
    if c.familyFloor.Some? { FamilyFloorHolds(a.taskType, applied.dimensions, base, c); }
    if c.familyCeiling.Some? { FamilyCeilingYieldsOnlyToUltra(a.taskType, applied.dimensions, base, c); }
  }

  // ---------- Mode and downgrades ----------

  /** A prompt's route without a named model is launched on a model that supports the mode of the launch. */
  lemma ModeIsSupported(s: Setup, d: Decision, models: seq<Model>)
    requires Conclude(s, d, models).Routed? && s.hasPrompt && CommandLineModel(s).None?
    ensures exists m | m in models ::
      ComesFrom(Conclude(s, d, models).route.preset, m)
      && (match s.mode case Interactive => m.interactive case Exec => m.exec)
  {
    FirstVisibleIsFirst(models, d.family);
    var i :| IsFirstVisible(models, d.family, i) && models[i] == FirstVisible(models, d.family).value;
    ResolvesExactlyWhen(models[i], RequestFor(s, d));
    assert ResolvePreset(models, RequestFor(s, d)) == ResolveOn(models[i], RequestFor(s, d));
    assert models[i] in models && ComesFrom(Conclude(s, d, models).route.preset, models[i]);
  }

  /** Both the flag and, where neither model nor effort is named, the configuration allow a weaker effort. */
  predicate MayDowngrade(s: Setup) {
    s.allowDowngrade
    || (s.config.automaticDowngrade && CommandLineModel(s).None? && s.effort.None? && s.native.effortRaw.None?)
  }

  /**
   * An effort that the model does not list is replaced by a weaker one only where that is allowed, and
   * where it is not, an explicit effort and an automatic one are refused each with its own error.
   */
  lemma DowngradesNeedConsent(s: Setup, d: Decision, models: seq<Model>)
    ensures var outcome, named := Conclude(s, d, models), s.effort.Some? || s.native.effortRaw.Some?;
      && (outcome.Routed? && outcome.route.downgraded ==> MayDowngrade(s))
      && (outcome == Unavailable(ExplicitDowngradeRefused) ==> !MayDowngrade(s) && named)
      && (outcome == Unavailable(AutomaticDowngradeDisabled) ==> !MayDowngrade(s) && !named)
      && (outcome.Routed? ==> (outcome.route.downgraded <==> outcome.route.preset.displayLevel != d.effort))
  {
    var r := RequestFor(s, d);
    var found := if r.modelId.Some? then FindModel(models, r.modelId.value) else FirstVisible(models, r.family);
    assert r.allowDowngrade == MayDowngrade(s);
    if found.Some? {
      RefusalsAreExact(found.value, r);
      if ResolveOn(found.value, r).Resolved? { DowngradedIsReported(found.value, r); }
    }
  }

  lemma DowngradedIsReported(m: Model, r: Request)
    requires ResolveOn(m, r).Resolved?
    ensures ResolveOn(m, r).downgraded <==> ResolveOn(m, r).preset.displayLevel != r.effort
    ensures ResolveOn(m, r).downgraded ==> r.allowDowngrade
  {
    ResolvedOnModel(m, r);
  }

  // ---------- Injection ----------

  /** Exactly what the user did not forward is injected, and a tier only when the preset has one. */
  lemma OnlyMissingIsInjected(s: Setup, d: Decision, models: seq<Model>)
    requires Conclude(s, d, models).Routed?
    ensures var route := Conclude(s, d, models).route;
      && (route.policy.model <==> s.native.model.None?)
      && (route.policy.effort <==> s.native.effortRaw.None?)
      && (route.policy.serviceTier <==> s.native.serviceTier.None? && route.preset.serviceTier.Some?)
  {
  }

  /**
   * A promptless launch of the route, read back, yields each forwarded override where there is one and
   * otherwise the model, effort and tier that were resolved.
   */
  lemma LaunchReadsBack(s: Setup, d: Decision, models: seq<Model>, plan: Launch.Plan, profile: Option<string>,
                        toml: Toml)
    requires Conclude(s, d, models).Routed? && plan.preset == Conclude(s, d, models).route.preset
    requires toml.RoundTrips() && Launch.Absolute(plan.workingDirectory) && plan.prompt.None?
    requires Scan(plan.inherited, NO_OVERRIDES, toml) == Inspected(s.native)
    requires plan.injected == Launch.InjectedProfile(profile, s.native)
    ensures Scan(Launch.Materialized(plan, Conclude(s, d, models).route.policy, toml), NO_OVERRIDES, toml)
         == Inspected(Launch.Effective(s.native, plan.preset, profile))
  {
    Launch.EffectiveOverrides(plan, s.native, profile, toml);
  }
}
