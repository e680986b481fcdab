/** From an assessed task to a resolved preset: constraint assembly, routing, catalog, injection policy. */
module Resolve {
  import opened Types
  import opened Text
  import opened Features
  import Score
  import opened Select
  import opened Route
  import opened Rules
  import opened Args
  import opened Capabilities
  import Launch

  datatype Config = Config(
    weights: Score.Weights,
    defaultModel: string,
    defaultEffort: ReasoningLevel,
    fastMode: FastMode,
    ultraRequiresOptIn: bool,
    automaticDowngrade: bool)

  /** Command-line choices, forwarded overrides, configuration and repository state of one invocation. */
  datatype Setup = Setup(
    model: Option<string>,
    family: Option<ModelFamily>,
    effort: Option<ReasoningLevel>,
    fast: bool,
    noFast: bool,
    inheritFast: bool,
    allowUltra: bool,
    allowDowngrade: bool,
    native: Overrides,
    config: Config,
    margin: nat,
    priorFamily: Option<ModelFamily>,
    priorEffort: Option<ReasoningLevel>,
    calibration: Calibration,
    instructionsDelegate: bool,
    delegationNeedsRequest: bool,
    hasPrompt: bool,
    mode: LaunchMode)

  datatype ResolvedRoute = ResolvedRoute(
    decision: Decision,
    preset: Preset,
    downgraded: bool,
    policy: Launch.Policy,
    source: RouteSource)

  datatype Outcome = Routed(route: ResolvedRoute) | Conflicting | Unavailable(refusal: Refusal)

  /** cauto's own choice and a forwarded native one contradict each other. */
  predicate Contradictory(s: Setup) {
    || (s.model.Some? && s.family.Some?)
    || (s.model.Some? && s.native.model.Some? && s.model != s.native.model)
    || (s.family.Some? && s.native.model.Some?)
    || (s.effort.Some? && s.native.effort.Some? && s.effort != s.native.effort)
    || ((s.fast || s.noFast || s.inheritFast) && s.native.serviceTier.Some?)
  }

  function First<T>(a: Option<T>, b: Option<T>): Option<T> { if a.Some? then a else b }

  function NamedModel(s: Setup): Option<string> { First(s.model, s.native.model) }

  function ChosenFamily(s: Setup): Option<ModelFamily> {
    if s.family.Some? then s.family
    else if NamedModel(s).Some? then Some(FamilyOf(NamedModel(s).value))
    else if !s.hasPrompt then Some(FamilyOf(s.config.defaultModel))
    else None
  }

  function ChosenEffort(s: Setup): Option<ReasoningLevel> {
    First(First(s.effort, s.native.effort), if s.hasPrompt then None else Some(s.config.defaultEffort))
  }

  /**
   * Who may authorise Ultra: the flag, the prompt, the repository instructions, the configuration, or
   * asking for it.
   */
  predicate UltraAuthorized(s: Setup, a: Assessment) {
    || s.allowUltra
    || a.delegationRequested
    || (s.instructionsDelegate && !s.delegationNeedsRequest)
    || (!s.config.ultraRequiresOptIn && !s.delegationNeedsRequest)
    || ChosenEffort(s) == Some(Ultra)
  }

  function ParallelRules(matches: seq<Rule>): nat {
    if matches == [] then 0
    else ParallelRules(matches[..|matches| - 1]) + if matches[|matches| - 1].deltas.parallel > 0 then 1 else 0
  }

  function Assembled(s: Setup, a: Assessment, applied: Application): Constraints {
    RuleConstraints(applied.bounds).(
      explicitFamily := ChosenFamily(s),
      explicitEffort := ChosenEffort(s),
      ultraAuthorized := UltraAuthorized(s, a),
      parallelTracks := a.parallelTracks || ParallelRules(applied.matches) >= 2,
      margin := s.margin,
      priorFamily := s.priorFamily,
      priorEffort := s.priorEffort,
      calibration := s.calibration)
  }

  function EffectiveFast(s: Setup): FastMode {
    if s.native.serviceTier.Some? then Inherit
    else if s.fast then Fast else if s.noFast then NoFast else if s.inheritFast then Inherit else s.config.fastMode
  }

  function RequestFor(s: Setup, d: Decision): Request {
    var explicitModel := NamedModel(s).Some?;
    var explicitEffort := s.effort.Some? || s.native.effortRaw.Some?;
    Request(First(NamedModel(s), if s.hasPrompt then None else Some(s.config.defaultModel)),
            d.family, d.effort, s.mode, EffectiveFast(s), explicitModel, explicitEffort,
            s.allowDowngrade || (!explicitModel && !explicitEffort && s.config.automaticDowngrade))
  }

  function SourceOf(s: Setup): RouteSource {
    if s.model.Some? || s.family.Some? || s.effort.Some? || s.native.model.Some? || s.native.effortRaw.Some?
    then Explicit else Local
  }

  /** The decision the outer router makes under the assembled constraints. */
  function DecisionFor(s: Setup, a: Assessment, applied: Application): Decision {
    var c := Assembled(s, a, applied);
    var base := Score.NormalizedScore(applied.dimensions, s.config.weights);
    Selected(a.taskType, applied.dimensions, base, c, applied.conflicts)
    .(family := FinalFamily(a.taskType, applied.dimensions, base, c),
      effort := FinalEffort(a.taskType, applied.dimensions, base, c))
  }

  function Conclude(s: Setup, decision: Decision, models: seq<Model>): Outcome {
    match ResolvePreset(models, RequestFor(s, decision))
    case Refused(refusal) => Unavailable(refusal)
    case Resolved(preset, downgraded) =>
      Routed(ResolvedRoute(decision.(ultraSelected := preset.displayLevel.Ultra?), preset, downgraded,
                           Launch.DerivedPolicy(s.native, preset), SourceOf(s)))
  }

  /** The orchestration as the program runs it: rules, constraints field by field, router, catalog. */
  method ResolvePrepared(s: Setup, a: Assessment, rules: seq<Rule>, hits: seq<bool>, models: seq<Model>)
    returns (outcome: Outcome, applied: Application)
    requires |rules| == |hits|
    ensures Contradictory(s) ==> outcome == Conflicting
    ensures !Contradictory(s) ==>
      && applied.matches == Matched(rules, hits)
      && applied.dimensions == Shifted(a.dimensions, applied.matches)
      && Aggregates(applied.bounds, applied.matches)
      && outcome == Conclude(s, DecisionFor(s, a, applied), models)
  {
    if Contradictory(s) {
      applied := Application(a.dimensions, Bounds(None, None, None, None), [], []);
      return Conflicting, applied;
    }
    applied := Evaluate(rules, hits, a.dimensions);
    var constraints := RuleConstraints(applied.bounds);
    constraints := constraints.(margin := s.margin, priorFamily := s.priorFamily, priorEffort := s.priorEffort);
    constraints := constraints.(calibration := s.calibration);
    constraints := constraints.(explicitFamily := s.family);
    if constraints.explicitFamily.None? && NamedModel(s).Some? {
      constraints := constraints.(explicitFamily := Some(FamilyOf(NamedModel(s).value)));
    }
    constraints := constraints.(explicitEffort := First(s.effort, s.native.effort));
    if !s.hasPrompt {
      if constraints.explicitFamily.None? {
        constraints := constraints.(explicitFamily := Some(FamilyOf(s.config.defaultModel)));
      }
      if constraints.explicitEffort.None? {
        constraints := constraints.(explicitEffort := Some(s.config.defaultEffort));
      }
    }
    constraints := constraints.(
      ultraAuthorized := UltraAuthorized(s, a),
      parallelTracks := a.parallelTracks || ParallelRules(applied.matches) >= 2);
    assert constraints == Assembled(s, a, applied);
    var decision := RouteTask(a.taskType, applied.dimensions, s.config.weights, constraints, applied.conflicts);
    assert decision == DecisionFor(s, a, applied);
    outcome := Conclude(s, decision, models);
  }

  lemma ConclusionKeepsPreset(s: Setup, d: Decision, models: seq<Model>)
    requires Conclude(s, d, models).Routed?
    ensures var route := Conclude(s, d, models).route;
      && ResolvePreset(models, RequestFor(s, d)) == Resolved(route.preset, route.downgraded)
      && route.decision.effort == d.effort == RequestFor(s, d).effort
      && (route.decision.ultraSelected <==> route.preset.displayLevel.Ultra?)
  {
  }

  lemma UltraIsHighest(preset: ReasoningLevel, decided: ReasoningLevel)
    requires preset.Rank() <= decided.Rank()
    ensures preset.Ultra? ==> decided.Ultra?
  {
  }

  lemma ConclusionIsProven(s: Setup, d: Decision, models: seq<Model>)
    requires Conclude(s, d, models).Routed?
    ensures var route := Conclude(s, d, models).route;
      && (route.preset.displayLevel.Rank() >= Max.Rank() ==> ProvenBy(models, route.preset, route.preset.displayLevel))
      && route.preset.displayLevel.Rank() <= route.decision.effort.Rank()
      && (route.preset.displayLevel.Ultra? ==> d.effort.Ultra?)
      && (route.decision.ultraSelected <==> route.preset.displayLevel.Ultra?)
  {
    StrongPresetsAreProven(models, RequestFor(s, d));
    ConclusionKeepsPreset(s, d, models);
    UltraIsHighest(Conclude(s, d, models).route.preset.displayLevel, d.effort);
  }

  lemma UltraWasAuthorized(s: Setup, a: Assessment, applied: Application)
    ensures DecisionFor(s, a, applied).effort.Ultra? ==> UltraAuthorized(s, a)
  {
    UltraNeedsAuthorization(a.taskType, applied.dimensions,
                            Score.NormalizedScore(applied.dimensions, s.config.weights), Assembled(s, a, applied));
  }

  /**
   * A selected preset is Ultra only if Ultra was authorised and the chosen model literally lists
   * it; Max too is always listed; and no preset is stronger than the recommendation.
   */
  lemma UltraEndToEnd(s: Setup, a: Assessment, applied: Application, models: seq<Model>)
    requires Conclude(s, DecisionFor(s, a, applied), models).Routed?
    ensures var route := Conclude(s, DecisionFor(s, a, applied), models).route;
      && (route.preset.displayLevel.Ultra? ==> UltraAuthorized(s, a))
      && (route.preset.displayLevel.Rank() >= Max.Rank() ==> ProvenBy(models, route.preset, route.preset.displayLevel))
      && route.preset.displayLevel.Rank() <= route.decision.effort.Rank()
      && (route.decision.ultraSelected <==> route.preset.displayLevel.Ultra?)
  {
    UltraWasAuthorized(s, a, applied);
    ConclusionIsProven(s, DecisionFor(s, a, applied), models);
  }

  // ---------- Explicit choices end to end ----------

  /** A model named by the user is the model launched, up to the case of its listed identifier. */
  lemma NamedModelIsLaunched(s: Setup, d: Decision, models: seq<Model>)
    requires Conclude(s, d, models).Routed? && NamedModel(s).Some?
    ensures SameIgnoringCase(Conclude(s, d, models).route.preset.modelId, NamedModel(s).value)
  {
    FindModelFinds(models, NamedModel(s).value);
  }

  /** A routed prompt that names no model is launched on a model of the family that was decided. */
  lemma DecidedFamilyIsLaunched(s: Setup, d: Decision, models: seq<Model>)
    requires s.hasPrompt && NamedModel(s).None? && Conclude(s, d, models).Routed?
    ensures var route := Conclude(s, d, models).route;
      && route.preset.family == route.decision.family == d.family
      && exists i :: IsFirstVisible(models, d.family, i) && ComesFrom(route.preset, models[i])
  {
    FamilyIsResolved(models, RequestFor(s, d));
  }

  /** The tier a listed model launches Fast with. */
  predicate AdvertisedFast(m: Model, tier: Option<string>) {
    || (exists fast | fast in m.tiers :: tier == Some(fast.id)
          && (SameIgnoringCase(fast.name, "fast") || SameIgnoringCase(fast.id, "priority")))
    || (tier == Some("priority") && exists t | t in m.speedTiers :: SameIgnoringCase(t, "fast"))
  }

  /** The Fast mode that was asked for: a forwarded tier first, then the flags, then the configuration. */
  predicate AsksFor(s: Setup, mode: FastMode) {
    if s.native.serviceTier.Some? then mode == Inherit
    else match mode
      case Fast => s.fast || (!s.noFast && !s.inheritFast && s.config.fastMode == Fast)
      case NoFast => !s.fast && (s.noFast || (!s.inheritFast && s.config.fastMode == NoFast))
      case Inherit => !s.fast && !s.noFast && (s.inheritFast || s.config.fastMode == Inherit)
  }

  /** The model a setup names is listed, or it names none. */
  predicate NamesListed(s: Setup, models: seq<Model>) {
    NamedModel(s).None? || exists m | m in models :: SameIgnoringCase(m.id, NamedModel(s).value)
  }

  /** On a listed model Fast launches an advertised tier, Fast-off `default`, inheriting or a forwarded tier none. */
  lemma FastChoiceIsLaunched(s: Setup, d: Decision, models: seq<Model>)
    requires Conclude(s, d, models).Routed? && NamesListed(s, models)
    ensures var tier := Conclude(s, d, models).route.preset.serviceTier;
      && (AsksFor(s, Fast) ==> exists m | m in models :: AdvertisedFast(m, tier))
      && (AsksFor(s, NoFast) ==> tier == Some("default"))
      && (AsksFor(s, Inherit) ==> tier == None)
  {
    var r := RequestFor(s, d);
    FirstVisibleFinds(models, r.family);
    if r.modelId.Some? {
      FindModelFinds(models, r.modelId.value);
      FindModelIsFirst(models, r.modelId.value);
    }
    var found := if r.modelId.Some? then FindModel(models, r.modelId.value) else FirstVisible(models, r.family);
    if found.Some? {
      ResolvedTier(found.value, r);
    }
  }

  lemma ExplicitEffortIsDecided(s: Setup, a: Assessment, applied: Application, effort: ReasoningLevel)
    requires First(s.effort, s.native.effort) == Some(effort)
    ensures DecisionFor(s, a, applied).effort == effort
  {
    ExplicitEffortWins(a.taskType, applied.dimensions,
                       Score.NormalizedScore(applied.dimensions, s.config.weights), Assembled(s, a, applied));
  }

  lemma NoDowngradeWithoutConsent(s: Setup, d: Decision, models: seq<Model>)
    requires Conclude(s, d, models).Routed?
    requires !s.allowDowngrade && (s.effort.Some? || s.native.effortRaw.Some?)
    ensures Conclude(s, d, models).route.preset.displayLevel == d.effort
  {
    var r := RequestFor(s, d);
    var found := if r.modelId.Some? then FindModel(models, r.modelId.value) else FirstVisible(models, r.family);
    if found.Some? { ResolvedOnModel(found.value, r); }
  }

  /**
   * An effort the user asked for, on cauto's or on the forwarded command line, is launched literally
   * or refused unless a downgrade was allowed: no score, rule, calibration, prior, budget or catalog
   * silently changes it.
   */
  lemma ExplicitEffortIsLiteral(s: Setup, a: Assessment, applied: Application, models: seq<Model>,
        effort: ReasoningLevel)
    requires First(s.effort, s.native.effort) == Some(effort) && Launch.EffortBacked(s.native) && !s.allowDowngrade
    requires Conclude(s, DecisionFor(s, a, applied), models).Routed?
    ensures Conclude(s, DecisionFor(s, a, applied), models).route.preset.displayLevel == effort
  {
    ExplicitEffortIsDecided(s, a, applied, effort);
    NoDowngradeWithoutConsent(s, DecisionFor(s, a, applied), models);
  }

  // ---------- An explicit family that loses ----------

  const PLAIN_CONFIG := Config(Score.DEFAULT_WEIGHTS, "gpt-terra", Medium, Inherit, true, true)

  /** An invocation with --family luna and nothing else. */
  const LUNA := Setup(None, Some(Luna), None, false, false, false, false, false, NO_OVERRIDES, PLAIN_CONFIG, 0,
                      None, None, 0, false, false, true, Interactive)

  /** A live audit in several independent tracks, as the feature stages score it. */
  const LARGE_TASK :=
    Assessment("", Dimensions(3, 3, 3, 3, 3, 4, 4), Diagnosis, [], false, false, false, false, true)

  /** The explicit Luna of this invocation becomes Sol, and the effort an unauthorised Ultra turned Max. */
  lemma LunaIsOverridden()
    ensures var applied := Application(LARGE_TASK.dimensions, Bounds(None, None, None, None), [], []);
      var decision := DecisionFor(LUNA, LARGE_TASK, applied);
      !Contradictory(LUNA) && decision.family == Sol && decision.effort == Max
  {
    var d := LARGE_TASK.dimensions;
    assert Score.Weighted(d, Score.DEFAULT_WEIGHTS) == 310;
    assert Score.NormalizedScore(d, Score.DEFAULT_WEIGHTS) == 78;
  }
}
