/** Resolution of an abstract family and effort against the capabilities a catalog proves. */
module Capabilities {
  import opened Types
  import opened Text

  datatype FastMode = Fast | NoFast | Inherit

  datatype LaunchMode = Interactive | Exec

  datatype Tier = Tier(id: string, name: string)

  datatype Model = Model(
    id: string,
    family: ModelFamily,
    efforts: seq<string>,
    tiers: seq<Tier>,
    speedTiers: seq<string>,
    hidden: bool,
    interactive: bool,
    exec: bool)

  datatype Request = Request(
    modelId: Option<string>,
    family: ModelFamily,
    effort: ReasoningLevel,
    mode: LaunchMode,
    fastMode: FastMode,
    explicitModel: bool,
    explicitEffort: bool,
    allowDowngrade: bool)

  datatype Preset = Preset(
    modelId: string,
    family: ModelFamily,
    displayLevel: ReasoningLevel,
    nativeEffort: Option<string>,
    serviceTier: Option<string>)

  datatype Refusal =
    | ModelUnknown | FamilyUnavailable | ModeUnsupported | NoEffortBelow | ExplicitDowngradeRefused
    | AutomaticDowngradeDisabled | UnlistedPresetNotProven | NoFastTier

  datatype Resolution = Resolved(preset: Preset, downgraded: bool) | Refused(refusal: Refusal)

  predicate SameIgnoringCase(a: string, b: string) { AsciiLower(a) == AsciiLower(b) }

  /** Native effort names a catalog may list, with their strength. */
  function RecognizedLevel(effort: string): Option<ReasoningLevel> {
    var lower := AsciiLower(effort);
    if lower == "minimal" then Some(Minimal)
    else if lower == "low" then Some(Low)
    else if lower == "medium" then Some(Medium)
    else if lower == "high" then Some(High)
    else if lower == "xhigh" then Some(ExtraHigh)
    else if lower == "max" then Some(Max)
    else if lower == "ultra" then Some(Ultra)
    else None
  }

  predicate Supports(m: Model, effort: string) {
    exists e | e in m.efforts :: SameIgnoringCase(e, effort)
  }

  /** The strongest listed recognised effort of rank at most `limit`; the last one listed among equals. */
  function StrongestAtOrBelow(efforts: seq<string>, limit: nat): (best: Option<string>)
    ensures best.Some? ==> RecognizedLevel(best.value).Some?
  {
    if efforts == [] then None
    else
      var earlier := StrongestAtOrBelow(efforts[..|efforts| - 1], limit);
      var last := efforts[|efforts| - 1];
      var level := RecognizedLevel(last);
      if level.None? || level.value.Rank() > limit then earlier
      else if earlier.None? || RecognizedLevel(earlier.value).value.Rank() <= level.value.Rank() then Some(last)
      else earlier
  }

  function FindModel(models: seq<Model>, id: string): Option<Model> {
    if models == [] then None
    else if SameIgnoringCase(models[0].id, id) then Some(models[0])
    else FindModel(models[1..], id)
  }

  function FirstVisible(models: seq<Model>, family: ModelFamily): Option<Model> {
    if models == [] then None
    else if !models[0].hidden && models[0].family == family then Some(models[0])
    else FirstVisible(models[1..], family)
  }

  function FastTierId(tiers: seq<Tier>): Option<string> {
    if tiers == [] then None
    else if SameIgnoringCase(tiers[0].name, "fast") || SameIgnoringCase(tiers[0].id, "priority") then Some(tiers[0].id)
    else FastTierId(tiers[1..])
  }

  /** The tier a Fast mode asks of a model: no tier to inherit, `default` for off, None when Fast is not advertised. */
  function ServiceTier(m: Model, mode: FastMode): Option<Option<string>> {
    match mode
    case Inherit => Some(None)
    case NoFast => Some(Some("default"))
    case Fast =>
      if FastTierId(m.tiers).Some? then Some(FastTierId(m.tiers))
      else if exists t | t in m.speedTiers :: SameIgnoringCase(t, "fast") then Some(Some("priority"))
      else None
  }

  function UnlistedExplicit(r: Request, id: string): Resolution {
    if r.effort.Max? || r.effort.Ultra? then Refused(UnlistedPresetNotProven)
    else Resolved(Preset(id, FamilyOf(id), r.effort, Some(r.effort.NativeName()), None), false)
  }

  function ResolveOn(m: Model, r: Request): Resolution {
    var supportedMode := match r.mode case Interactive => m.interactive case Exec => m.exec;
    if !supportedMode then Refused(ModeUnsupported)
    else
      var literal := Supports(m, r.effort.NativeName());
      var native := if literal then Some(r.effort.NativeName()) else StrongestAtOrBelow(m.efforts, r.effort.Rank());
      if native.None? then Refused(NoEffortBelow)
      else if !literal && !r.allowDowngrade then
        Refused(if r.explicitEffort then ExplicitDowngradeRefused else AutomaticDowngradeDisabled)
      else
        RecognizedParses(native.value, literal, r.effort);
        var level := ParseLevel(native.value).value;
        var tier := ServiceTier(m, r.fastMode);
        if tier.None? then Refused(NoFastTier)
        else Resolved(Preset(m.id, m.family, level, native, tier.value), !literal)
  }

  function ResolvePreset(models: seq<Model>, r: Request): Resolution {
    match r.modelId
    case Some(id) =>
      (match FindModel(models, id)
       case Some(m) => ResolveOn(m, r)
       case None => if r.explicitModel then UnlistedExplicit(r, id) else Refused(ModelUnknown))
    case None =>
      match FirstVisible(models, r.family)
      case Some(m) => ResolveOn(m, r)
      case None => Refused(FamilyUnavailable)
  }

  // ---------- What resolution guarantees ----------

  /** Every effort name the catalog reader recognises parses to the same level. */
  lemma RecognizedIsParsed(effort: string)
    requires RecognizedLevel(effort).Some?
    ensures ParseLevel(effort) == RecognizedLevel(effort)
  {
    var lower := AsciiLower(effort);
    assert forall i | 0 <= i < |lower| :: lower[i] != ' ' && lower[i] != '-';
    assert LevelText(effort) == lower by {
      forall i | 0 <= i < |effort| ensures LevelText(effort)[i] == lower[i] {
        if effort[i] == ' ' || effort[i] == '-' {
          assert lower[i] == effort[i];
        }
      }
    }
  }

  lemma RecognizedParses(native: string, literal: bool, requested: ReasoningLevel)
    requires if literal then native == requested.NativeName() else RecognizedLevel(native).Some?
    ensures ParseLevel(native).Some?
    ensures literal ==> ParseLevel(native) == Some(requested)
    ensures !literal ==> ParseLevel(native) == RecognizedLevel(native)
  {
    if literal { NativeNameRoundTrip(requested); } else { RecognizedIsParsed(native); }
  }

  /**
   * The selected fallback is listed, within the limit, and no listed recognised effort within the
   * limit is stronger.
   */
  lemma {:induction false} StrongestIsStrongest(efforts: seq<string>, limit: nat)
    ensures var best := StrongestAtOrBelow(efforts, limit);
      && (best.Some? ==> best.value in efforts && RecognizedLevel(best.value).value.Rank() <= limit)
      && (forall e | e in efforts && RecognizedLevel(e).Some? && RecognizedLevel(e).value.Rank() <= limit ::
            best.Some? && RecognizedLevel(e).value.Rank() <= RecognizedLevel(best.value).value.Rank())
  {
    if efforts != [] {
      StrongestIsStrongest(efforts[..|efforts| - 1], limit);
      assert efforts == efforts[..|efforts| - 1] + [efforts[|efforts| - 1]];
    }
  }

  /** A listed name means a level exactly when it is that level's native name up to case. */
  lemma RecognizedIffSameName(effort: string, level: ReasoningLevel)
    ensures RecognizedLevel(effort) == Some(level) <==> SameIgnoringCase(effort, level.NativeName())
  {
    assert AsciiLower(level.NativeName()) == level.NativeName();
  }

  /** An effort name is supported literally exactly when the model lists a recognised name of that level. */
  lemma SupportsIffListed(m: Model, level: ReasoningLevel)
    ensures Supports(m, level.NativeName()) <==> exists e | e in m.efforts :: RecognizedLevel(e) == Some(level)
  {
    forall e | e in m.efforts { RecognizedIffSameName(e, level); }
  }

  /**
   * On a listed model the resolved level never exceeds the request and equals it exactly when the
   * model lists it; otherwise it is the strongest listed recognised level strictly below.
   */
  lemma ResolvedOnModel(m: Model, r: Request)
    requires ResolveOn(m, r).Resolved?
    ensures var level := ResolveOn(m, r).preset.displayLevel;
      && level.Rank() <= r.effort.Rank()
      && (level == r.effort <==> Supports(m, r.effort.NativeName()))
      && (exists e | e in m.efforts :: RecognizedLevel(e) == Some(level))
      && (level != r.effort ==>
            && r.allowDowngrade
            && forall e | e in m.efforts && RecognizedLevel(e).Some?
                          && RecognizedLevel(e).value.Rank() <= r.effort.Rank() ::
                 RecognizedLevel(e).value.Rank() <= level.Rank())
  {
    var literal := Supports(m, r.effort.NativeName());
    SupportsIffListed(m, r.effort);
    if literal {
      NativeNameRoundTrip(r.effort);
    } else {
      StrongestIsStrongest(m.efforts, r.effort.Rank());
      RecognizedIsParsed(StrongestAtOrBelow(m.efforts, r.effort.Rank()).value);
    }
  }

  /**
   * A listed model resolves if and only if it can be launched this way, lists the request or, where
   * downgrades are allowed, a recognised level below it, and advertises Fast when Fast is asked for.
   */
  lemma ResolvesExactlyWhen(m: Model, r: Request)
    ensures ResolveOn(m, r).Resolved? <==>
      && (if r.mode.Interactive? then m.interactive else m.exec)
      && (Supports(m, r.effort.NativeName())
          || (r.allowDowngrade
              && exists e | e in m.efforts ::
                   RecognizedLevel(e).Some? && RecognizedLevel(e).value.Rank() <= r.effort.Rank()))
      && (r.fastMode.Fast? ==> ServiceTier(m, Fast).Some?)
  {
    StrongestIsStrongest(m.efforts, r.effort.Rank());
  }

  /** Fast launches a tier the model advertises, off launches `default`, and inheriting sets none. */
  lemma ResolvedTier(m: Model, r: Request)
    requires ResolveOn(m, r).Resolved?
    ensures match r.fastMode
      case Inherit => ResolveOn(m, r).preset.serviceTier == None
      case NoFast => ResolveOn(m, r).preset.serviceTier == Some("default")
      case Fast =>
        || (exists tier | tier in m.tiers :: ResolveOn(m, r).preset.serviceTier == Some(tier.id)
              && (SameIgnoringCase(tier.name, "fast") || SameIgnoringCase(tier.id, "priority")))
        || (ResolveOn(m, r).preset.serviceTier == Some("priority")
            && exists t | t in m.speedTiers :: SameIgnoringCase(t, "fast"))
  {
    FastTierIsListed(m.tiers);
  }

  lemma {:induction false} FastTierIsListed(tiers: seq<Tier>)
    ensures FastTierId(tiers).Some? ==> exists tier | tier in tiers ::
      FastTierId(tiers) == Some(tier.id)
          && (SameIgnoringCase(tier.name, "fast") || SameIgnoringCase(tier.id, "priority"))
  {
    if tiers != [] {
      FastTierIsListed(tiers[1..]);
      assert tiers[0] in tiers;
      assert forall tier | tier in tiers[1..] :: tier in tiers;
    }
  }

  predicate NamesFast(tier: Tier) { SameIgnoringCase(tier.name, "fast") || SameIgnoringCase(tier.id, "priority") }

  lemma {:induction false} FastTierIsFirst(tiers: seq<Tier>, i: nat)
    requires i < |tiers| && NamesFast(tiers[i]) && forall j | 0 <= j < i :: !NamesFast(tiers[j])
    ensures FastTierId(tiers) == Some(tiers[i].id)
  {
    if i > 0 {
      assert !NamesFast(tiers[0]);
      FastTierIsFirst(tiers[1..], i - 1);
    }
  }

  lemma {:induction false} NoTierIsFast(tiers: seq<Tier>)
    requires forall tier | tier in tiers :: !NamesFast(tier)
    ensures FastTierId(tiers).None?
  {
    if tiers != [] {
      assert !NamesFast(tiers[0]);
      NoTierIsFast(tiers[1..]);
    }
  }

  /**
   * The tier of a Fast launch is the first that the model lists as fast or priority, else `priority` when
   * it lists the fast speed, and Fast is refused if and only if it lists neither.
   */
  lemma FastTierExactlyWhen(m: Model)
    ensures var tier := ServiceTier(m, Fast);
      && (forall i | 0 <= i < |m.tiers| && NamesFast(m.tiers[i])
                     && (forall j | 0 <= j < i :: !NamesFast(m.tiers[j])) ::
            tier == Some(Some(m.tiers[i].id)))
      && ((forall t | t in m.tiers :: !NamesFast(t)) ==>
            tier == if exists t | t in m.speedTiers :: SameIgnoringCase(t, "fast") then Some(Some("priority")) else None)
  {
    forall i | 0 <= i < |m.tiers| && NamesFast(m.tiers[i]) && forall j | 0 <= j < i :: !NamesFast(m.tiers[j])
      ensures ServiceTier(m, Fast) == Some(Some(m.tiers[i].id))
    {
      FastTierIsFirst(m.tiers, i);
    }
    if forall t | t in m.tiers :: !NamesFast(t) { NoTierIsFast(m.tiers); }
  }

  /** Among equally strong spellings the fallback takes the one listed last. */
  lemma {:induction false} LastSpellingIsTaken(efforts: seq<string>, limit: nat, i: nat)
    requires i < |efforts| && RecognizedLevel(efforts[i]).Some? && RecognizedLevel(efforts[i]).value.Rank() <= limit
    requires forall e | e in efforts && RecognizedLevel(e).Some? && RecognizedLevel(e).value.Rank() <= limit ::
      RecognizedLevel(e).value.Rank() <= RecognizedLevel(efforts[i]).value.Rank()
    requires forall j | i < j < |efforts| :: RecognizedLevel(efforts[j]) != RecognizedLevel(efforts[i])
    ensures StrongestAtOrBelow(efforts, limit) == Some(efforts[i])
  {
    var front, last := efforts[..|efforts| - 1], |efforts| - 1;
    assert forall e | e in front :: e in efforts;
    if i < last {
      LastSpellingIsTaken(front, limit, i);
      assert efforts[last] in efforts;
      if RecognizedLevel(efforts[last]).Some?
         && RecognizedLevel(efforts[last]).value.Rank() == RecognizedLevel(efforts[i]).value.Rank()
      {
        SameRankSameLevel(RecognizedLevel(efforts[last]).value, RecognizedLevel(efforts[i]).value);
        assert false;
      }
    } else {
      StrongestIsStrongest(front, limit);
    }
  }

  lemma SameRankSameLevel(a: ReasoningLevel, b: ReasoningLevel)
    requires a.Rank() == b.Rank()
    ensures a == b
  {
  }

  /**
   * A model that lists only `High` answers an ExtraHigh request, where it may be lowered, with
   * exactly that spelling.
   */
  lemma DowngradeKeepsListedSpelling()
    ensures var m := Model("gpt-sol", Sol, ["High"], [], [], false, true, true);
      var r := Request(Some("gpt-sol"), Sol, ExtraHigh, Interactive, Inherit, false, false, true);
      ResolveOn(m, r) == Resolved(Preset("gpt-sol", Sol, High, Some("High"), None), true)
  {
    var efforts := ["High"];
    assert AsciiLower("High") == "high";
    assert RecognizedLevel("High") == Some(High);
    assert AsciiLower("xhigh") == "xhigh" && "high" != "xhigh" by { assert |"high"| != |"xhigh"|; }
    assert efforts[..0] == [];
    assert StrongestAtOrBelow(efforts[..0], ExtraHigh.Rank()) == None;
    assert StrongestAtOrBelow(efforts, ExtraHigh.Rank()) == Some("High");
    RecognizedIsParsed("High");
  }

  /** The model a preset was resolved on, listed under the preset's identifier, proves a level. */
  ghost predicate ProvenBy(models: seq<Model>, preset: Preset, level: ReasoningLevel) {
    exists m | m in models :: m.id == preset.modelId && exists e | e in m.efforts :: RecognizedLevel(e) == Some(level)
  }

  lemma {:induction false} FindModelFinds(models: seq<Model>, id: string)
    ensures FindModel(models, id).Some? ==>
      FindModel(models, id).value in models && SameIgnoringCase(FindModel(models, id).value.id, id)
  {
    if models != [] { FindModelFinds(models[1..], id); }
  }

  lemma {:induction false} FirstVisibleFinds(models: seq<Model>, family: ModelFamily)
    ensures FirstVisible(models, family).Some? ==> FirstVisible(models, family).value in models
  {
    if models != [] { FirstVisibleFinds(models[1..], family); }
  }

  /** The first listed model of a family that is not hidden. */
  ghost predicate IsFirstVisible(models: seq<Model>, family: ModelFamily, i: int) {
    && 0 <= i < |models| && !models[i].hidden && models[i].family == family
    && forall j | 0 <= j < i :: models[j].hidden || models[j].family != family
  }

  lemma {:induction false} FirstVisibleIsFirst(models: seq<Model>, family: ModelFamily)
    ensures FirstVisible(models, family).None? <==>
      forall m | m in models :: m.hidden || m.family != family
    ensures FirstVisible(models, family).Some? ==>
      exists i :: IsFirstVisible(models, family, i) && models[i] == FirstVisible(models, family).value
  {
    if models != [] {
      var rest := models[1..];
      FirstVisibleIsFirst(rest, family);
      assert models == [models[0]] + rest;
      if !models[0].hidden && models[0].family == family {
        assert IsFirstVisible(models, family, 0);
      } else if FirstVisible(rest, family).Some? {
        var i :| IsFirstVisible(rest, family, i) && rest[i] == FirstVisible(rest, family).value;
        assert IsFirstVisible(models, family, i + 1);
      }
    }
  }

  /** The preset of a resolution belongs to this model. */
  predicate ComesFrom(preset: Preset, m: Model) { preset.modelId == m.id && preset.family == m.family }

  /**
   * Without a named model the preset is of the family that was decided: its first listed model that
   * is not hidden; and only a family without such a model is unavailable.
   */
  lemma FamilyIsResolved(models: seq<Model>, r: Request)
    requires r.modelId.None?
    ensures ResolvePreset(models, r).Resolved? ==>
      var preset := ResolvePreset(models, r).preset;
      preset.family == r.family && exists i :: IsFirstVisible(models, r.family, i) && ComesFrom(preset, models[i])
    ensures ResolvePreset(models, r) == Refused(FamilyUnavailable) <==>
      forall m | m in models :: m.hidden || m.family != r.family
  {
    FirstVisibleIsFirst(models, r.family);
  }

  /** A named model is looked up regardless of case and visibility; the first match is taken. */
  lemma {:induction false} FindModelIsFirst(models: seq<Model>, id: string)
    ensures FindModel(models, id).None? <==> forall m | m in models :: !SameIgnoringCase(m.id, id)
    ensures FindModel(models, id).Some? ==>
      exists i :: 0 <= i < |models| && models[i] == FindModel(models, id).value && SameIgnoringCase(models[i].id, id)
                  && forall j | 0 <= j < i :: !SameIgnoringCase(models[j].id, id)
  {
    if models != [] {
      var rest := models[1..];
      FindModelIsFirst(rest, id);
      assert models == [models[0]] + rest;
      if !SameIgnoringCase(models[0].id, id) && FindModel(rest, id).Some? {
        var i :| 0 <= i < |rest| && rest[i] == FindModel(rest, id).value && SameIgnoringCase(rest[i].id, id)
                 && forall j | 0 <= j < i :: !SameIgnoringCase(rest[j].id, id);
        assert models[i + 1] == rest[i];
      }
    }
  }

  /**
   * A named model resolves to its first listing, with that listing's family; an unlisted one only when
   * the user named it and asked for less than Max, and then literally.
   */
  lemma NamedModelIsResolved(models: seq<Model>, r: Request)
    requires r.modelId.Some?
    ensures var id := r.modelId.value;
      var listed := exists m | m in models :: SameIgnoringCase(m.id, id);
      && (ResolvePreset(models, r) == Refused(ModelUnknown) <==> !listed && !r.explicitModel)
      && (!listed && r.explicitModel && r.effort.Rank() >= Max.Rank() ==>
            ResolvePreset(models, r) == Refused(UnlistedPresetNotProven))
      && (!listed && r.explicitModel && r.effort.Rank() < Max.Rank() ==>
            ResolvePreset(models, r) ==
              Resolved(Preset(id, FamilyOf(id), r.effort, Some(r.effort.NativeName()), None), false))
      && (listed && ResolvePreset(models, r).Resolved? ==>
            exists m | m in models :: SameIgnoringCase(m.id, id) && ComesFrom(ResolvePreset(models, r).preset, m))
  {
    FindModelIsFirst(models, r.modelId.value);
  }

  /** Why a listed model refuses a request. */
  lemma RefusalsAreExact(m: Model, r: Request)
    ensures var fits := if r.mode.Interactive? then m.interactive else m.exec;
      var literal := Supports(m, r.effort.NativeName());
      var lower := exists e | e in m.efforts ::
        RecognizedLevel(e).Some? && RecognizedLevel(e).value.Rank() <= r.effort.Rank();
      && (ResolveOn(m, r) == Refused(ModeUnsupported) <==> !fits)
      && (ResolveOn(m, r) == Refused(NoEffortBelow) <==> fits && !literal && !lower)
      && (ResolveOn(m, r) == Refused(ExplicitDowngradeRefused) <==>
            fits && !literal && lower && !r.allowDowngrade && r.explicitEffort)
      && (ResolveOn(m, r) == Refused(AutomaticDowngradeDisabled) <==>
            fits && !literal && lower && !r.allowDowngrade && !r.explicitEffort)
  {
    StrongestIsStrongest(m.efforts, r.effort.Rank());
  }

  /** A preset at Max or Ultra is always proven by the catalog, and no preset exceeds its request. */
  lemma StrongPresetsAreProven(models: seq<Model>, r: Request)
    requires ResolvePreset(models, r).Resolved?
    ensures var preset := ResolvePreset(models, r).preset;
      && preset.displayLevel.Rank() <= r.effort.Rank()
      && (preset.displayLevel.Rank() >= Max.Rank() ==> ProvenBy(models, preset, preset.displayLevel))
  {
    FirstVisibleFinds(models, r.family);
    if r.modelId.Some? { FindModelFinds(models, r.modelId.value); }
    var found := if r.modelId.Some? then FindModel(models, r.modelId.value) else FirstVisible(models, r.family);
    if found.Some? {
      ResolvedOnModel(found.value, r);
    }
  }
}
