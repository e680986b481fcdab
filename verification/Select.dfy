/** Family, effort and Ultra selection from a score, a prior route, bounds and explicit choices. */
module Select {
  import opened Types
  import opened Score

  /** Bounds, explicit choices and repository state applied after scoring. */
  datatype Constraints = Constraints(
    familyFloor: Option<ModelFamily>,
    familyCeiling: Option<ModelFamily>,
    effortFloor: Option<ReasoningLevel>,
    effortCeiling: Option<ReasoningLevel>,
    explicitFamily: Option<ModelFamily>,
    explicitEffort: Option<ReasoningLevel>,
    ultraAuthorized: bool,
    parallelTracks: bool,
    margin: nat,
    priorFamily: Option<ModelFamily>,
    priorEffort: Option<ReasoningLevel>,
    calibration: Calibration)

  const NO_CONSTRAINTS :=
    Constraints(None, None, None, None, None, None, false, false, 0, None, None, 0)

  /** A repository calibration, bounded to ten points either way. */
  type Calibration = n: int | -10 <= n <= 10

  datatype Conflict = FamilyFloorCeiling | EffortFloorCeiling | UltraAuthorization
                    | MatchedFamilyBounds | MatchedEffortBounds

  datatype Decision = Decision(
    taskType: TaskType,
    dimensions: Dimensions,
    score: nat,
    conflicts: seq<Conflict>,
    family: ModelFamily,
    effort: ReasoningLevel,
    ultraCandidate: bool,
    ultraSelected: bool)

  // ---------- Score to family and effort ----------

  /** The score after the repository calibration; upward points never reach the Max band. */
  function CalibratedScore(taskType: TaskType, base: nat, calibration: Calibration): nat {
    if calibration == 0 then base
    else if calibration > 0 then
      if taskType.Documentation? || taskType.Mechanical? || base >= 85 then base
      else if base + calibration > 84 then 84 else base + calibration
    else if base + calibration < 0 then 0 else base + calibration
  }

  /** Every dimension that can force a stronger family is at most `bound`. */
  predicate Safe(d: Dimensions, bound: nat) {
    d.ambiguity <= bound && d.cost <= bound && d.runtime <= bound && d.depth <= bound
  }

  function FamilyFor(d: Dimensions, score: nat): ModelFamily {
    if score <= 20 && Safe(d, 1) then Luna
    else if score <= 45 && Safe(d, 2) then Terra
    else Sol
  }

  function FamilyWithHysteresis(d: Dimensions, score: nat, prior: Option<ModelFamily>, margin: nat): ModelFamily {
    var selected := FamilyFor(d, score);
    if margin == 0 || prior.None? then selected
    else
      var retain := match (prior.value, selected)
        case (Luna, Terra) => AbsDiff(score, 20) <= margin && Safe(d, 1)
        case (Terra, Luna) => AbsDiff(score, 20) <= margin
        case (Terra, Sol) => AbsDiff(score, 45) <= margin && Safe(d, 2)
        case (Sol, Terra) => AbsDiff(score, 45) <= margin
        case _ => false;
      if retain then prior.value else selected
  }

  function EffortFor(score: nat): ReasoningLevel {
    if score <= 20 then Low
    else if score <= 45 then Medium
    else if score <= 68 then High
    else if score <= 84 then ExtraHigh
    else Max
  }

  /** The score boundary between two adjacent automatic levels. */
  function Boundary(prior: ReasoningLevel, selected: ReasoningLevel): Option<nat> {
    match (prior, selected)
    case (Low, Medium) => Some(20)
    case (Medium, Low) => Some(20)
    case (Medium, High) => Some(45)
    case (High, Medium) => Some(45)
    case (High, ExtraHigh) => Some(68)
    case (ExtraHigh, High) => Some(68)
    case (ExtraHigh, Max) => Some(84)
    case (Max, ExtraHigh) => Some(84)
    case _ => None
  }

  function EffortWithHysteresis(score: nat, prior: Option<ReasoningLevel>, margin: nat): ReasoningLevel {
    var selected := EffortFor(score);
    if margin == 0 || prior.None? then selected
    else
      var boundary := Boundary(prior.value, selected);
      if boundary.Some? && AbsDiff(score, boundary.value) <= margin then prior.value else selected
  }

  predicate UltraCandidate(d: Dimensions, base: nat, c: Constraints) {
    base >= 69 && d.parallel >= 3 && c.parallelTracks
  }

  // ---------- What the bounds mean ----------

  /** A ceiling counts only where no floor stands above it. */
  predicate FamilyCeilingApplies(c: Constraints) {
    c.familyCeiling.Some? && (c.familyFloor.Some? ==> c.familyFloor.value.Rank() <= c.familyCeiling.value.Rank())
  }

  predicate EffortCeilingApplies(c: Constraints) {
    c.effortCeiling.Some? && (c.effortFloor.Some? ==> c.effortFloor.value.Rank() <= c.effortCeiling.value.Rank())
  }

  /** The family inside the bounds that is nearest to the proposed one. */
  function BoundedFamily(family: ModelFamily, c: Constraints): ModelFamily {
    if FamilyCeilingApplies(c) && family.Rank() > c.familyCeiling.value.Rank() then c.familyCeiling.value
    else if c.familyFloor.Some? && family.Rank() < c.familyFloor.value.Rank() then c.familyFloor.value
    else family
  }

  function BoundedEffort(effort: ReasoningLevel, c: Constraints): ReasoningLevel {
    if EffortCeilingApplies(c) && effort.Rank() > c.effortCeiling.value.Rank() then c.effortCeiling.value
    else if c.effortFloor.Some? && effort.Rank() < c.effortFloor.value.Rank() then c.effortFloor.value
    else effort
  }

  // ---------- The selected route, highest authority first ----------

  function SelectionScore(t: TaskType, base: nat, c: Constraints): nat {
    CalibratedScore(t, base, c.calibration)
  }

  /** The effort the score, the prior and the Ultra gate propose before bounds. */
  function ProposedEffort(t: TaskType, d: Dimensions, base: nat, c: Constraints): ReasoningLevel {
    if UltraCandidate(d, base, c) then (if c.ultraAuthorized then Ultra else Max)
    else EffortWithHysteresis(SelectionScore(t, base, c), c.priorEffort, c.margin)
  }

  /** The effort after bounds and the explicit choice, before Ultra authorisation. */
  function ConstrainedEffort(t: TaskType, d: Dimensions, base: nat, c: Constraints): ReasoningLevel {
    if c.explicitEffort.Some? then c.explicitEffort.value
    else BoundedEffort(ProposedEffort(t, d, base, c), c)
  }

  function SelectedEffort(t: TaskType, d: Dimensions, base: nat, c: Constraints): ReasoningLevel {
    var effort := ConstrainedEffort(t, d, base, c);
    if effort.Ultra? && !c.ultraAuthorized then Max else effort
  }

  function SelectedFamily(t: TaskType, d: Dimensions, base: nat, c: Constraints): ModelFamily {
    if UltraCandidate(d, base, c) && c.explicitEffort.None? then Sol
    else if ConstrainedEffort(t, d, base, c).Ultra? && c.explicitFamily.None? then Sol
    else if c.explicitFamily.Some? then c.explicitFamily.value
    else BoundedFamily(FamilyWithHysteresis(d, SelectionScore(t, base, c), c.priorFamily, c.margin), c)
  }

  /** The two automatic Ultra paths that replace the family whatever else was asked. */
  predicate UltraTakesFamily(t: TaskType, d: Dimensions, base: nat, c: Constraints) {
    || (UltraCandidate(d, base, c) && c.explicitEffort.None?)
    || (ConstrainedEffort(t, d, base, c).Ultra? && c.explicitFamily.None?)
  }

  /** The conflicts already found by the rules, followed by those of the selection. */
  function SelectionConflicts(t: TaskType, d: Dimensions, base: nat, c: Constraints, matched: seq<Conflict>)
    : seq<Conflict>
  {
    matched
    + (if c.familyCeiling.Some? && !FamilyCeilingApplies(c) then [FamilyFloorCeiling] else [])
    + (if c.effortCeiling.Some? && !EffortCeilingApplies(c) then [EffortFloorCeiling] else [])
    + (if ConstrainedEffort(t, d, base, c).Ultra? && !c.ultraAuthorized then [UltraAuthorization] else [])
  }

  /** The whole decision of the inner route. */
  function Selected(t: TaskType, d: Dimensions, base: nat, c: Constraints, matched: seq<Conflict>): Decision {
    Decision(t, d, SelectionScore(t, base, c),
             SelectionConflicts(t, d, base, c, matched),
             SelectedFamily(t, d, base, c),
             SelectedEffort(t, d, base, c),
             UltraCandidate(d, base, c),
             SelectedEffort(t, d, base, c).Ultra?)
  }

  // ---------- The selection steps as the program takes them ----------

  method ApplyFamilyConstraints(initial: ModelFamily, c: Constraints, conflicts: seq<Conflict>)
    returns (family: ModelFamily, recorded: seq<Conflict>)
    ensures family == if c.explicitFamily.Some? then c.explicitFamily.value else BoundedFamily(initial, c)
    ensures recorded == conflicts + if c.familyCeiling.Some? && !FamilyCeilingApplies(c) then [FamilyFloorCeiling]
        else []
  {
    family, recorded := initial, conflicts;
    if c.familyFloor.Some? && c.familyCeiling.Some? && c.familyFloor.value.Rank() > c.familyCeiling.value.Rank() {
      recorded := recorded + [FamilyFloorCeiling];
    }
    if c.familyFloor.Some? && family.Rank() < c.familyFloor.value.Rank() {
      family := c.familyFloor.value;
    }
    if c.familyCeiling.Some? && family.Rank() > c.familyCeiling.value.Rank()
       && (c.familyFloor.None? || c.familyFloor.value.Rank() <= c.familyCeiling.value.Rank())
    {
      family := c.familyCeiling.value;
    }
    if c.explicitFamily.Some? {
      family := c.explicitFamily.value;
    }
  }

  method ApplyEffortConstraints(initial: ReasoningLevel, c: Constraints, conflicts: seq<Conflict>)
    returns (effort: ReasoningLevel, recorded: seq<Conflict>)
    ensures effort == if c.explicitEffort.Some? then c.explicitEffort.value else BoundedEffort(initial, c)
    ensures recorded == conflicts + if c.effortCeiling.Some? && !EffortCeilingApplies(c) then [EffortFloorCeiling]
        else []
  {
    effort, recorded := initial, conflicts;
    if c.effortFloor.Some? && c.effortCeiling.Some? && c.effortFloor.value.Rank() > c.effortCeiling.value.Rank() {
      recorded := recorded + [EffortFloorCeiling];
    }
    if c.effortFloor.Some? && effort.Rank() < c.effortFloor.value.Rank() {
      effort := c.effortFloor.value;
    }
    if c.effortCeiling.Some? && effort.Rank() > c.effortCeiling.value.Rank()
       && (c.effortFloor.None? || c.effortFloor.value.Rank() <= c.effortCeiling.value.Rank())
    {
      effort := c.effortCeiling.value;
    }
    if c.explicitEffort.Some? {
      effort := c.explicitEffort.value;
    }
  }

  /** The inner route: score, calibrate, hysteresis, bounds, Ultra gate, authorisation, in this order. */
  method SelectRoute(t: TaskType, d: Dimensions, w: Weights, c: Constraints, matched: seq<Conflict>)
    returns (decision: Decision)
    ensures decision == Selected(t, d, NormalizedScore(d, w), c, matched)
  {
    var base := NormalizedScore(d, w);
    var score := CalibratedScore(t, base, c.calibration);
    var family, conflicts :=
      ApplyFamilyConstraints(FamilyWithHysteresis(d, score, c.priorFamily, c.margin), c, matched);
    var effort := EffortWithHysteresis(score, c.priorEffort, c.margin);
    var candidate := base >= 69 && d.parallel >= 3 && c.parallelTracks;
    if candidate && c.explicitEffort.None? {
      effort := if c.ultraAuthorized then Ultra else Max;
      family := Sol;
    }
    effort, conflicts := ApplyEffortConstraints(effort, c, conflicts);
    assert effort == ConstrainedEffort(t, d, base, c);
    if effort.Ultra? && c.explicitFamily.None? {
      family := Sol;
    }
    if effort.Ultra? && !c.ultraAuthorized {
      conflicts := conflicts + [UltraAuthorization];
      effort := Max;
    }
    decision := Decision(t, d, score, conflicts, family, effort, candidate, effort.Ultra?);
  }
}
