/** The complete router: inner selection followed by post-score safety floors. */
module Route {
  import opened Types
  import opened Score
  import opened Select

  // ---------- Risk floors ----------

  function Severe(score: BoundedScore): nat { if score >= 3 then 1 else 0 }

  function SevereCount(d: Dimensions): nat {
    Severe(d.ambiguity) + Severe(d.cost) + Severe(d.runtime) + Severe(d.depth) + Severe(d.verification)
  }

  /** Correlated risk that demands at least High reasoning from the strongest family. */
  predicate AtRisk(t: TaskType, d: Dimensions) {
    || d.cost >= 4 || d.runtime >= 4 || d.verification >= 4
    || (d.cost >= 3 && (d.ambiguity >= 2 || d.runtime >= 2 || d.verification >= 2))
    || SevereCount(d) >= 2
    || ((t.Research? || t.Architecture?) && (d.ambiguity >= 3 || d.depth >= 3))
    || (t.Diagnosis? && d.ambiguity >= 3 && (d.runtime >= 2 || d.verification >= 2))
  }

  /** The floor as the program finds it, test after test; every test that fires asks for High. */
  method RiskEffortFloor(t: TaskType, d: Dimensions) returns (floor: Option<ReasoningLevel>)
    ensures floor == if AtRisk(t, d) then Some(High) else None
  {
    var severe := Severe(d.ambiguity) + Severe(d.cost) + Severe(d.runtime) + Severe(d.depth) + Severe(d.verification);
    if d.cost >= 4 || d.runtime >= 4 || d.verification >= 4 {
      return Some(High);
    }
    if d.cost >= 3 && (d.ambiguity >= 2 || d.runtime >= 2 || d.verification >= 2) {
      return Some(High);
    }
    if severe >= 2 {
      return Some(High);
    }
    if (t.Research? || t.Architecture?) && (d.ambiguity >= 3 || d.depth >= 3) {
      return Some(High);
    }
    if t.Diagnosis? && d.ambiguity >= 3 && (d.runtime >= 2 || d.verification >= 2) {
      return Some(High);
    }
    return None;
  }

  // ---------- The final recommendation ----------

  predicate FamilyEscalates(t: TaskType, d: Dimensions, c: Constraints) {
    && AtRisk(t, d)
    && c.explicitFamily.None?
    && (c.familyCeiling.Some? ==> Sol.Rank() <= c.familyCeiling.value.Rank())
  }

  function FinalFamily(t: TaskType, d: Dimensions, base: nat, c: Constraints): ModelFamily {
    var family := SelectedFamily(t, d, base, c);
    if FamilyEscalates(t, d, c) && family.Rank() < Sol.Rank() then Sol else family
  }

  predicate EffortEscalates(t: TaskType, d: Dimensions, c: Constraints) {
    && AtRisk(t, d)
    && c.explicitEffort.None?
    && (c.effortCeiling.Some? ==> High.Rank() <= c.effortCeiling.value.Rank())
  }

  function FinalEffort(t: TaskType, d: Dimensions, base: nat, c: Constraints): ReasoningLevel {
    var effort := SelectedEffort(t, d, base, c);
    if EffortEscalates(t, d, c) && effort.Rank() < High.Rank() then High else effort
  }

  /** Raising is not allowed for documentation, mechanical work and scores that already select Max. */
  predicate MayRaise(t: TaskType, base: nat) { !t.Documentation? && !t.Mechanical? && base < 85 }

  function Distance(score: nat, target: int): nat { if score < target then target - score else score - target }

  /** The score lies in its range and no score of the range is nearer to the target. */
  ghost predicate NearestScore(target: int, limit: nat, score: nat) {
    score <= limit && forall n: nat | n <= limit :: Distance(score, target) <= Distance(n, target)
  }

  /** What a calibration does to a base score. */
  ghost predicate CalibrationApplied(t: TaskType, base: nat, points: Calibration, score: nat) {
    if points > 0 then
      if MayRaise(t, base) then NearestScore(base + points, 84, score) else score == base
    else NearestScore(base + points, 100, score)
  }

  /** The outer route: the selected decision, then the risk floor applied to its fields in place. */
  method RouteTask(t: TaskType, d: Dimensions, w: Weights, c: Constraints, matched: seq<Conflict>)
    returns (decision: Decision)
    ensures decision == Selected(t, d, NormalizedScore(d, w), c, matched)
                        .(family := FinalFamily(t, d, NormalizedScore(d, w), c),
                          effort := FinalEffort(t, d, NormalizedScore(d, w), c))
    ensures CalibrationApplied(t, NormalizedScore(d, w), c.calibration, decision.score)
  {
    ScoreIsNearestPercentage(d, w);
    CalibrationReachesTheScore(t, d, NormalizedScore(d, w), c, matched);
    var floor := RiskEffortFloor(t, d);
    decision := SelectRoute(t, d, w, c, matched);
    if floor.Some? {
      if c.explicitFamily.None? && decision.family.Rank() < Sol.Rank()
         && (c.familyCeiling.None? || Sol.Rank() <= c.familyCeiling.value.Rank())
      {
        decision := decision.(family := Sol);
      }
      if c.explicitEffort.None? && decision.effort.Rank() < floor.value.Rank()
         && (c.effortCeiling.None? || floor.value.Rank() <= c.effortCeiling.value.Rank())
      {
        decision := decision.(effort := floor.value);
      }
    }
  }

  // ---------- Monotonicity ----------

  lemma EffortHysteresisMonotone(s: nat, s': nat, prior: Option<ReasoningLevel>, margin: nat)
    requires s <= s'
    ensures EffortWithHysteresis(s, prior, margin).Rank() <= EffortWithHysteresis(s', prior, margin).Rank()
        <= Max.Rank()
  {
  }

  lemma FamilyHysteresisMonotone(d: Dimensions, d': Dimensions, s: nat, s': nat, prior: Option<ModelFamily>,
        margin: nat)
    requires d.Leq(d') && s <= s'
    ensures FamilyWithHysteresis(d, s, prior, margin).Rank() <= FamilyWithHysteresis(d', s', prior, margin).Rank()
  {
  }

  lemma SelectedEffortMonotone(t: TaskType, d: Dimensions, d': Dimensions, base: nat, base': nat, c: Constraints)
    requires d.Leq(d') && base <= base'
    ensures ConstrainedEffort(t, d, base, c).Rank() <= ConstrainedEffort(t, d', base', c).Rank()
    ensures SelectedEffort(t, d, base, c).Rank() <= SelectedEffort(t, d', base', c).Rank()
  {
    EffortHysteresisMonotone(SelectionScore(t, base, c), SelectionScore(t, base', c), c.priorEffort, c.margin);
    assert ProposedEffort(t, d, base, c).Rank() <= ProposedEffort(t, d', base', c).Rank();
  }

  lemma SelectedFamilyMonotone(t: TaskType, d: Dimensions, d': Dimensions, base: nat, base': nat, c: Constraints)
    requires d.Leq(d') && base <= base'
    ensures SelectedFamily(t, d, base, c).Rank() <= SelectedFamily(t, d', base', c).Rank()
  {
    var s, s' := SelectionScore(t, base, c), SelectionScore(t, base', c);
    FamilyHysteresisMonotone(d, d', s, s', c.priorFamily, c.margin);
    SelectedEffortMonotone(t, d, d', base, base', c);
    assert UltraTakesFamily(t, d, base, c) ==> UltraTakesFamily(t, d', base', c);
    assert BoundedFamily(FamilyWithHysteresis(d, s, c.priorFamily, c.margin), c).Rank()
        <= BoundedFamily(FamilyWithHysteresis(d', s', c.priorFamily, c.margin), c).Rank();
  }

  /**
   * Raising any of the seven dimensions never lowers the recommended effort or the family rank,
   * for any weights, bounds, calibration, prior, margin and explicit choices.
   */
  lemma RouteMonotone(t: TaskType, d: Dimensions, d': Dimensions, w: Weights, c: Constraints)
    requires d.Leq(d')
    ensures FinalEffort(t, d, NormalizedScore(d, w), c).Rank() <= FinalEffort(t, d', NormalizedScore(d', w), c).Rank()
    ensures FinalFamily(t, d, NormalizedScore(d, w), c).Rank() <= FinalFamily(t, d', NormalizedScore(d', w), c).Rank()
  {
    var base, base' := NormalizedScore(d, w), NormalizedScore(d', w);
    ScoreMonotone(d, d', w);
    SelectedEffortMonotone(t, d, d', base, base', c);
    SelectedFamilyMonotone(t, d, d', base, base', c);
    assert AtRisk(t, d) ==> AtRisk(t, d');
  }

  lemma CalibratedEffortMonotone(t: TaskType, d: Dimensions, base: nat, c: Constraints, low: Calibration,
        high: Calibration)
    requires low <= high
    ensures ConstrainedEffort(t, d, base, c.(calibration := low)).Rank()
         <= ConstrainedEffort(t, d, base, c.(calibration := high)).Rank()
  {
    EffortHysteresisMonotone(CalibratedScore(t, base, low), CalibratedScore(t, base, high), c.priorEffort, c.margin);
  }

  lemma CalibratedFamilyMonotone(t: TaskType, d: Dimensions, base: nat, c: Constraints, low: Calibration,
        high: Calibration)
    requires low <= high
    ensures SelectedFamily(t, d, base, c.(calibration := low)).Rank()
         <= SelectedFamily(t, d, base, c.(calibration := high)).Rank()
  {
    CalibratedEffortMonotone(t, d, base, c, low, high);
    FamilyHysteresisMonotone(d, d, CalibratedScore(t, base, low), CalibratedScore(t, base, high), c.priorFamily,
        c.margin);
  }

  /** A higher calibration never lowers the recommended effort or family rank. */
  lemma CalibrationMonotone(t: TaskType, d: Dimensions, base: nat, c: Constraints, low: Calibration, high: Calibration)
    requires low <= high
    ensures FinalEffort(t, d, base, c.(calibration := low)).Rank()
        <= FinalEffort(t, d, base, c.(calibration := high)).Rank()
    ensures FinalFamily(t, d, base, c.(calibration := low)).Rank()
        <= FinalFamily(t, d, base, c.(calibration := high)).Rank()
  {
    CalibratedEffortMonotone(t, d, base, c, low, high);
    CalibratedFamilyMonotone(t, d, base, c, low, high);
  }

  // ---------- What a prior may not undo ----------

  /** A prior never retains a family weaker than the high-risk dimensions allow. */
  lemma HysteresisKeepsFamilySafe(d: Dimensions, score: nat, prior: Option<ModelFamily>, margin: nat)
    ensures var family := FamilyWithHysteresis(d, score, prior, margin);
      && (family.Rank() == 0 ==> Safe(d, 1))
      && (family.Rank() <= 1 ==> Safe(d, 2))
  {
  }

  /**
   * Whatever the weights, calibration, prior, margin and floors: with neither a family ceiling nor an
   * explicit family, one high-risk dimension of 2 rules out the lightest family and one of 3 all but
   * the strongest.
   */
  lemma RiskyDimensionsForceTheFamily(t: TaskType, d: Dimensions, base: nat, c: Constraints)
    requires c.explicitFamily.None? && c.familyCeiling.None?
    ensures !Safe(d, 1) ==> FinalFamily(t, d, base, c).Rank() >= 1
    ensures !Safe(d, 2) ==> FinalFamily(t, d, base, c).Rank() == 2
  {
    HysteresisKeepsFamilySafe(d, SelectionScore(t, base, c), c.priorFamily, c.margin);
  }

  // ---------- Authority ----------

  /** An explicit effort survives everything except a missing Ultra authorisation. */
  lemma ExplicitEffortWins(t: TaskType, d: Dimensions, base: nat, c: Constraints)
    requires c.explicitEffort.Some?
    ensures FinalEffort(t, d, base, c)
         == if c.explicitEffort.value.Ultra? && !c.ultraAuthorized then Max else c.explicitEffort.value
  {
  }

  /** Without an explicit effort, an effort floor always holds, except that unauthorised Ultra becomes Max. */
  lemma EffortFloorHolds(t: TaskType, d: Dimensions, base: nat, c: Constraints)
    requires c.explicitEffort.None? && c.effortFloor.Some?
    ensures var effort := FinalEffort(t, d, base, c);
      effort.Rank() >= c.effortFloor.value.Rank() || (c.effortFloor.value.Ultra? && !c.ultraAuthorized && effort.Max?)
  {
  }

  /** Without an explicit effort, a compatible effort ceiling always holds, risk floors and Ultra included. */
  lemma EffortCeilingHolds(t: TaskType, d: Dimensions, base: nat, c: Constraints)
    requires c.explicitEffort.None? && EffortCeilingApplies(c)
    ensures FinalEffort(t, d, base, c).Rank() <= c.effortCeiling.value.Rank()
  {
  }

  /** Without an explicit family, a family floor always holds. */
  lemma FamilyFloorHolds(t: TaskType, d: Dimensions, base: nat, c: Constraints)
    requires c.explicitFamily.None? && c.familyFloor.Some?
    ensures FinalFamily(t, d, base, c).Rank() >= c.familyFloor.value.Rank()
  {
  }

  /**
   * A compatible family ceiling yields exactly when it lies below Sol and an automatic Ultra path
   * takes the family; otherwise it holds, risk floors included.
   */
  lemma FamilyCeilingYieldsOnlyToUltra(t: TaskType, d: Dimensions, base: nat, c: Constraints)
    requires c.explicitFamily.None? && FamilyCeilingApplies(c)
    ensures FinalFamily(t, d, base, c).Rank() > c.familyCeiling.value.Rank()
       <==> UltraTakesFamily(t, d, base, c) && c.familyCeiling.value.Rank() < Sol.Rank()
  {
  }

  /** An explicit family is the result unless the task is an Ultra candidate without an explicit effort. */
  lemma ExplicitFamilyYieldsOnlyToUltra(t: TaskType, d: Dimensions, base: nat, c: Constraints)
    requires c.explicitFamily.Some?
    ensures FinalFamily(t, d, base, c)
         == if UltraCandidate(d, base, c) && c.explicitEffort.None? then Sol else c.explicitFamily.value
  {
  }

  /** A conflict between floor and ceiling is recorded exactly when the floor stands above the ceiling. */
  lemma ConflictsRecordedExactly(t: TaskType, d: Dimensions, base: nat, c: Constraints, matched: seq<Conflict>)
    requires FamilyFloorCeiling !in matched && EffortFloorCeiling !in matched
    ensures FamilyFloorCeiling in SelectionConflicts(t, d, base, c, matched)
       <==> c.familyFloor.Some? && c.familyCeiling.Some? && c.familyFloor.value.Rank() > c.familyCeiling.value.Rank()
    ensures EffortFloorCeiling in SelectionConflicts(t, d, base, c, matched)
       <==> c.effortFloor.Some? && c.effortCeiling.Some? && c.effortFloor.value.Rank() > c.effortCeiling.value.Rank()
  {
  }

  // ---------- Ultra and Max ----------

  /** Ultra is recommended only under authorisation, whatever floors, ceilings or choices ask for. */
  lemma UltraNeedsAuthorization(t: TaskType, d: Dimensions, base: nat, c: Constraints)
    ensures FinalEffort(t, d, base, c).Ultra? ==> c.ultraAuthorized
  {
  }

  /** Something other than the calibration already asks for Max or Ultra. */
  predicate DemandsMax(d: Dimensions, base: nat, c: Constraints) {
    || (c.explicitEffort.Some? && c.explicitEffort.value.Rank() >= Max.Rank())
    || (c.effortFloor.Some? && c.effortFloor.value.Rank() >= Max.Rank())
    || UltraCandidate(d, base, c)
    || (c.priorEffort == Some(Max) && c.margin > 0)
  }

  /** A calibration moves the score by at most its own size and never across the Max boundary upwards. */
  lemma CalibrationBounded(t: TaskType, base: nat, points: Calibration)
    requires base <= 100
    ensures CalibratedScore(t, base, points) <= 100
    ensures AbsDiff(CalibratedScore(t, base, points), base) <= if points < 0 then -points else points
    ensures base < 85 ==> CalibratedScore(t, base, points) < 85
    ensures points > 0 && (t.Documentation? || t.Mechanical?) ==> CalibratedScore(t, base, points) == base
  {
  }

  /** The whole calibration reaches the score, as far as its range goes and except where raising is not allowed. */
  lemma CalibrationReachesTheScore(t: TaskType, d: Dimensions, base: nat, c: Constraints, matched: seq<Conflict>)
    requires base <= 100
    ensures CalibrationApplied(t, base, c.calibration, Selected(t, d, base, c, matched).score)
  {
  }

  lemma BelowTheMaxBand(score: nat, prior: Option<ReasoningLevel>, margin: nat)
    requires score < 85 && !(prior == Some(Max) && margin > 0)
    ensures EffortWithHysteresis(score, prior, margin).Rank() < Max.Rank()
  {
  }

  lemma BoundsKeepBelow(effort: ReasoningLevel, c: Constraints, limit: nat)
    requires effort.Rank() < limit && (c.effortFloor.Some? ==> c.effortFloor.value.Rank() < limit)
    ensures BoundedEffort(effort, c).Rank() < limit
  {
  }

  /**
   * From a base score below the Max band no calibration produces Max or Ultra, unless an explicit
   * effort, a floor, the Ultra candidacy or a retained prior Max already demands it. Candidacy and
   * demand do not depend on the calibration.
   */
  lemma CalibrationNeverCreatesMax(t: TaskType, d: Dimensions, base: nat, c: Constraints, points: Calibration)
    requires base < 85 && !DemandsMax(d, base, c)
    ensures !DemandsMax(d, base, c.(calibration := points))
    ensures FinalEffort(t, d, base, c.(calibration := points)).Rank() < Max.Rank()
  {
    CalibrationBounded(t, base, points);
    var proposed := EffortWithHysteresis(CalibratedScore(t, base, points), c.priorEffort, c.margin);
    BelowTheMaxBand(CalibratedScore(t, base, points), c.priorEffort, c.margin);
    BoundsKeepBelow(proposed, c.(calibration := points), Max.Rank());
  }

  /** A score of 44 and one of 48, one on each side of the boundary between Medium and High. */
  const BELOW := Dimensions(2, 2, 2, 2, 1, 1, 0)
  const ABOVE := Dimensions(2, 2, 2, 2, 2, 1, 0)

  lemma BoundaryScores()
    ensures NormalizedScore(BELOW, DEFAULT_WEIGHTS) == 44
    ensures NormalizedScore(ABOVE, DEFAULT_WEIGHTS) == 48
  {
    assert Weighted(BELOW, DEFAULT_WEIGHTS) == 175;
    assert Weighted(ABOVE, DEFAULT_WEIGHTS) == 190;
  }

  lemma PlainEffort(d: Dimensions, base: nat, points: Calibration)
    requires d == BELOW || d == ABOVE
    requires base + points <= 60 && base >= 40
    ensures FinalEffort(Coding, d, base, NO_CONSTRAINTS.(calibration := points)) == EffortFor(base + points)
  {
  }

  /**
   * A repository calibrated upwards gets High where it got Medium, and one calibrated downwards Medium
   * where it got High.
   */
  lemma CalibrationChangesTheEffort()
    ensures var base := NormalizedScore(BELOW, DEFAULT_WEIGHTS);
      && FinalEffort(Coding, BELOW, base, NO_CONSTRAINTS) == Medium
      && FinalEffort(Coding, BELOW, base, NO_CONSTRAINTS.(calibration := 5)) == High
    ensures var base := NormalizedScore(ABOVE, DEFAULT_WEIGHTS);
      && FinalEffort(Coding, ABOVE, base, NO_CONSTRAINTS) == High
      && FinalEffort(Coding, ABOVE, base, NO_CONSTRAINTS.(calibration := -5)) == Medium
  {
    BoundaryScores();
    PlainEffort(BELOW, 44, 0);
    PlainEffort(BELOW, 44, 5);
    PlainEffort(ABOVE, 48, 0);
    PlainEffort(ABOVE, 48, -5);
    assert NO_CONSTRAINTS.(calibration := 0) == NO_CONSTRAINTS;
  }

  // ---------- Families and their limits ----------

  /** The scores and the four risk dimensions that a family of this rank is fit for. */
  predicate FitFor(rank: nat, d: Dimensions, score: nat) {
    var worst := [d.ambiguity, d.cost, d.runtime, d.depth];
    match rank
    case 0 => score <= 20 && forall x | x in worst :: x <= 1
    case 1 => score <= 45 && forall x | x in worst :: x <= 2
    case _ => true
  }

  /** The automatic family is the lightest one that fits. */
  lemma FamilyIsLightestFit(d: Dimensions, score: nat)
    ensures var family := FamilyFor(d, score);
      && (family == Luna || family == Terra || family == Sol)
      && FitFor(family.Rank(), d, score)
      && forall rank: nat | rank < family.Rank() :: !FitFor(rank, d, score)
  {
    var worst := [d.ambiguity, d.cost, d.runtime, d.depth];
    assert worst[0] in worst && worst[1] in worst && worst[2] in worst && worst[3] in worst;
  }

  /** The score that separates two adjacent families. */
  predicate Separates(boundary: nat, a: ModelFamily, b: ModelFamily) {
    || (boundary == 20 && ((a == Luna && b == Terra) || (a == Terra && b == Luna)))
    || (boundary == 45 && ((a == Terra && b == Sol) || (a == Sol && b == Terra)))
  }

  /** A weaker prior is kept only where the risk dimensions allow it. */
  predicate SafeToKeep(prior: ModelFamily, selected: ModelFamily, d: Dimensions) {
    prior.Rank() > selected.Rank()
    || forall x | x in [d.ambiguity, d.cost, d.runtime, d.depth] :: x <= prior.Rank() + 1
  }

  /**
   * With nothing but a prior and a margin the family is the prior's if and only if that is selected
   * anyway, or the score lies within the margin of the boundary between the two and keeping it is safe;
   * otherwise it is the one selected without a prior.
   */
  lemma PriorFamilyIsKeptExactlyWhen(d: Dimensions, score: nat, prior: ModelFamily, margin: nat)
    ensures var selected, family := FamilyFor(d, score), FamilyWithHysteresis(d, score, Some(prior), margin);
      && (family == prior <==>
            selected == prior
            || (margin >= 1 && SafeToKeep(prior, selected, d)
                && ((Separates(20, prior, selected) && AbsDiff(score, 20) <= margin)
                    || (Separates(45, prior, selected) && AbsDiff(score, 45) <= margin))))
      && (family != prior ==> family == selected)
      && FamilyWithHysteresis(d, score, None, margin) == selected
  {
    var worst := [d.ambiguity, d.cost, d.runtime, d.depth];
    assert worst[0] in worst && worst[1] in worst && worst[2] in worst && worst[3] in worst;
  }

  /** A session on Terra stays there at a score of 47, where a new one gets Sol. */
  lemma TerraIsKept()
    ensures var d := DEFAULT_DIMENSIONS;
      && FinalFamily(Coding, d, 47, NO_CONSTRAINTS) == Sol
      && FinalFamily(Coding, d, 47, NO_CONSTRAINTS.(priorFamily := Some(Terra), margin := 3)) == Terra
  {
  }

  // ---------- Which risks escalate ----------

  /** Two different dimensions among the five that can be severe. */
  predicate TwoSevere(d: Dimensions) {
    var scores := [d.ambiguity, d.cost, d.runtime, d.depth, d.verification];
    exists i, j | 0 <= i < j < 5 :: scores[i] >= 3 && scores[j] >= 3
  }

  /**
   * Critical, consequential or correlated risk, and uncertain research, architecture or diagnosis, get
   * at least High and a family of rank 2 when nothing explicit and no ceiling stands against it.
   */
  lemma RiskGetsHigh(t: TaskType, d: Dimensions, base: nat, c: Constraints)
    requires c.explicitFamily.None? && c.explicitEffort.None? && c.familyCeiling.None? && c.effortCeiling.None?
    requires || d.cost == 4 || d.runtime == 4 || d.verification == 4
             || (d.cost == 3 && (d.ambiguity >= 2 || d.runtime >= 2 || d.verification >= 2))
             || TwoSevere(d)
             || (t in {Research, Architecture} && (d.ambiguity >= 3 || d.depth >= 3))
             || (t == Diagnosis && d.ambiguity >= 3 && (d.runtime >= 2 || d.verification >= 2))
    ensures FinalEffort(t, d, base, c).Rank() >= High.Rank() && FinalFamily(t, d, base, c).Rank() == 2
  {
  }

  /** Risk changes nothing else: it raises to exactly High and Sol what was below, and nothing without such risk. */
  lemma RiskRaisesOnlyToHigh(t: TaskType, d: Dimensions, base: nat, c: Constraints)
    ensures var effort, family := FinalEffort(t, d, base, c), FinalFamily(t, d, base, c);
      && (effort != SelectedEffort(t, d, base, c) ==>
            effort == High && SelectedEffort(t, d, base, c).Rank() < High.Rank())
      && (family != SelectedFamily(t, d, base, c) ==>
            family == Sol && SelectedFamily(t, d, base, c).Rank() < Sol.Rank())
    ensures d.cost <= 2 && d.runtime <= 3 && d.verification <= 3 && !TwoSevere(d)
            && (t in {Research, Architecture} ==> d.ambiguity <= 2 && d.depth <= 2)
            && (t == Diagnosis ==> d.ambiguity <= 2 || (d.runtime <= 1 && d.verification <= 1)) ==>
      && FinalEffort(t, d, base, c) == SelectedEffort(t, d, base, c)
      && FinalFamily(t, d, base, c) == SelectedFamily(t, d, base, c)
  {
    var scores := [d.ambiguity, d.cost, d.runtime, d.depth, d.verification];
    if !TwoSevere(d) {
      assert !(scores[0] >= 3 && scores[1] >= 3) && !(scores[0] >= 3 && scores[2] >= 3);
      assert !(scores[0] >= 3 && scores[3] >= 3) && !(scores[0] >= 3 && scores[4] >= 3);
      assert !(scores[1] >= 3 && scores[2] >= 3) && !(scores[1] >= 3 && scores[3] >= 3);
      assert !(scores[1] >= 3 && scores[4] >= 3) && !(scores[2] >= 3 && scores[3] >= 3);
      assert !(scores[2] >= 3 && scores[4] >= 3) && !(scores[3] >= 3 && scores[4] >= 3);
    }
  }

  /** An explicit family or effort is never escalated, and a ceiling below the floor forbids it. */
  lemma EscalationYields(t: TaskType, d: Dimensions, base: nat, c: Constraints)
    ensures c.explicitEffort.Some? || (c.effortCeiling.Some? && c.effortCeiling.value.Rank() < High.Rank()) ==>
      FinalEffort(t, d, base, c) == SelectedEffort(t, d, base, c)
    ensures c.explicitFamily.Some? || (c.familyCeiling.Some? && c.familyCeiling.value.Rank() < Sol.Rank()) ==>
      FinalFamily(t, d, base, c) == SelectedFamily(t, d, base, c)
  {
  }

  // ---------- When Ultra is selected ----------

  /** A large task in parallel tracks. */
  predicate LargeAndParallel(d: Dimensions, base: nat, c: Constraints) {
    base >= 69 && d.parallel >= 3 && c.parallelTracks
  }

  /**
   * Ultra is the result if and only if it is authorised and either chosen, or, without a chosen effort,
   * demanded by a floor or proposed for a large parallel task with no compatible ceiling below it.
   */
  lemma UltraExactlyWhen(t: TaskType, d: Dimensions, base: nat, c: Constraints)
    ensures FinalEffort(t, d, base, c).Ultra? <==>
      c.ultraAuthorized
      && (if c.explicitEffort.Some? then c.explicitEffort == Some(Ultra)
          else c.effortFloor == Some(Ultra)
               || (LargeAndParallel(d, base, c)
                   && (c.effortCeiling in [None, Some(Ultra)] || !EffortCeilingApplies(c))))
  {
  }

  /** A large parallel task without authorisation, bounds and choices gets Max on Sol. */
  lemma UnauthorisedUltraIsMax(t: TaskType, d: Dimensions, base: nat, c: Constraints)
    requires LargeAndParallel(d, base, c) && !c.ultraAuthorized
    requires c.explicitEffort.None? && c.effortFloor.None? && c.effortCeiling.None?
    ensures FinalEffort(t, d, base, c) == Max && FinalFamily(t, d, base, c) == Sol
  {
  }

  /**
   * The decision says whether the task was a candidate, whether Ultra was selected, and, as a conflict,
   * whether Ultra was chosen or demanded by a floor without authorisation.
   */
  lemma DecisionReportsUltra(t: TaskType, d: Dimensions, base: nat, c: Constraints, matched: seq<Conflict>)
    requires UltraAuthorization !in matched
    ensures var decision := Selected(t, d, base, c, matched);
      && (decision.ultraCandidate <==> LargeAndParallel(d, base, c))
      && (decision.ultraSelected <==> FinalEffort(t, d, base, c).Ultra?)
      && (UltraAuthorization in decision.conflicts <==>
            !c.ultraAuthorized
            && (if c.explicitEffort.Some? then c.explicitEffort == Some(Ultra) else c.effortFloor == Some(Ultra)))
      && matched <= decision.conflicts && decision.dimensions == d && decision.taskType == t
  {
  }
}
