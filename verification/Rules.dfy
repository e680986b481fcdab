/** One pass over the policy rules that matched a task; which rules match is an arbitrary input. */
module Rules {
  import opened Types
  import opened Select

  datatype Rule = Rule(
    id: string,
    deltas: Deltas,
    bounds: Bounds)

  /** The bounds of one rule, or the aggregate of several. */
  datatype Bounds = Bounds(
    familyFloor: Option<ModelFamily>,
    familyCeiling: Option<ModelFamily>,
    effortFloor: Option<ReasoningLevel>,
    effortCeiling: Option<ReasoningLevel>)

  datatype Application = Application(
    dimensions: Dimensions,
    bounds: Bounds,
    matches: seq<Rule>,
    conflicts: seq<Conflict>)

  /** The matched rules in configuration order. */
  function Matched(rules: seq<Rule>, hits: seq<bool>): seq<Rule>
    requires |rules| == |hits|
  {
    if rules == [] then []
    else
      var earlier := Matched(rules[..|rules| - 1], hits[..|rules| - 1]);
      if hits[|rules| - 1] then earlier + [rules[|rules| - 1]] else earlier
  }

  /** Signed deltas applied rule by rule, saturating after each. */
  function Shifted(d: Dimensions, matches: seq<Rule>): Dimensions {
    if matches == [] then d
    else ApplyDeltas(Shifted(d, matches[..|matches| - 1]), matches[|matches| - 1].deltas)
  }

  ghost predicate StrongestFamilyFloor(best: Option<ModelFamily>, matches: seq<Rule>) {
    && (forall r | r in matches && r.bounds.familyFloor.Some? ::
          best.Some? && r.bounds.familyFloor.value.Rank() <= best.value.Rank())
    && (best.Some? ==> exists r | r in matches :: r.bounds.familyFloor == best)
  }

  ghost predicate StrictestFamilyCeiling(best: Option<ModelFamily>, matches: seq<Rule>) {
    && (forall r | r in matches && r.bounds.familyCeiling.Some? ::
          best.Some? && best.value.Rank() <= r.bounds.familyCeiling.value.Rank())
    && (best.Some? ==> exists r | r in matches :: r.bounds.familyCeiling == best)
  }

  ghost predicate StrongestEffortFloor(best: Option<ReasoningLevel>, matches: seq<Rule>) {
    && (forall r | r in matches && r.bounds.effortFloor.Some? ::
          best.Some? && r.bounds.effortFloor.value.Rank() <= best.value.Rank())
    && (best.Some? ==> exists r | r in matches :: r.bounds.effortFloor == best)
  }

  ghost predicate StrictestEffortCeiling(best: Option<ReasoningLevel>, matches: seq<Rule>) {
    && (forall r | r in matches && r.bounds.effortCeiling.Some? ::
          best.Some? && best.value.Rank() <= r.bounds.effortCeiling.value.Rank())
    && (best.Some? ==> exists r | r in matches :: r.bounds.effortCeiling == best)
  }

  /** The aggregate bounds are exactly the strongest floor and the strictest ceiling of the matched rules. */
  ghost predicate Aggregates(a: Bounds, matches: seq<Rule>) {
    && StrongestFamilyFloor(a.familyFloor, matches)
    && StrictestFamilyCeiling(a.familyCeiling, matches)
    && StrongestEffortFloor(a.effortFloor, matches)
    && StrictestEffortCeiling(a.effortCeiling, matches)
  }

  function BoundConflicts(a: Bounds): seq<Conflict> {
    (if a.familyFloor.Some? && a.familyCeiling.Some? && a.familyFloor.value.Rank() > a.familyCeiling.value.Rank()
     then [MatchedFamilyBounds] else [])
    + (if a.effortFloor.Some? && a.effortCeiling.Some? && a.effortFloor.value.Rank() > a.effortCeiling.value.Rank()
       then [MatchedEffortBounds] else [])
  }

  lemma FamilyFloorStep(best: Option<ModelFamily>, matches: seq<Rule>, rule: Rule)
    requires StrongestFamilyFloor(best, matches)
    ensures StrongestFamilyFloor(
      if rule.bounds.familyFloor.Some? && (best.None? || rule.bounds.familyFloor.value.Rank() > best.value.Rank())
      then rule.bounds.familyFloor else best, matches + [rule])
  {
    assert rule in matches + [rule];
  }

  lemma FamilyCeilingStep(best: Option<ModelFamily>, matches: seq<Rule>, rule: Rule)
    requires StrictestFamilyCeiling(best, matches)
    ensures StrictestFamilyCeiling(
      if rule.bounds.familyCeiling.Some? && (best.None? || rule.bounds.familyCeiling.value.Rank() < best.value.Rank())
      then rule.bounds.familyCeiling else best, matches + [rule])
  {
    assert rule in matches + [rule];
  }

  lemma EffortFloorStep(best: Option<ReasoningLevel>, matches: seq<Rule>, rule: Rule)
    requires StrongestEffortFloor(best, matches)
    ensures StrongestEffortFloor(
      if rule.bounds.effortFloor.Some? && (best.None? || rule.bounds.effortFloor.value.Rank() > best.value.Rank())
      then rule.bounds.effortFloor else best, matches + [rule])
  {
    assert rule in matches + [rule];
  }

  lemma EffortCeilingStep(best: Option<ReasoningLevel>, matches: seq<Rule>, rule: Rule)
    requires StrictestEffortCeiling(best, matches)
    ensures StrictestEffortCeiling(
      if rule.bounds.effortCeiling.Some? && (best.None? || rule.bounds.effortCeiling.value.Rank() < best.value.Rank())
      then rule.bounds.effortCeiling else best, matches + [rule])
  {
    assert rule in matches + [rule];
  }

  /** Joins one more matched rule's bounds to the aggregate of those before it. */
  method Tighten(before: Bounds, rule: Rule, ghost matches: seq<Rule>) returns (after: Bounds)
    requires Aggregates(before, matches)
    ensures Aggregates(after, matches + [rule])
  {
    var Bounds(familyFloor, familyCeiling, effortFloor, effortCeiling) := before;
    FamilyFloorStep(familyFloor, matches, rule);
    if rule.bounds.familyFloor.Some?
       && (familyFloor.None? || rule.bounds.familyFloor.value.Rank() > familyFloor.value.Rank())
    {
      familyFloor := rule.bounds.familyFloor;
    }
    FamilyCeilingStep(familyCeiling, matches, rule);
    if rule.bounds.familyCeiling.Some?
       && (familyCeiling.None? || rule.bounds.familyCeiling.value.Rank() < familyCeiling.value.Rank())
    {
      familyCeiling := rule.bounds.familyCeiling;
    }
    EffortFloorStep(effortFloor, matches, rule);
    if rule.bounds.effortFloor.Some?
       && (effortFloor.None? || rule.bounds.effortFloor.value.Rank() > effortFloor.value.Rank())
    {
      effortFloor := rule.bounds.effortFloor;
    }
    EffortCeilingStep(effortCeiling, matches, rule);
    if rule.bounds.effortCeiling.Some?
       && (effortCeiling.None? || rule.bounds.effortCeiling.value.Rank() < effortCeiling.value.Rank())
    {
      effortCeiling := rule.bounds.effortCeiling;
    }
    after := Bounds(familyFloor, familyCeiling, effortFloor, effortCeiling);
  }

  method Evaluate(rules: seq<Rule>, hits: seq<bool>, base: Dimensions) returns (a: Application)
    requires |rules| == |hits|
    ensures a.matches == Matched(rules, hits)
    ensures a.dimensions == Shifted(base, a.matches)
    ensures Aggregates(a.bounds, a.matches)
    ensures a.conflicts == BoundConflicts(a.bounds)
  {
    var dimensions, matches, bounds := base, [], Bounds(None, None, None, None);
    for i := 0 to |rules|
      invariant matches == Matched(rules[..i], hits[..i])
      invariant dimensions == Shifted(base, matches)
      invariant Aggregates(bounds, matches)
    {
      assert rules[..i + 1][..i] == rules[..i] && hits[..i + 1][..i] == hits[..i];
      if hits[i] {
        dimensions := ApplyDeltas(dimensions, rules[i].deltas);
        bounds := Tighten(bounds, rules[i], matches);
        assert (matches + [rules[i]])[..|matches|] == matches;
        matches := matches + [rules[i]];
      }
    }
    assert rules[..|rules|] == rules && hits[..|rules|] == hits;
    a := Application(dimensions, bounds, matches, BoundConflicts(bounds));
  }

  function FamilyRank(bound: Option<ModelFamily>): int { if bound.None? then -1 else bound.value.Rank() }

  function EffortRank(bound: Option<ReasoningLevel>): int { if bound.None? then -1 else bound.value.Rank() }

  lemma FloorsIgnoreOrder(a: Bounds, b: Bounds, first: seq<Rule>, second: seq<Rule>)
    requires Aggregates(a, first) && Aggregates(b, second) && forall r | r in first :: r in second
    ensures FamilyRank(a.familyFloor) <= FamilyRank(b.familyFloor)
    ensures EffortRank(a.effortFloor) <= EffortRank(b.effortFloor)
  {
    if a.familyFloor.Some? { var r :| r in first && r.bounds.familyFloor == a.familyFloor; assert r in second; }
    if a.effortFloor.Some? { var r :| r in first && r.bounds.effortFloor == a.effortFloor; assert r in second; }
  }

  /** A missing ceiling is no bound at all. */
  lemma CeilingsIgnoreOrder(a: Bounds, b: Bounds, first: seq<Rule>, second: seq<Rule>)
    requires Aggregates(a, first) && Aggregates(b, second) && forall r | r in first :: r in second
    ensures a.familyCeiling.Some? ==> 0 <= FamilyRank(b.familyCeiling) <= FamilyRank(a.familyCeiling)
    ensures a.effortCeiling.Some? ==> 0 <= EffortRank(b.effortCeiling) <= EffortRank(a.effortCeiling)
  {
    if a.familyCeiling.Some? { var r :| r in first && r.bounds.familyCeiling == a.familyCeiling; assert r in second; }
    if a.effortCeiling.Some? { var r :| r in first && r.bounds.effortCeiling == a.effortCeiling; assert r in second; }
  }

  /** Reordering, or repeating, the matched rules changes none of the four aggregate ranks. */
  lemma BoundsIgnoreOrder(a: Bounds, b: Bounds, first: seq<Rule>, second: seq<Rule>)
    requires Aggregates(a, first) && Aggregates(b, second)
    requires forall r :: r in first <==> r in second
    ensures FamilyRank(a.familyFloor) == FamilyRank(b.familyFloor)
    ensures FamilyRank(a.familyCeiling) == FamilyRank(b.familyCeiling)
    ensures EffortRank(a.effortFloor) == EffortRank(b.effortFloor)
    ensures EffortRank(a.effortCeiling) == EffortRank(b.effortCeiling)
    ensures BoundConflicts(a) == BoundConflicts(b)
  {
    FloorsIgnoreOrder(a, b, first, second);
    FloorsIgnoreOrder(b, a, second, first);
    CeilingsIgnoreOrder(a, b, first, second);
    CeilingsIgnoreOrder(b, a, second, first);
  }

  /** The dimensions, by contrast, do depend on the order: saturation is not commutative. */
  lemma DeltasDependOnOrder()
    ensures exists r, s :: Shifted(DEFAULT_DIMENSIONS, [r, s]) != Shifted(DEFAULT_DIMENSIONS, [s, r])
  {
    var up := Rule("up", Deltas(4, 0, 0, 0, 0, 0, 0), Bounds(None, None, None, None));
    var down := Rule("down", Deltas(-4, 0, 0, 0, 0, 0, 0), Bounds(None, None, None, None));
    assert [up, down][..1] == [up] && [down, up][..1] == [down] && [up][..0] == [] && [down][..0] == [];
    assert Shifted(DEFAULT_DIMENSIONS, [up]).scope == 4 && Shifted(DEFAULT_DIMENSIONS, [down]).scope == 0;
    assert Shifted(DEFAULT_DIMENSIONS, [up, down]).scope == 0 && Shifted(DEFAULT_DIMENSIONS, [down, up]).scope == 4;
  }

  /** The constraints the rules hand to the selection. */
  function RuleConstraints(a: Bounds): Constraints {
    NO_CONSTRAINTS.(
      familyFloor := a.familyFloor,
      familyCeiling := a.familyCeiling,
      effortFloor := a.effortFloor,
      effortCeiling := a.effortCeiling)
  }

  /**
   * A contradiction between matched rules is recorded twice, once by the rules and once by the
   * selection, and neither record appears otherwise.
   */
  lemma ContradictionsRecordedTwice(a: Bounds, c: Constraints, t: TaskType, d: Dimensions, base: nat)
    requires c.familyFloor == a.familyFloor && c.familyCeiling == a.familyCeiling
    requires c.effortFloor == a.effortFloor && c.effortCeiling == a.effortCeiling
    ensures var all := SelectionConflicts(t, d, base, c, BoundConflicts(a));
      && (MatchedFamilyBounds in all <==> FamilyFloorCeiling in all)
      && (MatchedFamilyBounds in all <==>
            a.familyFloor.Some? && a.familyCeiling.Some? && FamilyRank(a.familyFloor) > FamilyRank(a.familyCeiling))
      && (MatchedEffortBounds in all <==> EffortFloorCeiling in all)
      && (MatchedEffortBounds in all <==>
            a.effortFloor.Some? && a.effortCeiling.Some? && EffortRank(a.effortFloor) > EffortRank(a.effortCeiling))
  {
  }

  // ---------- What matching rules contribute ----------

  /** A score moves by a delta as far as its range allows. */
  predicate MovesBy(before: BoundedScore, delta: Delta, after: BoundedScore) {
    var target := before + delta;
    after == target || (target < 0 && after == 0) || (target > 4 && after == 4)
  }

  /** One more matched rule moves each dimension by that rule's own delta. */
  lemma RuleMovesItsDimensions(d: Dimensions, matches: seq<Rule>, rule: Rule)
    ensures var before, after, delta := Shifted(d, matches), Shifted(d, matches + [rule]), rule.deltas;
      && MovesBy(before.scope, delta.scope, after.scope) && MovesBy(before.ambiguity, delta.ambiguity, after.ambiguity)
      && MovesBy(before.cost, delta.cost, after.cost) && MovesBy(before.runtime, delta.runtime, after.runtime)
      && MovesBy(before.depth, delta.depth, after.depth)
      && MovesBy(before.verification, delta.verification, after.verification)
      && MovesBy(before.parallel, delta.parallel, after.parallel)
    ensures Shifted(d, []) == d
  {
    assert (matches + [rule])[..|matches|] == matches;
  }

  /** The positions of the rules that hit, in ascending order. */
  function HitPositions(hits: seq<bool>): seq<nat> {
    if hits == [] then []
    else
      var earlier, last := HitPositions(hits[..|hits| - 1]), |hits| - 1;
      if hits[last] then earlier + [last] else earlier
  }

  lemma {:induction false} HitPositionsAreExact(hits: seq<bool>)
    ensures forall i: nat :: i in HitPositions(hits) <==> i < |hits| && hits[i]
    ensures forall n, m | 0 <= n < m < |HitPositions(hits)| :: HitPositions(hits)[n] < HitPositions(hits)[m]
  {
    if hits != [] {
      var front := hits[..|hits| - 1];
      HitPositionsAreExact(front);
      assert forall n | 0 <= n < |HitPositions(front)| :: HitPositions(front)[n] in HitPositions(front);
    }
  }

  /** The rules at these positions. */
  predicate AreAt(matched: seq<Rule>, rules: seq<Rule>, at: seq<nat>) {
    |matched| == |at| && forall n | 0 <= n < |at| :: at[n] < |rules| && matched[n] == rules[at[n]]
  }

  lemma OneMoreRule(matched: seq<Rule>, rules: seq<Rule>, at: seq<nat>, rule: Rule)
    requires AreAt(matched, rules, at)
    ensures AreAt(matched, rules + [rule], at)
    ensures AreAt(matched + [rule], rules + [rule], at + [|rules|])
  {
  }

  /** The matched rules are the rules that hit, each once and in the order of the configuration. */
  lemma {:induction false} MatchedInOrder(rules: seq<Rule>, hits: seq<bool>)
    requires |rules| == |hits|
    ensures AreAt(Matched(rules, hits), rules, HitPositions(hits))
    decreases |rules|
  {
    if rules != [] {
      var earlier, before, last := rules[..|rules| - 1], hits[..|rules| - 1], |rules| - 1;
      MatchedInOrder(earlier, before);
      OneMoreRule(Matched(earlier, before), earlier, HitPositions(before), rules[last]);
      assert rules == earlier + [rules[last]];
    }
  }
}
