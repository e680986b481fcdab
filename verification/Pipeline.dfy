/** The three feature stages composed, and what survives them all the way to the recommendation. */
module Pipeline {
  import opened Types
  import opened Text
  import opened Features
  import opened Semantic
  import Score
  import opened Select
  import opened Route

  // ---------- Third stage: task budgets ----------

  predicate SimpleExplanation(a: Assessment) {
    a.taskType.Documentation? && ContainsAny(a.text, PROJECT_EXPLANATION)
  }

  function Budgeted(a: Assessment): Assessment {
    var restored := if a.taskType.Diagnosis? && !a.clearCompletion
      then a.dimensions.(ambiguity := RaiseTo(a.dimensions.ambiguity, 3))
      else a.dimensions;
    a.(dimensions := if SimpleExplanation(a) then Lowered(restored) else restored)
  }

  /**
   * Which dimensions the budgets lower, and when: those of a plain explanation above their budget,
   * parallel work never.
   */
  predicate FallsOnlyWhenPlain(before: Dimensions, after: Dimensions, plain: bool) {
    && (after.scope < before.scope <==> plain && before.scope > 1)
    && (after.ambiguity < before.ambiguity <==> plain && before.ambiguity > 1)
    && (after.cost < before.cost <==> plain && before.cost > 1)
    && (after.runtime < before.runtime <==> plain && before.runtime > 0)
    && (after.depth < before.depth <==> plain && before.depth > 0)
    && (after.verification < before.verification <==> plain && before.verification > 1)
    && after.parallel == before.parallel
  }

  /** The one dimension the budgets raise is the ambiguity of an open diagnosis, to 3. */
  predicate RisesOnlyForOpenDiagnosis(a: Assessment, after: Dimensions) {
    && after.(ambiguity := 0).Leq(a.dimensions.(ambiguity := 0))
    && (after.ambiguity > a.dimensions.ambiguity <==>
          a.taskType.Diagnosis? && !a.clearCompletion && a.dimensions.ambiguity < 3)
    && (after.ambiguity > a.dimensions.ambiguity ==> after.ambiguity == 3)
  }

  lemma BudgetsLower(a: Assessment)
    ensures FallsOnlyWhenPlain(a.dimensions, Budgeted(a).dimensions, SimpleExplanation(a))
  {
  }

  lemma BudgetsRaise(a: Assessment)
    ensures RisesOnlyForOpenDiagnosis(a, Budgeted(a).dimensions)
  {
  }

  lemma BudgetEffects(a: Assessment)
    ensures var b := Budgeted(a);
      && b == a.(dimensions := b.dimensions)
      && FallsOnlyWhenPlain(a.dimensions, b.dimensions, SimpleExplanation(a))
      && RisesOnlyForOpenDiagnosis(a, b.dimensions)
      && Budgeted(b) == b
  {
    BudgetsLower(a);
    BudgetsRaise(a);
  }

  /** The third stage changes nothing but dimensions, and changes nothing when it is applied again. */
  method ApplyBudgets(assessment: Assessment) returns (a: Assessment)
    ensures a == Budgeted(assessment) && Budgeted(a) == a
    ensures a == assessment.(dimensions := a.dimensions)
    ensures FallsOnlyWhenPlain(assessment.dimensions, a.dimensions, SimpleExplanation(assessment))
    ensures RisesOnlyForOpenDiagnosis(assessment, a.dimensions)
  {
    a := assessment;
    var d := a.dimensions;
    if a.taskType.Diagnosis? && !a.clearCompletion {
      d := d.(ambiguity := RaiseTo(d.ambiguity, 3));
    }
    if a.taskType.Documentation? && ContainsAny(a.text, PROJECT_EXPLANATION) {
      d := d.(scope := LowerTo(d.scope, 1), ambiguity := LowerTo(d.ambiguity, 1), cost := LowerTo(d.cost, 1));
      d := d.(runtime := LowerTo(d.runtime, 0), depth := LowerTo(d.depth, 0));
      d := d.(verification := LowerTo(d.verification, 1));
    }
    a := a.(dimensions := d);
    BudgetEffects(assessment);
  }

  function Assessed(text: string, k: Classes): Assessment {
    Budgeted(Refined(Extracted(text, k), k))
  }

  /** The assessment is a plain explanation or narrow mechanical work, the only two kinds whose risk is lowered. */
  predicate LightWork(a: Assessment, k: Classes) {
    SimpleExplanation(a) || NarrowMechanical(a.taskType, |a.paths|, ShapeOf(a.text, k))
  }

  /**
   * Through all stages the evidence of the first is kept, parallel work never falls, and cost and
   * runtime fall below what the first stage found if and only if the result is light work.
   */
  predicate KeepsRisk(first: Assessment, a: Assessment, light: bool) {
    && SameEvidence(first, a)
    && a.dimensions.parallel >= first.dimensions.parallel
    && (a.dimensions.cost < first.dimensions.cost <==> light && first.dimensions.cost > 1)
    && (a.dimensions.runtime < first.dimensions.runtime <==> light && first.dimensions.runtime > 0)
  }

  /** Narrow mechanical work leaves the second stage within its budgets. */
  lemma NarrowIsCheap(a: Assessment, p: Shape)
    ensures var b := Corrected(a, p);
      NarrowMechanical(b.taskType, |a.paths|, p) ==> b.dimensions.cost <= 1 && b.dimensions.runtime == 0
  {
  }

  lemma PlainIsCheap(a: Assessment)
    ensures var d := Budgeted(a).dimensions;
      && (SimpleExplanation(a) ==> d.cost <= 1 && d.runtime == 0)
      && d.cost <= a.dimensions.cost && d.runtime <= a.dimensions.runtime
  {
  }

  lemma CorrectedKeepsRisk(first: Assessment, p: Shape)
    ensures var third := Budgeted(Corrected(first, p));
      KeepsRisk(first, third, SimpleExplanation(third) || NarrowMechanical(third.taskType, |third.paths|, p))
  {
    CorrectionEffects(first, p);
    NarrowIsCheap(first, p);
    BudgetEffects(Corrected(first, p));
    PlainIsCheap(Corrected(first, p));
  }

  lemma LaterStagesKeepRisk(first: Assessment, k: Classes)
    ensures KeepsRisk(first, Budgeted(Refined(first, k)), LightWork(Budgeted(Refined(first, k)), k))
  {
    if first.taskType.Empty? {
      BudgetEffects(first);
    } else {
      CorrectedKeepsRisk(first, ShapeOf(first.text, k));
    }
  }

  /** The three stages in the program's order. */
  method Assess(text: string, k: Classes) returns (a: Assessment)
    ensures a == Assessed(text, k)
    ensures KeepsRisk(Extracted(text, k), a, LightWork(a, k))
    ensures a.text == text
  {
    a := ExtractFeatures(text, k);
    LaterStagesKeepRisk(a, k);
    a := RefineFeatures(a, k);
    a := ApplyBudgets(a);
  }

  // ---------- Live failures ----------

  /** A text with a character that is not white has at least one word. */
  lemma {:induction false} NonWhiteMakesWords(text: string, white: char -> bool, at: nat)
    requires at < |text| && !white(text[at])
    ensures Words(text, white) != []
  {
    var keep := (c: char) => !white(c);
    NonWhiteMakesRun(text, keep, at);
  }

  lemma {:induction false} NonWhiteMakesRun(text: string, keep: char -> bool, at: nat)
    requires at < |text| && keep(text[at])
    ensures NonEmpty(Split(text, keep)) != []
  {
    if at > 0 {
      NonWhiteMakesRun(text[1..], keep, at - 1);
    }
  }

  /** Every character of a word cut out of a text occurs in the text. */
  lemma {:induction false} SplitComesFrom(text: string, keep: char -> bool, word: string)
    requires word in Split(text, keep) && word != ""
    ensures exists at: nat | at < |text| :: text[at] == word[0]
  {
    if keep(text[0]) && word == Split(text, keep)[0] {
      assert text[0] == word[0];
    } else {
      SplitComesFrom(text[1..], keep, word);
      var at: nat :| at < |text[1..]| && text[1..][at] == word[0];
      assert text[at + 1] == word[0];
    }
  }

  predicate StartsWithLetter(needle: string) {
    needle != "" && 'a' <= needle[0] <= 'z'
  }

  lemma FailureNeedlesStartWithLetters()
    ensures forall n | n in FAILURE_WORDS :: StartsWithLetter(n)
    ensures forall n | n in FAILURE_PHRASES :: StartsWithLetter(n)
  {
  }

  /** Where letters are not white space, a failure symptom is never an empty task. */
  lemma FailureIsNotEmpty(text: string, k: Classes)
    requires FailureSymptom(text, k)
    requires forall c | 'a' <= c <= 'z' :: !k.whitespace(c)
    ensures Words(text, k.whitespace) != []
  {
    FailureNeedlesStartWithLetters();
    var at: nat;
    if ContainsAny(text, FAILURE_PHRASES) {
      var needle :| needle in FAILURE_PHRASES && Contains(text, needle);
      at :| at <= |text| && OccursAt(text, needle, at);
      assert text[at] == needle[0];
    } else {
      var word :| word in Split(text, WordChar(k.alphanumeric)) && word in FAILURE_WORDS;
      SplitComesFrom(text, WordChar(k.alphanumeric), word);
      at :| at < |text| && text[at] == word[0];
    }
    NonWhiteMakesWords(text, k.whitespace, at);
  }

  /** What the first stage leaves behind for a live failure. */
  lemma FailureRaises(s: Signals)
    requires s.Repair() && s.diagnosis
    ensures var d := ExtractedDimensions(s); d.cost >= 3 && d.runtime >= 3
  {
  }

  /** No lowering of the second and third stage touches cost or runtime once a diagnosis is signalled. */
  lemma DiagnosisIsNeverLowered(a: Assessment, p: Shape)
    requires p.diagnosis
    ensures var b := Budgeted(Corrected(a, p));
      && b.dimensions.cost >= a.dimensions.cost
      && b.dimensions.runtime >= a.dimensions.runtime
  {
  }

  /** A failure symptom in an operational context keeps cost and runtime at 3 or more through all stages. */
  lemma LiveFailureKeepsRisk(text: string, k: Classes)
    requires FailureSymptom(text, k) && OperationalContext(text, k)
    requires Words(text, k.whitespace) != []
    ensures var a := Assessed(text, k); a.dimensions.cost >= 3 && a.dimensions.runtime >= 3
  {
    var first := Extracted(text, k);
    var s := SignalsOf(text, first.paths, k);
    FailureRaises(s);
    FailureSymptomIsSignal(text, k);
    DiagnosisIsNeverLowered(first, ShapeOf(text, k));
  }

  /**
   * Whatever else it says, a prompt that names a failure symptom in an operational context is
   * routed to a family of rank 2 and at least High effort, for all weights, calibrations, priors,
   * margins and floors, when nothing explicit and no ceiling stands against it.
   */
  lemma LiveFailureRoutesHigh(text: string, k: Classes, w: Score.Weights, c: Constraints)
    requires FailureSymptom(text, k) && OperationalContext(text, k)
    requires forall c | 'a' <= c <= 'z' :: !k.whitespace(c)
    requires c.explicitFamily.None? && c.explicitEffort.None? && c.familyCeiling.None? && c.effortCeiling.None?
    ensures var a := Assessed(text, k);
      var base := Score.NormalizedScore(a.dimensions, w);
      && FinalFamily(a.taskType, a.dimensions, base, c).Rank() == 2
      && FinalEffort(a.taskType, a.dimensions, base, c).Rank() >= High.Rank()
  {
    FailureIsNotEmpty(text, k);
    LiveFailureKeepsRisk(text, k);
    var a := Assessed(text, k);
    assert AtRisk(a.taskType, a.dimensions);
    AtRiskRoutesHigh(a.taskType, a.dimensions, Score.NormalizedScore(a.dimensions, w), c);
  }

  lemma AtRiskRoutesHigh(t: TaskType, d: Dimensions, base: nat, c: Constraints)
    requires AtRisk(t, d)
    requires c.explicitFamily.None? && c.explicitEffort.None? && c.familyCeiling.None? && c.effortCeiling.None?
    ensures FinalFamily(t, d, base, c).Rank() == 2
    ensures FinalEffort(t, d, base, c).Rank() >= High.Rank()
  {
  }

  // ---------- Neutral prompts ----------

  /** The first stage matches nothing that moves a dimension or the task type; length, paths and vagueness may count. */
  predicate QuietSignals(s: Signals) {
    && !s.reproduction && !s.completion && !s.docs && !s.mechanical && !s.diagnosis && !s.failure && !s.adversarial
    && !s.research && !s.architecture && !s.review && !s.audit && !s.live && !s.highCost && !s.deep && !s.checks
    && !s.delegation && !s.tracks && !s.independent
  }

  /** Neither does the second. */
  predicate QuietShape(p: Shape) {
    && !p.explanation && !p.docs && !p.diagnosis && !p.research && !p.architecture && !p.review && !p.mechanical
    && !p.improvement && !p.broad && !p.performance && !p.correctness && !p.platform && !p.security
    && !p.concurrency && p.groups < 3
  }

  /** A text that matches no feature needle. */
  predicate Neutral(text: string, k: Classes) {
    QuietSignals(SignalsOf(text, PathsOf(Words(text, k.whitespace)), k)) && QuietShape(ShapeOf(text, k))
  }

  lemma QuietDimensions(s: Signals)
    requires QuietSignals(s)
    ensures FirstTaskType(s).Coding?
    ensures var d := ExtractedDimensions(s); DEFAULT_DIMENSIONS.Leq(d) && d.Leq(Dimensions(3, 1, 1, 0, 1, 1, 0))
  {
  }

  predicate NeutralFirst(a: Assessment) {
    && a.taskType.Coding? && !a.clearCompletion
    && DEFAULT_DIMENSIONS.Leq(a.dimensions) && a.dimensions.Leq(Dimensions(3, 1, 1, 0, 1, 1, 0))
  }

  lemma QuietFirstStage(text: string, k: Classes)
    requires Words(text, k.whitespace) != [] && Neutral(text, k)
    ensures NeutralFirst(Extracted(text, k)) && Extracted(text, k).text == text
  {
    QuietDimensions(SignalsOf(text, PathsOf(Words(text, k.whitespace)), k));
  }

  lemma QuietCorrection(a: Assessment, p: Shape)
    requires NeutralFirst(a) && QuietShape(p)
    ensures var b := Budgeted(Corrected(a, p));
      && b.taskType.Coding?
      && DEFAULT_DIMENSIONS.Leq(b.dimensions) && b.dimensions.Leq(Dimensions(3, 2, 1, 0, 1, 1, 0))
  {
  }

  /** What a neutral prompt can score at most, and at least. */
  lemma NeutralDimensions(text: string, k: Classes)
    requires Words(text, k.whitespace) != [] && Neutral(text, k)
    ensures var a := Assessed(text, k);
      && a.taskType == Coding
      && DEFAULT_DIMENSIONS.Leq(a.dimensions)
      && a.dimensions.Leq(Dimensions(3, 2, 1, 0, 1, 1, 0))
  {
    QuietFirstStage(text, k);
    QuietCorrection(Extracted(text, k), ShapeOf(text, k));
  }

  /**
   * A non-empty prompt of any length, with any number of paths, that matches no feature needle is
   * routed with the default weights and no constraints to exactly Terra and Medium.
   */
  lemma NeutralRoutesToTerraMedium(text: string, k: Classes)
    requires Words(text, k.whitespace) != [] && Neutral(text, k)
    ensures var a := Assessed(text, k);
      var base := Score.NormalizedScore(a.dimensions, Score.DEFAULT_WEIGHTS);
      && FinalFamily(a.taskType, a.dimensions, base, NO_CONSTRAINTS) == Terra
      && FinalEffort(a.taskType, a.dimensions, base, NO_CONSTRAINTS) == Medium
  {
    NeutralDimensions(text, k);
    var a := Assessed(text, k);
    NeutralScores(a.dimensions);
    MiddleScoresSelectTerraMedium(a.dimensions, Score.NormalizedScore(a.dimensions, Score.DEFAULT_WEIGHTS));
  }

  lemma MiddleScoresSelectTerraMedium(d: Dimensions, base: nat)
    requires 21 <= base <= 45 && Safe(d, 2) && d.verification <= 2
    ensures FinalFamily(Coding, d, base, NO_CONSTRAINTS) == Terra
    ensures FinalEffort(Coding, d, base, NO_CONSTRAINTS) == Medium
  {
  }

  lemma NeutralScores(d: Dimensions)
    requires DEFAULT_DIMENSIONS.Leq(d) && d.Leq(Dimensions(3, 2, 1, 0, 1, 1, 0))
    ensures 21 <= Score.NormalizedScore(d, Score.DEFAULT_WEIGHTS) <= 36
  {
    Score.ScoreMonotone(DEFAULT_DIMENSIONS, d, Score.DEFAULT_WEIGHTS);
    Score.ScoreMonotone(d, Dimensions(3, 2, 1, 0, 1, 1, 0), Score.DEFAULT_WEIGHTS);
  }

  // ---------- The budgets, score by score ----------

  /**
   * The third stage keeps a documentation task that asks what the project is within its budget, lifts
   * the ambiguity of a diagnosis without a completion condition to 3, and does nothing else.
   */
  lemma BudgetsAreExact(a: Assessment)
    ensures var before, after := a.dimensions, Budgeted(a).dimensions;
      var plain := a.taskType == Documentation && exists n | n in PROJECT_EXPLANATION :: Contains(a.text, n);
      var open := a.taskType == Diagnosis && !a.clearCompletion;
      && (plain ==> after.Leq(Dimensions(1, 1, 1, 0, 0, 1, 4)))
      && (open ==> after.ambiguity >= 3)
      && (!plain && !open ==> after == before)
      && (!plain ==> after == before.(ambiguity := after.ambiguity))
      && Budgeted(a) == a.(dimensions := after)
  {
  }
}
