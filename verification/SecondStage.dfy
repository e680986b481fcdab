/** What the second feature stage concludes, told by what the prompt says. */
module SecondStage {
  import opened Types
  import opened Text
  import opened Features
  import opened Semantic
  import opened FirstStage

  // ---------- What a prompt can say ----------

  predicate Diagnosing(text: string, k: Classes) {
    Mentions(text, FAILURE_SIGNAL_WORDS, FAILURE_SIGNAL_PHRASES, k) || ContainsAny(text, DIAGNOSIS_SIGNAL)
  }

  predicate Implements(text: string, k: Classes) { Mentions(text, IMPLEMENTATION_WORDS, IMPLEMENTATION_PHRASES, k) }

  predicate Reviewing(text: string, k: Classes) { Mentions(text, REVIEW_WORDS, REVIEW_PHRASES, k) }

  predicate Designing(text: string) { ContainsAny(text, ARCHITECTURE_SIGNAL) }

  predicate Explains(text: string) { ContainsAny(text, PROJECT_EXPLANATION) }

  /** Improving a whole repository; editing its documents alone is not. */
  predicate Improves(text: string, k: Classes) {
    && Mentions(text, REPOSITORY_WORDS, REPOSITORY_PHRASES, k) && ContainsAny(text, IMPROVEMENT)
    && (Explains(text) || !ContainsAny(text, DOCS) || Diagnosing(text, k) || Designing(text))
  }

  predicate Broad(text: string, k: Classes) { Mentions(text, BROAD_WORDS, BROAD_PHRASES, k) }

  predicate Performs(text: string, k: Classes) { ContainsWord(text, PERFORMANCE_WORDS, k.alphanumeric) }

  /** Secrets and permissions, outside examples and tests. */
  predicate Secures(text: string) {
    ContainsAny(text, SECURITY) && forall n | n in SECURITY_EXEMPT :: !Contains(text, n)
  }

  // ---------- Kinds of work ----------

  datatype Work = Inspecting | Building | Debugging | Testing | Measuring | Documenting | Reshaping

  predicate Asks(text: string, w: Work, k: Classes) {
    match w
    case Inspecting => ContainsAny(text, ["audit", "review", "inspect", "look over", "analyz"])
    case Building =>
      Mentions(text, ["add", "build", "change", "create", "fix", "harden", "implement", "improve", "remove", "update"],
               ["make improvements", "make it better"], k)
    case Debugging => ContainsAny(text, ["debug", "diagnose", "investigate", "reproduce"])
    case Testing => Mentions(text, ["test", "tests", "validate", "verify"], ["acceptance criteria", "prove that"], k)
    case Measuring => ContainsWord(text, ["benchmark", "measure", "profile"], k.alphanumeric)
    case Documenting => Mentions(text, ["document", "docs"], ["readme", "documentation"], k)
    case Reshaping => ContainsWord(text, ["migrate", "refactor", "redesign", "upgrade"], k.alphanumeric)
  }

  /** The kinds of work a prompt asks for. */
  function Kinds(text: string, k: Classes): set<Work> { set w: Work | Asks(text, w, k) }

  function Position(w: Work): nat {
    match w
    case Inspecting => 0
    case Building => 1
    case Debugging => 2
    case Testing => 3
    case Measuring => 4
    case Documenting => 5
    case Reshaping => 6
  }

  function KindsBefore(asked: Work -> bool, n: nat): set<Work> { set w: Work | Position(w) < n && asked(w) }

  lemma OneMoreKind(asked: Work -> bool, w: Work)
    ensures |KindsBefore(asked, Position(w) + 1)| == |KindsBefore(asked, Position(w))| + One(asked(w))
  {
    var before, after := KindsBefore(asked, Position(w)), KindsBefore(asked, Position(w) + 1);
    var added := if asked(w) then {w} else {};
    forall v: Work ensures v in after <==> v in before + added {
      if Position(v) == Position(w) { PositionsDiffer(v, w); }
    }
    assert after == before + added;
  }

  lemma PositionsDiffer(v: Work, w: Work)
    requires Position(v) == Position(w)
    ensures v == w
  {
  }

  /** As many kinds are asked for as there are tests that succeed. */
  lemma KindsAddUp(asked: Work -> bool)
    ensures |set w: Work | asked(w)|
         == One(asked(Inspecting)) + One(asked(Building)) + One(asked(Debugging)) + One(asked(Testing))
            + One(asked(Measuring)) + One(asked(Documenting)) + One(asked(Reshaping))
  {
    assert KindsBefore(asked, 0) == {};
    OneMoreKind(asked, Inspecting);
    OneMoreKind(asked, Building);
    OneMoreKind(asked, Debugging);
    OneMoreKind(asked, Testing);
    OneMoreKind(asked, Measuring);
    OneMoreKind(asked, Documenting);
    OneMoreKind(asked, Reshaping);
    assert (set w: Work | asked(w)) == KindsBefore(asked, 7);
  }

  /** The groups of work are counted test by test: together they are the number of kinds asked for. */
  lemma GroupsAreKinds(text: string, k: Classes)
    ensures ActionGroups(text, k) == |Kinds(text, k)|
  {
    var asked := (w: Work) => Asks(text, w, k);
    KindsAddUp(asked);
    assert Kinds(text, k) == set w: Work | asked(w);
  }

  // ---------- Task type and completion, by shape ----------

  /** No part of the shape renames the task. */
  predicate KeepsType(p: Shape) {
    && !p.research && !(p.architecture && p.implementation) && !p.diagnosis && !p.improvement && !p.review
    && (p.mechanical ==> p.architecture) && (p.docs ==> p.implementation)
  }

  /** Which part of the shape renames the task, the earlier one winning. */
  predicate Renames(p: Shape, t: TaskType) {
    var design := p.architecture && p.implementation;
    && (t == Research <==> p.research)
    && (t == Architecture <==> design && !p.research)
    && (t == Diagnosis <==> p.diagnosis && !p.research && !design)
    && (t == Coding <==>
          (p.improvement || (p.review && p.implementation)) && !p.research && !design && !p.diagnosis)
    && (t == Review <==> p.review && !p.implementation && !p.improvement && !p.research && !p.diagnosis)
    && (t == Mechanical ==> p.mechanical && !p.architecture)
    && (t == Documentation ==> p.docs && !p.implementation && (p.mechanical ==> p.architecture))
    && t != Empty
  }

  lemma TypeByShape(a: Assessment, p: Shape)
    ensures if KeepsType(p) then Corrected(a, p).taskType == a.taskType else Renames(p, Corrected(a, p).taskType)
    ensures Corrected(a, p).clearCompletion <==> a.clearCompletion && p.strongCompletion
  {
  }

  // ---------- Scores, by shape ----------

  /** Mechanical work on at most two files and of at most two kinds, which neither diagnoses nor spreads. */
  predicate SmallMechanical(a: Assessment, p: Shape) {
    Corrected(a, p).taskType.Mechanical? && |a.paths| <= 2 && p.groups <= 2 && !p.diagnosis && !p.broad
  }

  /** Cost and runtime risk: what the first stage found or the shape demands, except for small mechanical work. */
  lemma RiskByShape(a: Assessment, p: Shape)
    ensures var before, d, small := a.dimensions, Corrected(a, p).dimensions, SmallMechanical(a, p);
      var costly, running := p.correctness || p.security || p.concurrency,
                             p.performance || p.platform || p.concurrency;
      && (d.cost >= 3 <==> !small && (before.cost >= 3 || costly))
      && (d.cost == 2 <==> !small && before.cost == 2 && !costly)
      && (d.cost == 4 <==> !small && before.cost == 4)
      && (d.runtime >= 2 <==> !small && (before.runtime >= 2 || running))
      && (d.runtime == 1 <==> !small && before.runtime == 1 && !running)
      && (d.runtime >= 3 <==> !small && before.runtime >= 3)
  {
  }

  /** Scope, by breadth, number of files and number of kinds of work; depth, by breadth. */
  lemma BreadthByShape(a: Assessment, p: Shape)
    ensures var before, d, small := a.dimensions, Corrected(a, p).dimensions, SmallMechanical(a, p);
      var wide, deep := p.improvement || p.broad || p.platform,
                        p.explanation || p.improvement || p.broad || p.concurrency;
      && (d.scope >= 3 <==> !small && (before.scope >= 3 || wide || |a.paths| >= 5 || p.groups >= 4))
      && (d.scope >= 2 <==>
            !small && (before.scope >= 2 || wide || p.explanation || |a.paths| >= 2 || p.groups >= 3))
      && (d.scope == 4 <==> !small && before.scope == 4)
      && (d.depth >= 2 <==> !small && (before.depth >= 2 || deep))
      && (d.depth >= 3 <==> !small && before.depth >= 3)
  {
  }

  /** Ambiguity and parallel work. */
  lemma OpennessByShape(a: Assessment, p: Shape)
    ensures var before, b, small := a.dimensions, Corrected(a, p), SmallMechanical(a, p);
      var open := a.vague && b.taskType != Documentation && b.taskType != Mechanical;
      && (b.dimensions.ambiguity >= 3 <==> !small && (before.ambiguity >= 3 || p.improvement))
      && (b.dimensions.ambiguity >= 2 <==> !small && (before.ambiguity >= 2 || p.improvement || open))
      && (b.dimensions.ambiguity == 4 <==> !small && before.ambiguity == 4)
      && (b.dimensions.parallel >= 2 <==> before.parallel >= 2 || p.groups >= 4)
      && (b.dimensions.parallel != before.parallel ==> b.dimensions.parallel == 2)
  {
  }

  /** Verification: a weak completion condition takes back one point before anything is raised. */
  lemma VerificationByShape(a: Assessment, p: Shape)
    ensures var d, small := Corrected(a, p).dimensions, SmallMechanical(a, p);
      var taken := if a.clearCompletion && !p.strongCompletion then 1 else 0;
      var found := a.dimensions.verification - taken;
      var strict := p.improvement || p.performance || p.correctness || p.platform || p.security || p.concurrency;
      && (d.verification >= 3 <==> !small && (found >= 3 || strict || p.groups >= 4))
      && (d.verification >= 2 <==> !small && (found >= 2 || strict || p.explanation || p.broad || p.groups >= 3))
      && (d.verification == 4 <==> !small && found == 4)
  {
  }

  // ---------- The shape, by what the prompt says ----------

  lemma SubjectsAreRead(text: string, k: Classes)
    ensures var p := ShapeOf(text, k);
      && (p.strongCompletion <==> ContainsAny(text, STRONG_COMPLETION))
      && (p.explanation <==> Explains(text)) && (p.docs <==> Documents(text))
      && (p.research <==> ContainsAny(text, RESEARCH_SIGNAL)) && (p.architecture <==> Designing(text))
      && (p.mechanical <==> ContainsAny(text, MECHANICAL_SIGNAL))
  {
  }

  lemma DiagnosisIsRead(text: string, k: Classes)
    ensures ShapeOf(text, k).diagnosis <==> Diagnosing(text, k)
  {
  }

  lemma ImplementationIsRead(text: string, k: Classes)
    ensures ShapeOf(text, k).implementation <==> Implements(text, k)
  {
  }

  lemma ReviewIsRead(text: string, k: Classes)
    ensures ShapeOf(text, k).review <==> Reviewing(text, k)
  {
  }

  lemma ImprovementIsRead(text: string, k: Classes)
    ensures ShapeOf(text, k).improvement <==> Improves(text, k)
  {
    DiagnosisIsRead(text, k);
  }

  lemma RisksAreRead(text: string, k: Classes)
    ensures var p := ShapeOf(text, k);
      && (p.broad <==> Broad(text, k)) && (p.performance <==> Performs(text, k))
      && (p.correctness <==> ContainsAny(text, CORRECTNESS)) && (p.platform <==> ContainsAny(text, PLATFORM))
      && (p.security <==> Secures(text)) && (p.concurrency <==> ContainsAny(text, CONCURRENCY))
      && p.groups == |Kinds(text, k)|
  {
    GroupsAreKinds(text, k);
  }

  // ---------- The refined assessment, by what the prompt says ----------

  /** Nothing in the prompt renames the task. */
  predicate LeavesType(text: string, k: Classes) {
    && !ContainsAny(text, RESEARCH_SIGNAL) && !(Designing(text) && Implements(text, k)) && !Diagnosing(text, k)
    && !Improves(text, k) && !Reviewing(text, k)
    && (ContainsAny(text, MECHANICAL_SIGNAL) ==> Designing(text)) && (Documents(text) ==> Implements(text, k))
  }

  /**
   * The task type after the second stage: the first of research, architecture, diagnosis, coding and
   * review that the prompt speaks of, then mechanical work and documentation, else that of the first stage.
   */
  lemma RefinedTypeIsExact(a: Assessment, k: Classes)
    requires !a.taskType.Empty?
    ensures var t, text := Refined(a, k).taskType, a.text;
      var design, research := Designing(text) && Implements(text, k), ContainsAny(text, RESEARCH_SIGNAL);
      if LeavesType(text, k) then t == a.taskType
      else
        && (t == Research <==> research)
        && (t == Architecture <==> design && !research)
        && (t == Diagnosis <==> Diagnosing(text, k) && !research && !design)
        && (t == Coding <==>
              (Improves(text, k) || (Reviewing(text, k) && Implements(text, k)))
              && !research && !design && !Diagnosing(text, k))
        && (t == Review <==>
              Reviewing(text, k) && !Implements(text, k) && !Improves(text, k) && !research && !Diagnosing(text, k))
        && (t == Mechanical ==> ContainsAny(text, MECHANICAL_SIGNAL) && !Designing(text))
        && (t == Documentation ==> Documents(text) && !Implements(text, k)) && t != Empty
  {
    var p := ShapeOf(a.text, k);
    TypeByShape(a, p);
    ShapeAgrees(a.text, k);
  }

  lemma ShapeAgrees(text: string, k: Classes)
    ensures var p := ShapeOf(text, k);
      && (KeepsType(p) <==> LeavesType(text, k)) && (p.research <==> ContainsAny(text, RESEARCH_SIGNAL))
      && (p.architecture <==> Designing(text)) && (p.implementation <==> Implements(text, k))
      && (p.diagnosis <==> Diagnosing(text, k)) && (p.improvement <==> Improves(text, k))
      && (p.review <==> Reviewing(text, k)) && (p.mechanical <==> ContainsAny(text, MECHANICAL_SIGNAL))
      && (p.docs <==> Documents(text))
  {
    SubjectsAreRead(text, k);
    DiagnosisIsRead(text, k);
    ImplementationIsRead(text, k);
    ReviewIsRead(text, k);
    ImprovementIsRead(text, k);
  }

  /** What the second stage makes of cost and runtime risk. */
  lemma RefinedRiskIsExact(a: Assessment, k: Classes)
    requires !a.taskType.Empty?
    ensures var before, d, text := a.dimensions, Refined(a, k).dimensions, a.text;
      var small := Refined(a, k).taskType.Mechanical? && |a.paths| <= 2 && |Kinds(text, k)| <= 2
                   && !Diagnosing(text, k) && !Broad(text, k);
      var costly := ContainsAny(text, CORRECTNESS) || Secures(text) || ContainsAny(text, CONCURRENCY);
      var running := Performs(text, k) || ContainsAny(text, PLATFORM) || ContainsAny(text, CONCURRENCY);
      && (d.cost >= 3 <==> !small && (before.cost >= 3 || costly))
      && (d.runtime >= 2 <==> !small && (before.runtime >= 2 || running))
      && (d.runtime >= 3 <==> !small && before.runtime >= 3)
  {
    RiskByShape(a, ShapeOf(a.text, k));
    RisksAreRead(a.text, k);
    DiagnosisIsRead(a.text, k);
  }
}
