/** Second feature stage: corrections for task shape, breadth and correlated risk. */
module Semantic {
  import opened Types
  import opened Text
  import opened Features

  // ---------- Needles ----------

  const STRONG_COMPLETION := [
    "acceptance criteria", "expected behavior", "expected output", "success criteria", "done when", "must pass",
    "all tests pass", "command exits 0", "verify that", "prove that", "provided test", "provided fixture",
    "provided reproduction"]
  const FAILURE_SIGNAL_WORDS := [
    "broken", "crash", "crashed", "error", "failed", "failing", "failure", "cannot", "can't", "cant",
    "can\U{2019}t", "won't", "wont", "won\U{2019}t"]
  const FAILURE_SIGNAL_PHRASES := ["not working", "doesn't work", "doesnt work", "bugging out", "regression"]
  const DIAGNOSIS_SIGNAL := ["debug why", "diagnose", "investigate", "intermittent", "root cause"]
  const RESEARCH_SIGNAL := [
    "attack surface", "deobfuscat", "exploit", "exploitable", "research", "reverse engineer", "reconstruct",
    "security audit", "security review"]
  const ARCHITECTURE_SIGNAL := [
    "architecture", "across subsystems", "cross-system", "lifecycle", "protocol", "redesign", "system design"]
  const IMPLEMENTATION_WORDS := [
    "add", "build", "change", "create", "fix", "harden", "implement", "improve", "migrate", "optimize", "refactor",
    "remove", "update", "upgrade"]
  const IMPLEMENTATION_PHRASES := ["make improvements", "make it better", "make all of it better"]
  const REVIEW_WORDS := ["audit", "review"]
  const REVIEW_PHRASES := ["look over", "code review"]
  const MECHANICAL_SIGNAL := ["formatting", "regenerate", "rename", "sort imports", "sync catalog", "synchronize"]
  const REPOSITORY_WORDS := ["codebase", "project", "repo", "repository", "router"]
  const REPOSITORY_PHRASES := ["routing engine", "whole workspace", "entire workspace"]
  const IMPROVEMENT := [
    "audit", "clean up", "cleanup", "harden", "improve", "look over", "make improvements", "make it better",
    "optimize", "polish", "review"]
  const BROAD_PHRASES := [
    "across the codebase", "across the repo", "across the repository", "all call sites", "cross-platform",
    "end-to-end", "multiple crates", "multiple packages", "repo-wide", "repository-wide", "workspace-wide"]
  const BROAD_WORDS := ["migration", "refactor", "redesign"]
  const PERFORMANCE_WORDS := ["benchmark", "latency", "performance", "profile", "throughput"]
  const CORRECTNESS := [
    "backward compatibility", "backwards compatibility", "data loss", "schema migration", "serialization",
    "state corruption", "transaction"]
  const PLATFORM := ["cross-platform", "linux and mac", "linux and macos", "mac and linux", "macos and linux"]
  const SECURITY := [
    "authentication", "authorization", "credential rotation", "oauth", "permission model",
    "production credentials", "secret handling", "security-sensitive", "security sensitive"]
  const SECURITY_EXEMPT := ["example", "mock", "test fixture"]
  const CONCURRENCY := [
    "atomicity", "concurrency", "deadlock", "race condition", "thread safety", "thread-safe"]

  // ---------- Signals ----------

  predicate FailureSignal(text: string, k: Classes) {
    ContainsWord(text, FAILURE_SIGNAL_WORDS, k.alphanumeric) || ContainsAny(text, FAILURE_SIGNAL_PHRASES)
  }

  function One(present: bool): nat { if present then 1 else 0 }

  /** How many of the seven kinds of work the text mentions. */
  function ActionGroups(text: string, k: Classes): nat {
    var word := (needles: seq<string>) => ContainsWord(text, needles, k.alphanumeric);
    One(ContainsAny(text, ["audit", "review", "inspect", "look over", "analyz"]))
    + One(word(["add", "build", "change", "create", "fix", "harden", "implement", "improve", "remove", "update"])
          || ContainsAny(text, ["make improvements", "make it better"]))
    + One(ContainsAny(text, ["debug", "diagnose", "investigate", "reproduce"]))
    + One(word(["test", "tests", "validate", "verify"]) || ContainsAny(text, ["acceptance criteria", "prove that"]))
    + One(word(["benchmark", "measure", "profile"]))
    + One(word(["document", "docs"]) || ContainsAny(text, ["readme", "documentation"]))
    + One(word(["migrate", "refactor", "redesign", "upgrade"]))
  }

  /** Every match of the second stage, as one record. */
  datatype Shape = Shape(
    strongCompletion: bool,
    explanation: bool,
    docs: bool,
    diagnosis: bool,
    research: bool,
    architecture: bool,
    implementation: bool,
    review: bool,
    mechanical: bool,
    improvement: bool,
    broad: bool,
    performance: bool,
    correctness: bool,
    platform: bool,
    security: bool,
    concurrency: bool,
    groups: nat)

  function ShapeOf(text: string, k: Classes): Shape {
    var word := (needles: seq<string>) => ContainsWord(text, needles, k.alphanumeric);
    var explanation := ContainsAny(text, PROJECT_EXPLANATION);
    var docs := explanation || ContainsAny(text, DOCS);
    var diagnosis := FailureSignal(text, k) || ContainsAny(text, DIAGNOSIS_SIGNAL);
    var architecture := ContainsAny(text, ARCHITECTURE_SIGNAL);
    Shape(
      strongCompletion := ContainsAny(text, STRONG_COMPLETION),
      explanation := explanation,
      docs := docs,
      diagnosis := diagnosis,
      research := ContainsAny(text, RESEARCH_SIGNAL),
      architecture := architecture,
      implementation := word(IMPLEMENTATION_WORDS) || ContainsAny(text, IMPLEMENTATION_PHRASES),
      review := word(REVIEW_WORDS) || ContainsAny(text, REVIEW_PHRASES),
      mechanical := ContainsAny(text, MECHANICAL_SIGNAL),
      improvement := (word(REPOSITORY_WORDS) || ContainsAny(text, REPOSITORY_PHRASES))
                     && ContainsAny(text, IMPROVEMENT)
                     && !(docs && !explanation && !diagnosis && !architecture),
      broad := ContainsAny(text, BROAD_PHRASES) || word(BROAD_WORDS),
      performance := word(PERFORMANCE_WORDS),
      correctness := ContainsAny(text, CORRECTNESS),
      platform := ContainsAny(text, PLATFORM),
      security := ContainsAny(text, SECURITY) && !ContainsAny(text, SECURITY_EXEMPT),
      concurrency := ContainsAny(text, CONCURRENCY),
      groups := ActionGroups(text, k))
  }

  // ---------- The refined assessment, field by field ----------

  /** A completion condition that is not spelled out strongly is withdrawn. */
  predicate WeakCompletion(a: Assessment, p: Shape) {
    a.clearCompletion && !p.strongCompletion
  }

  function RefinedTaskType(first: TaskType, p: Shape): TaskType {
    if p.research then Research
    else if p.architecture && p.implementation then Architecture
    else if p.diagnosis then Diagnosis
    else if p.improvement || (p.review && p.implementation) then Coding
    else if p.review then Review
    else if p.mechanical && !p.architecture then Mechanical
    else if p.docs && !p.implementation then Documentation
    else first
  }

  /** The strongest floor that the breadth and kind of work set, dimension by dimension. */
  function BreadthFloors(p: Shape): Dimensions {
    Dimensions(
      scope := if p.improvement || p.broad || p.platform then 3 else if p.explanation then 2 else 0,
      ambiguity := if p.improvement then 3 else 0,
      cost := if p.correctness || p.security || p.concurrency then 3 else 0,
      runtime := if p.performance || p.platform || p.concurrency then 2 else 0,
      depth := if p.explanation || p.improvement || p.broad || p.concurrency then 2 else 0,
      verification :=
        if p.improvement || p.performance || p.correctness || p.platform || p.security || p.concurrency then 3
        else if p.explanation || p.broad then 2 else 0,
      parallel := 0)
  }

  /** The floors set by the number of paths, the number of kinds of work and vagueness. */
  function VolumeFloors(p: Shape, paths: nat, vague: bool, t: TaskType): Dimensions {
    Dimensions(
      scope := if paths >= 5 || p.groups >= 4 then 3 else if paths >= 2 || p.groups >= 3 then 2 else 0,
      ambiguity := if vague && !t.Documentation? && !t.Mechanical? then 2 else 0,
      cost := 0,
      runtime := 0,
      depth := 0,
      verification := if p.groups >= 4 then 3 else if p.groups >= 3 then 2 else 0,
      parallel := if p.groups >= 4 then 2 else 0)
  }

  predicate NarrowMechanical(t: TaskType, paths: nat, p: Shape) {
    t.Mechanical? && paths <= 2 && p.groups <= 2 && !p.diagnosis && !p.broad
  }

  function Lowered(d: Dimensions): Dimensions {
    Dimensions(LowerTo(d.scope, 1), LowerTo(d.ambiguity, 1), LowerTo(d.cost, 1), LowerTo(d.runtime, 0),
               LowerTo(d.depth, 0), LowerTo(d.verification, 1), d.parallel)
  }

  function StartingDimensions(a: Assessment, p: Shape): Dimensions {
    if WeakCompletion(a, p) then a.dimensions.(verification := Saturate(a.dimensions.verification, -1))
        else a.dimensions
  }

  function RefinedDimensions(a: Assessment, p: Shape): Dimensions {
    var t := RefinedTaskType(a.taskType, p);
    var raised := Joined(Joined(StartingDimensions(a, p), BreadthFloors(p)), VolumeFloors(p, |a.paths|, a.vague, t));
    if NarrowMechanical(t, |a.paths|, p) then Lowered(raised) else raised
  }

  /** The assessment corrected for a given shape. */
  function Corrected(a: Assessment, p: Shape): Assessment {
    a.(dimensions := RefinedDimensions(a, p),
       taskType := RefinedTaskType(a.taskType, p),
       clearCompletion := a.clearCompletion && p.strongCompletion)
  }

  function Refined(a: Assessment, k: Classes): Assessment {
    if a.taskType.Empty? then a else Corrected(a, ShapeOf(a.text, k))
  }

  // ---------- The stage as the program runs it ----------

  /** Raises for breadth and kind of work, one signal after another. */
  method RaiseForBreadth(p: Shape, base: Dimensions) returns (d: Dimensions)
    ensures d == Joined(base, BreadthFloors(p))
  {
    var scope, ambiguity, cost := base.scope, base.ambiguity, base.cost;
    var runtime, depth, verification := base.runtime, base.depth, base.verification;
    scope, depth := RaiseWhen(p.explanation, scope, 2), RaiseWhen(p.explanation, depth, 2);
    verification := RaiseWhen(p.explanation, verification, 2);
    scope, ambiguity := RaiseWhen(p.improvement, scope, 3), RaiseWhen(p.improvement, ambiguity, 3);
    depth, verification := RaiseWhen(p.improvement, depth, 2), RaiseWhen(p.improvement, verification, 3);
    scope, depth := RaiseWhen(p.broad, scope, 3), RaiseWhen(p.broad, depth, 2);
    verification := RaiseWhen(p.broad, verification, 2);
    runtime, verification := RaiseWhen(p.performance, runtime, 2), RaiseWhen(p.performance, verification, 3);
    cost, verification := RaiseWhen(p.correctness, cost, 3), RaiseWhen(p.correctness, verification, 3);
    scope, runtime := RaiseWhen(p.platform, scope, 3), RaiseWhen(p.platform, runtime, 2);
    verification := RaiseWhen(p.platform, verification, 3);
    cost, verification := RaiseWhen(p.security, cost, 3), RaiseWhen(p.security, verification, 3);
    cost, runtime := RaiseWhen(p.concurrency, cost, 3), RaiseWhen(p.concurrency, runtime, 2);
    depth, verification := RaiseWhen(p.concurrency, depth, 2), RaiseWhen(p.concurrency, verification, 3);
    d := Dimensions(scope, ambiguity, cost, runtime, depth, verification, base.parallel);
  }

  method RaiseForVolume(p: Shape, paths: nat, vague: bool, t: TaskType, base: Dimensions) returns (d: Dimensions)
    ensures d == Joined(base, VolumeFloors(p, paths, vague, t))
  {
    d := base;
    if 2 <= paths <= 4 {
      d := d.(scope := RaiseTo(d.scope, 2));
    } else if paths > 4 {
      d := d.(scope := RaiseTo(d.scope, 3));
    }
    if p.groups >= 3 {
      d := d.(scope := RaiseTo(d.scope, 2), verification := RaiseTo(d.verification, 2));
    }
    if p.groups >= 4 {
      d := d.(scope := RaiseTo(d.scope, 3), verification := RaiseTo(d.verification, 3),
          parallel := RaiseTo(d.parallel, 2));
    }
    if vague && !t.Documentation? && !t.Mechanical? {
      d := d.(ambiguity := RaiseTo(d.ambiguity, 2));
    }
  }

  /** The corrections, given what the text matched. */
  method CorrectAssessment(assessment: Assessment, p: Shape) returns (a: Assessment)
    ensures a == Corrected(assessment, p)
  {
    a := assessment;
    var d, taskType := a.dimensions, a.taskType;
    if a.clearCompletion && !p.strongCompletion {
      d := d.(verification := Saturate(d.verification, -1));
    }
    if p.research {
      taskType := Research;
    } else if p.architecture && p.implementation {
      taskType := Architecture;
    } else if p.diagnosis {
      taskType := Diagnosis;
    } else if p.improvement || (p.review && p.implementation) {
      taskType := Coding;
    } else if p.review {
      taskType := Review;
    } else if p.mechanical && !p.architecture {
      taskType := Mechanical;
    } else if p.docs && !p.implementation {
      taskType := Documentation;
    }
    d := RaiseForBreadth(p, d);
    d := RaiseForVolume(p, |a.paths|, a.vague, taskType, d);
    if taskType.Mechanical? && |a.paths| <= 2 && p.groups <= 2 && !p.diagnosis && !p.broad {
      d := Lowered(d);
    }
    a := a.(dimensions := d, taskType := taskType, clearCompletion := a.clearCompletion && p.strongCompletion);
  }

  /** What the first stage found in the text is never taken back: only type, dimensions and completion may change. */
  predicate SameEvidence(a: Assessment, b: Assessment) {
    && b.text == a.text && b.paths == a.paths
    && b.clearReproduction == a.clearReproduction && b.vague == a.vague
    && b.delegationRequested == a.delegationRequested && b.parallelTracks == a.parallelTracks
    && (b.clearCompletion ==> a.clearCompletion)
  }

  /**
   * Which dimensions fall, and when: parallel work never, verification only for weak completion (and
   * then by one) or narrow mechanical work, every other dimension if and only if the work is narrow
   * mechanical and the dimension above its budget.
   */
  predicate FallsOnlyWhenNarrow(before: Dimensions, after: Dimensions, narrow: bool, weak: bool) {
    && (after.scope < before.scope <==> narrow && before.scope > 1)
    && (after.ambiguity < before.ambiguity <==> narrow && before.ambiguity > 1)
    && (after.cost < before.cost <==> narrow && before.cost > 1)
    && (after.runtime < before.runtime <==> narrow && before.runtime > 0)
    && (after.depth < before.depth <==> narrow && before.depth > 0)
    && (after.verification < before.verification ==> narrow || weak)
    && (!narrow ==> after.verification + 1 >= before.verification)
    && after.parallel >= before.parallel
  }

  lemma CorrectionEffects(a: Assessment, p: Shape)
    ensures var b := Corrected(a, p);
      SameEvidence(a, b)
      && FallsOnlyWhenNarrow(a.dimensions, b.dimensions, NarrowMechanical(b.taskType, |a.paths|, p),
          WeakCompletion(a, p))
  {
  }

  /** The second stage; an empty task passes unchanged. */
  method RefineFeatures(assessment: Assessment, k: Classes) returns (a: Assessment)
    ensures a == Refined(assessment, k)
    ensures assessment.taskType.Empty? ==> a == assessment
    ensures SameEvidence(assessment, a)
    ensures !assessment.taskType.Empty? ==>
      var p := ShapeOf(assessment.text, k);
      FallsOnlyWhenNarrow(assessment.dimensions, a.dimensions, NarrowMechanical(a.taskType, |assessment.paths|, p),
                          WeakCompletion(assessment, p))
  {
    if assessment.taskType.Empty? {
      return assessment;
    }
    CorrectionEffects(assessment, ShapeOf(assessment.text, k));
    a := CorrectAssessment(assessment, ShapeOf(assessment.text, k));
  }

  // ---------- Needle inclusion ----------

  lemma ContainsAnyMonotone(text: string, smaller: seq<string>, larger: seq<string>)
    requires forall n | n in smaller :: n in larger
    ensures ContainsAny(text, smaller) ==> ContainsAny(text, larger)
  {
  }

  lemma ContainsWordMonotone(text: string, smaller: seq<string>, larger: seq<string>, alphanumeric: char -> bool)
    requires forall n | n in smaller :: n in larger
    ensures ContainsWord(text, smaller, alphanumeric) ==> ContainsWord(text, larger, alphanumeric)
  {
  }

  /** Every failure symptom of the first stage is a failure signal of the second. */
  lemma FailureSymptomIsSignal(text: string, k: Classes)
    requires FailureSymptom(text, k)
    ensures ShapeOf(text, k).diagnosis
  {
    ContainsWordMonotone(text, FAILURE_WORDS, FAILURE_SIGNAL_WORDS, k.alphanumeric);
    ContainsAnyMonotone(text, FAILURE_PHRASES, FAILURE_SIGNAL_PHRASES);
  }
}
