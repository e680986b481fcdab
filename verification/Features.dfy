/** First feature stage: evidence extracted from one lower-case prompt buffer. */
module Features {
  import opened Types
  import opened Text

  /** The two Unicode character classes the matchers use, left arbitrary. */
  datatype Classes = Classes(alphanumeric: char -> bool, whitespace: char -> bool)

  /** What the router knows about a task; reasons and diagnostic labels are not part of the model. */
  datatype Assessment = Assessment(
    text: string,
    dimensions: Dimensions,
    taskType: TaskType,
    paths: seq<string>,
    clearReproduction: bool,
    clearCompletion: bool,
    vague: bool,
    delegationRequested: bool,
    parallelTracks: bool)

  // ---------- Needles ----------

  const REPRODUCTION := ["exact repro", "reproduction", "steps to reproduce", "repro:"]
  const COMPLETION := ["acceptance criteria", "expected behavior", "expected output", "prove that", "provided"]
  const PROJECT_EXPLANATION := [
    "what is this project", "what does this project do", "explain this project", "explain the project",
    "explain this codebase", "how does this project work", "project overview", "explain to me like",
    "explain it like i'm", "explain it like im"]
  const DOCS := ["documentation", "readme", "markdown", "fix typo", "spelling"]
  const MECHANICAL := ["rename", "formatting", "regenerate", "synchronize", "sync catalog"]
  const FAILURE_WORDS := [
    "error", "failed", "failing", "failure", "won't", "wont", "won\U{2019}t", "can't", "cant",
    "can\U{2019}t", "cannot", "broken", "crash", "crashed"]
  const FAILURE_PHRASES := ["not working", "doesn't work", "doesnt work", "bugging out"]
  const DIAGNOSIS := ["diagnose", "debug why", "unknown root cause", "investigate", "intermittent"]
  const ADVERSARIAL := [
    "exploit", "exploitable", "glitches", "attack surface", "abuse case", "security audit", "security review"]
  const RESEARCH := ["reverse engineer", "deobfuscat", "research", "reconstruct"]
  const ARCHITECTURE := ["architecture", "redesign", "across subsystems", "cross-system", "lifecycle", "protocol"]
  const ROUTING_SUBJECT := ["routing", "router", "route decision", "model selection"]
  const AUDIT_PHRASES := [
    "audit recent usage", "session logs", "decision history", "routing properly", "routing usefully", "dogfood"]
  const AUDIT_OF_SUBJECT := [
    "audit", "evaluate", "optimiz", "doing its job", "properly", "feel off", "feels off", "decision quality",
    "recent usage", "recent sessions"]
  const CONTEXT_WORDS := [
    "launch", "startup", "connect", "connection", "reconnect", "internet", "network", "mcp", "oauth", "service",
    "daemon", "process", "port", "desktop", "browser", "machine", "session", "runtime"]
  const CONTEXT_PHRASES := [
    "start up", "won't start", "wont start", "won\U{2019}t start", "can't start", "cant start", "cannot start",
    "won't open", "wont open", "won\U{2019}t open", "can't open", "cant open", "cannot open"]
  const LIVE := [
    "live client", "live-validate", "live validate", "session gate", "restart the client", "restart codex",
    "restart service", "restart daemon", "browser automation", "live browser", "desktop environment",
    "desktop session", "runtime state"]
  const HIGH_COST := [
    "security-sensitive", "security sensitive", "production", "account-affecting", "destructive", "credentials",
    "race condition", "concurrency"]
  const DEEP := ["reflection", "packet", "renderer", "projection", "coordinate system", "pathing", "queue"]
  const CHECKS := [
    "run tests", "run contracts", "full check", "instrumentation", "prove vertices", "repeated experiments",
    "failure recovery"]
  const DELEGATION := ["parallel agents", "subagents", "sub-agents", "delegate to agents", "use agents in parallel"]
  const TRACKS := [
    "independent tracks", "parallel tracks", "separate workstreams",
    "implementation, validation, and documentation", "repository audit"]
  const INDEPENDENT := ["three independent", "several independent"]
  const VAGUE := ["fix it", "make it work", "something is wrong"]

  // ---------- Signals ----------

  predicate FailureSymptom(text: string, k: Classes) {
    ContainsWord(text, FAILURE_WORDS, k.alphanumeric) || ContainsAny(text, FAILURE_PHRASES)
  }

  predicate OperationalContext(text: string, k: Classes) {
    ContainsWord(text, CONTEXT_WORDS, k.alphanumeric) || ContainsAny(text, CONTEXT_PHRASES)
  }

  /** Every match of the first stage, as one record. */
  datatype Signals = Signals(
    longText: bool,
    veryLong: bool,
    reproduction: bool,
    completion: bool,
    docs: bool,
    mechanical: bool,
    failure: bool,
    context: bool,
    diagnosis: bool,
    adversarial: bool,
    research: bool,
    architecture: bool,
    review: bool,
    audit: bool,
    live: bool,
    highCost: bool,
    deep: bool,
    checks: bool,
    delegation: bool,
    tracks: bool,
    independent: bool,
    vague: bool)
  {
    predicate Repair() { failure && context }
  }

  function SignalsOf(text: string, paths: seq<string>, k: Classes): Signals {
    var failure := FailureSymptom(text, k);
    var adversarial := ContainsAny(text, ADVERSARIAL);
    Signals(
      longText := Utf8Length(text) > 1200,
      veryLong := Utf8Length(text) > 5000 || |paths| >= 5,
      reproduction := ContainsAny(text, REPRODUCTION),
      completion := ContainsAny(text, COMPLETION),
      docs := ContainsAny(text, PROJECT_EXPLANATION) || ContainsAny(text, DOCS),
      mechanical := ContainsAny(text, MECHANICAL),
      failure := failure,
      context := OperationalContext(text, k),
      diagnosis := failure || ContainsAny(text, DIAGNOSIS),
      adversarial := adversarial,
      research := adversarial || ContainsAny(text, RESEARCH),
      architecture := ContainsAny(text, ARCHITECTURE),
      review := Contains(text, "review") && !Contains(text, "reviewed"),
      audit := ContainsAny(text, AUDIT_PHRASES)
               || (ContainsAny(text, ROUTING_SUBJECT) && ContainsAny(text, AUDIT_OF_SUBJECT)),
      live := ContainsAny(text, LIVE),
      highCost := ContainsAny(text, HIGH_COST),
      deep := ContainsAny(text, DEEP),
      checks := ContainsAny(text, CHECKS),
      delegation := ContainsAny(text, DELEGATION),
      tracks := ContainsAny(text, TRACKS),
      independent := ContainsAny(text, INDEPENDENT),
      vague := |Words(text, k.whitespace)| < 4 || ContainsAny(text, VAGUE))
  }

  /** The non-empty runs of non-white characters. */
  function Words(text: string, white: char -> bool): seq<string> {
    NonEmpty(Split(text, c => !white(c)))
  }

  function NonEmpty(words: seq<string>): seq<string> {
    if words == [] then [] else (if words[0] == "" then [] else [words[0]]) + NonEmpty(words[1..])
  }

  // ---------- Paths ----------

  const PATH_TRIM := "`\"'()[],;:"
  const EXTENSIONS := [".rs", ".toml", ".md", ".java", ".json", ".yaml", ".yml", ".js", ".ts", ".py"]

  function Candidate(token: string): string { Trim(token, c => c in PATH_TRIM) }

  predicate PathLike(candidate: string) {
    && (Contains(candidate, "/") || exists e | e in EXTENSIONS :: EndsWith(candidate, e))
    && Utf8Length(candidate) <= 512
    && !Contains(candidate, "://")
  }

  /** Distinct path-like tokens in order of first mention, before the limit of 32. */
  function DistinctPaths(tokens: seq<string>): seq<string> {
    if tokens == [] then []
    else
      var earlier := DistinctPaths(tokens[..|tokens| - 1]);
      var candidate := Candidate(tokens[|tokens| - 1]);
      if PathLike(candidate) && candidate !in earlier then earlier + [candidate] else earlier
  }

  const MAX_PATHS := 32

  function PathsOf(tokens: seq<string>): seq<string> {
    var all := DistinctPaths(tokens);
    if |all| > MAX_PATHS then all[..MAX_PATHS] else all
  }

  lemma {:induction false} DistinctPathsGrow(tokens: seq<string>, n: nat)
    requires n <= |tokens|
    ensures DistinctPaths(tokens[..n]) <= DistinctPaths(tokens)
  {
    if n == |tokens| {
      assert tokens[..n] == tokens;
    } else {
      DistinctPathsGrow(tokens[..|tokens| - 1], n);
      assert tokens[..|tokens| - 1][..n] == tokens[..n];
    }
  }

  /** The scan stops at the limit, yet returns exactly the first distinct paths of the whole prompt. */
  method ExtractPaths(tokens: seq<string>) returns (paths: seq<string>)
    ensures paths == PathsOf(tokens)
  {
    paths := [];
    for i := 0 to |tokens|
      invariant paths == DistinctPaths(tokens[..i])
      invariant |paths| < MAX_PATHS
    {
      var candidate := Candidate(tokens[i]);
      assert tokens[..i + 1][..i] == tokens[..i];
      if PathLike(candidate) && candidate !in paths {
        paths := paths + [candidate];
        if |paths| == MAX_PATHS {
          DistinctPathsGrow(tokens, i + 1);
          return;
        }
      }
    }
    assert tokens[..|tokens|] == tokens;
  }

  // ---------- Dimensions, one at a time ----------

  /** The default scores, moved by prompt length, a reproduction and a completion condition. */
  function AdjustedDimensions(s: Signals): Dimensions {
    DEFAULT_DIMENSIONS.(
      scope := 1 + (if s.longText then 1 else 0) + (if s.veryLong then 1 else 0),
      ambiguity := if s.reproduction then 0 else 1,
      verification := if s.completion then 2 else 1)
  }

  /** The strongest floor that the shape of the task sets, dimension by dimension. */
  function ShapeFloors(s: Signals): Dimensions {
    Dimensions(
      scope := if s.architecture || s.audit then 3 else 0,
      ambiguity := if s.research then 4
                   else if s.audit || (s.diagnosis && !(s.failure && s.completion && !s.Repair())) then 3
                   else if s.diagnosis then 2 else 0,
      cost := if s.adversarial || s.audit then 3 else 0,
      runtime := 0,
      depth := if s.research || s.architecture then 3 else 0,
      verification := if s.audit then 4 else if s.adversarial then 3 else 0,
      parallel := 0)
  }

  /** The strongest floor that risk and parallel work set, dimension by dimension. */
  function RiskFloors(s: Signals): Dimensions {
    Dimensions(
      scope := 0,
      ambiguity := 0,
      cost := if s.Repair() || s.live || s.highCost then 3 else 0,
      runtime := if s.Repair() || s.live then 3 else 0,
      depth := if s.deep then 3 else 0,
      verification := if s.Repair() || s.live then 3 else if s.checks then 2 else 0,
      parallel := if s.independent then 4 else if s.delegation || s.tracks then 3 else 0)
  }

  function RaisedDimensions(s: Signals): Dimensions {
    Joined(Joined(AdjustedDimensions(s), ShapeFloors(s)), RiskFloors(s))
  }

  /** The documentation budget applies only where no risk signal has raised the runtime dimension. */
  predicate DocsBudget(s: Signals) {
    s.docs && !s.diagnosis && !s.architecture && !s.Repair() && !s.live
  }

  function ExtractedDimensions(s: Signals): Dimensions {
    var d := RaisedDimensions(s);
    var budgeted := if DocsBudget(s)
      then d.(scope := LowerTo(d.scope, 1), ambiguity := LowerTo(d.ambiguity, 1), cost := LowerTo(d.cost, 1),
              depth := LowerTo(d.depth, 0), verification := LowerTo(d.verification, 1))
      else d;
    if s.mechanical && s.completion then budgeted.(ambiguity := LowerTo(budgeted.ambiguity, 1)) else budgeted
  }

  /** Which signal names the task, the earlier one winning. */
  function FirstTaskType(s: Signals): (t: TaskType)
    ensures t == Documentation <==> s.docs
    ensures t == Research <==> s.research && !s.docs
    ensures t == Architecture <==> s.architecture && !s.docs && !s.research
    ensures t == Diagnosis <==> s.diagnosis && !s.docs && !s.research && !s.architecture
    ensures t == Review <==> s.review && !s.docs && !s.research && !s.architecture && !s.diagnosis
    ensures t == Mechanical <==>
      s.mechanical && !s.docs && !s.research && !s.architecture && !s.diagnosis && !s.review
    ensures t == Coding <==>
      !s.docs && !s.research && !s.architecture && !s.diagnosis && !s.review && !s.mechanical
  {
    if s.docs then Documentation
    else if s.research then Research
    else if s.architecture then Architecture
    else if s.diagnosis then Diagnosis
    else if s.review then Review
    else if s.mechanical then Mechanical
    else Coding
  }

  function Extracted(text: string, k: Classes): Assessment {
    if Words(text, k.whitespace) == [] then
      Assessment(text, DEFAULT_DIMENSIONS, Empty, [], false, false, true, false, false)
    else
      var paths := PathsOf(Words(text, k.whitespace));
      var s := SignalsOf(text, paths, k);
      Assessment(text, ExtractedDimensions(s), FirstTaskType(s), paths,
                 s.reproduction, s.completion, s.vague, s.delegation, s.tracks)
  }

  function RaiseWhen(signal: bool, score: BoundedScore, floor: BoundedScore): BoundedScore {
    if signal then RaiseTo(score, floor) else score
  }

  method AdjustDimensions(s: Signals) returns (d: Dimensions)
    ensures d == AdjustedDimensions(s)
  {
    d := DEFAULT_DIMENSIONS;
    if s.longText { d := d.(scope := Saturate(d.scope, 1)); }
    if s.veryLong { d := d.(scope := Saturate(d.scope, 1)); }
    if s.reproduction { d := d.(ambiguity := Saturate(d.ambiguity, -1)); }
    if s.completion { d := d.(verification := Saturate(d.verification, 1)); }
  }

  /** Raises the scores step by step for the shape of the task. */
  method RaiseForShape(s: Signals, base: Dimensions) returns (d: Dimensions)
    ensures d == Joined(base, ShapeFloors(s))
  {
    d := base;
    var scope, ambiguity, cost, depth, verification := d.scope, d.ambiguity, d.cost, d.depth, d.verification;
    ambiguity := RaiseWhen(s.diagnosis, ambiguity, if s.failure && s.completion && !s.Repair() then 2 else 3);
    ambiguity, depth := RaiseWhen(s.research, ambiguity, 4), RaiseWhen(s.research, depth, 3);
    cost, verification := RaiseWhen(s.adversarial, cost, 3), RaiseWhen(s.adversarial, verification, 3);
    scope, depth := RaiseWhen(s.architecture, scope, 3), RaiseWhen(s.architecture, depth, 3);
    scope, ambiguity := RaiseWhen(s.audit, scope, 3), RaiseWhen(s.audit, ambiguity, 3);
    cost, verification := RaiseWhen(s.audit, cost, 3), RaiseWhen(s.audit, verification, 4);
    d := Dimensions(scope, ambiguity, cost, d.runtime, depth, verification, d.parallel);
  }

  /** Raises the scores step by step for risk and parallel work. */
  method RaiseForRisk(s: Signals, base: Dimensions) returns (d: Dimensions)
    ensures d == Joined(base, RiskFloors(s))
  {
    d := base;
    var cost, runtime, depth, verification, parallel := d.cost, d.runtime, d.depth, d.verification, d.parallel;
    runtime, cost := RaiseWhen(s.Repair(), runtime, 3), RaiseWhen(s.Repair(), cost, 3);
    verification := RaiseWhen(s.Repair(), verification, 3);
    runtime, cost := RaiseWhen(s.live, runtime, 3), RaiseWhen(s.live, cost, 3);
    verification := RaiseWhen(s.live, verification, 3);
    cost := RaiseWhen(s.highCost, cost, 3);
    depth := RaiseWhen(s.deep, depth, 3);
    verification := RaiseWhen(s.checks, verification, 2);
    parallel := RaiseWhen(s.delegation, parallel, 3);
    parallel := RaiseWhen(s.tracks, parallel, 3);
    parallel := RaiseWhen(s.independent, parallel, 4);
    d := Dimensions(d.scope, d.ambiguity, cost, runtime, depth, verification, parallel);
  }

  /** The two lowering budgets. */
  method LowerDimensions(s: Signals, raised: Dimensions) returns (d: Dimensions)
    requires raised == RaisedDimensions(s)
    ensures d == ExtractedDimensions(s)
  {
    d := raised;
    if s.docs && !s.diagnosis && !s.architecture && d.runtime == 0 {
      d := d.(scope := LowerTo(d.scope, 1), ambiguity := LowerTo(d.ambiguity, 1), cost := LowerTo(d.cost, 1),
              depth := LowerTo(d.depth, 0), verification := LowerTo(d.verification, 1));
    }
    if s.mechanical && s.completion {
      d := d.(ambiguity := LowerTo(d.ambiguity, 1));
    }
  }

  /** The whole first stage: signals, paths, raising, then the two lowering budgets. */
  method ExtractFeatures(text: string, k: Classes) returns (a: Assessment)
    ensures a == Extracted(text, k)
  {
    var tokens := Words(text, k.whitespace);
    if tokens == [] {
      return Assessment(text, DEFAULT_DIMENSIONS, Empty, [], false, false, true, false, false);
    }
    var paths := ExtractPaths(tokens);
    var s := SignalsOf(text, paths, k);
    var d := AdjustDimensions(s);
    d := RaiseForShape(s, d);
    d := RaiseForRisk(s, d);
    d := LowerDimensions(s, d);
    a := Assessment(text, d, FirstTaskType(s), paths, s.reproduction, s.completion, s.vague, s.delegation, s.tracks);
  }
}
