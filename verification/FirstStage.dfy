/** What the first feature stage concludes, told by what the prompt says. */
module FirstStage {
  import opened Types
  import opened Text
  import opened TextProperties
  import opened Features

  // ---------- What a prompt can say ----------

  /** One of the words, or one of the phrases anywhere. */
  predicate Mentions(text: string, words: seq<string>, phrases: seq<string>, k: Classes) {
    ContainsWord(text, words, k.alphanumeric) || ContainsAny(text, phrases)
  }

  predicate Fails(text: string, k: Classes) { Mentions(text, FAILURE_WORDS, FAILURE_PHRASES, k) }

  /** A failure of something that runs. */
  predicate FailsLive(text: string, k: Classes) {
    Fails(text, k) && Mentions(text, CONTEXT_WORDS, CONTEXT_PHRASES, k)
  }

  /** Work on, or a failure of, something that runs. */
  predicate Live(text: string, k: Classes) { FailsLive(text, k) || ContainsAny(text, LIVE) }

  predicate Documents(text: string) { ContainsAny(text, PROJECT_EXPLANATION) || ContainsAny(text, DOCS) }

  predicate Researches(text: string) { ContainsAny(text, ADVERSARIAL) || ContainsAny(text, RESEARCH) }

  predicate Diagnoses(text: string, k: Classes) { Fails(text, k) || ContainsAny(text, DIAGNOSIS) }

  predicate AuditsRouting(text: string) {
    ContainsAny(text, AUDIT_PHRASES)
    || exists subject, act | subject in ROUTING_SUBJECT && act in AUDIT_OF_SUBJECT ::
         Contains(text, subject) && Contains(text, act)
  }

  predicate Reviews(text: string) { Contains(text, "review") && !Contains(text, "reviewed") }

  /** Documentation that neither diagnoses nor designs nor touches what runs is kept within a budget. */
  predicate PlainDocumentation(text: string, k: Classes) {
    Documents(text) && !Diagnoses(text, k) && !ContainsAny(text, ARCHITECTURE) && !Live(text, k)
  }

  // ---------- Evidence and task type ----------

  /** What the assessment of a prompt with at least one word holds, besides its scores. */
  lemma EvidenceIsExact(text: string, k: Classes)
    requires Words(text, k.whitespace) != []
    ensures var a := Extracted(text, k);
      && a.text == text
      && (a.clearReproduction <==> ContainsAny(text, REPRODUCTION))
      && (a.clearCompletion <==> ContainsAny(text, COMPLETION))
      && (a.delegationRequested <==> ContainsAny(text, DELEGATION))
      && (a.parallelTracks <==> ContainsAny(text, TRACKS))
      && (a.vague <==> |Words(text, k.whitespace)| <= 3 || ContainsAny(text, VAGUE))
  {
  }

  /** A prompt of white space only is an empty task without evidence; no other prompt is. */
  lemma EmptyExactlyWhenWhite(text: string, k: Classes)
    ensures Extracted(text, k).taskType.Empty? <==> forall c | c in text :: k.whitespace(c)
    ensures Extracted(text, k).taskType.Empty? ==>
      var a := Extracted(text, k);
      && a.dimensions == Dimensions(1, 1, 1, 0, 1, 1, 0) && a.paths == [] && a.vague
      && !a.clearReproduction && !a.clearCompletion && !a.delegationRequested && !a.parallelTracks
  {
    var keep := (c: char) => !k.whitespace(c);
    if Words(text, k.whitespace) != [] {
      var word := Words(text, k.whitespace)[0];
      NonEmptyKeeps(Split(text, keep), word);
      var n :| 0 <= n < |Split(text, keep)| && Split(text, keep)[n] == word;
      var from, to := PartIsWord(text, n, keep);
      assert !k.whitespace(text[from]) && text[from] in text;
    } else if at :| 0 <= at < |text| && !k.whitespace(text[at]) {
      var n := CharacterIsInPart(text, at, keep);
      NonEmptyKeeps(Split(text, keep), Split(text, keep)[n]);
    }
  }

  lemma {:induction false} NonEmptyKeeps(words: seq<string>, word: string)
    ensures word in NonEmpty(words) <==> word in words && word != ""
  {
    if words != [] {
      assert words == [words[0]] + words[1..];
      NonEmptyKeeps(words[1..], word);
    }
  }

  lemma {:induction false} CharacterIsInPart(text: string, at: nat, keep: char -> bool) returns (n: nat)
    requires at < |text| && keep(text[at])
    ensures n < |Split(text, keep)| && Split(text, keep)[n] != ""
  {
    if at == 0 {
      n := 0;
    } else {
      var m := CharacterIsInPart(text[1..], at - 1, keep);
      n := if keep(text[0]) then m else m + 1;
    }
  }

  /** The task type is the first of these that the prompt speaks of. */
  lemma TypeIsExact(text: string, k: Classes)
    requires Words(text, k.whitespace) != []
    ensures var t := Extracted(text, k).taskType;
      var docs, research, design := Documents(text), Researches(text), ContainsAny(text, ARCHITECTURE);
      && (t == Documentation <==> docs)
      && (t == Research <==> research && !docs)
      && (t == Architecture <==> design && !research && !docs)
      && (t == Diagnosis <==> Diagnoses(text, k) && !design && !research && !docs)
      && (t == Review <==> Reviews(text) && !Diagnoses(text, k) && !design && !research && !docs)
      && (t == Mechanical <==>
            ContainsAny(text, MECHANICAL) && !Reviews(text) && !Diagnoses(text, k) && !design && !research && !docs)
      && t != Empty
  {
  }

  // ---------- Scores, by signal ----------

  lemma RiskBySignal(s: Signals)
    ensures var d, plain, live := ExtractedDimensions(s), DocsBudget(s), s.Repair() || s.live;
      var demanding := s.audit || s.adversarial || live;
      && d.runtime == (if live then 3 else 0)
      && d.cost == (if !plain && (demanding || s.highCost) then 3 else 1)
  {
  }

  lemma VerificationBySignal(s: Signals)
    ensures var d, plain := ExtractedDimensions(s), DocsBudget(s);
      var demanding := s.audit || s.adversarial || s.Repair() || s.live;
      && (d.verification == 4 <==> !plain && s.audit)
      && (d.verification >= 3 <==> !plain && demanding)
      && (d.verification >= 2 <==> !plain && (demanding || s.checks || s.completion))
  {
  }

  lemma ShapeBySignal(s: Signals)
    ensures var d, plain := ExtractedDimensions(s), DocsBudget(s);
      && 1 <= d.scope <= 3
      && (d.scope == 3 <==> !plain && (s.architecture || s.audit || (s.veryLong && s.longText)))
      && (d.scope >= 2 <==> !plain && (s.architecture || s.audit || s.veryLong || s.longText))
      && d.depth == (if plain then 0 else if s.research || s.architecture || s.deep then 3 else 1)
      && d.parallel == (if s.independent then 4 else if s.delegation || s.tracks then 3 else 0)
  {
  }

  lemma AmbiguityBySignal(s: Signals)
    ensures var d, settled := ExtractedDimensions(s), DocsBudget(s) || (s.mechanical && s.completion);
      var uncertain := s.research || s.audit || s.diagnosis;
      var checkable := s.failure && s.completion && !s.Repair();
      && (d.ambiguity == 4 <==> !settled && s.research)
      && (d.ambiguity >= 3 <==> !settled && (s.research || s.audit || (s.diagnosis && !checkable)))
      && (d.ambiguity >= 2 <==> !settled && uncertain)
      && (d.ambiguity == 0 <==> s.reproduction && !uncertain)
  {
  }

  // ---------- Scores, by what the prompt says ----------

  /** The signals of the first stage are what the prompt says. */
  lemma SignalsAreRead(text: string, paths: seq<string>, k: Classes)
    ensures var s := SignalsOf(text, paths, k);
      && (s.failure <==> Fails(text, k)) && (s.Repair() <==> FailsLive(text, k))
      && (s.Repair() || s.live <==> Live(text, k))
      && (s.diagnosis <==> Diagnoses(text, k)) && (DocsBudget(s) <==> PlainDocumentation(text, k))
      && (s.research <==> Researches(text)) && (s.audit <==> AuditsRouting(text))
  {
    FailuresAreRead(text, paths, k);
    SubjectAndAct(text);
  }

  lemma FailuresAreRead(text: string, paths: seq<string>, k: Classes)
    ensures var s := SignalsOf(text, paths, k);
      && (s.failure <==> Fails(text, k)) && (s.Repair() <==> FailsLive(text, k))
      && (s.docs <==> Documents(text)) && (s.diagnosis <==> Diagnoses(text, k))
  {
  }

  lemma SubjectAndAct(text: string)
    ensures AuditsRouting(text) <==>
      ContainsAny(text, AUDIT_PHRASES) || (ContainsAny(text, ROUTING_SUBJECT) && ContainsAny(text, AUDIT_OF_SUBJECT))
  {
  }

  /** Work on something that runs scores 3 for runtime risk; cost and verification follow what is most demanding. */
  lemma RiskIsExact(text: string, k: Classes)
    requires Words(text, k.whitespace) != []
    ensures var d, plain := Extracted(text, k).dimensions, PlainDocumentation(text, k);
      var demanding := AuditsRouting(text) || ContainsAny(text, ADVERSARIAL) || Live(text, k);
      && d.runtime == (if Live(text, k) then 3 else 0)
      && d.cost == (if !plain && (demanding || ContainsAny(text, HIGH_COST)) then 3 else 1)
      && (d.verification == 4 <==> !plain && AuditsRouting(text))
      && (d.verification >= 3 <==> !plain && demanding)
      && (d.verification >= 2 <==> !plain && (demanding || ContainsAny(text, CHECKS) || ContainsAny(text, COMPLETION)))
  {
    var paths := Extracted(text, k).paths;
    RiskBySignal(SignalsOf(text, paths, k));
    VerificationBySignal(SignalsOf(text, paths, k));
    SignalsAreRead(text, paths, k);
  }

  /** Scope, depth and parallel work, by what is asked for and by how much text and how many files there are. */
  lemma ShapeIsExact(text: string, k: Classes)
    requires Words(text, k.whitespace) != []
    ensures var a, plain := Extracted(text, k), PlainDocumentation(text, k);
      var long, large := Utf8Length(text) > 1200, Utf8Length(text) > 5000 || |a.paths| >= 5;
      var wide := ContainsAny(text, ARCHITECTURE) || AuditsRouting(text);
      var deep := Researches(text) || ContainsAny(text, ARCHITECTURE) || ContainsAny(text, DEEP);
      && 1 <= a.dimensions.scope <= 3
      && (a.dimensions.scope == 3 <==> !plain && (wide || (large && long)))
      && (a.dimensions.scope >= 2 <==> !plain && (wide || large || long))
      && a.dimensions.depth == (if plain then 0 else if deep then 3 else 1)
      && (a.dimensions.parallel == 4 <==> ContainsAny(text, INDEPENDENT))
      && (a.dimensions.parallel >= 3 <==>
            ContainsAny(text, INDEPENDENT) || ContainsAny(text, DELEGATION) || ContainsAny(text, TRACKS))
      && (a.dimensions.parallel < 3 ==> a.dimensions.parallel == 0)
  {
    var paths := Extracted(text, k).paths;
    ShapeBySignal(SignalsOf(text, paths, k));
    SignalsAreRead(text, paths, k);
  }

  /** Ambiguity: research is most open; an audit or a diagnosis is, unless a failure comes with its expected outcome. */
  lemma AmbiguityIsExact(text: string, k: Classes)
    requires Words(text, k.whitespace) != []
    ensures var d := Extracted(text, k).dimensions;
      var settled := PlainDocumentation(text, k) || (ContainsAny(text, MECHANICAL) && ContainsAny(text, COMPLETION));
      var checkable := Fails(text, k) && ContainsAny(text, COMPLETION) && !FailsLive(text, k);
      var uncertain := Researches(text) || AuditsRouting(text) || Diagnoses(text, k);
      && (d.ambiguity == 4 <==> !settled && Researches(text))
      && (d.ambiguity >= 3 <==>
            !settled && (Researches(text) || AuditsRouting(text) || (Diagnoses(text, k) && !checkable)))
      && (d.ambiguity >= 2 <==> !settled && uncertain)
      && (d.ambiguity == 0 <==> ContainsAny(text, REPRODUCTION) && !uncertain)
  {
    var paths := Extracted(text, k).paths;
    AmbiguityBySignal(SignalsOf(text, paths, k));
    SignalsAreRead(text, paths, k);
  }

  // ---------- Paths ----------

  /** A text that reads as a path of a file. */
  predicate ReadsAsPath(path: string) {
    && ('/' in path || exists e | e in EXTENSIONS :: EndsWith(path, e))
    && Utf8Length(path) <= 512
    && !Contains(path, "://")
  }

  lemma PathsAreRead(path: string)
    ensures PathLike(path) <==> ReadsAsPath(path)
  {
    if '/' in path {
      var at :| 0 <= at < |path| && path[at] == '/';
      assert OccursAt(path, "/", at);
    }
    if Contains(path, "/") {
      var at: nat :| at <= |path| && OccursAt(path, "/", at);
      assert path[at..at + 1][0] == '/';
    }
  }

  lemma {:induction false} PathsComeFromWords(tokens: seq<string>)
    ensures forall p | p in DistinctPaths(tokens) :: PathLike(p) && exists t | t in tokens :: p == Candidate(t)
    ensures forall t | t in tokens && PathLike(Candidate(t)) :: Candidate(t) in DistinctPaths(tokens)
    ensures forall i, j | 0 <= i < j < |DistinctPaths(tokens)| :: DistinctPaths(tokens)[i] != DistinctPaths(tokens)[j]
  {
    if tokens != [] {
      var front, last := tokens[..|tokens| - 1], tokens[|tokens| - 1];
      PathsComeFromWords(front);
      assert tokens == front + [last];
    }
  }

  /** A word of the prompt is this path between quotes, brackets and punctuation. */
  ghost predicate Wraps(word: string, path: string) {
    exists before, after :: word == before + path + after
      && AllDropped(before, c => c in PATH_TRIM) && AllDropped(after, c => c in PATH_TRIM)
  }

  lemma WrappedIsCandidate(word: string, path: string)
    requires Wraps(word, path) && KeepsEnds(path, c => c in PATH_TRIM)
    ensures Candidate(word) == path
  {
    var before, after :| word == before + path + after
      && AllDropped(before, c => c in PATH_TRIM) && AllDropped(after, c => c in PATH_TRIM);
    TrimTakesBothEnds(before, path, after, c => c in PATH_TRIM);
  }

  /** The paths of a prompt are distinct, at most 32, and read as paths with nothing left to strip. */
  lemma PathsAreExact(text: string, k: Classes)
    requires Words(text, k.whitespace) != []
    ensures var paths := Extracted(text, k).paths;
      && |paths| <= 32
      && (forall i, j | 0 <= i < j < |paths| :: paths[i] != paths[j])
      && (forall p | p in paths :: ReadsAsPath(p) && KeepsEnds(p, c => c in PATH_TRIM))
  {
    PathsOfTokens(Words(text, k.whitespace));
  }

  lemma PathsOfTokens(tokens: seq<string>)
    ensures var paths := PathsOf(tokens);
      && |paths| <= 32
      && (forall i, j | 0 <= i < j < |paths| :: paths[i] != paths[j])
      && (forall p | p in paths :: ReadsAsPath(p) && KeepsEnds(p, c => c in PATH_TRIM))
  {
    PathsComeFromWords(tokens);
    forall p | p in PathsOf(tokens) ensures ReadsAsPath(p) && KeepsEnds(p, c => c in PATH_TRIM) {
      assert p in DistinctPaths(tokens);
      PathsAreRead(p);
      var t :| t in tokens && p == Candidate(t);
      TrimmedKeepsEnds(t, c => c in PATH_TRIM);
    }
  }

  /** Every path that some word of the prompt wraps is among them unless there are 32. */
  lemma WrappedPathIsFound(text: string, k: Classes, word: string, path: string)
    requires word in Words(text, k.whitespace) && Wraps(word, path)
    requires ReadsAsPath(path) && KeepsEnds(path, c => c in PATH_TRIM)
    ensures path in Extracted(text, k).paths || |Extracted(text, k).paths| == 32
  {
    WrappedIsInPaths(Words(text, k.whitespace), word, path);
  }

  lemma WrappedIsInPaths(tokens: seq<string>, word: string, path: string)
    requires word in tokens && Wraps(word, path) && ReadsAsPath(path) && KeepsEnds(path, c => c in PATH_TRIM)
    ensures path in PathsOf(tokens) || |PathsOf(tokens)| == 32
  {
    PathsComeFromWords(tokens);
    WrappedIsCandidate(word, path);
    PathsAreRead(path);
    assert path in DistinctPaths(tokens);
  }
}
