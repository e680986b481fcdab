/** Joining feedback to decisions and deriving a bounded repository calibration. */
module Tuning {
  import opened Types
  import opened Log

  datatype DecisionInfo = DecisionInfo(repo: string, preview: bool, native: bool)

  function InfoOf(d: DecisionRecord): DecisionInfo {
    DecisionInfo(d.repo, d.mode == Some(Preview), d.source.NativePreserved?)
  }

  /** Identifier to decision, the last record winning. */
  function DecisionsIn(lines: seq<Line>): map<string, DecisionInfo> {
    if lines == [] then map[]
    else
      var earlier := DecisionsIn(lines[..|lines| - 1]);
      match lines[|lines| - 1]
      case DecisionLine(d) => earlier[d.id := InfoOf(d)]
      case _ => earlier
  }

  /** What one joined feedback line counts as. */
  datatype Class = PreviewExcluded | NativeExcluded | CountsAs(kind: Kind)

  function ClassOf(line: Line, decisions: map<string, DecisionInfo>): Option<(string, Class)> {
    if !line.FeedbackLine? || line.feedback.decisionId.None? || line.feedback.decisionId.value !in decisions then None
    else
      var info := decisions[line.feedback.decisionId.value];
      Some((info.repo,
            if info.preview then PreviewExcluded
            else if info.native then NativeExcluded
            else CountsAs(if line.feedback.kind.Some? then line.feedback.kind.value else OtherKind(""))))
  }

  function InClass(decisions: map<string, DecisionInfo>, repo: string, class_: Class): Line -> bool {
    (line: Line) => ClassOf(line, decisions) == Some((repo, class_))
  }

  function Unrecognised(decisions: map<string, DecisionInfo>, repo: string): Line -> bool {
    (line: Line) => match ClassOf(line, decisions)
      case Some((r, CountsAs(OtherKind(_)))) => r == repo
      case _ => false
  }

  function JoinsRepo(decisions: map<string, DecisionInfo>, repo: string): Line -> bool {
    (line: Line) => ClassOf(line, decisions).Some? && ClassOf(line, decisions).value.0 == repo
  }

  datatype Tally = Tally(
    right: nat,
    underpowered: nat,
    overkill: nat,
    failed: nat,
    previews: nat,
    natives: nat)
  {
    function Eligible(): nat { right + underpowered + overkill }
  }

  const NOTHING := Tally(0, 0, 0, 0, 0, 0)

  /** The declarative counts of one repository. */
  function TallyOf(lines: seq<Line>, decisions: map<string, DecisionInfo>, repo: string): Tally {
    Tally(
      Count(lines, InClass(decisions, repo, CountsAs(Right))),
      Count(lines, InClass(decisions, repo, CountsAs(Underpowered))),
      Count(lines, InClass(decisions, repo, CountsAs(Overkill))),
      Count(lines, InClass(decisions, repo, CountsAs(FailedForOtherReason))),
      Count(lines, InClass(decisions, repo, PreviewExcluded)),
      Count(lines, InClass(decisions, repo, NativeExcluded)))
  }

  function CountsFor(lines: seq<Line>, repo: string): Tally {
    TallyOf(lines, DecisionsIn(lines), repo)
  }

  // ---------- Recommendation ----------

  const OFFSET := 5

  datatype Status = Insufficient | Increase | Decrease | Mixed | UpToDate

  datatype Recommendation = Recommendation(eligible: bool, proposed: Option<int>, status: Status)

  function Recommend(t: Tally): Recommendation {
    if t.Eligible() < 3 then Recommendation(false, None, Insufficient)
    else if t.underpowered * 10 >= t.Eligible() * 7 then Recommendation(true, Some(OFFSET), Increase)
    else if t.overkill * 10 >= t.Eligible() * 7 then Recommendation(true, Some(-OFFSET), Decrease)
    else Recommendation(false, None, Mixed)
  }

  /** A persisted calibration with the counts it was derived from. */
  datatype Applied = Applied(offset: int, direction: Kind, eligible: nat, right: nat, underpowered: nat, overkill: nat)

  datatype RepositoryTuning = RepositoryTuning(
    repo: string,
    counts: Tally,
    eligible: bool,
    current: Option<int>,
    proposed: Option<int>,
    status: Status)

  function TuningOf(repo: string, counts: Tally, store: map<string, Applied>): RepositoryTuning {
    var r := Recommend(counts);
    var current := if repo in store then Some(store[repo].offset) else None;
    RepositoryTuning(repo, counts, r.eligible, current, r.proposed,
                     if r.eligible && current == r.proposed then UpToDate else r.status)
  }

  // ---------- The two passes ----------

  method CollectDecisions(lines: seq<Line>) returns (decisions: map<string, DecisionInfo>)
    ensures decisions == DecisionsIn(lines)
  {
    decisions := map[];
    for i := 0 to |lines|
      invariant decisions == DecisionsIn(lines[..i])
    {
      assert lines[..i + 1][..i] == lines[..i];
      if lines[i].DecisionLine? {
        var d := lines[i].decision;
        decisions := decisions[d.id := InfoOf(d)];
      }
    }
    assert lines[..|lines|] == lines;
  }

  function At(counts: map<string, Tally>, repo: string): Tally {
    if repo in counts then counts[repo] else NOTHING
  }

  function Bump(t: Tally, class_: Class): Tally {
    match class_
    case PreviewExcluded => t.(previews := t.previews + 1)
    case NativeExcluded => t.(natives := t.natives + 1)
    case CountsAs(Right) => t.(right := t.right + 1)
    case CountsAs(Underpowered) => t.(underpowered := t.underpowered + 1)
    case CountsAs(Overkill) => t.(overkill := t.overkill + 1)
    case CountsAs(FailedForOtherReason) => t.(failed := t.failed + 1)
    case CountsAs(OtherKind(_)) => t
  }

  /** One more line adds exactly its own class to its own repository. */
  lemma TallyStep(lines: seq<Line>, line: Line, decisions: map<string, DecisionInfo>, repo: string)
    ensures TallyOf(lines + [line], decisions, repo)
         == match ClassOf(line, decisions)
            case Some((r, class_)) =>
              if r == repo then Bump(TallyOf(lines, decisions, repo), class_) else TallyOf(lines, decisions, repo)
            case None => TallyOf(lines, decisions, repo)
  {
    assert (lines + [line])[..|lines|] == lines;
  }

  method CountFeedback(lines: seq<Line>, decisions: map<string, DecisionInfo>) returns (counts: map<string, Tally>)
    ensures forall repo :: At(counts, repo) == TallyOf(lines, decisions, repo)
    ensures forall repo :: repo in counts <==> Count(lines, JoinsRepo(decisions, repo)) > 0
  {
    counts := map[];
    for i := 0 to |lines|
      invariant forall repo :: At(counts, repo) == TallyOf(lines[..i], decisions, repo)
      invariant forall repo :: repo in counts <==> Count(lines[..i], JoinsRepo(decisions, repo)) > 0
    {
      ghost var before := counts;
      assert lines[..i + 1] == lines[..i] + [lines[i]];
      assert lines[..i + 1][..i] == lines[..i];
      forall repo { TallyStep(lines[..i], lines[i], decisions, repo); }
      var joined := ClassOf(lines[i], decisions);
      if joined.Some? {
        var (repo, class_) := joined.value;
        if repo !in counts {
          counts := counts[repo := NOTHING];
        }
        counts := counts[repo := Bump(counts[repo], class_)];
        assert forall r :: At(counts, r) == if r == repo then Bump(At(before, r), class_) else At(before, r);
      }
    }
    assert lines[..|lines|] == lines;
  }

  /**
   * The analysis: with a filter exactly that repository, otherwise every repository with joined
   * feedback or a stored calibration.
   */
  method AnalyzeRepository(lines: seq<Line>, store: map<string, Applied>, only: Option<string>)
    returns (tunings: map<string, RepositoryTuning>)
    ensures only.Some? ==> tunings.Keys == {only.value}
    ensures only.None? ==> forall repo ::
      repo in tunings <==> repo in store || Count(lines, JoinsRepo(DecisionsIn(lines), repo)) > 0
    ensures forall repo | repo in tunings :: tunings[repo] == TuningOf(repo, CountsFor(lines, repo), store)
  {
    var decisions := CollectDecisions(lines);
    var counts := CountFeedback(lines, decisions);
    var repos := if only.Some? then {only.value} else counts.Keys + store.Keys;
    tunings := map repo | repo in repos :: TuningOf(repo, At(counts, repo), store);
  }

  // ---------- The store ----------

  /** The calibration file as it is found on disk. */
  datatype StoreFile = Missing | Malformed | Parsed(version: nat, repositories: map<string, Applied>)

  predicate WithinBounds(store: map<string, Applied>) {
    forall repo | repo in store :: -10 <= store[repo].offset <= 10
  }

  /** An unreadable, unversioned or out-of-range file is refused; a missing one is empty. */
  function LoadStore(file: StoreFile): (store: Option<map<string, Applied>>)
    ensures store.Some? <==> file.Missing? || (file.Parsed? && file.version == 1 && WithinBounds(file.repositories))
    ensures store.Some? ==> store.value == if file.Parsed? then file.repositories else map[]
    ensures store.Some? ==> WithinBounds(store.value)
  {
    match file
    case Missing => Some(map[])
    case Malformed => None
    case Parsed(version, repositories) =>
      if version == 1 && WithinBounds(repositories) then Some(repositories) else None
  }

  function AppliedFrom(t: RepositoryTuning, offset: int): Applied {
    Applied(offset, if offset > 0 then Underpowered else Overkill, t.counts.Eligible(),
            t.counts.right, t.counts.underpowered, t.counts.overkill)
  }

  /** The store after saving a recommendation: unchanged unless an eligible proposal in range differs. */
  function Saved(store: map<string, Applied>, t: RepositoryTuning): map<string, Applied> {
    if !t.eligible || t.proposed.None? || !(-10 <= t.proposed.value <= 10) then store
    else if (t.repo in store && store[t.repo].offset == t.proposed.value) then store
    else store[t.repo := AppliedFrom(t, t.proposed.value)]
  }

  class CalibrationStore {
    var repositories: map<string, Applied>

    constructor (loaded: map<string, Applied>)
      ensures repositories == loaded
    {
      repositories := loaded;
    }

    method SaveRecommendation(t: RepositoryTuning) returns (change: Option<(Option<int>, int)>)
      modifies this
      ensures repositories == Saved(old(repositories), t)
      ensures change.Some? <==>
        && t.eligible && t.proposed.Some? && -10 <= t.proposed.value <= 10
        && !(t.repo in old(repositories) && old(repositories)[t.repo].offset == t.proposed.value)
      ensures change.Some? ==>
        && t.proposed == Some(change.value.1)
        && change.value.0 == if t.repo in old(repositories) then Some(old(repositories)[t.repo].offset) else None
    {
      if !t.eligible || t.proposed.None? {
        return None;
      }
      var offset := t.proposed.value;
      if offset < -10 || offset > 10 {
        return None;
      }
      var before := if t.repo in repositories then Some(repositories[t.repo].offset) else None;
      if before == Some(offset) {
        return None;
      }
      repositories := repositories[t.repo := AppliedFrom(t, offset)];
      change := Some((before, offset));
    }

    method ResetRepository(repo: string) returns (removed: Option<int>)
      modifies this
      ensures repositories == old(repositories) - {repo}
      ensures removed == if repo in old(repositories) then Some(old(repositories)[repo].offset) else None
    {
      removed := if repo in repositories then Some(repositories[repo].offset) else None;
      repositories := repositories - {repo};
    }
  }

  // ---------- What the join guarantees ----------

  /** With unique identifiers, an entry of the map is exactly a decision record of the log. */
  lemma {:induction false} DecisionsAreRecords(lines: seq<Line>, d: DecisionRecord)
    requires UniqueIds(lines) && DecisionLine(d) in lines
    ensures d.id in DecisionsIn(lines) && DecisionsIn(lines)[d.id] == InfoOf(d)
  {
    var front, last := lines[..|lines| - 1], lines[|lines| - 1];
    assert lines == front + [last];
    UniqueInPrefix(front, [last]);
    if last == DecisionLine(d) {
    } else {
      assert DecisionLine(d) in front;
      DecisionsAreRecords(front, d);
      if last.DecisionLine? && last.decision.id == d.id {
        CountPositive(front, DecisionLine(d), HasId(d.id));
      }
    }
  }

  lemma {:induction false} CountPositive<T>(xs: seq<T>, x: T, accept: T -> bool)
    requires x in xs && accept(x)
    ensures Count(xs, accept) >= 1
  {
    var front, last := xs[..|xs| - 1], xs[|xs| - 1];
    assert xs == front + [last];
    if last != x { CountPositive(front, x, accept); }
  }

  lemma UniqueInPrefix(xs: seq<Line>, ys: seq<Line>)
    requires UniqueIds(xs + ys)
    ensures UniqueIds(xs)
  {
    forall id ensures Count(xs, HasId(id)) <= 1 {
      CountConcat(xs, ys, HasId(id));
    }
  }

  lemma {:induction false} EntriesComeFromRecords(lines: seq<Line>, id: string)
    requires id in DecisionsIn(lines)
    ensures exists d :: DecisionLine(d) in lines && d.id == id && DecisionsIn(lines)[id] == InfoOf(d)
  {
    var front, last := lines[..|lines| - 1], lines[|lines| - 1];
    assert lines == front + [last];
    if last.DecisionLine? && last.decision.id == id {
    } else {
      EntriesComeFromRecords(front, id);
      var d :| DecisionLine(d) in front && d.id == id && DecisionsIn(front)[id] == InfoOf(d);
      assert DecisionLine(d) in lines;
    }
  }

  /** A log with more lines, and still unique identifiers, agrees with the shorter one on every earlier decision. */
  lemma DecisionsGrow(lines: seq<Line>, longer: seq<Line>)
    requires UniqueIds(longer) && forall l | l in lines :: l in longer
    ensures forall id | id in DecisionsIn(lines) ::
      id in DecisionsIn(longer) && DecisionsIn(longer)[id] == DecisionsIn(lines)[id]
  {
    forall id | id in DecisionsIn(lines)
      ensures id in DecisionsIn(longer) && DecisionsIn(longer)[id] == DecisionsIn(lines)[id]
    {
      EntriesComeFromRecords(lines, id);
      var d :| DecisionLine(d) in lines && d.id == id && DecisionsIn(lines)[id] == InfoOf(d);
      DecisionsAreRecords(longer, d);
    }
  }

  lemma UniquePermutes(lines: seq<Line>, shuffled: seq<Line>)
    requires UniqueIds(lines) && multiset(lines) == multiset(shuffled)
    ensures UniqueIds(shuffled)
  {
    forall id ensures Count(shuffled, HasId(id)) <= 1 {
      CountPermutes(lines, shuffled, HasId(id));
    }
  }

  /** With unique decision identifiers, no order of the log lines changes any repository's counts. */
  lemma CountsIgnoreOrder(lines: seq<Line>, shuffled: seq<Line>, repo: string)
    requires UniqueIds(lines) && multiset(lines) == multiset(shuffled)
    ensures CountsFor(lines, repo) == CountsFor(shuffled, repo)
  {
    UniquePermutes(lines, shuffled);
    assert forall l :: l in lines <==> l in multiset(lines);
    assert forall l :: l in shuffled <==> l in multiset(shuffled);
    DecisionsGrow(lines, shuffled);
    DecisionsGrow(shuffled, lines);
    var decisions := DecisionsIn(lines);
    assert decisions == DecisionsIn(shuffled);
    CountPermutes(lines, shuffled, InClass(decisions, repo, CountsAs(Right)));
    CountPermutes(lines, shuffled, InClass(decisions, repo, CountsAs(Underpowered)));
    CountPermutes(lines, shuffled, InClass(decisions, repo, CountsAs(Overkill)));
    CountPermutes(lines, shuffled, InClass(decisions, repo, CountsAs(FailedForOtherReason)));
    CountPermutes(lines, shuffled, InClass(decisions, repo, PreviewExcluded));
    CountPermutes(lines, shuffled, InClass(decisions, repo, NativeExcluded));
  }

  /** Without unique identifiers the order does matter: the last record of an identifier takes its feedback. */
  lemma DuplicateIdsDependOnOrder(facts: Facts)
    ensures var here := DecisionLine(DecisionRecord("d", "here", Some(Agent), Local, Sol, High, facts));
      var there := DecisionLine(DecisionRecord("d", "there", Some(Agent), Local, Sol, High, facts));
      var event := FeedbackLine(FeedbackRecord(Some("d"), Some(Right), None));
      && multiset([here, there, event]) == multiset([there, here, event])
      && CountsFor([here, there, event], "here").right == 0
      && CountsFor([there, here, event], "here").right == 1
  {
    var here := DecisionLine(DecisionRecord("d", "here", Some(Agent), Local, Sol, High, facts));
    var there := DecisionLine(DecisionRecord("d", "there", Some(Agent), Local, Sol, High, facts));
    var event := FeedbackLine(FeedbackRecord(Some("d"), Some(Right), None));
    EndsWithFeedback(here, there, event);
    EndsWithFeedback(there, here, event);
  }

  lemma EndsWithFeedback(first: Line, second: Line, event: Line)
    requires first.DecisionLine? && second.DecisionLine? && first.decision.id == second.decision.id
    requires event == FeedbackLine(FeedbackRecord(Some(first.decision.id), Some(Right), None))
    requires !InfoOf(second.decision).preview && !InfoOf(second.decision).native
    ensures forall repo ::
      CountsFor([first, second, event], repo).right == if second.decision.repo == repo then 1 else 0
  {
    var lines := [first, second, event];
    assert lines[..2] == [first, second] && [first, second][..1] == [first] && [first][..0] == [];
    assert DecisionsIn([first]) == map[first.decision.id := InfoOf(first.decision)];
    assert DecisionsIn([first, second]) == map[first.decision.id := InfoOf(second.decision)];
    var decisions := DecisionsIn(lines);
    assert decisions == map[first.decision.id := InfoOf(second.decision)];
    forall repo ensures TallyOf(lines, decisions, repo).right == if second.decision.repo == repo then 1 else 0 {
      TallyStep([], first, decisions, repo);
      TallyStep([first], second, decisions, repo);
      TallyStep([first, second], event, decisions, repo);
      assert [] + [first] == [first] && [first] + [second] == [first, second] && [first, second] + [event] == lines;
    }
  }

  /** Every feedback line joined to a repository is counted in exactly one class. */
  lemma {:induction false} JoinedLinesAreConserved(lines: seq<Line>, decisions: map<string, DecisionInfo>, repo: string)
    ensures var t := TallyOf(lines, decisions, repo);
      t.right + t.underpowered + t.overkill + t.failed + t.previews + t.natives
      + Count(lines, Unrecognised(decisions, repo))
      == Count(lines, JoinsRepo(decisions, repo))
  {
    if lines != [] {
      var front, last := lines[..|lines| - 1], lines[|lines| - 1];
      JoinedLinesAreConserved(front, decisions, repo);
      assert lines == front + [last];
      TallyStep(front, last, decisions, repo);
    }
  }

  // ---------- What the recommendation guarantees ----------

  lemma ClassCountGrows(lines: seq<Line>, more: seq<Line>, repo: string, class_: Class)
    requires UniqueIds(lines + more)
    ensures Count(lines, InClass(DecisionsIn(lines), repo, class_))
         <= Count(lines + more, InClass(DecisionsIn(lines + more), repo, class_))
  {
    DecisionsGrow(lines, lines + more);
    CountMonotone(lines, InClass(DecisionsIn(lines + more), repo, class_), InClass(DecisionsIn(lines), repo, class_));
    CountConcat(lines, more, InClass(DecisionsIn(lines + more), repo, class_));
  }

  /**
   * A calibration does not flip cheaply: if +5 was recommended at `e` eligible events and -5 is
   * recommended on a longer log, overkill events have grown by at least four thirds of `e`.
   */
  lemma FlippingDownIsExpensive(lines: seq<Line>, more: seq<Line>, repo: string)
    requires UniqueIds(lines + more)
    requires Recommend(CountsFor(lines, repo)).proposed == Some(OFFSET)
    requires Recommend(CountsFor(lines + more, repo)).proposed == Some(-OFFSET)
    ensures 3 * (CountsFor(lines + more, repo).overkill - CountsFor(lines, repo).overkill)
         >= 4 * CountsFor(lines, repo).Eligible()
  {
    ClassCountGrows(lines, more, repo, CountsAs(Right));
    ClassCountGrows(lines, more, repo, CountsAs(Underpowered));
    ClassCountGrows(lines, more, repo, CountsAs(Overkill));
  }

  lemma FlippingUpIsExpensive(lines: seq<Line>, more: seq<Line>, repo: string)
    requires UniqueIds(lines + more)
    requires Recommend(CountsFor(lines, repo)).proposed == Some(-OFFSET)
    requires Recommend(CountsFor(lines + more, repo)).proposed == Some(OFFSET)
    ensures 3 * (CountsFor(lines + more, repo).underpowered - CountsFor(lines, repo).underpowered)
         >= 4 * CountsFor(lines, repo).Eligible()
  {
    ClassCountGrows(lines, more, repo, CountsAs(Right));
    ClassCountGrows(lines, more, repo, CountsAs(Underpowered));
    ClassCountGrows(lines, more, repo, CountsAs(Overkill));
  }

  /** The two thresholds exclude each other, so the order in which they are tested does not matter. */
  lemma ThresholdsExclude(t: Tally)
    requires t.Eligible() >= 3
    ensures !(t.underpowered * 10 >= t.Eligible() * 7 && t.overkill * 10 >= t.Eligible() * 7)
    ensures Recommend(t).proposed == Some(OFFSET) <==> t.underpowered * 10 >= t.Eligible() * 7
    ensures Recommend(t).proposed == Some(-OFFSET) <==> t.overkill * 10 >= t.Eligible() * 7
  {
  }

  /**
   * What a repository's counts do to its calibration: three eligible events with 70% one way save plus
   * or minus five with the counts they rest on, and anything else leaves the store alone.
   */
  lemma RecommendationIsSaved(store: map<string, Applied>, repo: string, counts: Tally)
    ensures var after := Saved(store, TuningOf(repo, counts, store));
      var enough := counts.right + counts.underpowered + counts.overkill >= 3;
      var total := counts.right + counts.underpowered + counts.overkill;
      && (enough && 10 * counts.underpowered >= 7 * total ==> repo in after && after[repo].offset == 5)
      && (enough && 10 * counts.overkill >= 7 * total ==> repo in after && after[repo].offset == -5)
      && (!enough || (10 * counts.underpowered < 7 * total && 10 * counts.overkill < 7 * total) ==> after == store)
      && (after != store ==>
            && after[repo].direction == (if after[repo].offset > 0 then Underpowered else Overkill)
            && after[repo].eligible == total && after[repo].right == counts.right
            && after[repo].underpowered == counts.underpowered && after[repo].overkill == counts.overkill
            && (repo in store ==> store[repo].offset != after[repo].offset))
  {
  }

  /** What the analysis reports about a repository. */
  lemma StatusIsExact(store: map<string, Applied>, repo: string, counts: Tally)
    ensures var t := TuningOf(repo, counts, store);
      && t.current == (if repo in store then Some(store[repo].offset) else None)
      && (t.proposed.Some? <==> t.eligible)
      && (t.status.UpToDate? <==> t.eligible && t.current == t.proposed)
      && (t.status.Insufficient? <==> counts.Eligible() < 3)
      && (t.status.Increase? <==> t.proposed == Some(5) && t.current != Some(5))
      && (t.status.Decrease? <==> t.proposed == Some(-5) && t.current != Some(-5))
  {
  }

  /** Saving is idempotent and touches at most its own repository. */
  lemma SavingIsIdempotent(store: map<string, Applied>, t: RepositoryTuning)
    ensures Saved(Saved(store, t), t) == Saved(store, t)
    ensures Saved(store, t) - {t.repo} == store - {t.repo}
  {
  }

  /** Operations on the store: a saved recommendation of some log, or a reset. */
  datatype StoreOp = Save(repo: string, lines: seq<Line>) | Reset(repo: string)

  function AfterOps(ops: seq<StoreOp>): map<string, Applied> {
    if ops == [] then map[]
    else
      var store := AfterOps(ops[..|ops| - 1]);
      match ops[|ops| - 1]
      case Save(repo, lines) => Saved(store, TuningOf(repo, CountsFor(lines, repo), store))
      case Reset(repo) => store - {repo}
  }

  /** Every store reachable from the empty one holds only offsets of plus or minus five, and loads back. */
  lemma {:induction false} ReachableOffsets(ops: seq<StoreOp>)
    ensures forall repo | repo in AfterOps(ops) ::
      AfterOps(ops)[repo].offset == OFFSET || AfterOps(ops)[repo].offset == -OFFSET
    ensures LoadStore(Parsed(1, AfterOps(ops))) == Some(AfterOps(ops))
  {
    if ops != [] { ReachableOffsets(ops[..|ops| - 1]); }
  }
}
