/** The append-only decision log as its readers see it: one parsed record per line. */
module Log {
  import opened Types

  datatype Mode = Preview | Launched | Agent | OtherMode

  datatype Kind = Right | Underpowered | Overkill | FailedForOtherReason | OtherKind(text: string)

  /** Any other text counts as a source of its own. */
  datatype FeedbackSource = Manual | ImplicitCorrection | ExplicitRouteChange | OtherSource(text: string)

  /** The parts of a decision record that only the report reads. */
  datatype Facts = Facts(
    schemaVersion: nat,
    confidence: nat,
    elapsedMicros: nat,
    noMatchedRules: bool,
    dimensions: Dimensions,
    classifierRan: bool,
    classifierSucceeded: bool,
    fallbackCatalog: bool,
    downgraded: bool,
    raising: seq<string>,
    lowering: seq<string>)

  /** `mode` is None on records written before the field existed. */
  datatype DecisionRecord = DecisionRecord(
    id: string,
    repo: string,
    mode: Option<Mode>,
    source: RouteSource,
    family: ModelFamily,
    effort: ReasoningLevel,
    facts: Facts)

  datatype FeedbackRecord = FeedbackRecord(
    decisionId: Option<string>,
    kind: Option<Kind>,
    source: Option<FeedbackSource>)

  datatype Line = DecisionLine(decision: DecisionRecord) | FeedbackLine(feedback: FeedbackRecord) | OtherLine

  /** Number of lines that a predicate accepts. */
  function Count<T>(lines: seq<T>, accept: T -> bool): nat {
    if lines == [] then 0
    else Count(lines[..|lines| - 1], accept) + if accept(lines[|lines| - 1]) then 1 else 0
  }

  lemma {:induction false} CountConcat<T>(xs: seq<T>, ys: seq<T>, accept: T -> bool)
    ensures Count(xs + ys, accept) == Count(xs, accept) + Count(ys, accept)
  {
    if ys == [] {
      assert xs + ys == xs;
    } else {
      CountConcat(xs, ys[..|ys| - 1], accept);
      assert (xs + ys)[..|xs + ys| - 1] == xs + ys[..|ys| - 1];
    }
  }

  function Without<T>(xs: seq<T>, i: nat): seq<T>
    requires i < |xs|
  {
    xs[..i] + xs[i + 1..]
  }

  lemma WithoutKeepsTheRest<T>(xs: seq<T>, i: nat)
    requires i < |xs|
    ensures multiset(Without(xs, i)) == multiset(xs) - multiset{xs[i]}
  {
    assert xs == xs[..i] + ([xs[i]] + xs[i + 1..]);
  }

  lemma CountBetween<T>(before: seq<T>, x: T, after: seq<T>, accept: T -> bool)
    ensures Count(before + [x] + after, accept) == Count(before + after, accept) + if accept(x) then 1 else 0
  {
    CountConcat(before + [x], after, accept);
    CountConcat(before, after, accept);
    assert (before + [x])[..|before|] == before;
  }

  lemma CountWithout<T>(xs: seq<T>, i: nat, accept: T -> bool)
    requires i < |xs|
    ensures Count(xs, accept) == Count(Without(xs, i), accept) + if accept(xs[i]) then 1 else 0
  {
    assert xs[..i] + [xs[i]] == xs[..i + 1];
    assert xs[..i + 1] + xs[i + 1..] == xs;
    CountBetween(xs[..i], xs[i], xs[i + 1..], accept);
  }

  /** Counting ignores the order of lines. */
  lemma {:induction false} CountPermutes<T>(xs: seq<T>, ys: seq<T>, accept: T -> bool)
    requires multiset(xs) == multiset(ys)
    ensures Count(xs, accept) == Count(ys, accept)
    decreases |xs|
  {
    if xs == [] {
      assert |multiset(ys)| == 0;
    } else {
      assert xs[0] in multiset(ys);
      var i :| 0 <= i < |ys| && ys[i] == xs[0];
      WithoutKeepsTheRest(xs, 0);
      WithoutKeepsTheRest(ys, i);
      CountWithout(xs, 0, accept);
      CountWithout(ys, i, accept);
      CountPermutes(Without(xs, 0), Without(ys, i), accept);
    }
  }

  lemma {:induction false} CountMonotone<T(!new)>(xs: seq<T>, weaker: T -> bool, stronger: T -> bool)
    requires forall x | x in xs && stronger(x) :: weaker(x)
    ensures Count(xs, stronger) <= Count(xs, weaker)
  {
    if xs != [] { CountMonotone(xs[..|xs| - 1], weaker, stronger); }
  }

  lemma {:induction false} CountSame<T(!new)>(xs: seq<T>, a: T -> bool, b: T -> bool)
    requires forall x | x in xs :: a(x) == b(x)
    ensures Count(xs, a) == Count(xs, b)
  {
    if xs != [] { CountSame(xs[..|xs| - 1], a, b); }
  }

  lemma {:induction false} CountNone<T>(xs: seq<T>, accept: T -> bool)
    requires forall x | x in xs :: !accept(x)
    ensures Count(xs, accept) == 0
  {
    if xs != [] { CountNone(xs[..|xs| - 1], accept); }
  }

  function HasId(id: string): Line -> bool {
    (line: Line) => line.DecisionLine? && line.decision.id == id
  }

  /** No two decision records share an identifier. */
  ghost predicate UniqueIds(lines: seq<Line>) {
    forall id :: Count(lines, HasId(id)) <= 1
  }
}
