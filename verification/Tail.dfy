/** The previous route of a repository, looked up in a bounded tail of the decision log. */
module Tail {
  import opened Types

  newtype Byte = x: int | 0 <= x < 256

  const NEWLINE: Byte := 10
  const MAX_TAIL_BYTES := 256 * 1024

  /** What a log line says to this reader; anything that is not a decision record is Other. */
  datatype Entry =
    | Decision(repo: Option<string>, preview: bool, family: Option<ModelFamily>, effort: Option<ReasoningLevel>)
    | Other

  type Route = Option<(ModelFamily, ReasoningLevel)>

  function FirstNewline(bytes: seq<Byte>): (at: nat)
    ensures at <= |bytes|
    ensures at < |bytes| ==> bytes[at] == NEWLINE
    ensures forall k | 0 <= k < at :: bytes[k] != NEWLINE
  {
    if bytes == [] || bytes[0] == NEWLINE then 0 else 1 + FirstNewline(bytes[1..])
  }

  /** The lines a text has completed, and the start of a line that no newline has ended yet. */
  datatype Pieces = Pieces(complete: seq<seq<Byte>>, partial: seq<Byte>)

  function PiecesOf(bytes: seq<Byte>): Pieces {
    if bytes == [] then Pieces([], [])
    else
      var p, last := PiecesOf(bytes[..|bytes| - 1]), bytes[|bytes| - 1];
      if last == NEWLINE then Pieces(p.complete + [p.partial], []) else Pieces(p.complete, p.partial + [last])
  }

  /** The lines of a text; a final newline does not begin another line. */
  function Lines(bytes: seq<Byte>): seq<seq<Byte>> {
    var p := PiecesOf(bytes);
    if p.partial == [] then p.complete else p.complete + [p.partial]
  }

  /** A decision of this repository that is no preview, even one whose route cannot be read. */
  predicate Matches(read: seq<Byte> -> Entry, repo: string, line: seq<Byte>) {
    var entry := read(line);
    entry.Decision? && !entry.preview && entry.repo == Some(repo)
  }

  function RouteOf(entry: Entry): Route
    requires entry.Decision?
  {
    if entry.family.Some? && entry.effort.Some? then Some((entry.family.value, entry.effort.value)) else None
  }

  predicate AnyMatch(read: seq<Byte> -> Entry, repo: string, lines: seq<seq<Byte>>) {
    exists line | line in lines :: Matches(read, repo, line)
  }

  /** The newest match decides. */
  function Newest(read: seq<Byte> -> Entry, repo: string, lines: seq<seq<Byte>>): Route {
    if lines == [] then None
    else
      var last := lines[|lines| - 1];
      if Matches(read, repo, last) then RouteOf(read(last)) else Newest(read, repo, lines[..|lines| - 1])
  }

  /** What follows the first newline; nothing when there is none. */
  function AfterFirstNewline(text: seq<Byte>): seq<Byte> {
    var at := FirstNewline(text);
    if at == |text| then [] else text[at + 1..]
  }

  /**
   * The part of the log that is looked at: a tail that misses the beginning drops its first, possibly
   * partial, line.
   */
  function Kept(log: seq<Byte>, max: nat): seq<Byte> {
    if |log| <= max then log else AfterFirstNewline(log[|log| - max..])
  }

  /** Newest line first, up to the first match. */
  method ScanBackwards(read: seq<Byte> -> Entry, lines: seq<seq<Byte>>, repo: string) returns (route: Route)
    ensures route == Newest(read, repo, lines)
  {
    var i := |lines|;
    assert lines[..i] == lines;
    while i > 0
      invariant i <= |lines|
      invariant Newest(read, repo, lines) == Newest(read, repo, lines[..i])
    {
      i := i - 1;
      assert lines[..i + 1][..i] == lines[..i];
      if Matches(read, repo, lines[i]) {
        return RouteOf(read(lines[i]));
      }
    }
    return None;
  }

  /** The bounded lookup as it runs; a missing log has no route. */
  method LatestRoute(read: seq<Byte> -> Entry, file: Option<seq<Byte>>, repo: string) returns (route: Route)
    ensures route == if file.None? then None else Newest(read, repo, Lines(Kept(file.value, MAX_TAIL_BYTES)))
    ensures file.Some? && |file.value| <= 262144 ==> route == Newest(read, repo, Lines(file.value))
    ensures file.Some? && |file.value| > 262144 ==>
      route == Newest(read, repo, Lines(AfterFirstNewline(file.value[|file.value| - 262144..])))
  {
    if file.None? {
      return None;
    }
    var log := file.value;
    var tailLength := if |log| < MAX_TAIL_BYTES then |log| else MAX_TAIL_BYTES;
    var tail := log[|log| - tailLength..];
    var start := 0;
    if tailLength < |log| {
      var at := FirstNewline(tail);
      start := if at == |tail| then at else at + 1;
    }
    assert tail[start..] == Kept(log, MAX_TAIL_BYTES);
    route := ScanBackwards(read, Lines(tail[start..]), repo);
  }

  // ---------- The bounded lookup against the full one ----------

  lemma {:induction false} PiecesSplit(xs: seq<Byte>, ys: seq<Byte>)
    requires PiecesOf(xs).partial == []
    ensures PiecesOf(xs + ys) == Pieces(PiecesOf(xs).complete + PiecesOf(ys).complete, PiecesOf(ys).partial)
    decreases |ys|
  {
    if ys == [] {
      assert xs + ys == xs;
    } else {
      assert (xs + ys)[..|xs + ys| - 1] == xs + ys[..|ys| - 1];
      PiecesSplit(xs, ys[..|ys| - 1]);
    }
  }

  /** Text that ends a line splits from what follows it. */
  lemma LinesSplitAtNewline(xs: seq<Byte>, ys: seq<Byte>)
    requires xs != [] && xs[|xs| - 1] == NEWLINE
    ensures Lines(xs + ys) == Lines(xs) + Lines(ys)
  {
    PiecesSplit(xs, ys);
  }

  /** Dropping through the first newline of any suffix leaves whole lines. */
  lemma SuffixLinesAreWhole(text: seq<Byte>, from: nat)
    requires from <= |text|
    ensures exists earlier :: Lines(text) == earlier + Lines(AfterFirstNewline(text[from..]))
  {
    var kept := AfterFirstNewline(text[from..]);
    if kept == [] {
      assert Lines(text) == Lines(text) + Lines(kept);
    } else {
      var dropped := text[..|text| - |kept|];
      assert text == dropped + kept;
      assert dropped[|dropped| - 1] == NEWLINE;
      LinesSplitAtNewline(dropped, kept);
    }
  }

  lemma NothingBefore(lines: seq<seq<Byte>>)
    ensures exists earlier :: lines == earlier + lines
  {
    assert lines == [] + lines;
  }

  /** The lines looked at are the last lines of the log, whole: a truncated record is never read. */
  lemma KeptLinesAreWhole(log: seq<Byte>, max: nat)
    ensures exists earlier :: Lines(log) == earlier + Lines(Kept(log, max))
  {
    if |log| <= max {
      NothingBefore(Lines(log));
    } else {
      SuffixLinesAreWhole(log, |log| - max);
    }
  }

  lemma {:induction false} NewestOfConcat(
      read: seq<Byte> -> Entry, repo: string, earlier: seq<seq<Byte>>, later: seq<seq<Byte>>)
    ensures AnyMatch(read, repo, later) ==> Newest(read, repo, earlier + later) == Newest(read, repo, later)
    ensures !AnyMatch(read, repo, later) ==> Newest(read, repo, earlier + later) == Newest(read, repo, earlier)
    ensures !AnyMatch(read, repo, later) ==> Newest(read, repo, later) == None
    decreases |later|
  {
    if later == [] {
      assert earlier + later == earlier;
    } else {
      var front, last := later[..|later| - 1], later[|later| - 1];
      assert (earlier + later)[..|earlier + later| - 1] == earlier + front;
      assert later == front + [last];
      NewestOfConcat(read, repo, earlier, front);
    }
  }

  /**
   * The bounded lookup is the full newest-first scan whenever a line after the discarded prefix
   * matches, and None otherwise; so it is never another, older route.
   */
  lemma BoundedLookupRefinesFullScan(read: seq<Byte> -> Entry, repo: string, log: seq<Byte>, max: nat)
    ensures var full, bounded := Newest(read, repo, Lines(log)), Newest(read, repo, Lines(Kept(log, max)));
      && bounded == (if AnyMatch(read, repo, Lines(Kept(log, max))) then full else None)
      && (|log| <= max ==> bounded == full)
  {
    KeptLinesAreWhole(log, max);
    var earlier :| Lines(log) == earlier + Lines(Kept(log, max));
    NewestOfConcat(read, repo, earlier, Lines(Kept(log, max)));
  }

  // ---------- Where the newest match has to lie ----------

  lemma {:induction false} OneLine(record: seq<Byte>)
    requires NEWLINE !in record
    ensures PiecesOf(record) == Pieces([], record)
  {
    if record != [] { OneLine(record[..|record| - 1]); }
  }

  /** A record as it is written: its text and a newline. */
  lemma WrittenRecord(record: seq<Byte>)
    requires NEWLINE !in record
    ensures Lines(record + [NEWLINE]) == [record]
  {
    OneLine(record);
    assert (record + [NEWLINE])[..|record|] == record;
  }

  predicate EndsLine(text: seq<Byte>) { text == [] || text[|text| - 1] == NEWLINE }

  lemma LinesAround(earlier: seq<Byte>, record: seq<Byte>, later: seq<Byte>)
    requires EndsLine(earlier) && NEWLINE !in record
    ensures Lines(earlier + (record + [NEWLINE]) + later) == Lines(earlier) + [record] + Lines(later)
  {
    WrittenRecord(record);
    LinesSplitAtNewline(record + [NEWLINE], later);
    assert earlier + (record + [NEWLINE]) + later == earlier + (record + [NEWLINE] + later);
    if earlier == [] {
      assert [] + (record + [NEWLINE] + later) == record + [NEWLINE] + later;
      assert Lines(earlier) == [];
    } else {
      LinesSplitAtNewline(earlier, record + [NEWLINE] + later);
    }
  }

  /** Behind a newest match only its own route counts, wherever the text before it was cut. */
  lemma NewestMatchDecides(
      read: seq<Byte> -> Entry, repo: string, earlier: seq<Byte>, record: seq<Byte>, later: seq<Byte>)
    requires EndsLine(earlier) && NEWLINE !in record && Matches(read, repo, record)
    requires !AnyMatch(read, repo, Lines(later))
    ensures AnyMatch(read, repo, Lines(earlier + (record + [NEWLINE]) + later))
    ensures Newest(read, repo, Lines(earlier + (record + [NEWLINE]) + later)) == RouteOf(read(record))
  {
    LinesAround(earlier, record, later);
    var before := Lines(earlier) + [record];
    NewestOfConcat(read, repo, before, Lines(later));
    assert before[..|before| - 1] == Lines(earlier);
    assert record in before + Lines(later);
  }

  /** A tail that starts inside the text after the newest match contains no match. */
  lemma NothingLaterMatches(read: seq<Byte> -> Entry, repo: string, later: seq<Byte>, from: nat)
    requires from <= |later| && !AnyMatch(read, repo, Lines(later))
    ensures !AnyMatch(read, repo, Lines(AfterFirstNewline(later[from..])))
  {
    SuffixLinesAreWhole(later, from);
    var skipped :| Lines(later) == skipped + Lines(AfterFirstNewline(later[from..]));
  }

  /** A tail that starts inside the newest match, its first byte included, keeps exactly what follows it. */
  lemma TailInsideRecord(cut: seq<Byte>, later: seq<Byte>)
    requires NEWLINE !in cut
    ensures AfterFirstNewline(cut + [NEWLINE] + later) == later
  {
    var text := cut + [NEWLINE] + later;
    assert text[|cut|] == NEWLINE;
    assert forall k | 0 <= k < |cut| :: text[k] == cut[k] && cut[k] in cut;
    assert FirstNewline(text) == |cut|;
    assert text[|cut| + 1..] == later;
  }

  /** A tail that starts before the newest match drops a part of the earlier text and nothing else. */
  lemma TailBeforeRecord(earlier: seq<Byte>, rest: seq<Byte>)
    requires earlier != [] && EndsLine(earlier)
    ensures exists kept :: EndsLine(kept) && AfterFirstNewline(earlier + rest) == kept + rest
  {
    var at := FirstNewline(earlier);
    var line, kept := earlier[..at], earlier[at + 1..];
    assert earlier == line + [NEWLINE] + kept;
    assert line + [NEWLINE] + kept + rest == line + [NEWLINE] + (kept + rest);
    TailInsideRecord(line, kept + rest);
    assert EndsLine(kept);
  }

  lemma KeptOf(head: seq<Byte>, tail: seq<Byte>)
    requires head != []
    ensures Kept(head + tail, |tail|) == AfterFirstNewline(tail)
  {
    assert (head + tail)[|head|..] == tail;
  }

  /** The tail begins in the text before the newest match. */
  lemma FoundFromBefore(read: seq<Byte> -> Entry, repo: string,
                        head: seq<Byte>, before: seq<Byte>, record: seq<Byte>, later: seq<Byte>)
    requires head != [] && before != [] && EndsLine(before)
    requires NEWLINE !in record && Matches(read, repo, record) && !AnyMatch(read, repo, Lines(later))
    ensures var tail := before + (record + [NEWLINE] + later);
      && Newest(read, repo, Lines(Kept(head + tail, |tail|))) == RouteOf(read(record))
      && AnyMatch(read, repo, Lines(Kept(head + tail, |tail|)))
  {
    var rest := record + [NEWLINE] + later;
    KeptOf(head, before + rest);
    TailBeforeRecord(before, rest);
    var kept :| EndsLine(kept) && AfterFirstNewline(before + rest) == kept + rest;
    assert kept + rest == kept + (record + [NEWLINE]) + later;
    NewestMatchDecides(read, repo, kept, record, later);
  }

  /** The tail begins inside the newest match. */
  lemma MissedFromInside(read: seq<Byte> -> Entry, repo: string, head: seq<Byte>, cut: seq<Byte>, later: seq<Byte>)
    requires head != [] && NEWLINE !in cut && !AnyMatch(read, repo, Lines(later))
    ensures var tail := cut + [NEWLINE] + later; !AnyMatch(read, repo, Lines(Kept(head + tail, |tail|)))
  {
    KeptOf(head, cut + [NEWLINE] + later);
    TailInsideRecord(cut, later);
  }

  /** The tail begins after the newest match. */
  lemma MissedFromAfter(read: seq<Byte> -> Entry, repo: string, head: seq<Byte>, later: seq<Byte>, max: nat)
    requires head != [] && max <= |later| && !AnyMatch(read, repo, Lines(later))
    ensures !AnyMatch(read, repo, Lines(Kept(head + later, max)))
  {
    var from := |later| - max;
    assert head + later == (head + later[..from]) + later[from..];
    KeptOf(head + later[..from], later[from..]);
    NothingLaterMatches(read, repo, later, from);
  }

  lemma KeptContainsMatch(
      read: seq<Byte> -> Entry, repo: string, earlier: seq<Byte>, record: seq<Byte>, later: seq<Byte>, max: nat)
    requires EndsLine(earlier) && NEWLINE !in record && Matches(read, repo, record)
    requires !AnyMatch(read, repo, Lines(later))
    requires |record| + 1 + |later| < max < |earlier| + |record| + 1 + |later|
    ensures var log := earlier + (record + [NEWLINE]) + later;
      && Newest(read, repo, Lines(Kept(log, max))) == RouteOf(read(record))
      && AnyMatch(read, repo, Lines(Kept(log, max)))
  {
    var from := |earlier| + |record| + 1 + |later| - max;
    FoundFromBefore(read, repo, earlier[..from], earlier[from..], record, later);
    SplitEarlier(earlier, from, record, later);
  }

  lemma SplitEarlier(earlier: seq<Byte>, from: nat, record: seq<Byte>, later: seq<Byte>)
    requires from <= |earlier|
    ensures earlier + (record + [NEWLINE]) + later == earlier[..from] + (earlier[from..] + (record + [NEWLINE] + later))
  {
    assert earlier == earlier[..from] + earlier[from..];
  }

  lemma SplitRecord(earlier: seq<Byte>, record: seq<Byte>, from: nat, later: seq<Byte>)
    requires from <= |record|
    ensures earlier + (record + [NEWLINE]) + later == (earlier + record[..from]) + (record[from..] + [NEWLINE] + later)
  {
    assert record == record[..from] + record[from..];
  }

  lemma KeptMissesInside(
      read: seq<Byte> -> Entry, repo: string, earlier: seq<Byte>, record: seq<Byte>, later: seq<Byte>, max: nat)
    requires NEWLINE !in record && !AnyMatch(read, repo, Lines(later))
    requires |later| < max <= |record| + 1 + |later| && max < |earlier| + |record| + 1 + |later|
    ensures !AnyMatch(read, repo, Lines(Kept(earlier + (record + [NEWLINE]) + later, max)))
  {
    var from := |record| + 1 + |later| - max;
    MissedFromInside(read, repo, earlier + record[..from], record[from..], later);
    SplitRecord(earlier, record, from, later);
  }

  lemma KeptMissesMatch(
      read: seq<Byte> -> Entry, repo: string, earlier: seq<Byte>, record: seq<Byte>, later: seq<Byte>, max: nat)
    requires NEWLINE !in record && !AnyMatch(read, repo, Lines(later))
    requires max <= |record| + 1 + |later| && max < |earlier| + |record| + 1 + |later|
    ensures !AnyMatch(read, repo, Lines(Kept(earlier + (record + [NEWLINE]) + later, max)))
  {
    if max <= |later| {
      MissedFromAfter(read, repo, earlier + (record + [NEWLINE]), later, max);
    } else {
      KeptMissesInside(read, repo, earlier, record, later, max);
    }
  }

  lemma {:induction false} NoMatchNoRoute(read: seq<Byte> -> Entry, repo: string, lines: seq<seq<Byte>>)
    requires !AnyMatch(read, repo, lines)
    ensures Newest(read, repo, lines) == None
  {
    if lines != [] { NoMatchNoRoute(read, repo, lines[..|lines| - 1]); }
  }

  /**
   * The newest match of a log, written with its newline and followed by anything that does not match,
   * is found if and only if the log fits or the tail reaches back past the first byte of the match.
   */
  lemma NewestMatchIsFoundExactlyWhen(
      read: seq<Byte> -> Entry, repo: string, earlier: seq<Byte>, record: seq<Byte>, later: seq<Byte>, max: nat)
    requires EndsLine(earlier) && NEWLINE !in record && Matches(read, repo, record)
    requires !AnyMatch(read, repo, Lines(later))
    ensures var log := earlier + (record + [NEWLINE]) + later;
      var found := |log| <= max || |record| + 1 + |later| < max;
      && (AnyMatch(read, repo, Lines(Kept(log, max))) <==> found)
      && Newest(read, repo, Lines(Kept(log, max))) == if found then RouteOf(read(record)) else None
  {
    var log := earlier + (record + [NEWLINE]) + later;
    if |log| <= max {
      NewestMatchDecides(read, repo, earlier, record, later);
    } else if |record| + 1 + |later| < max {
      KeptContainsMatch(read, repo, earlier, record, later, max);
    } else {
      KeptMissesMatch(read, repo, earlier, record, later, max);
      NoMatchNoRoute(read, repo, Lines(Kept(log, max)));
    }
  }

  /**
   * A last record that, with its newline, fills the tail of a longer log exactly is not found, though
   * a full scan finds it.
   */
  lemma BoundaryRecordIsDropped(read: seq<Byte> -> Entry, repo: string, earlier: seq<Byte>, record: seq<Byte>)
    requires earlier != [] && EndsLine(earlier) && NEWLINE !in record && Matches(read, repo, record)
    requires RouteOf(read(record)).Some?
    ensures var log := earlier + (record + [NEWLINE]);
      && Newest(read, repo, Lines(log)) == RouteOf(read(record))
      && Newest(read, repo, Lines(Kept(log, |record| + 1))) == None
  {
    assert earlier + (record + [NEWLINE]) + [] == earlier + (record + [NEWLINE]);
    NewestMatchDecides(read, repo, earlier, record, []);
    NewestMatchIsFoundExactlyWhen(read, repo, earlier, record, [], |record| + 1);
  }

  // ---------- Which line decides ----------

  /** A decision of this repository that is no preview. */
  predicate DecidesFor(entry: Entry, repo: string) {
    match entry
    case Decision(of, preview, _, _) => of == Some(repo) && !preview
    case Other => false
  }

  ghost predicate LastDecisionAt(read: seq<Byte> -> Entry, repo: string, lines: seq<seq<Byte>>, n: nat) {
    && n < |lines| && DecidesFor(read(lines[n]), repo)
    && forall m | n < m < |lines| :: !DecidesFor(read(lines[m]), repo)
  }

  /**
   * The route found is that of the last decision of the repository that is no preview, and none when its
   * family or effort cannot be read, however many older ones could be.
   */
  lemma {:induction false} LastDecisionDecides(read: seq<Byte> -> Entry, repo: string, lines: seq<seq<Byte>>, n: nat)
    requires LastDecisionAt(read, repo, lines, n)
    ensures Newest(read, repo, lines) == match read(lines[n])
      case Decision(_, _, Some(family), Some(effort)) => Some((family, effort))
      case _ => None
  {
    var last := |lines| - 1;
    if n < last {
      assert !DecidesFor(read(lines[last]), repo);
      LastDecisionDecides(read, repo, lines[..last], n);
    }
  }

  lemma {:induction false} NoDecisionDecidesNothing(read: seq<Byte> -> Entry, repo: string, lines: seq<seq<Byte>>)
    requires forall n | 0 <= n < |lines| :: !DecidesFor(read(lines[n]), repo)
    ensures Newest(read, repo, lines) == None
  {
    if lines != [] { NoDecisionDecidesNothing(read, repo, lines[..|lines| - 1]); }
  }
}
