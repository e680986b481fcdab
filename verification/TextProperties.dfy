/** What the text helpers mean, told without the recursions that compute them. */
module TextProperties {
  import opened Types
  import opened Text

  // ---------- Trimming ----------

  ghost predicate AllDropped(s: string, drop: char -> bool) { forall c | c in s :: drop(c) }

  /** Nothing to trim at either end. */
  predicate KeepsEnds(s: string, drop: char -> bool) { s != "" ==> !drop(s[0]) && !drop(s[|s| - 1]) }

  lemma {:induction false} TrimStartSkips(before: string, s: string, drop: char -> bool)
    requires AllDropped(before, drop) && (s != "" ==> !drop(s[0]))
    ensures TrimStart(before + s, drop) == s
  {
    if before == "" {
      assert before + s == s;
    } else {
      assert before[0] in before;
      assert (before + s)[1..] == before[1..] + s;
      assert AllDropped(before[1..], drop);
      TrimStartSkips(before[1..], s, drop);
    }
  }

  lemma {:induction false} TrimEndSkips(s: string, after: string, drop: char -> bool)
    requires AllDropped(after, drop) && (s != "" ==> !drop(s[|s| - 1]))
    ensures TrimEnd(s + after, drop) == s
    decreases |after|
  {
    if after == "" {
      assert s + after == s;
    } else {
      var front, last := after[..|after| - 1], after[|after| - 1];
      assert last in after;
      assert (s + after)[..|s + after| - 1] == s + front;
      assert AllDropped(front, drop);
      TrimEndSkips(s, front, drop);
    }
  }

  /** Trimming takes away exactly the characters to drop at both ends. */
  lemma TrimTakesBothEnds(before: string, s: string, after: string, drop: char -> bool)
    requires AllDropped(before, drop) && AllDropped(after, drop) && KeepsEnds(s, drop)
    ensures Trim(before + s + after, drop) == s
  {
    if s == "" {
      assert before + s + after == before + after + "";
      assert AllDropped(before + after, drop);
      TrimStartSkips(before + after, "", drop);
    } else {
      assert before + s + after == before + (s + after);
      TrimStartSkips(before, s + after, drop);
      TrimEndSkips(s, after, drop);
    }
  }

  lemma {:induction false} TrimmedKeepsEnds(s: string, drop: char -> bool)
    ensures KeepsEnds(Trim(s, drop), drop)
  {
    StartIsKept(s, drop);
    EndIsKept(TrimStart(s, drop), drop);
  }

  lemma {:induction false} StartIsKept(s: string, drop: char -> bool)
    ensures TrimStart(s, drop) != "" ==> !drop(TrimStart(s, drop)[0])
  {
    if s != "" && drop(s[0]) { StartIsKept(s[1..], drop); }
  }

  lemma {:induction false} EndIsKept(s: string, drop: char -> bool)
    ensures TrimEnd(s, drop) <= s
    ensures TrimEnd(s, drop) != "" ==> !drop(TrimEnd(s, drop)[|TrimEnd(s, drop)| - 1])
  {
    if s != "" && drop(s[|s| - 1]) { EndIsKept(s[..|s| - 1], drop); }
  }

  // ---------- Lengths ----------

  lemma {:induction false} BytesAddUp(s: string, t: string)
    ensures Utf8Length(s + t) == Utf8Length(s) + Utf8Length(t)
  {
    if s == "" {
      assert s + t == t;
    } else {
      assert (s + t)[1..] == s[1..] + t;
      BytesAddUp(s[1..], t);
    }
  }

  /** A character takes one byte more from U+0080, U+0800 and U+10000 on. */
  lemma BytesOfCharacter(c: char)
    ensures var bytes, code := Utf8Length([c]), c as int;
      && 1 <= bytes <= 4
      && (bytes >= 2 <==> code >= 0x80) && (bytes >= 3 <==> code >= 0x800) && (bytes == 4 <==> code >= 0x10000)
  {
    assert [c][1..] == "";
  }

  // ---------- Words ----------

  /** The characters from `from` to `to` are a whole word: all of them accepted and neither neighbour. */
  predicate WholeWord(text: string, from: nat, to: nat, keep: char -> bool) {
    && from <= to <= |text|
    && (forall i | from <= i < to :: keep(text[i]))
    && (from > 0 ==> !keep(text[from - 1]))
    && (to < |text| ==> !keep(text[to]))
  }

  /** Where a word lies in the text, given where it lies in the rest after the first character. */
  lemma WordBehindFirst(text: string, from: nat, to: nat, keep: char -> bool)
    requires text != "" && WholeWord(text[1..], from, to, keep) && (from == 0 ==> !keep(text[0]))
    ensures WholeWord(text, from + 1, to + 1, keep) && text[from + 1..to + 1] == text[1..][from..to]
  {
    var rest := text[1..];
    assert text == [text[0]] + rest;
    forall i | from + 1 <= i < to + 1 ensures keep(text[i]) { assert text[i] == rest[i - 1]; }
    assert from > 0 ==> text[from] == rest[from - 1];
    assert to < |rest| ==> text[to + 1] == rest[to];
    assert text[from + 1..to + 1] == rest[from..to];
  }

  lemma WordInRest(text: string, from: nat, to: nat, keep: char -> bool)
    requires 0 < from && WholeWord(text, from, to, keep)
    ensures WholeWord(text[1..], from - 1, to - 1, keep) && text[1..][from - 1..to - 1] == text[from..to]
  {
    forall i | from - 1 <= i < to - 1 ensures keep(text[1..][i]) { assert text[1..][i] == text[i + 1]; }
    if from > 1 { assert text[1..][from - 2] == text[from - 1]; }
    if to < |text| { assert text[1..][to - 1] == text[to]; }
  }

  lemma FirstWordInRest(text: string, to: nat, keep: char -> bool)
    requires 0 < to && WholeWord(text, 0, to, keep)
    ensures WholeWord(text[1..], 0, to - 1, keep) && text[0..to] == [text[0]] + text[1..][0..to - 1]
  {
    var rest := text[1..];
    assert text == [text[0]] + rest;
    forall i | 0 <= i < to - 1 ensures keep(rest[i]) { assert rest[i] == text[i + 1]; }
    assert to < |text| ==> rest[to - 1] == text[to];
    assert text[0..to] == [text[0]] + rest[0..to - 1];
  }

  /** Every part of a split text is a whole word of it, and only the first part starts at its beginning. */
  lemma {:induction false} PartIsWord(text: string, n: nat, keep: char -> bool) returns (from: nat, to: nat)
    requires n < |Split(text, keep)|
    ensures WholeWord(text, from, to, keep) && text[from..to] == Split(text, keep)[n] && (from == 0 <==> n == 0)
  {
    if text == "" {
      from, to := 0, 0;
    } else if !keep(text[0]) {
      if n == 0 {
        from, to := 0, 0;
      } else {
        var f, t := PartIsWord(text[1..], n - 1, keep);
        WordBehindFirst(text, f, t, keep);
        from, to := f + 1, t + 1;
      }
    } else {
      var f, t := PartIsWord(text[1..], n, keep);
      if n == 0 {
        from, to := 0, t + 1;
        assert text[..t + 1] == [text[0]] + text[1..][0..t];
        assert WholeWord(text, 0, t + 1, keep) by {
          forall i | 0 <= i < t + 1 ensures keep(text[i]) { if i > 0 { assert text[i] == text[1..][i - 1]; } }
          if t + 1 < |text| { assert text[t + 1] == text[1..][t]; }
        }
      } else {
        WordBehindFirst(text, f, t, keep);
        from, to := f + 1, t + 1;
      }
    }
  }

  /** Every whole word is a part of the split text; the one at the beginning is the first part. */
  lemma {:induction false} WordIsPart(text: string, from: nat, to: nat, keep: char -> bool) returns (n: nat)
    requires WholeWord(text, from, to, keep)
    ensures n < |Split(text, keep)| && Split(text, keep)[n] == text[from..to] && (from == 0 <==> n == 0)
    decreases |text|
  {
    if text == "" {
      n := 0;
    } else if from > 0 {
      WordInRest(text, from, to, keep);
      var m := WordIsPart(text[1..], from - 1, to - 1, keep);
      n := if keep(text[0]) then m else m + 1;
    } else if to == 0 {
      n := 0;
    } else {
      FirstWordInRest(text, to, keep);
      var m := WordIsPart(text[1..], 0, to - 1, keep);
      n := 0;
    }
  }

  /** The characters of a word: alphanumeric ones and both apostrophes. */
  predicate InWord(c: char, alphanumeric: char -> bool) { alphanumeric(c) || c in "'\U{2019}" }

  /** A needle stands at this place as a whole word. */
  predicate StandsAt(text: string, needle: string, from: nat, alphanumeric: char -> bool) {
    && OccursAt(text, needle, from)
    && (forall c | c in needle :: InWord(c, alphanumeric))
    && (from > 0 ==> !InWord(text[from - 1], alphanumeric))
    && (from + |needle| < |text| ==> !InWord(text[from + |needle|], alphanumeric))
  }

  lemma StandingIsWhole(text: string, needle: string, from: nat, alphanumeric: char -> bool)
    ensures StandsAt(text, needle, from, alphanumeric)
       <==> WholeWord(text, from, from + |needle|, WordChar(alphanumeric)) && text[from..from + |needle|] == needle
  {
    var keep, to := WordChar(alphanumeric), from + |needle|;
    assert forall c :: keep(c) == InWord(c, alphanumeric);
    if to <= |text| && text[from..to] == needle {
      assert forall i | from <= i < to :: text[i] == needle[i - from];
      assert forall i | 0 <= i < |needle| :: needle[i] == text[from + i];
    }
  }

  /** A word of the list is found if and only if it stands somewhere in the text with no word character next to it. */
  lemma WordIsFoundExactlyWhen(text: string, needles: seq<string>, alphanumeric: char -> bool)
    ensures ContainsWord(text, needles, alphanumeric)
       <==> exists needle, from: nat :: needle in needles && StandsAt(text, needle, from, alphanumeric)
  {
    var keep := WordChar(alphanumeric);
    if ContainsWord(text, needles, alphanumeric) {
      var word :| word in Split(text, keep) && word in needles;
      var n :| 0 <= n < |Split(text, keep)| && Split(text, keep)[n] == word;
      var from, to := PartIsWord(text, n, keep);
      StandingIsWhole(text, word, from, alphanumeric);
    }
    if needle, from: nat :| needle in needles && StandsAt(text, needle, from, alphanumeric) {
      StandingIsWhole(text, needle, from, alphanumeric);
      var n := WordIsPart(text, from, from + |needle|, keep);
      assert needle in Split(text, keep);
    }
  }

  // ---------- Names ----------

  /** The same letter up to case; spaces, hyphens and underscores are one. */
  predicate SameLetter(a: char, b: char) { AsciiLowerChar(a) == AsciiLowerChar(b) || (a in " -_" && b in " -_") }

  /** Spelling a level with other case or other separators makes no difference. */
  lemma SpellingIsLoose(s: string, t: string)
    requires |s| == |t| && forall i | 0 <= i < |s| :: SameLetter(s[i], t[i])
    ensures ParseLevel(s) == ParseLevel(t)
  {
    forall i | 0 <= i < |s| ensures LevelText(s)[i] == LevelText(t)[i] {
      assert SameLetter(s[i], t[i]);
    }
    assert LevelText(s) == LevelText(t);
  }

  /** The two levels with a second name, and a text that names none. */
  lemma SecondNames()
    ensures ParseLevel("light") == Some(Low) && ParseLevel("Extra High") == Some(ExtraHigh)
    ensures ParseLevel("extra-high") == Some(ExtraHigh) && ParseLevel("") == None && ParseLevel("very high") == None
  {
    LevelTextFixed("light");
    LevelTextFixed("extra_high");
    SpellingIsLoose("Extra High", "extra_high");
    SpellingIsLoose("extra-high", "extra_high");
    LevelTextFixed("very_high");
    SpellingIsLoose("very high", "very_high");
  }

  /** A model belongs to the first of the three families its name mentions in any case, otherwise to one of its own. */
  lemma FamilyIsNamed(model: string)
    ensures var family, lower := FamilyOf(model), AsciiLower(model);
      && (family == Luna <==> Contains(lower, "luna"))
      && (family == Terra <==> Contains(lower, "terra") && !Contains(lower, "luna"))
      && (family == Sol <==> Contains(lower, "sol") && !Contains(lower, "terra") && !Contains(lower, "luna"))
      && (family.Other? ==> family == Other(model))
  {
  }
}
