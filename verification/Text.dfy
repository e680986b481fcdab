/** String matching used by the feature stages and the argument scanner. */
module Text {
  import opened Types

  predicate OccursAt(haystack: string, needle: string, at: nat) {
    at + |needle| <= |haystack| && haystack[at..at + |needle|] == needle
  }

  predicate Contains(haystack: string, needle: string) {
    exists at: nat | at <= |haystack| :: OccursAt(haystack, needle, at)
  }

  predicate ContainsAny(haystack: string, needles: seq<string>) {
    exists needle | needle in needles :: Contains(haystack, needle)
  }

  /** The maximal runs of characters that `keep` accepts, empty runs included. */
  function Split(s: string, keep: char -> bool): (words: seq<string>)
    ensures |words| > 0
  {
    if s == "" then [""]
    else
      var rest := Split(s[1..], keep);
      if keep(s[0]) then [[s[0]] + rest[0]] + rest[1..] else [""] + rest
  }

  /** Some word of the text, cut at every character that is not part of a word, is a needle. */
  predicate ContainsWord(haystack: string, needles: seq<string>, alphanumeric: char -> bool) {
    exists word | word in Split(haystack, WordChar(alphanumeric)) :: word in needles
  }

  function WordChar(alphanumeric: char -> bool): char -> bool {
    c => alphanumeric(c) || c == '\'' || c == '\U{2019}'
  }

  /** Number of bytes of a text in UTF-8. */
  function Utf8Length(s: string): nat {
    if s == "" then 0
    else (if s[0] < '\U{0080}' then 1 else if s[0] < '\U{0800}' then 2 else if s[0] < '\U{10000}' then 3 else 4)
         + Utf8Length(s[1..])
  }

  function TrimStart(s: string, drop: char -> bool): string {
    if s != "" && drop(s[0]) then TrimStart(s[1..], drop) else s
  }

  function TrimEnd(s: string, drop: char -> bool): string {
    if s != "" && drop(s[|s| - 1]) then TrimEnd(s[..|s| - 1], drop) else s
  }

  function Trim(s: string, drop: char -> bool): string {
    TrimEnd(TrimStart(s, drop), drop)
  }

  predicate StartsWith(s: string, prefix: string) {
    |prefix| <= |s| && s[..|prefix|] == prefix
  }

  predicate EndsWith(s: string, suffix: string) {
    |suffix| <= |s| && s[|s| - |suffix|..] == suffix
  }

  /** The text before and after the first occurrence of a separator. */
  function SplitOnce(s: string, separator: char): (parts: Option<(string, string)>)
    ensures parts.None? <==> separator !in s
    ensures parts.Some? ==> s == parts.value.0 + [separator] + parts.value.1 && separator !in parts.value.0
  {
    if s == "" then None
    else if s[0] == separator then Some(("", s[1..]))
    else
      match SplitOnce(s[1..], separator)
      case None => None
      case Some((before, after)) => Some(([s[0]] + before, after))
  }

  /** The parts of `before=after` where the separator does not occur in `before`. */
  lemma {:induction false} SplitOnceAt(before: string, separator: char, after: string)
    requires separator !in before
    ensures SplitOnce(before + [separator] + after, separator) == Some((before, after))
  {
    var s := before + [separator] + after;
    if before == "" {
      assert s[1..] == after;
    } else {
      SplitOnceAt(before[1..], separator, after);
      assert s[1..] == before[1..] + [separator] + after;
      assert before == [before[0]] + before[1..];
    }
  }

  function AsciiLowerChar(c: char): char {
    if 'A' <= c <= 'Z' then (c as int + 32) as char else c
  }

  function AsciiLower(s: string): (r: string)
    ensures |r| == |s|
    ensures forall i | 0 <= i < |s| :: r[i] == AsciiLowerChar(s[i])
  {
    seq(|s|, i requires 0 <= i < |s| => AsciiLowerChar(s[i]))
  }

  /** Parses a reasoning level: case-insensitive, with spaces and hyphens read as underscores. */
  function ParseLevel(s: string): Option<ReasoningLevel> {
    var t := LevelText(s);
    if t == "minimal" then Some(Minimal)
    else if t == "low" || t == "light" then Some(Low)
    else if t == "medium" then Some(Medium)
    else if t == "high" then Some(High)
    else if t == "xhigh" || t == "extra_high" then Some(ExtraHigh)
    else if t == "max" then Some(Max)
    else if t == "ultra" then Some(Ultra)
    else None
  }

  function LevelText(s: string): (r: string)
    ensures |r| == |s|
    ensures forall i | 0 <= i < |s| :: r[i] == LevelChar(s[i])
  {
    seq(|s|, i requires 0 <= i < |s| => LevelChar(s[i]))
  }

  function LevelChar(c: char): char {
    if c == ' ' || c == '-' then '_' else AsciiLowerChar(c)
  }

  lemma LevelTextFixed(s: string)
    requires forall i | 0 <= i < |s| :: LevelChar(s[i]) == s[i]
    ensures LevelText(s) == s
  {
  }

  /** Every native name reads back as the level that printed it. */
  lemma NativeNameRoundTrip(level: ReasoningLevel)
    ensures ParseLevel(level.NativeName()) == Some(level)
  {
    LevelTextFixed(level.NativeName());
  }

  /** Infers the family from a model identifier; the first family name it mentions wins in this order. */
  function FamilyOf(model: string): ModelFamily {
    var lower := AsciiLower(model);
    if Contains(lower, "luna") then Luna
    else if Contains(lower, "terra") then Terra
    else if Contains(lower, "sol") then Sol
    else Other(model)
  }
}
