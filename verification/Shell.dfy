/** The printed command line and the shell's reading of it. */
module Shell {
  import opened Types

  // ---------- Printing ----------

  const SAFE_PUNCTUATION := "_+-./:=,@"

  predicate SafeChar(c: char) {
    'a' <= c <= 'z' || 'A' <= c <= 'Z' || '0' <= c <= '9' || c in SAFE_PUNCTUATION
  }

  predicate Safe(text: string) {
    text != "" && forall c | c in text :: SafeChar(c)
  }

  /** The text with every single quote replaced by quote, backslash, quote, quote. */
  function Escaped(text: string): string {
    if text == "" then ""
    else (if text[0] == '\'' then "'\\''" else [text[0]]) + Escaped(text[1..])
  }

  function PreviewArg(text: string): string {
    if Safe(text) then text else "'" + Escaped(text) + "'"
  }

  function Joined(words: seq<string>): string {
    if words == [] then ""
    else if |words| == 1 then PreviewArg(words[0])
    else PreviewArg(words[0]) + " " + Joined(words[1..])
  }

  function Preview(program: string, args: seq<string>): string {
    Joined([program] + args)
  }

  // ---------- Reading ----------

  /** Characters that mean something to the shell when they are not quoted. */
  const SPECIAL := "|&;<>()$`\"*?[#~%!{}\n\r"

  predicate Blank(c: char) { c == ' ' || c == '\t' }

  function Extend(word: Option<string>, c: char): Option<string> {
    Some((if word.Some? then word.value else "") + [c])
  }

  /**
   * Cuts a command line into words by the quoting rules of sections 2.2.1 (backslash) and 2.2.2
   * (single quotes) of the Shell Command Language, IEEE Std 1003.1. Lines that would need any other
   * rule (an unquoted special character, an open quote, a trailing backslash) have no reading.
   */
  function Read(s: string, quoted: bool, word: Option<string>): Option<seq<string>>
    decreases |s|
  {
    if s == "" then
      if quoted then None else Some(if word.Some? then [word.value] else [])
    else if quoted then
      if s[0] == '\'' then Read(s[1..], false, word) else Read(s[1..], true, Extend(word, s[0]))
    else if s[0] == '\'' then
      Read(s[1..], true, Some(if word.Some? then word.value else ""))
    else if s[0] == '\\' then
      if |s| == 1 then None
      else if s[1] == '\n' then Read(s[2..], false, word)
      else Read(s[2..], false, Extend(word, s[1]))
    else if Blank(s[0]) then
      match Read(s[1..], false, None)
      case None => None
      case Some(rest) => Some(if word.Some? then [word.value] + rest else rest)
    else if s[0] in SPECIAL then None
    else Read(s[1..], false, Extend(word, s[0]))
  }

  function ShellWords(line: string): Option<seq<string>> {
    Read(line, false, None)
  }

  // ---------- Printing then reading ----------

  function Text(word: Option<string>): string { if word.Some? then word.value else "" }

  lemma SafeIsOrdinary(c: char)
    requires SafeChar(c)
    ensures c !in SPECIAL && !Blank(c) && c != '\'' && c != '\\'
  {
  }

  lemma {:induction false} ReadSafe(text: string, rest: string, word: Option<string>)
    requires text != "" && forall c | c in text :: SafeChar(c)
    ensures Read(text + rest, false, word) == Read(rest, false, Some(Text(word) + text))
    decreases |text|
  {
    var c, line := text[0], text + rest;
    assert c in text;
    SafeIsOrdinary(c);
    assert line[0] == c && line[1..] == text[1..] + rest;
    assert Read(line, false, word) == Read(text[1..] + rest, false, Extend(word, c));
    if |text| == 1 {
      assert text[1..] + rest == rest && text == [c];
    } else {
      ReadSafe(text[1..], rest, Extend(word, c));
      assert Text(word) + [c] + text[1..] == Text(word) + text;
    }
  }

  /** The four characters printed for a single quote close the quote, add it, and open the quote again. */
  lemma ReadEscapedQuote(more: string, word: string)
    ensures Read("'\\''" + more, true, Some(word)) == Read(more, true, Some(word + "'"))
  {
    var s := "'\\''" + more;
    assert s[1..] == "\\''" + more;
    assert s[1..][2..] == "'" + more;
    assert ("'" + more)[1..] == more;
    assert Read(s, true, Some(word)) == Read(s[1..], false, Some(word));
    assert Read(s[1..], false, Some(word)) == Read("'" + more, false, Some(word + "'"));
  }

  lemma {:induction false} ReadEscaped(text: string, rest: string, word: string)
    ensures Read(Escaped(text) + ("'" + rest), true, Some(word)) == Read(rest, false, Some(word + text))
    decreases |text|
  {
    var tail := "'" + rest;
    if text == "" {
      assert Escaped(text) + tail == tail && tail[1..] == rest;
      assert word + text == word;
    } else {
      var c, more := text[0], Escaped(text[1..]) + tail;
      ReadEscaped(text[1..], rest, word + [c]);
      assert word + [c] + text[1..] == word + text;
      if c == '\'' {
        assert Escaped(text) + tail == "'\\''" + more;
        ReadEscapedQuote(more, word);
      } else {
        var line := Escaped(text) + tail;
        assert line[0] == c && line[1..] == more;
      }
    }
  }

  /** One printed argument reads back as exactly that argument. */
  lemma ReadArgument(text: string, rest: string)
    ensures Read(PreviewArg(text) + rest, false, None) == Read(rest, false, Some(text))
  {
    if Safe(text) {
      ReadSafe(text, rest, None);
      assert "" + text == text;
    } else {
      ReadEscaped(text, rest, "");
      var body := Escaped(text) + ("'" + rest);
      assert PreviewArg(text) + rest == "'" + body;
      assert ("'" + body)[1..] == body;
      assert "" + text == text;
    }
  }

  lemma {:induction false} ReadJoined(words: seq<string>)
    ensures ShellWords(Joined(words)) == Some(words)
  {
    if |words| == 1 {
      ReadArgument(words[0], "");
      assert PreviewArg(words[0]) + "" == PreviewArg(words[0]);
      assert words == [words[0]];
    } else if words != [] {
      var rest := " " + Joined(words[1..]);
      ReadArgument(words[0], rest);
      assert PreviewArg(words[0]) + " " + Joined(words[1..]) == PreviewArg(words[0]) + rest;
      assert rest[1..] == Joined(words[1..]);
      ReadJoined(words[1..]);
      assert words == [words[0]] + words[1..];
    }
  }

  /** For every program and argument list, the shell reads the preview back as exactly those words. */
  lemma PreviewReadsBack(program: string, args: seq<string>)
    ensures ShellWords(Preview(program, args)) == Some([program] + args)
  {
    ReadJoined([program] + args);
  }
}
