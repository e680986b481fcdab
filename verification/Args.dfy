/** Inspection of forwarded native arguments for overrides of model, effort, tier and profile. */
module Args {
  import opened Types
  import opened Text

  /** An operating-system argument; only UTF-8 text is inspected. */
  datatype Argument = Utf8(text: string) | Raw(bytes: seq<int>)

  datatype Overrides = Overrides(
    model: Option<string>,
    effort: Option<ReasoningLevel>,
    effortRaw: Option<string>,
    serviceTier: Option<string>,
    profile: Option<string>)

  const NO_OVERRIDES := Overrides(None, None, None, None, None)

  /** The scan fails only on a flag whose value is missing. */
  datatype Inspection = Inspected(overrides: Overrides) | MissingValue

  /**
   * The TOML reader and printer of config values, left abstract. `scalar` reads the trimmed text
   * after `=`; `quote` prints a string value; `white` is the class of characters trimmed away.
   */
  datatype Toml = Toml(scalar: string -> string, quote: string -> string, white: char -> bool) {
    /** Printed strings read back unchanged, and option names hold no white space. */
    ghost predicate RoundTrips() {
      && (forall v: string :: scalar(Trim(quote(v), white)) == v)
      && (forall c | 'a' <= c <= 'z' || c == '_' :: !white(c))
    }
  }

  const MODEL_KEY := "model"
  const EFFORT_KEY := "model_reasoning_effort"
  const TIER_KEY := "service_tier"

  function InspectConfig(assignment: string, o: Overrides, toml: Toml): Overrides {
    match SplitOnce(assignment, '=')
    case None => o
    case Some((rawKey, rawValue)) =>
      var key := Trim(rawKey, toml.white);
      var value := toml.scalar(Trim(rawValue, toml.white));
      if key == MODEL_KEY then o.(model := Some(value))
      else if key == EFFORT_KEY then o.(effortRaw := Some(value), effort := ParseLevel(value))
      else if key == TIER_KEY then o.(serviceTier := Some(value))
      else o
  }

  predicate ModelFlag(text: string) { text == "--model" || text == "-m" }

  predicate ProfileFlag(text: string) { text == "--profile" || text == "-p" }

  predicate ConfigFlag(text: string) { text == "--config" || text == "-c" }

  /** A flag that takes the following argument as its value. */
  predicate TakesValue(a: Argument) {
    a.Utf8? && (ModelFlag(a.text) || ProfileFlag(a.text) || ConfigFlag(a.text))
  }

  function InspectPair(flag: string, value: Argument, o: Overrides, toml: Toml): Overrides {
    if value.Raw? then o
    else if ModelFlag(flag) then o.(model := Some(value.text))
    else if ProfileFlag(flag) then o.(profile := Some(value.text))
    else InspectConfig(value.text, o, toml)
  }

  /** A single argument in one of the `flag=value` forms. */
  function InspectSingle(text: string, o: Overrides, toml: Toml): Overrides {
    if StartsWith(text, "--model=") then o.(model := Some(text[|"--model="|..]))
    else if StartsWith(text, "--profile=") then o.(profile := Some(text[|"--profile="|..]))
    else if StartsWith(text, "--config=") then InspectConfig(text[|"--config="|..], o, toml)
    else
      var parts := SplitOnce(text, '=');
      if parts.Some? && parts.value.0 in [MODEL_KEY, EFFORT_KEY, TIER_KEY] then InspectConfig(text, o, toml) else o
  }

  /** What a left-to-right reading of the arguments adds to the overrides found so far. */
  function Scan(args: seq<Argument>, o: Overrides, toml: Toml): Inspection
    decreases |args|
  {
    if args == [] then Inspected(o)
    else if TakesValue(args[0]) then
      if |args| == 1 then MissingValue else Scan(args[2..], InspectPair(args[0].text, args[1], o, toml), toml)
    else if args[0].Raw? then Scan(args[1..], o, toml)
    else Scan(args[1..], InspectSingle(args[0].text, o, toml), toml)
  }

  /** The index loop of the program. */
  method InspectForwarded(args: seq<Argument>, toml: Toml) returns (r: Inspection)
    ensures r == Scan(args, NO_OVERRIDES, toml)
  {
    var overrides, index := NO_OVERRIDES, 0;
    while index < |args|
      invariant 0 <= index <= |args|
      invariant Scan(args[index..], overrides, toml) == Scan(args, NO_OVERRIDES, toml)
    {
      if args[index].Raw? {
        index := index + 1;
        continue;
      }
      var text := args[index].text;
      if ModelFlag(text) || ProfileFlag(text) || ConfigFlag(text) {
        if index + 1 == |args| {
          return MissingValue;
        }
        overrides := InspectPair(text, args[index + 1], overrides, toml);
        assert args[index..][2..] == args[index + 2..];
        index := index + 2;
        continue;
      }
      overrides := InspectSingle(text, overrides, toml);
      index := index + 1;
    }
    r := Inspected(overrides);
  }

  // ---------- Last one wins ----------

  function Later<T>(earlier: Option<T>, newer: Option<T>): Option<T> {
    if newer.Some? then newer else earlier
  }

  /** Field by field the newer value, where there is one; the parsed effort follows the raw effort. */
  function Merge(earlier: Overrides, newer: Overrides): Overrides {
    Overrides(
      Later(earlier.model, newer.model),
      if newer.effortRaw.Some? then newer.effort else earlier.effort,
      Later(earlier.effortRaw, newer.effortRaw),
      Later(earlier.serviceTier, newer.serviceTier),
      Later(earlier.profile, newer.profile))
  }

  lemma MergeAssociates(a: Overrides, b: Overrides, c: Overrides)
    ensures Merge(Merge(a, b), c) == Merge(a, Merge(b, c))
  {
  }

  lemma ConfigMerges(assignment: string, o: Overrides, toml: Toml)
    ensures InspectConfig(assignment, o, toml) == Merge(o, InspectConfig(assignment, NO_OVERRIDES, toml))
  {
  }

  lemma PairMerges(flag: string, value: Argument, o: Overrides, toml: Toml)
    ensures InspectPair(flag, value, o, toml) == Merge(o, InspectPair(flag, value, NO_OVERRIDES, toml))
  {
    if value.Utf8? { ConfigMerges(value.text, o, toml); }
  }

  lemma SingleMerges(text: string, o: Overrides, toml: Toml)
    ensures InspectSingle(text, o, toml) == Merge(o, InspectSingle(text, NO_OVERRIDES, toml))
  {
    if StartsWith(text, "--config=") {
      ConfigMerges(text[|"--config="|..], o, toml);
    } else {
      ConfigMerges(text, o, toml);
    }
  }

  /** Scanning on top of earlier overrides is scanning afresh and merging. */
  lemma {:induction false} ScanMerges(args: seq<Argument>, o: Overrides, toml: Toml)
    ensures Scan(args, o, toml)
         == match Scan(args, NO_OVERRIDES, toml)
            case Inspected(newer) => Inspected(Merge(o, newer))
            case MissingValue => MissingValue
    decreases |args|, 0
  {
    if args != [] {
      if TakesValue(args[0]) {
        if |args| > 1 {
          StepMerges(args[2..], o, InspectPair(args[0].text, args[1], NO_OVERRIDES, toml), toml);
          PairMerges(args[0].text, args[1], o, toml);
        }
      } else if args[0].Utf8? {
        StepMerges(args[1..], o, InspectSingle(args[0].text, NO_OVERRIDES, toml), toml);
        SingleMerges(args[0].text, o, toml);
      } else {
        ScanMerges(args[1..], o, toml);
      }
    }
  }

  lemma {:induction false} StepMerges(rest: seq<Argument>, o: Overrides, step: Overrides, toml: Toml)
    ensures Scan(rest, Merge(o, step), toml)
         == match Scan(rest, step, toml)
            case Inspected(newer) => Inspected(Merge(o, newer))
            case MissingValue => MissingValue
    decreases |rest|, 1
  {
    ScanMerges(rest, Merge(o, step), toml);
    ScanMerges(rest, step, toml);
    if Scan(rest, NO_OVERRIDES, toml).Inspected? {
      MergeAssociates(o, step, Scan(rest, NO_OVERRIDES, toml).overrides);
    }
  }

  /** Two argument lists scan one after the other when the first one ends on a flag boundary. */
  lemma {:induction false} ScanConcatenates(xs: seq<Argument>, ys: seq<Argument>, o: Overrides, toml: Toml)
    requires Scan(xs, o, toml).Inspected?
    ensures Scan(xs + ys, o, toml) == Scan(ys, Scan(xs, o, toml).overrides, toml)
    decreases |xs|
  {
    if xs == [] {
      assert xs + ys == ys;
    } else if TakesValue(xs[0]) {
      assert (xs + ys)[2..] == xs[2..] + ys;
      ScanConcatenates(xs[2..], ys, InspectPair(xs[0].text, xs[1], o, toml), toml);
    } else {
      assert (xs + ys)[1..] == xs[1..] + ys;
      ScanConcatenates(xs[1..], ys, if xs[0].Raw? then o else InspectSingle(xs[0].text, o, toml), toml);
    }
  }

  /** Fieldwise last-wins over a concatenation whose first part ends on its boundary. */
  lemma LastWins(xs: seq<Argument>, ys: seq<Argument>, toml: Toml)
    requires Scan(xs, NO_OVERRIDES, toml).Inspected? && Scan(ys, NO_OVERRIDES, toml).Inspected?
    ensures Scan(xs + ys, NO_OVERRIDES, toml)
         == Inspected(Merge(Scan(xs, NO_OVERRIDES, toml).overrides, Scan(ys, NO_OVERRIDES, toml).overrides))
  {
    ScanConcatenates(xs, ys, NO_OVERRIDES, toml);
    ScanMerges(ys, Scan(xs, NO_OVERRIDES, toml).overrides, toml);
  }

  // ---------- Printing a config assignment ----------

  function QuotedConfig(key: string, value: string, toml: Toml): string {
    key + "=" + toml.quote(value)
  }

  lemma {:induction false} TrimKeeps(s: string, drop: char -> bool)
    requires s != "" ==> !drop(s[0]) && !drop(s[|s| - 1])
    ensures Trim(s, drop) == s
  {
  }

  /** A printed assignment is read back as exactly the value it was printed from. */
  lemma QuotedConfigReadsBack(key: string, value: string, o: Overrides, toml: Toml)
    requires toml.RoundTrips()
    requires key == EFFORT_KEY || key == TIER_KEY
    ensures InspectConfig(QuotedConfig(key, value, toml), o, toml)
         == if key == EFFORT_KEY then o.(effortRaw := Some(value), effort := ParseLevel(value))
            else o.(serviceTier := Some(value))
  {
    SplitOnceAt(key, '=', toml.quote(value));
    assert QuotedConfig(key, value, toml) == key + ['='] + toml.quote(value);
    TrimKeeps(key, toml.white);
  }
}
