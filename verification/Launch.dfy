/** The argument list of a launch and what a scan of it finds. */
module Launch {
  import opened Types
  import opened Text
  import opened Args
  import opened Capabilities

  datatype Policy = Policy(model: bool, effort: bool, serviceTier: bool)

  datatype Plan = Plan(
    mode: LaunchMode,
    workingDirectory: Argument,
    preset: Preset,
    inherited: seq<Argument>,
    injected: seq<Argument>,
    prompt: Option<Argument>)

  function Place(plan: Plan): seq<Argument> {
    (if plan.mode.Exec? then [Utf8("exec")] else []) + [Utf8("--cd"), plan.workingDirectory]
  }

  function ModelArgs(plan: Plan, policy: Policy): seq<Argument> {
    if policy.model then [Utf8("--model"), Utf8(plan.preset.modelId)] else []
  }

  function ConfigArgs(inject: bool, key: string, value: Option<string>, toml: Toml): seq<Argument> {
    if inject && value.Some? then [Utf8("-c"), Utf8(QuotedConfig(key, value.value, toml))] else []
  }

  /** What cauto itself puts in front of the user's arguments. */
  function Own(plan: Plan, policy: Policy, toml: Toml): seq<Argument> {
    Place(plan)
    + ModelArgs(plan, policy)
    + ConfigArgs(policy.effort, EFFORT_KEY, plan.preset.nativeEffort, toml)
    + ConfigArgs(policy.serviceTier, TIER_KEY, plan.preset.serviceTier, toml)
    + plan.injected
  }

  /** The segments of the command line, in order. */
  function Materialized(plan: Plan, policy: Policy, toml: Toml): seq<Argument> {
    Own(plan, policy, toml) + plan.inherited + (if plan.prompt.Some? then [plan.prompt.value] else [])
  }

  method PushConfig(args: seq<Argument>, inject: bool, key: string, value: Option<string>, toml: Toml)
    returns (extended: seq<Argument>)
    ensures extended == args + ConfigArgs(inject, key, value, toml)
  {
    extended := args;
    if inject && value.Some? {
      extended := extended + [Utf8("-c")];
      extended := extended + [Utf8(QuotedConfig(key, value.value, toml))];
    }
  }

  method MaterializeArgs(plan: Plan, policy: Policy, toml: Toml) returns (args: seq<Argument>)
    ensures args == Materialized(plan, policy, toml)
  {
    args := [];
    if plan.mode.Exec? {
      args := args + [Utf8("exec")];
    }
    args := args + [Utf8("--cd")];
    args := args + [plan.workingDirectory];
    assert args == Place(plan);
    if policy.model {
      args := args + [Utf8("--model")];
      args := args + [Utf8(plan.preset.modelId)];
    }
    assert args == Place(plan) + ModelArgs(plan, policy);
    args := PushConfig(args, policy.effort, EFFORT_KEY, plan.preset.nativeEffort, toml);
    args := PushConfig(args, policy.serviceTier, TIER_KEY, plan.preset.serviceTier, toml);
    args := args + plan.injected;
    args := args + plan.inherited;
    if plan.prompt.Some? {
      args := args + [plan.prompt.value];
    }
  }

  /** `exec` comes first exactly in exec mode, then the directory; the user's arguments and the prompt come last. */
  lemma LaunchLayout(plan: Plan, policy: Policy, toml: Toml)
    ensures var args, at := Materialized(plan, policy, toml), if plan.mode.Exec? then 1 else 0;
      && |args| >= at + 2 && (plan.mode.Exec? ==> args[0] == Utf8("exec"))
      && args[at] == Utf8("--cd") && args[at + 1] == plan.workingDirectory
    ensures plan.prompt.None? ==> EndsWithArgs(Materialized(plan, policy, toml), plan.inherited)
    ensures plan.prompt.Some? ==> EndsWithArgs(Materialized(plan, policy, toml), plan.inherited + [plan.prompt.value])
  {
    var own, place := Own(plan, policy, toml), Place(plan);
    assert place <= own by { PlaceIsFirst(plan, policy, toml); }
    var last := plan.inherited + (if plan.prompt.Some? then [plan.prompt.value] else []);
    assert Materialized(plan, policy, toml) == own + last;
    assert plan.prompt.None? ==> last == plan.inherited;
  }

  lemma PlaceIsFirst(plan: Plan, policy: Policy, toml: Toml)
    ensures Place(plan) <= Own(plan, policy, toml)
  {
  }

  predicate EndsWithArgs(args: seq<Argument>, last: seq<Argument>) {
    |last| <= |args| && args[|args| - |last|..] == last
  }

  // ---------- Scanning the launch back ----------

  /** Only what the user did not already override natively is injected. */
  function DerivedPolicy(native: Overrides, preset: Preset): Policy {
    Policy(native.model.None?, native.effortRaw.None?, native.serviceTier.None? && preset.serviceTier.Some?)
  }

  function InjectedProfile(profile: Option<string>, native: Overrides): seq<Argument> {
    if profile.Some? && native.profile.None? then [Utf8("--profile"), Utf8(profile.value)] else []
  }

  predicate Absolute(path: Argument) {
    path.Utf8? ==> path.text != "" && path.text[0] == '/'
  }

  lemma ScanOne(a: Argument, toml: Toml)
    requires a.Utf8? ==> !TakesValue(a)
    ensures Scan([a], NO_OVERRIDES, toml)
         == Inspected(if a.Raw? then NO_OVERRIDES else InspectSingle(a.text, NO_OVERRIDES, toml))
  {
    assert [a][1..] == [];
  }

  lemma ScanTwo(flag: string, value: Argument, toml: Toml)
    requires TakesValue(Utf8(flag))
    ensures Scan([Utf8(flag), value], NO_OVERRIDES, toml) == Inspected(InspectPair(flag, value, NO_OVERRIDES, toml))
  {
    assert [Utf8(flag), value][2..] == [];
  }

  lemma PathIsNoFlag(path: string)
    requires path != "" && path[0] == '/'
    ensures !TakesValue(Utf8(path))
    ensures !StartsWith(path, "--model=") && !StartsWith(path, "--profile=") && !StartsWith(path, "--config=")
  {
    assert "--model="[0] == '-' && "--profile="[0] == '-' && "--config="[0] == '-';
  }

  /** An absolute path is never taken for an option. */
  lemma PathIsNoOption(path: string, toml: Toml)
    requires path != "" && path[0] == '/'
    ensures InspectSingle(path, NO_OVERRIDES, toml) == NO_OVERRIDES
  {
    PathIsNoFlag(path);
    var parts := SplitOnce(path, '=');
    if parts.Some? {
      assert parts.value.0 == "" || parts.value.0[0] == path[0];
      assert parts.value.0 != MODEL_KEY && parts.value.0 != EFFORT_KEY && parts.value.0 != TIER_KEY;
    }
  }

  lemma WordsAreNoOptions(toml: Toml)
    ensures InspectSingle("exec", NO_OVERRIDES, toml) == NO_OVERRIDES && !TakesValue(Utf8("exec"))
    ensures InspectSingle("--cd", NO_OVERRIDES, toml) == NO_OVERRIDES && !TakesValue(Utf8("--cd"))
  {
    assert '=' !in "exec" && '=' !in "--cd";
  }

  lemma ScanPlace(plan: Plan, toml: Toml)
    requires Absolute(plan.workingDirectory)
    ensures Scan(Place(plan), NO_OVERRIDES, toml) == Inspected(NO_OVERRIDES)
  {
    var exec, cd, directory := [Utf8("exec")], [Utf8("--cd")], [plan.workingDirectory];
    WordsAreNoOptions(toml);
    ScanOne(Utf8("exec"), toml);
    ScanOne(Utf8("--cd"), toml);
    if plan.workingDirectory.Utf8? {
      PathIsNoFlag(plan.workingDirectory.text);
      PathIsNoOption(plan.workingDirectory.text, toml);
    }
    ScanOne(plan.workingDirectory, toml);
    LastWins(cd, directory, toml);
    assert cd + directory == [Utf8("--cd"), plan.workingDirectory];
    LastWins(exec, cd + directory, toml);
    assert [] + [Utf8("--cd"), plan.workingDirectory] == [Utf8("--cd"), plan.workingDirectory];
  }

  /** What scanning one injected config assignment finds. */
  function ConfigFound(inject: bool, key: string, value: Option<string>): Overrides {
    if !inject || value.None? then NO_OVERRIDES
    else if key == EFFORT_KEY then NO_OVERRIDES.(effortRaw := value, effort := ParseLevel(value.value))
    else NO_OVERRIDES.(serviceTier := value)
  }

  lemma ScanConfig(inject: bool, key: string, value: Option<string>, toml: Toml)
    requires toml.RoundTrips() && (key == EFFORT_KEY || key == TIER_KEY)
    ensures Scan(ConfigArgs(inject, key, value, toml), NO_OVERRIDES, toml) == Inspected(ConfigFound(inject, key, value))
  {
    if inject && value.Some? {
      ScanTwo("-c", Utf8(QuotedConfig(key, value.value, toml)), toml);
      QuotedConfigReadsBack(key, value.value, NO_OVERRIDES, toml);
    }
  }

  function ModelFound(plan: Plan, policy: Policy): Overrides {
    if policy.model then NO_OVERRIDES.(model := Some(plan.preset.modelId)) else NO_OVERRIDES
  }

  function ProfileFound(profile: Option<string>, native: Overrides): Overrides {
    if profile.Some? && native.profile.None? then NO_OVERRIDES.(profile := profile) else NO_OVERRIDES
  }

  /** The native override where there is one, otherwise the plan's own choice. */
  function Effective(native: Overrides, preset: Preset, profile: Option<string>): Overrides {
    Overrides(
      Some(if native.model.Some? then native.model.value else preset.modelId),
      if native.effortRaw.Some? then native.effort
      else if preset.nativeEffort.Some? then ParseLevel(preset.nativeEffort.value) else native.effort,
      Later(preset.nativeEffort, native.effortRaw),
      Later(preset.serviceTier, native.serviceTier),
      Later(profile, native.profile))
  }

  /** What scanning cauto's own segments finds. */
  function OwnFound(plan: Plan, policy: Policy, profile: Option<string>, native: Overrides): Overrides {
    Overrides(
      if policy.model then Some(plan.preset.modelId) else None,
      if policy.effort && plan.preset.nativeEffort.Some? then ParseLevel(plan.preset.nativeEffort.value) else None,
      if policy.effort then plan.preset.nativeEffort else None,
      if policy.serviceTier then plan.preset.serviceTier else None,
      if native.profile.None? then profile else None)
  }

  lemma ScanOwn(plan: Plan, policy: Policy, profile: Option<string>, native: Overrides, toml: Toml)
    requires toml.RoundTrips() && Absolute(plan.workingDirectory)
    requires plan.injected == InjectedProfile(profile, native)
    ensures Scan(Own(plan, policy, toml), NO_OVERRIDES, toml) == Inspected(OwnFound(plan, policy, profile, native))
  {
    var model := ModelArgs(plan, policy);
    var effort := ConfigArgs(policy.effort, EFFORT_KEY, plan.preset.nativeEffort, toml);
    var tier := ConfigArgs(policy.serviceTier, TIER_KEY, plan.preset.serviceTier, toml);
    ScanPlace(plan, toml);
    if policy.model { ScanTwo("--model", Utf8(plan.preset.modelId), toml); }
    assert Scan(model, NO_OVERRIDES, toml) == Inspected(ModelFound(plan, policy));
    LastWins(Place(plan), model, toml);
    ScanConfig(policy.effort, EFFORT_KEY, plan.preset.nativeEffort, toml);
    LastWins(Place(plan) + model, effort, toml);
    ScanConfig(policy.serviceTier, TIER_KEY, plan.preset.serviceTier, toml);
    LastWins(Place(plan) + model + effort, tier, toml);
    if plan.injected != [] { ScanTwo("--profile", Utf8(profile.value), toml); }
    assert Scan(plan.injected, NO_OVERRIDES, toml) == Inspected(ProfileFound(profile, native));
    LastWins(Place(plan) + model + effort + tier, plan.injected, toml);
  }

  /** An effort level is only ever read from a raw effort. */
  predicate EffortBacked(o: Overrides) { o.effort.Some? ==> o.effortRaw.Some? }

  lemma PairKeepsBacking(flag: string, value: Argument, o: Overrides, toml: Toml)
    requires EffortBacked(o)
    ensures EffortBacked(InspectPair(flag, value, o, toml))
  {
  }

  lemma SingleKeepsBacking(text: string, o: Overrides, toml: Toml)
    requires EffortBacked(o)
    ensures EffortBacked(InspectSingle(text, o, toml))
  {
  }

  lemma {:induction false} EffortFollowsRaw(args: seq<Argument>, o: Overrides, toml: Toml)
    requires EffortBacked(o)
    ensures var found := Scan(args, o, toml); found.Inspected? ==> EffortBacked(found.overrides)
    decreases |args|
  {
    if args != [] {
      if TakesValue(args[0]) {
        if |args| > 1 {
          PairKeepsBacking(args[0].text, args[1], o, toml);
          EffortFollowsRaw(args[2..], InspectPair(args[0].text, args[1], o, toml), toml);
        }
      } else if args[0].Raw? {
        EffortFollowsRaw(args[1..], o, toml);
      } else {
        SingleKeepsBacking(args[0].text, o, toml);
        EffortFollowsRaw(args[1..], InspectSingle(args[0].text, o, toml), toml);
      }
    }
  }

  /**
   * Scanning the promptless launch arguments under the derived policy yields the native override of
   * each field where one was forwarded and otherwise the plan's model, effort and tier.
   */
  lemma EffectiveOverrides(plan: Plan, native: Overrides, profile: Option<string>, toml: Toml)
    requires toml.RoundTrips() && Absolute(plan.workingDirectory) && plan.prompt.None?
    requires Scan(plan.inherited, NO_OVERRIDES, toml) == Inspected(native)
    requires plan.injected == InjectedProfile(profile, native)
    ensures Scan(Materialized(plan, DerivedPolicy(native, plan.preset), toml), NO_OVERRIDES, toml)
         == Inspected(Effective(native, plan.preset, profile))
  {
    var policy := DerivedPolicy(native, plan.preset);
    var own := Own(plan, policy, toml);
    ScanOwn(plan, policy, profile, native, toml);
    EffortFollowsRaw(plan.inherited, NO_OVERRIDES, toml);
    LastWins(own, plan.inherited, toml);
    assert own + plan.inherited + [] == own + plan.inherited;
  }

  // ---------- Every spelling of an override ----------

  lemma PrefixIsCut(prefix: string, value: string)
    ensures StartsWith(prefix + value, prefix) && (prefix + value)[|prefix|..] == value
  {
  }

  lemma JoinedFormIsSingle(prefix: string, value: string)
    requires prefix in ["--model=", "--profile=", "--config="]
    ensures !TakesValue(Utf8(prefix + value))
    ensures forall other | other in ["--model=", "--profile=", "--config="] && other != prefix ::
      !StartsWith(prefix + value, other)
  {
    var text := prefix + value;
    assert text[..3] == prefix[..3] && text[2] == prefix[2];
    assert '=' in prefix && '=' in text;
    assert "--model="[2] == 'm' && "--profile="[2] == 'p' && "--config="[2] == 'c';
    assert '=' !in "--model" && '=' !in "-m" && '=' !in "--profile" && '=' !in "-p";
    assert '=' !in "--config" && '=' !in "-c";
  }

  lemma ModelIsRead(value: string, toml: Toml)
    ensures var found := Inspected(NO_OVERRIDES.(model := Some(value)));
      && Scan([Utf8("-m"), Utf8(value)], NO_OVERRIDES, toml) == found
      && Scan([Utf8("--model"), Utf8(value)], NO_OVERRIDES, toml) == found
      && Scan([Utf8("--model=" + value)], NO_OVERRIDES, toml) == found
  {
    ScanTwo("-m", Utf8(value), toml);
    ScanTwo("--model", Utf8(value), toml);
    PrefixIsCut("--model=", value);
    JoinedFormIsSingle("--model=", value);
    ScanOne(Utf8("--model=" + value), toml);
  }

  lemma ProfileIsRead(value: string, toml: Toml)
    ensures var found := Inspected(NO_OVERRIDES.(profile := Some(value)));
      && Scan([Utf8("-p"), Utf8(value)], NO_OVERRIDES, toml) == found
      && Scan([Utf8("--profile"), Utf8(value)], NO_OVERRIDES, toml) == found
      && Scan([Utf8("--profile=" + value)], NO_OVERRIDES, toml) == found
  {
    ScanTwo("-p", Utf8(value), toml);
    ScanTwo("--profile", Utf8(value), toml);
    PrefixIsCut("--profile=", value);
    JoinedFormIsSingle("--profile=", value);
    ScanOne(Utf8("--profile=" + value), toml);
  }

  /** A model or profile is found under each of its three spellings. */
  lemma ModelAndProfileAreRead(value: string, toml: Toml)
    ensures forall flag | flag in ["-m", "--model"] ::
      Scan([Utf8(flag), Utf8(value)], NO_OVERRIDES, toml) == Inspected(NO_OVERRIDES.(model := Some(value)))
    ensures forall flag | flag in ["-p", "--profile"] ::
      Scan([Utf8(flag), Utf8(value)], NO_OVERRIDES, toml) == Inspected(NO_OVERRIDES.(profile := Some(value)))
    ensures Scan([Utf8("--model=" + value)], NO_OVERRIDES, toml) == Inspected(NO_OVERRIDES.(model := Some(value)))
    ensures Scan([Utf8("--profile=" + value)], NO_OVERRIDES, toml) == Inspected(NO_OVERRIDES.(profile := Some(value)))
  {
    ModelIsRead(value, toml);
    ProfileIsRead(value, toml);
  }

  /** What an assignment of this key to this value overrides. */
  function AssignedBy(key: string, value: string): Overrides {
    if key == "model" then NO_OVERRIDES.(model := Some(value))
    else if key == "model_reasoning_effort" then NO_OVERRIDES.(effortRaw := Some(value), effort := ParseLevel(value))
    else if key == "service_tier" then NO_OVERRIDES.(serviceTier := Some(value))
    else NO_OVERRIDES
  }

  /** A text that assigns to this key, white space around both sides ignored. */
  lemma AssignmentIsRead(key: string, value: string, toml: Toml)
    requires '=' !in key
    ensures InspectConfig(key + "=" + value, NO_OVERRIDES, toml)
         == AssignedBy(Trim(key, toml.white), toml.scalar(Trim(value, toml.white)))
  {
    SplitOnceAt(key, '=', value);
    assert key + "=" + value == key + ['='] + value;
  }

  lemma ConfigFlagsAreRead(assignment: string, toml: Toml)
    ensures var found := Inspected(InspectConfig(assignment, NO_OVERRIDES, toml));
      && Scan([Utf8("-c"), Utf8(assignment)], NO_OVERRIDES, toml) == found
      && Scan([Utf8("--config"), Utf8(assignment)], NO_OVERRIDES, toml) == found
      && Scan([Utf8("--config=" + assignment)], NO_OVERRIDES, toml) == found
  {
    ScanTwo("-c", Utf8(assignment), toml);
    ScanTwo("--config", Utf8(assignment), toml);
    PrefixIsCut("--config=", assignment);
    JoinedFormIsSingle("--config=", assignment);
    ScanOne(Utf8("--config=" + assignment), toml);
  }

  /** An assignment in a config flag is read under each of its three spellings. */
  lemma AssignmentsAreRead(key: string, value: string, toml: Toml)
    requires '=' !in key
    ensures var found := Inspected(AssignedBy(Trim(key, toml.white), toml.scalar(Trim(value, toml.white))));
      && Scan([Utf8("-c"), Utf8(key + "=" + value)], NO_OVERRIDES, toml) == found
      && Scan([Utf8("--config"), Utf8(key + "=" + value)], NO_OVERRIDES, toml) == found
      && Scan([Utf8("--config=" + (key + "=" + value))], NO_OVERRIDES, toml) == found
  {
    AssignmentIsRead(key, value, toml);
    ConfigFlagsAreRead(key + "=" + value, toml);
  }

  /** A text that does not start with a dash. */
  predicate Bare(text: string) { text == "" || text[0] != '-' }

  lemma BareIsNoFlag(text: string)
    requires Bare(text)
    ensures !TakesValue(Utf8(text))
    ensures !StartsWith(text, "--model=") && !StartsWith(text, "--profile=") && !StartsWith(text, "--config=")
  {
    assert "--model="[0] == '-' && "--profile="[0] == '-' && "--config="[0] == '-';
    assert "--model"[0] == '-' && "-m"[0] == '-' && "--profile"[0] == '-' && "-p"[0] == '-';
    assert "--config"[0] == '-' && "-c"[0] == '-';
  }

  lemma BareIsSplit(text: string, toml: Toml)
    requires Bare(text)
    ensures var parts := SplitOnce(text, '=');
      Scan([Utf8(text)], NO_OVERRIDES, toml)
        == Inspected(if parts.Some? && parts.value.0 in [MODEL_KEY, EFFORT_KEY, TIER_KEY]
                     then InspectConfig(text, NO_OVERRIDES, toml) else NO_OVERRIDES)
  {
    BareIsNoFlag(text);
    ScanOne(Utf8(text), toml);
  }

  /** The three keys are also read as bare assignments. */
  lemma BareAssignmentsAreRead(key: string, value: string, toml: Toml)
    requires key in ["model", "model_reasoning_effort", "service_tier"]
    ensures Scan([Utf8(key + "=" + value)], NO_OVERRIDES, toml)
         == Inspected(AssignedBy(Trim(key, toml.white), toml.scalar(Trim(value, toml.white))))
  {
    assert '=' !in key && key[0] != '-';
    assert (key + "=" + value)[0] == key[0];
    BareIsSplit(key + "=" + value, toml);
    SplitOnceAt(key, '=', value);
    assert key + "=" + value == key + ['='] + value;
    AssignmentIsRead(key, value, toml);
  }

  /** Any other bare text overrides nothing. */
  lemma OtherTextOverridesNothing(text: string, toml: Toml)
    requires Bare(text)
    requires forall key | key in ["model", "model_reasoning_effort", "service_tier"] :: !StartsWith(text, key + "=")
    ensures Scan([Utf8(text)], NO_OVERRIDES, toml) == Inspected(NO_OVERRIDES)
  {
    BareIsSplit(text, toml);
    var parts := SplitOnce(text, '=');
    if parts.Some? {
      var key := parts.value.0;
      assert text[..|key| + 1] == key + "=";
      assert StartsWith(text, key + "=");
    }
  }

  /** A value that is no text is skipped with its flag, and a flag without a value is an error. */
  lemma ValuesAreRequired(flag: string, bytes: seq<int>, toml: Toml)
    requires flag in ["-m", "--model", "-p", "--profile", "-c", "--config"]
    ensures Scan([Utf8(flag), Raw(bytes)], NO_OVERRIDES, toml) == Inspected(NO_OVERRIDES)
    ensures Scan([Utf8(flag)], NO_OVERRIDES, toml) == MissingValue
    ensures Scan([Raw(bytes)], NO_OVERRIDES, toml) == Inspected(NO_OVERRIDES)
  {
    ScanTwo(flag, Raw(bytes), toml);
    ScanOne(Raw(bytes), toml);
  }
}
