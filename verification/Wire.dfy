/** Reading an explicit route from turn parameters and writing a route into them. */
module Wire {
  import opened Types
  import opened Text
  import opened Json

  datatype ExplicitRoute = ExplicitRoute(model: Option<string>, effort: Option<ReasoningLevel>)

  function SettingsOf(params: Value): Option<Value> {
    GetIn(Get(params, CollaborationMode), Settings)
  }

  function ParseText(text: Option<string>): Option<ReasoningLevel> {
    if text.Some? then ParseLevel(text.value) else None
  }

  /** The effort value that counts: the collaboration settings' own, even when malformed, before the top-level one. */
  function EffortValue(params: Value): Option<Value> {
    var inSettings := GetIn(SettingsOf(params), ReasoningEffort);
    if inSettings.Some? then inSettings else Get(params, Effort)
  }

  function ModelValue(params: Value): Option<Value> {
    var inSettings := GetIn(SettingsOf(params), Model);
    if inSettings.Some? then inSettings else Get(params, Model)
  }

  function ParseExplicitRoute(params: Value): ExplicitRoute {
    ExplicitRoute(AsText(ModelValue(params)), ParseText(AsText(EffortValue(params))))
  }

  // ---------- Rewriting ----------

  function EffortOrNull(effort: Option<string>): Value {
    if effort.Some? then Str(effort.value) else Null
  }

  function RewrittenSettings(settings: map<Key, Value>, model: string, effort: Option<string>): map<Key, Value> {
    settings[Model := Str(model)][ReasoningEffort := EffortOrNull(effort)]
  }

  /** The collaboration mode with the route written into its settings object, where it has one. */
  function RewrittenMode(mode: Value, model: string, effort: Option<string>): Value {
    var settings := Get(mode, Settings);
    if settings.Some? && settings.value.Object?
    then Object(mode.fields[Settings := Object(RewrittenSettings(settings.value.fields, model, effort))])
    else mode
  }

  /** The rewritten parameters, described member by member. */
  ghost predicate IsRewritten(
    params: map<Key, Value>, model: string, effort: Option<string>, tier: Option<string>, r: map<Key, Value>)
  {
    && Model in r && r[Model] == Str(model)
    && (Effort in r <==> effort.Some?)
    && (effort.Some? ==> r[Effort] == Str(effort.value))
    && (CollaborationMode in r <==> CollaborationMode in params)
    && (CollaborationMode in params ==> r[CollaborationMode] == RewrittenMode(params[CollaborationMode], model, effort))
    && (ServiceTier in r <==> ServiceTier in params || tier.Some?)
    && (ServiceTier in r ==> r[ServiceTier] == if tier.Some? then Str(tier.value) else params[ServiceTier])
    && (forall k | k !in {Model, Effort, CollaborationMode, ServiceTier} ::
          (k in r <==> k in params) && (k in params ==> r[k] == params[k]))
  }

  function Rewritten(params: map<Key, Value>, model: string, effort: Option<string>, tier: Option<string>)
    : (r: map<Key, Value>)
    ensures IsRewritten(params, model, effort, tier, r)
  {
    var routed := params[Model := Str(model)];
    var withEffort := if effort.Some? then routed[Effort := Str(effort.value)] else routed - {Effort};
    var withMode := if CollaborationMode in withEffort
      then withEffort[CollaborationMode := RewrittenMode(withEffort[CollaborationMode], model, effort)]
      else withEffort;
    if tier.Some? then withMode[ServiceTier := Str(tier.value)] else withMode
  }

  /** The edits as the program makes them. */
  method RewriteTurnParams(initial: map<Key, Value>, model: string, effort: Option<string>, tier: Option<string>)
    returns (params: map<Key, Value>)
    ensures params == Rewritten(initial, model, effort, tier)
  {
    params := initial[Model := Str(model)];
    if effort.Some? {
      params := params[Effort := Str(effort.value)];
    } else {
      params := params - {Effort};
    }
    if CollaborationMode in params {
      var mode := params[CollaborationMode];
      var settings := Get(mode, Settings);
      if settings.Some? && settings.value.Object? {
        var fields := settings.value.fields[Model := Str(model)];
        fields := fields[ReasoningEffort := EffortOrNull(effort)];
        params := params[CollaborationMode := Object(mode.fields[Settings := Object(fields)])];
      } else {
        assert params[CollaborationMode := mode] == params;
      }
    }
    if tier.Some? {
      params := params[ServiceTier := Str(tier.value)];
    }
  }

  // ---------- What reading back gives ----------

  /** For every shape of parameters, reading a rewritten route back gives exactly the route written. */
  lemma RewrittenReadsBack(params: map<Key, Value>, model: string, effort: Option<string>, tier: Option<string>)
    ensures ParseExplicitRoute(Object(Rewritten(params, model, effort, tier)))
         == ExplicitRoute(Some(model), ParseText(effort))
  {
  }

  /** Writing the same route twice is writing it once. */
  lemma RewritingIsIdempotent(params: map<Key, Value>, model: string, effort: Option<string>, tier: Option<string>)
    ensures Rewritten(Rewritten(params, model, effort, tier), model, effort, tier)
         == Rewritten(params, model, effort, tier)
  {
    var once := Rewritten(params, model, effort, tier);
    var twice := Rewritten(once, model, effort, tier);
    if CollaborationMode in params {
      RewrittenModeIsStable(params[CollaborationMode], model, effort);
    }
    assert forall k :: k in once <==> k in twice;
    assert forall k | k in once :: once[k] == twice[k];
  }

  lemma RewrittenModeIsStable(mode: Value, model: string, effort: Option<string>)
    ensures RewrittenMode(RewrittenMode(mode, model, effort), model, effort) == RewrittenMode(mode, model, effort)
  {
    var settings := Get(mode, Settings);
    if settings.Some? && settings.value.Object? {
      var fields := RewrittenSettings(settings.value.fields, model, effort);
      assert RewrittenSettings(fields, model, effort) == fields;
      var written := mode.fields[Settings := Object(fields)];
      assert written[Settings := Object(fields)] == written;
    }
  }

  // ---------- Which of two values counts ----------

  function WithSettings(params: map<Key, Value>, mode: map<Key, Value>, settings: map<Key, Value>): Value {
    Object(params[CollaborationMode := Object(mode[Settings := Object(settings)])])
  }

  /**
   * A model or effort inside the collaboration settings counts before the one at top level, even when
   * it is no text or names no level; the top-level one counts when the settings hold none.
   */
  lemma SettingsTakePrecedence(params: map<Key, Value>, mode: map<Key, Value>, settings: map<Key, Value>)
    ensures var read := ParseExplicitRoute(WithSettings(params, mode, settings));
      && read.model == (if Model in settings then TextAt(Object(settings), Model) else TextAt(Object(params), Model))
      && read.effort == ParseText(if ReasoningEffort in settings then TextAt(Object(settings), ReasoningEffort)
                                  else TextAt(Object(params), Effort))
  {
    var whole := WithSettings(params, mode, settings);
    assert SettingsOf(whole) == Some(Object(settings));
  }

  /** Without collaboration settings only the top level is read, and a text counts only as the name of a level. */
  lemma TopLevelIsRead(params: map<Key, Value>)
    requires CollaborationMode !in params
    ensures ParseExplicitRoute(Object(params))
         == ExplicitRoute(TextAt(Object(params), Model), ParseText(TextAt(Object(params), Effort)))
  {
  }
}
