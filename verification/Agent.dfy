/** What each message does to the adaptive agent's threads, to the forwarded message and to the log. */
module Agent {
  import opened Types
  import opened Text
  import opened Json
  import opened Wire
  import Log
  import Args

  // ---------- State ----------

  datatype ThreadState = ThreadState(
    initialized: bool,
    family: Option<ModelFamily>,
    effort: Option<ReasoningLevel>,
    model: Option<string>,
    nativeEffort: Option<string>,
    serviceTier: Option<string>,
    decisionId: Option<string>,
    repo: Option<string>,
    nextExplicit: Option<ExplicitRoute>,
    feedbackRecorded: bool,
    source: RouteSource)

  const NEW_THREAD := ThreadState(false, None, None, None, None, None, None, None, None, false, Local)

  /** The part of a resolved route that the agent uses; `cwd` is the prepared repository root. */
  datatype ResolvedRoute = ResolvedRoute(
    repo: string,
    model: string,
    family: ModelFamily,
    displayLevel: ReasoningLevel,
    nativeEffort: Option<string>,
    serviceTier: Option<string>,
    source: RouteSource,
    decisive: bool,
    facts: Log.Facts)

  datatype PendingTurn = PendingTurn(threadId: string, route: ResolvedRoute)

  datatype Router = Router(
    threads: map<string, ThreadState>,
    pending: map<Value, PendingTurn>,
    resumes: map<Value, string>)

  const IDLE := Router(map[], map[], map[])

  /**
   * Command-line pins and the prepared route. `resolve` stands for the whole routing pipeline over
   * the turn's model, effort and prompt, `catalogDefault` for a listed model's default effort and
   * `correction` for the phrase lists that recognise a correction in a prompt.
   */
  datatype Config = Config(
    model: Option<string>,
    family: Option<ModelFamily>,
    effort: Option<ReasoningLevel>,
    fast: bool,
    noFast: bool,
    native: Args.Overrides,
    root: string,
    resolve: (Option<string>, Option<ReasoningLevel>, string) -> Option<ResolvedRoute>,
    catalogDefault: string -> Option<ReasoningLevel>,
    correction: string -> Option<Log.Kind>)
  {
    predicate ModelPinned() { model.Some? || family.Some? || native.model.Some? }

    predicate EffortPinned() { effort.Some? || native.effortRaw.Some? }

    predicate TierPinned() { fast || noFast || native.serviceTier.Some? }
  }

  /** Outcomes of the file operations of one step: whether feedback was appended, and the logged decision's id. */
  datatype Env = Env(appended: bool, decisionId: Option<string>)

  /** The new state, the message as forwarded, the lines logged, and whether a calibration has to be derived. */
  datatype Effect = Effect(router: Router, forwarded: Value, lines: seq<Log.Line>, calibrate: Option<string>)

  function ThreadOf(r: Router, t: string): ThreadState {
    if t in r.threads then r.threads[t] else NEW_THREAD
  }

  function WithThread(r: Router, t: string, state: ThreadState): Router {
    r.(threads := r.threads[t := state])
  }

  function NativeName(effort: Option<ReasoningLevel>): Option<string> {
    if effort.Some? then Some(effort.value.NativeName()) else None
  }

  // ---------- Feedback ----------

  predicate Raises(family: Option<ModelFamily>, effort: Option<ReasoningLevel>, next: ExplicitRoute) {
    || (family.Some? && next.model.Some? && FamilyOf(next.model.value).Rank() > family.value.Rank())
    || (effort.Some? && next.effort.Some? && next.effort.value.Rank() > effort.value.Rank())
  }

  predicate Lowers(family: Option<ModelFamily>, effort: Option<ReasoningLevel>, next: ExplicitRoute) {
    || (family.Some? && next.model.Some? && FamilyOf(next.model.value).Rank() < family.value.Rank())
    || (effort.Some? && next.effort.Some? && next.effort.value.Rank() < effort.value.Rank())
  }

  function FeedbackForChange(state: ThreadState, next: ExplicitRoute): Option<Log.Kind> {
    var raised, lowered := Raises(state.family, state.effort, next), Lowers(state.family, state.effort, next);
    if raised && !lowered then Some(Log.Underpowered)
    else if lowered && !raised then Some(Log.Overkill)
    else None
  }

  /** An event can be recorded: none was recorded for this decision yet, and the decision is logged. */
  predicate CanRecord(state: ThreadState) {
    !state.feedbackRecorded && state.decisionId.Some? && state.repo.Some?
  }

  function Recorded(state: ThreadState, feedback: Option<(Log.Kind, Log.FeedbackSource)>, env: Env): ThreadState {
    if feedback.Some? && CanRecord(state) && env.appended then state.(feedbackRecorded := true) else state
  }

  function RecordedLines(state: ThreadState, feedback: Option<(Log.Kind, Log.FeedbackSource)>, env: Env)
    : seq<Log.Line>
  {
    if feedback.Some? && CanRecord(state) && env.appended
    then [Log.FeedbackLine(Log.FeedbackRecord(state.decisionId, Some(feedback.value.0), Some(feedback.value.1)))]
    else []
  }

  function RecordedJob(state: ThreadState, feedback: Option<(Log.Kind, Log.FeedbackSource)>, env: Env): Option<string> {
    if feedback.Some? && CanRecord(state) && env.appended then state.repo else None
  }

  // ---------- Settings updates ----------

  /** The requested change without the parts that the command line pins. */
  function Unpinned(cfg: Config, route: ExplicitRoute): ExplicitRoute {
    ExplicitRoute(if cfg.ModelPinned() then None else route.model, if cfg.EffortPinned() then None else route.effort)
  }

  function ServiceTierAt(params: Value): Option<string> { TextAt(params, ServiceTier) }

  /** A route adopted as the new pin. */
  function Adopted(state: ThreadState, route: ExplicitRoute): ThreadState {
    state.(
      family := if route.model.Some? then Some(FamilyOf(route.model.value)) else state.family,
      model := if route.model.Some? then route.model else state.model,
      effort := if route.effort.Some? then route.effort else state.effort,
      nativeEffort := if route.effort.Some? then NativeName(route.effort) else state.nativeEffort)
  }

  /** The service tier of a settings update is taken even where the command line pins it. */
  function SettingsApplied(state: ThreadState, route: ExplicitRoute, params: Value): ThreadState {
    if state.initialized then
      Adopted(state, route).(
        serviceTier := if Get(params, ServiceTier).Some? then ServiceTierAt(params) else state.serviceTier,
        source := Explicit)
    else state.(nextExplicit := Some(route))
  }

  function SettingsFeedback(state: ThreadState, route: ExplicitRoute): Option<(Log.Kind, Log.FeedbackSource)> {
    if !state.source.NativePreserved? && state.initialized && state.decisionId.Some? && !state.feedbackRecorded then
      match FeedbackForChange(state, route)
      case Some(kind) => Some((kind, Log.ExplicitRouteChange))
      case None => None
    else None
  }

  function SettingsUpdate(cfg: Config, r: Router, t: string, message: Value, env: Env): Effect {
    var params := ParamsOf(message);
    var route := Unpinned(cfg, ParseExplicitRoute(params));
    if route.model.None? && route.effort.None? then Effect(r, message, [], None)
    else
      var state := ThreadOf(r, t);
      var applied := SettingsApplied(state, route, params);
      var feedback := SettingsFeedback(state, route);
      Effect(WithThread(r, t, Recorded(applied, feedback, env)), message,
             RecordedLines(applied, feedback, env), RecordedJob(applied, feedback, env))
  }

  // ---------- Later turns ----------

  /** The incoming values that differ from the pin and that nothing pins. */
  function Differing(cfg: Config, state: ThreadState, incoming: ExplicitRoute): ExplicitRoute {
    ExplicitRoute(
      if !cfg.ModelPinned() && incoming.model.Some? && state.model.Some? && state.model != incoming.model
      then incoming.model else None,
      if !cfg.EffortPinned() && incoming.effort.Some?
         && (if state.nativeEffort.Some? then NativeName(incoming.effort) != state.nativeEffort
             else state.effort.Some? && incoming.effort != state.effort)
      then incoming.effort else None)
  }

  function KeptState(cfg: Config, state: ThreadState, params: Value): ThreadState {
    Adopted(state, Differing(cfg, state, ParseExplicitRoute(params))).(
      serviceTier := if !cfg.TierPinned() && Get(params, ServiceTier).Some? then ServiceTierAt(params)
                     else state.serviceTier)
  }

  function KeptFeedback(cfg: Config, state: ThreadState, params: Value, prompt: Option<string>)
    : Option<(Log.Kind, Log.FeedbackSource)>
  {
    if state.source.NativePreserved? then None
    else
      var change := FeedbackForChange(state, Differing(cfg, state, ParseExplicitRoute(params)));
      if change.Some? then Some((change.value, Log.ExplicitRouteChange))
      else if prompt.Some? && cfg.correction(prompt.value).Some? then
        Some((cfg.correction(prompt.value).value, Log.ImplicitCorrection))
      else None
  }

  /** The effort a pinned thread sends: its native value, else its level's native name. */
  function PinnedEffort(state: ThreadState): Option<string> {
    if state.nativeEffort.Some? then state.nativeEffort else NativeName(state.effort)
  }

  function WithParams(message: Value, params: map<Key, Value>): Value {
    if message.Object? then Object(message.fields[Params := Object(params)]) else message
  }

  /** The pin of the thread written into a follow-up; without a pinned model it is forwarded untouched. */
  function Pinned(message: Value, state: ThreadState): Value {
    var params := ParamsOf(message);
    if state.model.Some? && params.Object?
    then WithParams(message, Rewritten(params.fields, state.model.value, PinnedEffort(state), state.serviceTier))
    else message
  }

  function KeepTurn(cfg: Config, r: Router, t: string, message: Value, prompt: Option<string>, env: Env): Effect {
    var state := ThreadOf(r, t);
    var params := ParamsOf(message);
    var kept := KeptState(cfg, state, params);
    var feedback := KeptFeedback(cfg, state, params, prompt);
    Effect(WithThread(r, t, Recorded(kept, feedback, env)), Pinned(message, kept),
           RecordedLines(kept, feedback, env), RecordedJob(kept, feedback, env))
  }

  // ---------- First turns ----------

  /** A first turn without text pins whatever route Codex sent. */
  function Unclassified(state: ThreadState, params: Value): ThreadState {
    Adopted(state, ParseExplicitRoute(params)).(
      initialized := true,
      source := NativePreserved,
      serviceTier := ServiceTierAt(params))
  }

  function TurnModel(cfg: Config, next: Option<ExplicitRoute>): Option<string> {
    if !cfg.ModelPinned() && next.Some? && next.value.model.Some? then next.value.model else cfg.model
  }

  function TurnEffort(cfg: Config, next: Option<ExplicitRoute>): Option<ReasoningLevel> {
    if !cfg.EffortPinned() && next.Some? && next.value.effort.Some? then next.value.effort else cfg.effort
  }

  predicate CwdChanged(cfg: Config, params: Value) {
    TextAt(params, Cwd).Some? && TextAt(params, Cwd).value != cfg.root
  }

  /** Evidence is thin or the repository changed, and Codex named a model: its own route is kept. */
  predicate Preserves(cfg: Config, route: ResolvedRoute, params: Value) {
    (!route.decisive || CwdChanged(cfg, params)) && ParseExplicitRoute(params).model.Some?
  }

  function PreservedLevel(cfg: Config, incoming: ExplicitRoute): ReasoningLevel
    requires incoming.model.Some?
  {
    if incoming.effort.Some? then incoming.effort.value
    else if cfg.catalogDefault(incoming.model.value).Some? then cfg.catalogDefault(incoming.model.value).value
    else Medium
  }

  function PreservedRoute(cfg: Config, route: ResolvedRoute, params: Value): ResolvedRoute
    requires ParseExplicitRoute(params).model.Some?
  {
    var incoming := ParseExplicitRoute(params);
    var level := PreservedLevel(cfg, incoming);
    route.(
      model := incoming.model.value,
      family := FamilyOf(incoming.model.value),
      displayLevel := level,
      nativeEffort := Some(level.NativeName()),
      serviceTier := ServiceTierAt(params),
      source := NativePreserved)
  }

  /** The route that a first turn will commit to when the server accepts it. */
  function FirstRoute(cfg: Config, route: ResolvedRoute, params: Value): ResolvedRoute {
    if Preserves(cfg, route, params) then PreservedRoute(cfg, route, params) else route
  }

  function Routed(message: Value, route: ResolvedRoute): Value {
    var params := ParamsOf(message);
    if params.Object?
    then WithParams(message, Rewritten(params.fields, route.model, route.nativeEffort, route.serviceTier))
    else message
  }

  /**
   * Routing a first text turn consumes the waiting explicit route first, whatever happens next. The
   * message is rewritten before its identifier is looked for, so a turn without one is forwarded
   * rewritten but never becomes pending.
   */
  function FirstTurn(cfg: Config, r: Router, t: string, message: Value, prompt: string): Effect {
    var state := ThreadOf(r, t);
    var consumed := WithThread(r, t, state.(nextExplicit := None));
    match cfg.resolve(TurnModel(cfg, state.nextExplicit), TurnEffort(cfg, state.nextExplicit), prompt)
    case None => Effect(consumed, message, [], None)
    case Some(route) =>
      var params := ParamsOf(message);
      var first := FirstRoute(cfg, route, params);
      var forwarded := if Preserves(cfg, route, params) then message else Routed(message, route);
      var pending := if Get(message, Id).Some?
        then consumed.pending[Get(message, Id).value := PendingTurn(t, first)]
        else consumed.pending;
      Effect(consumed.(pending := pending), forwarded, [], None)
  }

  // ---------- Responses ----------

  function DecisionLineOf(id: string, route: ResolvedRoute): Log.Line {
    Log.DecisionLine(Log.DecisionRecord(id, route.repo, Some(Log.Agent), route.source, route.family,
                                        route.displayLevel, route.facts))
  }

  function CommittedState(state: ThreadState, route: ResolvedRoute, decisionId: Option<string>): ThreadState {
    ThreadState(true, Some(route.family), Some(route.displayLevel), Some(route.model), route.nativeEffort,
                route.serviceTier, decisionId, Some(route.repo), state.nextExplicit, false, route.source)
  }

  function Commit(r: Router, key: Value, message: Value, env: Env): Effect
    requires key in r.pending
  {
    var turn := r.pending[key];
    var settled := r.(pending := r.pending - {key});
    if Get(message, Error).Some? then Effect(settled, message, [], None)
    else
      Effect(WithThread(settled, turn.threadId,
          CommittedState(ThreadOf(settled, turn.threadId), turn.route, env.decisionId)),
             message,
             if env.decisionId.Some? then [DecisionLineOf(env.decisionId.value, turn.route)] else [],
             None)
  }

  /** The stored route of a resumed thread. */
  function ResumedState(state: ThreadState, result: Value): ThreadState {
    Adopted(state, ExplicitRoute(TextAt(result, Model), ParseText(TextAt(result, ResumedEffort)))).(
      initialized := true,
      source := NativePreserved,
      serviceTier := ServiceTierAt(result))
  }

  function Resume(r: Router, key: Value, message: Value): Effect
    requires key in r.resumes
  {
    var t := r.resumes[key];
    var settled := r.(resumes := r.resumes - {key});
    var result := Get(message, Result);
    if Get(message, Error).Some? || result.None? then Effect(settled, message, [], None)
    else Effect(WithThread(settled, t, ResumedState(ThreadOf(settled, t), result.value)), message, [], None)
  }

  // ---------- Dispatch ----------

  function PromptText(params: Value): Option<string> {
    var input := Get(params, Input);
    if input.Some? && input.value.List? then
      var fragments := TextFragments(input.value.items);
      if fragments == [] then None else Some(JoinLines(fragments))
    else None
  }

  function TextFragments(items: seq<Value>): seq<string> {
    if items == [] then []
    else
      (if TextAt(items[0], Type) == Some("text") && TextAt(items[0], Key.Text).Some?
       then [TextAt(items[0], Key.Text).value] else [])
      + TextFragments(items[1..])
  }

  function JoinLines(fragments: seq<string>): string {
    if fragments == [] then ""
    else if |fragments| == 1 then fragments[0]
    else fragments[0] + "\n" + JoinLines(fragments[1..])
  }

  function ThreadIdOf(message: Value): Option<string> { TextAt(ParamsOf(message), ThreadId) }

  predicate Calls(message: Value, method_: string) { TextAt(message, Method) == Some(method_) }

  function ClientMessage(cfg: Config, r: Router, message: Value, env: Env): Effect {
    var t := ThreadIdOf(message);
    if Calls(message, "initialize") || t.None? then Effect(r, message, [], None)
    else if Calls(message, "thread/resume") then
      if Get(message, Id).Some?
          then Effect(r.(resumes := r.resumes[Get(message, Id).value := t.value]), message, [], None)
      else Effect(r, message, [], None)
    else if Calls(message, "thread/settings/update") then SettingsUpdate(cfg, r, t.value, message, env)
    else if Calls(message, "turn/start") then
      var prompt := PromptText(ParamsOf(message));
      if ThreadOf(r, t.value).initialized then KeepTurn(cfg, r, t.value, message, prompt, env)
      else if prompt.None? then
        Effect(WithThread(r, t.value, Unclassified(ThreadOf(r, t.value), ParamsOf(message))), message, [], None)
      else FirstTurn(cfg, r, t.value, message, prompt.value)
    else Effect(r, message, [], None)
  }

  /** A server message is a response exactly when its identifier is outstanding; resumes are looked up first. */
  function ServerMessage(r: Router, message: Value, env: Env): Effect {
    var key := Get(message, Id);
    if key.Some? && key.value in r.resumes then Resume(r, key.value, message)
    else if key.Some? && key.value in r.pending then Commit(r, key.value, message, env)
    else Effect(r, message, [], None)
  }

  datatype Event = Client(message: Value, env: Env) | Server(message: Value, env: Env)

  function Handle(cfg: Config, r: Router, e: Event): Effect {
    match e
    case Client(message, env) => ClientMessage(cfg, r, message, env)
    case Server(message, env) => ServerMessage(r, message, env)
  }
}
