/** Short runs of the agent from its start that reach each of the states where a promise fails. */
module Witnesses {
  import opened Types
  import opened Json
  import opened Wire
  import opened Agent
  import opened AgentProperties
  import Text
  import Args
  import Log

  // ---------- The cast ----------

  const FACTS := Log.Facts(2, 0, 0, true, DEFAULT_DIMENSIONS, false, false, false, false, [], [])

  /** A route to Sol and High as the catalog spells it; `decisive` tells whether it may replace Codex's own. */
  function Route(nativeEffort: string, tier: Option<string>, decisive: bool): ResolvedRoute {
    ResolvedRoute("repo", "gpt-sol", Sol, High, Some(nativeEffort), tier, Local, decisive, FACTS)
  }

  const CORRECTION := "that was overkill"

  /** An agent whose routing always resolves to this route. */
  function AgentFor(route: ResolvedRoute, native: Args.Overrides, noFast: bool): Config {
    Config(None, None, None, false, noFast, native, "/repo",
           (model, effort, prompt) => Some(route),
           model => None,
           prompt => if prompt == CORRECTION then Some(Log.Overkill) else None)
  }

  function Input(text: string): Value { List([Object(map[Type := Str("text"), Key.Text := Str(text)])]) }

  function Turn(id: int, text: string, extra: map<Key, Value>): Value {
    Object(map[Method := Str("turn/start"), Id := Number(id),
               Params := Object(extra[ThreadId := Str("t")][Key.Input := Input(text)])])
  }

  function Update(extra: map<Key, Value>): Value {
    Object(map[Method := Str("thread/settings/update"), Params := Object(extra[ThreadId := Str("t")])])
  }

  const ACCEPTED := Object(map[Id := Number(1), Result := Object(map[])])

  const REJECTED := Object(map[Id := Number(1), Error := Object(map[])])

  const LOGGED := Env(true, Some("d"))

  lemma TurnReads(id: int, text: string, extra: map<Key, Value>)
    ensures var m := Turn(id, text, extra);
      && Calls(m, "turn/start") && ThreadIdOf(m) == Some("t") && Get(m, Id) == Some(Number(id))
      && PromptText(ParamsOf(m)) == Some(text)
  {
    var items := Input(text).items;
    assert items[1..] == [];
    assert TextFragments(items) == [text] + TextFragments(items[1..]);
  }

  lemma UpdateReads(extra: map<Key, Value>)
    ensures var m := Update(extra);
      Calls(m, "thread/settings/update") && !Calls(m, "turn/start") && ThreadIdOf(m) == Some("t")
  {
    assert "thread/settings/update"[1] != "turn/start"[1];
  }

  /** The agent after its first turn has been sent and accepted. */
  function Started(cfg: Config, text: string, extra: map<Key, Value>): Router {
    ServerMessage(ClientMessage(cfg, IDLE, Turn(1, text, extra), LOGGED).router, ACCEPTED, LOGGED).router
  }

  /** An agent whose only thread is pinned to this route under decision `d`. */
  function PinnedTo(route: ResolvedRoute): Router {
    Router(map["t" := CommittedState(NEW_THREAD, route, Some("d"))], map[], map[])
  }

  lemma FirstTurnWaits(cfg: Config, route: ResolvedRoute, message: Value)
    requires IsFirstTurn(IDLE, message, "t") && ResolvedFirst(cfg, IDLE, message, "t") == Some(route)
    requires Get(message, Id) == Some(Number(1))
    ensures ClientMessage(cfg, IDLE, message, LOGGED).router
         == Router(map["t" := NEW_THREAD],
                   map[Number(1) := PendingTurn("t", FirstRoute(cfg, route, ParamsOf(message)))], map[])
  {
  }

  lemma AcceptanceStarts(first: ResolvedRoute)
    ensures ServerMessage(Router(map["t" := NEW_THREAD], map[Number(1) := PendingTurn("t", first)], map[]), ACCEPTED,
        LOGGED)
         == Effect(PinnedTo(first), ACCEPTED, [DecisionLineOf("d", first)], None)
  {
    var waiting := Router(map["t" := NEW_THREAD], map[Number(1) := PendingTurn("t", first)], map[]);
    assert waiting.pending - {Number(1)} == map[];
    assert Get(ACCEPTED, Id) == Some(Number(1)) && Get(ACCEPTED, Error) == None;
    assert ServerMessage(waiting, ACCEPTED, LOGGED) == Commit(waiting, Number(1), ACCEPTED, LOGGED);
  }

  /** Every agent that resolves its first turn is pinned to its first route once the turn is accepted. */
  lemma StartedIsPinned(cfg: Config, route: ResolvedRoute, text: string, extra: map<Key, Value>)
    requires cfg.resolve(TurnModel(cfg, None), TurnEffort(cfg, None), text) == Some(route)
    ensures Started(cfg, text, extra) == PinnedTo(FirstRoute(cfg, route, ParamsOf(Turn(1, text, extra))))
  {
    TurnReads(1, text, extra);
    FirstTurnWaits(cfg, route, Turn(1, text, extra));
    AcceptanceStarts(FirstRoute(cfg, route, ParamsOf(Turn(1, text, extra))));
  }

  // ---------- Feedback against a native-preserved decision ----------

  const CODEX_ROUTE := map[Model := Str("gpt-sol"), Effort := Str("high")]

  const TERRA := map[Model := Str("gpt-terra")]

  /** After a settings update, a correction logs one event for decision `d`, which is native-preserved. */
  predicate CorrectsNativeDecision(cfg: Config, r: Router) {
    var updated := ClientMessage(cfg, r, Update(TERRA), LOGGED).router;
    var lines := ClientMessage(cfg, updated, Turn(2, CORRECTION, map[]), LOGGED).lines;
    && ThreadOf(r, "t").source.NativePreserved? && ThreadOf(r, "t").decisionId == Some("d")
    && |lines| == 1 && lines[0].FeedbackLine? && lines[0].feedback.decisionId == Some("d")
  }

  lemma TerraIsRead()
    ensures ParseExplicitRoute(ParamsOf(Update(TERRA))) == ExplicitRoute(Some("gpt-terra"), None)
  {
  }

  lemma PreservedPinCanBeCorrected(cfg: Config, route: ResolvedRoute)
    requires route.source.NativePreserved? && !cfg.ModelPinned() && cfg.correction(CORRECTION).Some?
    ensures CorrectsNativeDecision(cfg, PinnedTo(route))
  {
    UpdateReads(TERRA);
    TurnReads(2, CORRECTION, map[]);
    TerraIsRead();
    SettingsUpdateReopensNativeDecisions(cfg, PinnedTo(route), "t", Update(TERRA), Turn(2, CORRECTION, map[]), LOGGED,
        LOGGED);
  }

  lemma CodexRouteIsPreserved(cfg: Config, route: ResolvedRoute)
    requires !route.decisive
    ensures FirstRoute(cfg, route, ParamsOf(Turn(1, "hello there", CODEX_ROUTE))).source.NativePreserved?
  {
    assert TextAt(ParamsOf(Turn(1, "hello there", CODEX_ROUTE)), Model) == Some("gpt-sol");
  }

  /**
   * A preserved first turn, its acceptance, a settings update and a correction reach the state where
   * a promise fails.
   */
  lemma NativeDecisionReceivesFeedback()
    ensures var cfg := AgentFor(Route("high", None, false), Args.NO_OVERRIDES, false);
      CorrectsNativeDecision(cfg, Started(cfg, "hello there", CODEX_ROUTE))
  {
    var route := Route("high", None, false);
    var cfg := AgentFor(route, Args.NO_OVERRIDES, false);
    StartedIsPinned(cfg, route, "hello there", CODEX_ROUTE);
    CodexRouteIsPreserved(cfg, route);
    PreservedPinCanBeCorrected(cfg, FirstRoute(cfg, route, ParamsOf(Turn(1, "hello there", CODEX_ROUTE))));
  }

  // ---------- Service tiers pinned on the command line ----------

  const FLEX := Args.NO_OVERRIDES.(serviceTier := Some("flex"))

  const PRIORITY := map[ServiceTier := Str("priority")]

  lemma NothingNamedIsNotPreserved(cfg: Config, route: ResolvedRoute)
    requires route.decisive
    ensures FirstRoute(cfg, route, ParamsOf(Turn(1, "hello there", map[]))) == route
  {
    assert TextAt(ParamsOf(Turn(1, "hello there", map[])), Cwd) == None;
  }

  /** The command line pins the tier, the thread holds none, and a follow-up carries the one that Codex sends. */
  predicate LetsTierThrough(cfg: Config, r: Router) {
    var followUp := ClientMessage(cfg, r, Turn(2, "go on", PRIORITY), LOGGED);
    && cfg.TierPinned() && ThreadOf(followUp.router, "t").serviceTier == None
    && TextAt(ParamsOf(followUp.forwarded), ServiceTier) == Some("priority")
  }

  lemma TierlessKeepsTierless(cfg: Config, state: ThreadState, m: Value)
    requires cfg.TierPinned() && state.serviceTier == None && state.model.Some? && ParamsOf(m).Object?
    ensures var kept := KeptState(cfg, state, ParamsOf(m));
      && kept.serviceTier == None
      && TextAt(ParamsOf(Pinned(m, kept)), ServiceTier) == TextAt(ParamsOf(m), ServiceTier)
  {
  }

  lemma TierlessPinLetsTierThrough(cfg: Config, route: ResolvedRoute)
    requires cfg.TierPinned() && route.serviceTier == None
    ensures LetsTierThrough(cfg, PinnedTo(route))
  {
    var r, m := PinnedTo(route), Turn(2, "go on", PRIORITY);
    TurnReads(2, "go on", PRIORITY);
    TierlessKeepsTierless(cfg, ThreadOf(r, "t"), m);
    assert ClientMessage(cfg, r, m, LOGGED) == KeepTurn(cfg, r, "t", m, Some("go on"), LOGGED);
    assert TextAt(ParamsOf(m), ServiceTier) == Some("priority");
  }

  /** With a forwarded tier the thread holds none, and the tier Codex sends on a follow-up passes through. */
  lemma TierPassesThrough()
    ensures var cfg := AgentFor(Route("high", None, true), FLEX, false);
      LetsTierThrough(cfg, Started(cfg, "hello there", map[]))
  {
    var route := Route("high", None, true);
    var cfg := AgentFor(route, FLEX, false);
    StartedIsPinned(cfg, route, "hello there", map[]);
    NothingNamedIsNotPreserved(cfg, route);
    TierlessPinLetsTierThrough(cfg, route);
  }

  const FASTER := TERRA[ServiceTier := Str("priority")]

  /** The command line pins the tier, the thread holds `default`, and a settings update moves it. */
  predicate UpdateMovesTier(cfg: Config, r: Router) {
    && cfg.TierPinned() && ThreadOf(r, "t").serviceTier == Some("default")
    && ThreadOf(ClientMessage(cfg, r, Update(FASTER), LOGGED).router, "t").serviceTier == Some("priority")
  }

  lemma PinnedTierIsMoved(cfg: Config, route: ResolvedRoute)
    requires cfg.TierPinned() && !cfg.ModelPinned() && route.serviceTier == Some("default")
    ensures UpdateMovesTier(cfg, PinnedTo(route))
  {
    var r, m := PinnedTo(route), Update(FASTER);
    UpdateReads(FASTER);
    assert ClientMessage(cfg, r, m, LOGGED) == SettingsUpdate(cfg, r, "t", m, LOGGED);
    assert TextAt(ParamsOf(m), Model) == Some("gpt-terra") && TextAt(ParamsOf(m), ServiceTier) == Some("priority");
  }

  /** Started with --no-fast, a thread takes the fast tier from a settings update. */
  lemma SettingsUpdateMovesPinnedTier()
    ensures var cfg := AgentFor(Route("high", Some("default"), true), Args.NO_OVERRIDES, true);
      UpdateMovesTier(cfg, Started(cfg, "hello there", map[]))
  {
    var route := Route("high", Some("default"), true);
    var cfg := AgentFor(route, Args.NO_OVERRIDES, true);
    StartedIsPinned(cfg, route, "hello there", map[]);
    NothingNamedIsNotPreserved(cfg, route);
    PinnedTierIsMoved(cfg, route);
  }

  // ---------- Echoes ----------

  const ECHO := map[Model := Str("gpt-sol"), Effort := Str("High")]

  /** The thread is pinned to `High`, the turn says exactly what it is pinned to, and the pin becomes `high`. */
  predicate EchoMovesPin(cfg: Config, r: Router) {
    && Echoes(ParamsOf(Turn(2, "go on", ECHO)), ThreadOf(r, "t"))
    && ThreadOf(r, "t").nativeEffort == Some("High")
    && ThreadOf(ClientMessage(cfg, r, Turn(2, "go on", ECHO), LOGGED).router, "t").nativeEffort == Some("high")
  }

  lemma EchoIsRead()
    ensures ParseExplicitRoute(ParamsOf(Turn(2, "go on", ECHO))) == ExplicitRoute(Some("gpt-sol"), Some(High))
    ensures "High" != "high"
  {
    assert Text.LevelText("High") == "high";
    assert "High"[0] != "high"[0];
    assert TextAt(ParamsOf(Turn(2, "go on", ECHO)), Effort) == Some("High");
  }

  lemma HighBecomesLower(cfg: Config, state: ThreadState)
    requires !cfg.EffortPinned() && state.nativeEffort == Some("High")
    ensures KeptState(cfg, state, ParamsOf(Turn(2, "go on", ECHO))).nativeEffort == Some("high")
  {
    EchoIsRead();
  }

  lemma ListedSpellingIsMoved(cfg: Config, route: ResolvedRoute)
    requires !cfg.EffortPinned()
    requires route.model == "gpt-sol" && route.nativeEffort == Some("High") && route.displayLevel == High
    ensures EchoMovesPin(cfg, PinnedTo(route))
  {
    var r, m := PinnedTo(route), Turn(2, "go on", ECHO);
    TurnReads(2, "go on", ECHO);
    EchoIsRead();
    HighBecomesLower(cfg, ThreadOf(r, "t"));
    assert ParseText(Some("High")) == Some(High);
    assert ClientMessage(cfg, r, m, LOGGED) == KeepTurn(cfg, r, "t", m, Some("go on"), LOGGED);
  }

  /** A thread pinned to the catalog's spelling `High` is moved to `high` by a turn that echoes its pin. */
  lemma EchoMovesListedSpelling()
    ensures var cfg := AgentFor(Route("High", None, true), Args.NO_OVERRIDES, false);
      EchoMovesPin(cfg, Started(cfg, "hello there", map[]))
  {
    var route := Route("High", None, true);
    var cfg := AgentFor(route, Args.NO_OVERRIDES, false);
    StartedIsPinned(cfg, route, "hello there", map[]);
    NothingNamedIsNotPreserved(cfg, route);
    ListedSpellingIsMoved(cfg, route);
  }

  // ---------- Rejected turns ----------

  /** A route chosen before the first turn is gone after the server rejects that turn. */
  lemma RejectionLosesChosenRoute(cfg: Config)
    requires !cfg.ModelPinned()
    ensures var chosen := ClientMessage(cfg, IDLE, Update(TERRA), LOGGED).router;
      var sent := ClientMessage(cfg, chosen, Turn(1, "hello there", map[]), LOGGED).router;
      && ThreadOf(chosen, "t").nextExplicit == Some(ExplicitRoute(Some("gpt-terra"), None))
      && ThreadOf(ServerMessage(sent, REJECTED, LOGGED).router, "t") == NEW_THREAD
  {
    var chosen := ClientMessage(cfg, IDLE, Update(TERRA), LOGGED).router;
    UpdateReads(TERRA);
    TurnReads(1, "hello there", map[]);
    TerraIsRead();
    assert ClientMessage(cfg, IDLE, Update(TERRA), LOGGED) == SettingsUpdate(cfg, IDLE, "t", Update(TERRA), LOGGED);
    RejectedTurnConsumesTheRoute(cfg, chosen, Turn(1, "hello there", map[]), LOGGED, "t", REJECTED, LOGGED);
  }

  // ---------- Raised and lowered efforts ----------

  /** A decisive route to Terra and Medium. */
  const TERRA_MEDIUM :=
    ResolvedRoute("repo", "gpt-terra", Terra, Medium, Some("medium"), None, Local, true, FACTS)

  function Asking(effort: string): map<Key, Value> { map[Effort := Str(effort)] }

  function EventFor(kind: Log.Kind): Log.Line {
    Log.FeedbackLine(Log.FeedbackRecord(Some("d"), Some(kind), Some(Log.ExplicitRouteChange)))
  }

  lemma HighAndLowAreRead()
    ensures ParseExplicitRoute(ParamsOf(Update(Asking("high")))) == ExplicitRoute(None, Some(High))
    ensures ParseExplicitRoute(ParamsOf(Update(Asking("low")))) == ExplicitRoute(None, Some(Low))
  {
    Text.NativeNameRoundTrip(High);
    Text.NativeNameRoundTrip(Low);
    assert TextAt(ParamsOf(Update(Asking("high"))), Effort) == Some("high");
    assert TextAt(ParamsOf(Update(Asking("low"))), Effort) == Some("low");
  }

  lemma PinnedEffortIsLearned(cfg: Config, asked: string, effort: ReasoningLevel)
    requires !cfg.EffortPinned()
    requires ParseExplicitRoute(ParamsOf(Update(Asking(asked)))) == ExplicitRoute(None, Some(effort))
    ensures var updated := ClientMessage(cfg, PinnedTo(TERRA_MEDIUM), Update(Asking(asked)), LOGGED);
      && ThreadOf(updated.router, "t").effort == Some(effort)
      && (effort == High ==> updated.lines == [EventFor(Log.Underpowered)])
      && (effort == Low ==> updated.lines == [EventFor(Log.Overkill)])
  {
    var r, m := PinnedTo(TERRA_MEDIUM), Update(Asking(asked));
    UpdateReads(Asking(asked));
    assert ClientMessage(cfg, r, m, LOGGED) == SettingsUpdate(cfg, r, "t", m, LOGGED);
  }

  /**
   * A thread routed to Terra and Medium whose user then asks for high effort logs that the decision was
   * underpowered, and one whose user asks for low effort that it was overkill.
   */
  lemma ChangedEffortIsLearned()
    ensures var cfg := AgentFor(TERRA_MEDIUM, Args.NO_OVERRIDES, false);
      var started := Started(cfg, "hello there", map[]);
      && ClientMessage(cfg, started, Update(Asking("high")), LOGGED).lines == [EventFor(Log.Underpowered)]
      && ClientMessage(cfg, started, Update(Asking("low")), LOGGED).lines == [EventFor(Log.Overkill)]
  {
    var cfg := AgentFor(TERRA_MEDIUM, Args.NO_OVERRIDES, false);
    StartedIsPinned(cfg, TERRA_MEDIUM, "hello there", map[]);
    NothingNamedIsNotPreserved(cfg, TERRA_MEDIUM);
    HighAndLowAreRead();
    PinnedEffortIsLearned(cfg, "high", High);
    PinnedEffortIsLearned(cfg, "low", Low);
  }
}
