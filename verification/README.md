# Verification of cauto

cauto is a launcher for the Codex command line. It reads a prompt, scores it along seven bounded
dimensions, picks a model family and a reasoning effort, resolves that choice against the models the
installed Codex proves to offer, and starts Codex with the result. As an adaptive agent it sits between
a client and the Codex app server, routes the first text turn of each thread, pins the thread to the
accepted route, and turns later corrections into feedback that calibrates the repository's score.

This project models that logic in Dafny and proves what it promises. `dafny verify dfyconfig.toml`
checks all of it.

- **Router.** `Types`, `Text`, `TextProperties`, `Score`, `Select`, `Route`, `Rules`, `Features`,
  `FirstStage`, `Semantic`, `SecondStage`, `Pipeline`, `Hysteresis`. The steps that raise, lower, clamp
  and override in place are methods, proved against declarative functions. `FirstStage` and
  `SecondStage` say what the stages conclude from what the prompt says; the other theorems are about
  the whole composition: monotonicity, authority of bounds and explicit choices, no flapping, and what
  no late stage may undo.
- **Resolution and launch.** `Capabilities`, `Resolve`, `Invocation`, `Args`, `Launch`, `Shell`.
  `Invocation` says what each flag, forwarded override, setting and piece of repository state does to the
  route. The argument scanner agrees with the argument builder, and the printed command reads back by
  the quoting rules of the Shell Command Language (IEEE Std 1003.1, sections 2.2.1 and 2.2.2).
- **Agent.** `Json`, `Wire`, `Agent`, `AgentRouter`, `AgentProperties`, `AgentTurns`, `AgentFeedback`,
  `Witnesses`. The class `AgentRouter` updates its three maps, the log and the calibrations; each of its
  methods is proved to do exactly what the functions of `Agent` say. `AgentProperties` proves the pin
  guarantees over every interleaving, `AgentTurns` how a thread gets and moves its pin, `AgentFeedback`
  what is learned from that, and `Witnesses` holds short runs from the start to the states where a
  promise fails.
- **Log, tuning and report.** `Log`, `Tuning`, `World`, `WorldSafety`, `Tail`, `Counting`, `Report`,
  `ReportFacts`, `Figures`. `ReportFacts` says of each number which records it counts. `World` is a
  state machine of any number of processes over one log and one calibration file; `WorldSafety` proves
  that every calibration ever saved is backed by distinct decisions.
- **Catalog.** `Catalog`, `CatalogSafety`, `TwoHomes`. Any number of loaders, each with a program
  counter, share the cache file, the refresh lock and the writer's lock; a step is one system call or
  child process.

Assumptions, where a theorem needs them, are stated in its `requires`: decision identifiers are fresh
(they hash time, prompt and process), TOML strings and cache envelopes round-trip through their codecs,
the working directory is absolute, and letters are not white space. JSON-RPC 2.0 identifiers in flight
are the keys of the agent's maps; a server message is a response when its identifier is outstanding
(sections 4 and 5 of that specification).

## Where the code and its promises part

Each item names the lemma with the exact condition and the one with a concrete case.

- An Ultra candidate without an explicit effort takes the family even from an explicit family choice:
  `Route.ExplicitFamilyYieldsOnlyToUltra`, `Resolve.LunaIsOverridden`.
- Echoing a pin is harmless if and only if its native effort is written canonically or pinned on the
  command line: `AgentProperties.EchoChangesNothing`, `Witnesses.EchoMovesListedSpelling`; the spelling
  comes from the catalog, `Capabilities.DowngradeKeepsListedSpelling`.
- A service tier pinned on the command line is not held against a settings update, nor on the wire of a
  thread that holds no tier: `AgentProperties.SettingsUpdateMovesTierExactlyWhen`,
  `AgentProperties.FollowUpTierAgreesExactlyWhen`, `Witnesses.SettingsUpdateMovesPinnedTier`,
  `Witnesses.TierPassesThrough`.
- A turn that the server rejects still uses up the waiting explicit route:
  `AgentProperties.RejectedTurnConsumesTheRoute`, `Witnesses.RejectionLosesChosenRoute`.
- A settings update lets feedback be logged against a native-preserved decision; only the tuning join
  keeps it out of the calibration: `AgentProperties.PreservationEndsExactlyWhen`,
  `AgentProperties.SettingsUpdateReopensNativeDecisions`, `Witnesses.NativeDecisionReceivesFeedback`.
- Feedback given by hand can repeat for one decision, so the backing theorem leaves it out:
  `World.RepeatedEventsAreNotBacking`.
- Installations that share a cache file but not a Codex home never satisfy each other's second read:
  `CatalogSafety.SecondReadReturnsExactlyWhen`, `TwoHomes.TwoHomesDiscoverTwice`.
- The newest record of a log longer than the tail is found only if the tail reaches back past its first
  byte: `Tail.NewestMatchIsFoundExactlyWhen`, `Tail.BoundaryRecordIsDropped`.

## Model

| member | source | states |
|---|---|---|
| `Text.SplitOnceAt` | src/codex/args.rs:33-37 | splitting at the first separator gives back exactly the two sides, when the left side has none |
| `Text.NativeNameRoundTrip` | src/routing/types.rs:118-166 | every reasoning level's native name parses back to that level |
| `TextProperties.TrimTakesBothEnds` | src/routing/features.rs:485-490 | trimming takes away exactly the characters to drop at both ends, whatever stands between |
| `TextProperties.WordIsFoundExactlyWhen` | src/routing/features.rs:34-40 | a needle counts as a word if and only if it stands somewhere in the text, consists of word characters and has none next to it |
| `TextProperties.SpellingIsLoose` | src/routing/types.rs:151-166 | neither case nor the choice between space, hyphen and underscore changes the level a text names |
| `TextProperties.FamilyIsNamed` | src/routing/types.rs:34-46 | a model belongs to the first of Luna, Terra and Sol that its name mentions in any case, else to a family of its own |
| `Score.RoundedIsNearest` | src/routing/score.rs:48-61 | the fixed-point quotient is within half a unit of the exact ratio, and a ratio within a limit is not rounded past it |
| `Score.ScoreMonotone` | src/routing/score.rs:48-61 | raising any weighted dimension never lowers the normalised score, for all weights, a zero total included |
| `Score.ScoreIsNearestPercentage` | src/routing/score.rs:33-61 | the score is the exact percentage to the nearest point, never above 100, and no intermediate value leaves 32 bits |
| `Score.OnlyWeightedDimensionsCount` | src/routing/score.rs:48-61 | without any weight every task scores 0, and with one weight only the score is that dimension in quarters |
| `Select.ApplyFamilyConstraints` | src/routing/select.rs:180-210 | floor, ceiling and explicit family in that order give the nearest family inside compatible bounds, the explicit one winning; a conflict is recorded exactly for a floor above the ceiling |
| `Select.ApplyEffortConstraints` | src/routing/select.rs:212-243 | the same for the effort |
| `Select.SelectRoute` | src/routing/select.rs:248-317 | the inner router with its reassignments computes the declarative decision: score, bounded effort, Ultra gate, family taken over by Ultra, conflicts in order |
| `Route.RouteTask` | src/routing/mod.rs:37-93 | the outer router is the inner decision with the post-score risk floors applied to family and effort |
| `Route.EffortHysteresisMonotone` | src/routing/select.rs:138-178 | a higher score never gives a lower effort, for every prior and margin |
| `Route.FamilyHysteresisMonotone` | src/routing/select.rs:83-136 | higher dimensions and score never give a lower family rank, for every prior and margin |
| `Route.RouteMonotone` | src/routing/mod.rs:37-93 | raising any of the seven dimensions never lowers the final effort or family rank, for all weights, bounds, calibration, prior, margin and explicit choices |
| `Route.CalibrationMonotone` | src/routing/select.rs:38-79 | a higher calibration never lowers the final effort or family rank |
| `Route.HysteresisKeepsFamilySafe` | src/routing/select.rs:105-136 | a prior never retains a family weaker than the high-risk dimensions allow |
| `Route.RiskyDimensionsForceTheFamily` | src/routing/select.rs:83-136 | without a family ceiling or explicit family, a high-risk dimension of 2 rules out Luna and one of 3 everything below rank 2, whatever prior, margin, calibration and floors say |
| `Route.FamilyIsLightestFit` | src/routing/select.rs:83-103 | the automatic family is the lightest whose score limit and risk limit the task keeps |
| `Route.PriorFamilyIsKeptExactlyWhen` | src/routing/select.rs:105-136 | a prior family is kept if and only if it is selected anyway, or the score lies within the margin of the boundary between the two and keeping it is safe; otherwise the selected one is taken |
| `Route.TerraIsKept` | src/routing/select.rs:105-136 | a concrete session that stays on Terra where a new one gets Sol |
| `Route.RiskEffortFloor` | src/routing/semantic.rs:439-494 | the five tests in the order of the program ask for High if and only if one of them fires |
| `Route.RiskGetsHigh` | src/routing/mod.rs:64-91 | critical, consequential, correlated or uncertain risk, each by its dimensions, gets at least High and family rank 2 when nothing explicit and no ceiling stands against it |
| `Route.RiskRaisesOnlyToHigh` | src/routing/mod.rs:64-91 | the floors raise to exactly High and Sol what was below, and raise nothing when none of those risks is present |
| `Route.EscalationYields` | src/routing/mod.rs:64-91 | an explicit family or effort, or a ceiling below the floor, is never escalated |
| `Route.ExplicitEffortWins` | src/routing/select.rs:212-299 | an explicit effort is the final effort, except that unauthorised Ultra becomes Max |
| `Route.EffortFloorHolds` | src/routing/mod.rs:64-91 | without an explicit effort, an effort floor holds to the end, except that unauthorised Ultra becomes Max |
| `Route.EffortCeilingHolds` | src/routing/mod.rs:64-91 | without an explicit effort, a compatible effort ceiling holds to the end, risk floors and the Ultra path included |
| `Route.FamilyFloorHolds` | src/routing/mod.rs:64-91 | without an explicit family, a family floor holds to the end |
| `Route.FamilyCeilingYieldsOnlyToUltra` | src/routing/select.rs:261-299 | a compatible family ceiling is exceeded if and only if an automatic Ultra path takes the family and the ceiling lies below Sol |
| `Route.ExplicitFamilyYieldsOnlyToUltra` | src/routing/select.rs:271-287 | an explicit family is final unless the task is an Ultra candidate without an explicit effort, when it becomes Sol |
| `Route.ConflictsRecordedExactly` | src/routing/select.rs:180-243 | each floor-and-ceiling conflict is recorded if and only if the floor stands above the ceiling |
| `Route.UltraNeedsAuthorization` | src/routing/select.rs:271-299 | Ultra is recommended only when authorised, whatever floors, ceilings or explicit choices ask for |
| `Route.UltraExactlyWhen` | src/routing/select.rs:261-299 | Ultra is the result if and only if it is authorised and either chosen, or without a chosen effort demanded by a floor or proposed for a large parallel task under no compatible lower ceiling |
| `Route.UnauthorisedUltraIsMax` | src/routing/select.rs:271-299 | a large parallel task without authorisation, bounds and choices gets Max on Sol |
| `Route.DecisionReportsUltra` | src/routing/select.rs:288-317 | the decision records candidacy, selection and, as a conflict, Ultra that was chosen or demanded by a floor without authorisation, each if and only if |
| `Route.CalibrationBounded` | src/routing/select.rs:38-79 | no calibration moves the score by more than its size, out of 0..100, across the Max boundary upwards, or upwards for documentation and mechanical work; what the score is says `Route.CalibrationReachesTheScore` |
| `Route.CalibrationReachesTheScore` | src/routing/select.rs:38-79 | the score of the decision is the one in its range nearest to base plus calibration: up to 84 for an upward calibration of work that may be raised, which documentation, mechanical work and scores from 85 are not, and up to 100 downwards |
| `Route.CalibrationChangesTheEffort` | src/routing/select.rs:38-79 | +5 turns the Medium of a concrete task into High and -5 the High of another into Medium |
| `Route.CalibrationNeverCreatesMax` | src/routing/select.rs:38-79 | from a base score below 85 no calibration yields Max or Ultra unless explicit effort, floor, Ultra candidacy or a retained prior Max demands it; those demands ignore the calibration |
| `Hysteresis.EffortCountsBoundaries` | src/routing/select.rs:138-146 | the automatic effort is Low plus one level for each of the boundaries 20, 45, 68 and 84 the score has passed |
| `Hysteresis.BandRetains` | src/routing/select.rs:150-178 | inside the band the level never changes, and a change means the score is clear of the band on the other side |
| `Hysteresis.NoFlapping` | src/routing/select.rs:150-178 | over any run that feeds each level back as prior within two adjacent bands, f changes cost a score variation of at least (f - 1)(2m + 2) |
| `Rules.Tighten` | src/routing/rules.rs:135-158 | one more matched rule keeps the aggregate equal to the strongest floors and strictest ceilings of all matched rules |
| `Rules.Evaluate` | src/routing/rules.rs:95-209 | the fold returns the matched rules in order, the saturating sum of their deltas, the strongest floors and strictest ceilings, and exactly the conflicts between them |
| `Rules.HitPositionsAreExact` | src/routing/rules.rs:95-122 | the hit positions are exactly the positions of the rules that hit, in ascending order |
| `Rules.MatchedInOrder` | src/routing/rules.rs:95-122 | the matched rules are the rules at the hit positions, each once, in the order of the configuration |
| `Rules.RuleMovesItsDimensions` | src/routing/rules.rs:123-134 | one more matched rule moves each of the seven dimensions by its own delta as far as the range 0..4 allows |
| `Rules.BoundsIgnoreOrder` | src/routing/rules.rs:123-195 | the four aggregate ranks and the recorded conflicts do not depend on the order or repetition of the matched rules |
| `Rules.DeltasDependOnOrder` | src/routing/rules.rs:123-134 | the dimensions do depend on the order: saturation after each rule is not commutative |
| `Rules.ContradictionsRecordedTwice` | src/routing/rules.rs:173-195 | with the rules' bounds, both conflict records appear if and only if floor exceeds ceiling, and neither otherwise |
| `Features.ExtractPaths` | src/routing/features.rs:482-509 | the early-stopping scan returns exactly the first 32 distinct path-like tokens of the whole prompt |
| `FirstStage.PathsAreExact` | src/routing/features.rs:482-509 | the paths of a prompt are distinct, at most 32, read as paths of at most 512 bytes without a scheme, and have nothing left to strip |
| `FirstStage.WrappedPathIsFound` | src/routing/features.rs:482-509 | every path that some word of the prompt holds between quotes, brackets and punctuation is among them unless there are 32 |
| `Features.RaiseForShape` | src/routing/features.rs:278-322 | the step-by-step raises for task shape equal one floor per dimension, joined |
| `Features.RaiseForRisk` | src/routing/features.rs:323-433 | the step-by-step raises for risk and parallel work equal one floor per dimension, joined |
| `Features.LowerDimensions` | src/routing/features.rs:435-444 | the documentation budget guarded by a zero runtime score is the one guarded by the signals: no diagnosis, repair or live context |
| `Features.ExtractFeatures` | src/routing/features.rs:56-480 | the first stage as it runs equals the declarative assessment, the empty prompt included |
| `Features.FirstTaskType` | src/routing/features.rs:446-465 | for each task type the exact condition on the signals, the earlier signal winning |
| `FirstStage.EvidenceIsExact` | src/routing/features.rs:56-99 | reproduction, completion, delegation, tracks and vagueness are found if and only if the prompt says so |
| `FirstStage.EmptyExactlyWhenWhite` | src/routing/features.rs:56-84 | a prompt is the empty task if and only if every character of it is white space; it then holds no evidence and the default scores |
| `FirstStage.TypeIsExact` | src/routing/features.rs:446-465 | for each task type the exact condition on what the prompt says |
| `FirstStage.RiskIsExact` | src/routing/features.rs:278-444 | cost, runtime and verification, level by level, if and only if the prompt says what demands that level and is no plain documentation |
| `FirstStage.ShapeIsExact` | src/routing/features.rs:258-444 | scope, depth and parallel work, level by level, from what the prompt asks for, its length and its number of paths |
| `FirstStage.AmbiguityIsExact` | src/routing/features.rs:264-444 | ambiguity, level by level, from research, audits, diagnoses, reproductions and completion conditions |
| `Semantic.RaiseForBreadth` | src/routing/semantic.rs:347-394 | the correction raises for breadth equal one floor per dimension, joined |
| `Semantic.RaiseForVolume` | src/routing/semantic.rs:395-419 | the raises for several actions, many paths, long and vague prompts equal one floor per dimension, joined |
| `Semantic.CorrectAssessment` | src/routing/semantic.rs:331-437 | the second stage's in-place correction equals retyping, raising and narrow-mechanical lowering in that order |
| `SecondStage.RefinedTypeIsExact` | src/routing/semantic.rs:331-346 | the task type after the second stage is the first that the prompt speaks of, and that of the first stage if and only if it speaks of none |
| `SecondStage.RefinedRiskIsExact` | src/routing/semantic.rs:347-434 | cost and runtime after the second stage reach a level if and only if they had it or the prompt demands it and the work is no small mechanical change |
| `SecondStage.RiskByShape` | src/routing/semantic.rs:347-434 | cost and runtime, level by level, from the shape of the work |
| `SecondStage.BreadthByShape` | src/routing/semantic.rs:347-434 | scope and depth, level by level, from breadth, number of paths and number of kinds of work |
| `SecondStage.OpennessByShape` | src/routing/semantic.rs:347-434 | ambiguity and parallel work, level by level, from improvement, vagueness and number of kinds of work |
| `SecondStage.VerificationByShape` | src/routing/semantic.rs:331-434 | verification, level by level, a weak completion condition taking one point back first |
| `SecondStage.GroupsAreKinds` | src/routing/semantic.rs:46-81 | the number of action groups is the number of different kinds of work the prompt asks for |
| `Semantic.RefineFeatures` | src/routing/semantic.rs:83-437 | the second stage takes no evidence of the first back; a dimension other than verification falls if and only if the work is narrow mechanical and the dimension above its budget, verification only then or by one for a weak completion condition, parallel work never |
| `Semantic.FailureSymptomIsSignal` | src/routing/semantic.rs:140-166 | every prompt with a failure symptom in the first stage carries the diagnosis signal of the second: its needles include the first's |
| `Pipeline.ApplyBudgets` | src/routing/task_budget.rs:20-52 | the third stage changes only dimensions and is idempotent; each falls if and only if the text asks for a plain explanation and the dimension is above its budget, and only the ambiguity of an open diagnosis rises, to 3 |
| `Pipeline.BudgetsAreExact` | src/routing/task_budget.rs:20-52 | a documentation task that asks what the project is stays within its budget, the ambiguity of a diagnosis without a completion condition is at least 3, and nothing else changes |
| `Pipeline.Assess` | src/routing/mod.rs:28-35 | through all stages the first one's evidence is kept, parallel work never falls, and cost and runtime fall below the first stage if and only if the result is a plain explanation or narrow mechanical work |
| `Pipeline.FailureIsNotEmpty` | src/routing/features.rs:216-256 | a prompt with a failure symptom is never an empty task, given that letters are not white space |
| `Pipeline.DiagnosisIsNeverLowered` | src/routing/semantic.rs:421-434 | no lowering of the second and third stage touches cost or runtime of a signalled diagnosis |
| `Pipeline.LiveFailureKeepsRisk` | src/routing/features.rs:323-331 | a failure symptom in an operational context keeps cost and runtime at 3 or more through all three stages |
| `Pipeline.LiveFailureRoutesHigh` | src/routing/mod.rs:37-93 | such a prompt, whatever else it says, ends with family rank 2 and at least High, for all weights, calibrations, priors, margins and floors, when nothing explicit and no ceiling stands against it |
| `Pipeline.NeutralDimensions` | src/routing/features.rs:258-267 | a prompt that fires no signal is Coding with dimensions between the defaults and a fixed bound, whatever its length, paths and vagueness |
| `Pipeline.NeutralRoutesToTerraMedium` | src/routing/mod.rs:28-93 | every non-empty prompt that matches none of the feature needles routes, by default, to exactly Terra and Medium |
| `Capabilities.RecognizedIffSameName` | src/codex/capabilities.rs:26-37 | a listed effort means a level if and only if it is that level's native name up to case |
| `Capabilities.StrongestIsStrongest` | src/codex/capabilities.rs:39-51 | the fallback effort is listed, recognised, within the limit, and no listed one within the limit is stronger |
| `Capabilities.LastSpellingIsTaken` | src/codex/capabilities.rs:39-51 | among equally strong spellings the fallback is the one listed last |
| `Capabilities.SupportsIffListed` | src/codex/catalog.rs:62-66 | an effort is supported literally if and only if the model lists a recognised name of that level |
| `Capabilities.ResolvedOnModel` | src/codex/capabilities.rs:118-153 | the resolved level never exceeds the request, equals it if and only if the model supports it, and is otherwise the strongest listed level below it, only where downgrades are allowed |
| `Capabilities.ResolvesExactlyWhen` | src/codex/capabilities.rs:107-180 | a listed model resolves if and only if it fits the launch mode, lists the request or, with downgrades allowed, a level below it, and advertises Fast when asked for |
| `Capabilities.FamilyIsResolved` | src/codex/capabilities.rs:95-106 | without a named model the preset is of the requested family, on its first listed model that is not hidden, and the family is unavailable if and only if there is none |
| `Capabilities.NamedModelIsResolved` | src/codex/capabilities.rs:53-94 | a named model resolves to a listing of it; an unlisted one only when explicit and below Max, and then literally |
| `Capabilities.RefusalsAreExact` | src/codex/capabilities.rs:107-156 | for each refusal of a listed model the exact condition |
| `Capabilities.ResolvedTier` | src/codex/capabilities.rs:157-182 | Fast launches an advertised tier, Fast-off `default`, inheriting none |
| `Capabilities.FastTierExactlyWhen` | src/codex/capabilities.rs:154-182 | a Fast launch takes the first tier listed as fast or priority, else `priority` where the fast speed is listed, and is refused if and only if neither is |
| `Capabilities.StrongPresetsAreProven` | src/codex/capabilities.rs:53-200 | a preset at Max or Ultra is always listed by the model it was resolved on, and none exceeds its request, on every resolution path; which model that is says `Capabilities.FamilyIsResolved` |
| `Capabilities.DowngradeKeepsListedSpelling` | src/codex/capabilities.rs:118-153 | a model that lists only `High` resolves an ExtraHigh request, where it may be lowered, to the native effort `High` |
| `Resolve.ResolvePrepared` | src/application/route.rs:226-413 | contradictory choices are refused; otherwise rules, constraint assembly, router and catalog compose to the declarative outcome |
| `Resolve.UltraEndToEnd` | src/application/route.rs:279-357 | a selected preset is Ultra only if authorised and listed; Max is listed too; no preset is stronger than the decision; the Ultra flag tells the preset's level |
| `Resolve.NamedModelIsLaunched` | src/application/route.rs:331-357 | a model named by the user is the model launched, up to the case of its listed identifier |
| `Resolve.DecidedFamilyIsLaunched` | src/application/route.rs:331-357 | a routed prompt without a named model is launched on the first visible model of the family that was decided |
| `Resolve.FastChoiceIsLaunched` | src/application/route.rs:106-116 | a forwarded tier first, then the flags, then the configuration decide between an advertised Fast tier, `default` and no tier |
| `Invocation.AcceptedExactlyWhen` | src/application/route.rs:130-162 | an invocation is accepted if and only if it names at most one of model and family, agrees wherever it names a value twice, and forwards no tier beside a Fast flag |
| `Invocation.NamedRouteIsDecided` | src/application/route.rs:249-279 | a named effort is decided, and beside it a named family or the family of a named model; without a prompt the configured ones |
| `Invocation.NamedFamilyIsDecided` | src/application/route.rs:249-279 | a named family alone is decided unless the task is an Ultra candidate, which goes to Sol |
| `Invocation.ModelIsLaunched` | src/application/route.rs:331-340 | cauto's own model is launched before a forwarded one, and without a prompt the configured one |
| `Invocation.UnlistedModelIsLaunched` | src/application/route.rs:331-357 | an unlisted model is launched as named, with the decided effort below Max and no tier, and refused from Max on; an unlisted configured model is refused |
| `Invocation.SourceIsExact` | src/application/route.rs:380-390 | the route counts as explicit if and only if a model, family or effort is named or forwarded |
| `Invocation.UltraIsDecidedExactlyWhen` | src/application/route.rs:280-294 | without a named effort and bounds Ultra is decided if and only if the task scores 69 before calibration, has parallel work of 3 in tracks that the prompt or two matched rules speak of, and flag, prompt, instructions or configuration allow it |
| `Invocation.CalibrationIsUsed` | src/application/route.rs:241-245 | the repository's calibration reaches the score of the decision |
| `Invocation.PriorRouteIsUsed` | src/application/route.rs:241-245 | with nothing named, no bounds and no risk, the decision is the score with the repository's previous route and margin |
| `Invocation.RiskIsEscalated` | src/application/route.rs:317-330 | a risky task gets at least High and a family of rank 2 where nothing is named and no rule sets a ceiling |
| `Invocation.RuleBoundsHold` | src/application/route.rs:236-245 | where nothing is named, a floor or ceiling of the matched rules without its opposite holds of the decision |
| `Invocation.ModeIsSupported` | src/application/route.rs:344-357 | a prompt without a named model is launched on a model that supports the mode of the launch |
| `Invocation.DowngradesNeedConsent` | src/application/route.rs:344-357 | a weaker effort than decided is launched only with the flag or, with neither model nor effort named, the configuration; each refusal tells which consent was missing |
| `Invocation.OnlyMissingIsInjected` | src/application/route.rs:375-379 | model, effort and tier are injected if and only if they were not forwarded, the tier only when the preset has one |
| `Invocation.LaunchReadsBack` | src/application/route.rs:358-379 | the promptless launch of a resolved route reads back as each forwarded override where there is one and the resolved value otherwise |
| `Resolve.ExplicitEffortIsLiteral` | src/application/route.rs:226-357 | an effort the user asked for is launched literally or refused unless a downgrade was allowed; nothing else in the pipeline changes it |
| `Resolve.LunaIsOverridden` | src/routing/select.rs:280-287 | an invocation with an explicit Luna on a live audit in several tracks is decided as Sol and Max |
| `Args.InspectForwarded` | src/codex/args.rs:51-106 | the skip-two index loop is the left-to-right scan, missing values included |
| `Args.ScanConcatenates` | src/codex/args.rs:51-106 | where the scan of a prefix ends on its boundary, scanning a concatenation continues from the prefix's overrides |
| `Args.LastWins` | src/codex/args.rs:51-106 | scanning xs ++ ys is fieldwise last-wins over the two scans, effort keyed by its raw text |
| `Args.QuotedConfigReadsBack` | src/codex/args.rs:20-49 | a quoted configuration assignment is inspected back to the same value under the TOML string round trip |
| `Launch.MaterializeArgs` | src/codex/launch.rs:16-46 | the pushes produce placement, model, effort, tier, profile, inherited and prompt arguments in that order |
| `Launch.ScanOwn` | src/codex/launch.rs:16-46 | the arguments that cauto itself adds scan back to exactly what the policy injected |
| `Launch.EffectiveOverrides` | src/application/route.rs:358-379 | scanning the promptless launch arguments under the derived policy gives each native override where forwarded and the plan's model, effort and tier otherwise |
| `Launch.LaunchLayout` | src/codex/launch.rs:16-46 | `exec` comes first exactly in exec mode, then the directory; the user's arguments and then the prompt come last |
| `Launch.ModelAndProfileAreRead` | src/codex/args.rs:60-95 | a model or profile is found under each of its three spellings |
| `Launch.AssignmentsAreRead` | src/codex/args.rs:33-97 | a configuration assignment is read under each of its three spellings into exactly the field of its key, white space around both sides ignored |
| `Launch.BareAssignmentsAreRead` | src/codex/args.rs:98-102 | the three keys are also read as bare assignments |
| `Launch.OtherTextOverridesNothing` | src/codex/args.rs:92-103 | any other text that starts with no dash overrides nothing |
| `Launch.ValuesAreRequired` | src/codex/args.rs:51-90 | a flag without a value is an error, and a value that is no text is skipped with its flag |
| `Shell.ReadArgument` | src/codex/launch.rs:48-59 | one printed argument is read by the shell rules as exactly the argument, whatever follows it |
| `Shell.PreviewReadsBack` | src/codex/launch.rs:48-67 | tokenising the preview by shell quoting returns exactly the program and its arguments |
| `Wire.RewriteTurnParams` | src/application/agent.rs:256-282 | the in-place rewrite sets model, effort, tier and the collaboration settings and touches nothing else |
| `Wire.Rewritten` | src/application/agent.rs:256-282 | the rewritten parameters member by member: what is set, removed, kept and left alone, for every shape of collaboration settings |
| `Wire.RewrittenReadsBack` | src/application/agent.rs:233-282 | for every params shape, parsing a rewritten turn gives the written model and the parsed effort |
| `Wire.SettingsTakePrecedence` | src/application/agent.rs:233-254 | a model or effort inside the collaboration settings counts before the one at top level, even when it is malformed; the top-level one counts when the settings hold none |
| `Wire.RewritingIsIdempotent` | src/application/agent.rs:256-282 | rewriting a rewritten turn to the same route changes nothing |
| `AgentRouter.AgentRouter.RecordFeedback` | src/application/agent.rs:376-411 | one event at most per decision: it is appended, marked and followed by a recalibration from the whole log, or nothing changes |
| `AgentRouter.AgentRouter.Recalibrate` | src/application/agent.rs:395-404 | loads the store, analyses the log for the repository and saves its recommendation |
| `AgentRouter.OnlyFeedbackCalibrates` | src/application/agent.rs:392-404 | without feedback, or without usable files, a message leaves the calibrations alone, and with both it touches one repository |
| `AgentRouter.AgentRouter.ApplySettings` | src/application/agent.rs:443-468 | a settings update is taken into an initialised thread, service tier and Explicit source included, or waits for its first turn |
| `AgentRouter.AgentRouter.ApplyIncoming` | src/application/agent.rs:607-642 | a later turn moves only values that differ from the pin and that the command line does not pin |
| `AgentRouter.AgentRouter.NoteExplicitRoute` | src/application/agent.rs:413-494 | a settings update changes state, log and calibrations exactly as specified, command-line pins filtered first |
| `AgentRouter.AgentRouter.KeepSessionRoute` | src/application/agent.rs:592-694 | a follow-up turn is rewritten to the pin and its feedback recorded exactly as specified |
| `AgentRouter.AgentRouter.PinUnclassifiedSession` | src/application/agent.rs:696-719 | a first turn without text pins the route Codex sent |
| `AgentRouter.AgentRouter.RouteInitialTurn` | src/application/agent.rs:496-590 | a first text turn consumes the waiting route, is routed, rewritten or kept, and becomes pending only when it has an identifier; which model and effort it is routed with says `AgentTurns.ChosenRouteIsUsed` |
| `AgentRouter.AgentRouter.CommitTurn` | src/application/agent.rs:721-785 | an accepted turn logs its decision and installs the pin; a rejected one only stops being pending |
| `AgentRouter.AgentRouter.NoteResumeResponse` | src/application/agent.rs:787-814 | a resumed thread is pinned to its stored route as native-preserved |
| `AgentRouter.AgentRouter.HandleClient` | src/application/agent.rs:826-893 | every client message has exactly the specified effect on maps, forwarded message, log and calibrations |
| `AgentRouter.AgentRouter.HandleServer` | src/application/agent.rs:895-907 | every server message has exactly the specified effect; outstanding resumes are matched before turns |
| `AgentProperties.OtherThreadsUntouched` | src/application/agent.rs:817-907 | a message that does not address a thread leaves all of its state alone |
| `AgentProperties.PinMovesOnlyForCause` | src/application/agent.rs:413-907 | an initialised thread stays so, and its pin moves only by a differing unpinned value in its own message or by a response to its own request |
| `AgentProperties.CommandLinePinsHold` | src/application/agent.rs:418-427 | a model or effort pinned on the command line is moved by no client message |
| `AgentProperties.PinIsStableOverRuns` | src/application/agent.rs:817-907 | over every interleaved run the thread stays initialised, and without an entitled message its pin is the same at the end |
| `AgentProperties.ThreadsAreIsolatedOverRuns` | src/application/agent.rs:817-907 | a run that never addresses a thread leaves every field of it alone |
| `AgentProperties.FollowUpsCarryThePin` | src/application/agent.rs:655-678 | every follow-up with a pinned model is forwarded with exactly that pin, at top level and in any collaboration settings object, the rest unchanged |
| `AgentProperties.FollowUpTierAgreesExactlyWhen` | src/application/agent.rs:640-678 | the tier on a follow-up's wire is the thread's if and only if it is not the case that the command line pins the tier, the thread holds none and Codex sends one |
| `AgentProperties.OnlyTurnsAreRewritten` | src/application/agent.rs:826-907 | every message that is not a turn of a thread is forwarded unchanged |
| `AgentProperties.RefusedAndKeptTurnsAreForwarded` | src/application/agent.rs:524-553 | a first turn that routing refuses, whose own route it keeps, or that has no text is forwarded unchanged |
| `AgentProperties.RequestsStayOutstanding` | src/application/agent.rs:895-907 | over every run that neither settles nor reuses an identifier, what is outstanding under it stays |
| `AgentProperties.AcceptedTurnPinsTheWire` | src/application/agent.rs:496-785 | over every run in between that does not reuse the turn's identifier while it is in flight, accepting a first turn pins its thread to the model that went over the wire, and to the effort, on a preserved turn if and only if Codex sent one |
| `AgentTurns.ChosenRouteIsUsed` | src/application/agent.rs:496-553 | a model or effort that a settings update chose before the first turn, left alone by the run in between, is what that turn is routed, forwarded and left outstanding with; where the command line pins one, the command line's is |
| `AgentTurns.UpdateWaits` | src/application/agent.rs:443-468 | before the first turn a settings update keeps waiting exactly what it names and the command line leaves free |
| `AgentTurns.RouteIsKeptExactlyWhen` | src/application/agent.rs:524-553 | a first turn keeps Codex's route if and only if it names a model and evidence is thin or the repository another |
| `AgentTurns.KeptRouteIsCodexRoute` | src/application/agent.rs:524-553 | a kept route with an effort is pinned as a first turn without text would pin it |
| `AgentTurns.KeptRouteWithoutEffort` | src/application/agent.rs:524-553 | a kept route without an effort is pinned to the listed default of its model, else Medium |
| `AgentTurns.LoggedDecisionIsThePin` | src/application/agent.rs:721-785 | the decision that acceptance logs and the pin it installs agree in every field |
| `AgentTurns.ResumeTakesStoredRoute` | src/application/agent.rs:787-814 | a resumed thread takes over what its stored route names and nothing else, as a route that is not cauto's |
| `AgentTurns.FailedResumeChangesNoThread` | src/application/agent.rs:787-814 | a failed or empty resume settles its request and changes no thread |
| `AgentTurns.PromptIsTheTextItems` | src/application/agent.rs:147-157 | the prompt of a turn is its text items joined by line breaks; other items are none of it |
| `AgentProperties.UndoingAChangeReversesItsFeedback` | src/application/agent.rs:207-231 | undoing a change of model and effort counts as feedback the other way, undoing an ambiguous one as none; which way a change counts says `AgentFeedback.UpdateIsLearned` |
| `AgentFeedback.UpdateIsLearned` | src/application/agent.rs:435-494 | a settings update of a thread that may learn logs exactly one event, underpowered if and only if family or effort of its pin rises and neither falls, overkill if and only if one falls and neither rises, and nothing otherwise |
| `AgentFeedback.FollowUpIsLearned` | src/application/agent.rs:599-694 | a follow-up of such a thread logs the same by how its pin moves, otherwise the correction its prompt expresses, otherwise nothing |
| `AgentFeedback.UpdateIsIgnored` | src/application/agent.rs:376-391 | a settings update of a thread that may not learn, or whose event cannot be written, logs nothing |
| `AgentFeedback.FollowUpIsIgnored` | src/application/agent.rs:376-391 | nor does such a turn |
| `AgentFeedback.OnlyOwnMessagesAreLearned` | src/application/agent.rs:817-907 | events are logged for turns and settings updates of a thread only |
| `AgentTurns.FollowUpPinIsExact` | src/application/agent.rs:592-654 | a follow-up moves a held model, a held effort and the tier to what it carries where the command line leaves each free, and nothing else |
| `AgentTurns.UpdatePinIsExact` | src/application/agent.rs:413-468 | a settings update of a started thread takes each model and effort it names that the command line leaves free, the tier beside one, and makes the route explicit |
| `AgentTurns.TextlessTurnPinsItsRoute` | src/application/agent.rs:696-719 | a first turn without text starts its thread on the route it carries, as native-preserved, and is forwarded as it is |
| `AgentProperties.EchoChangesNothing` | src/application/agent.rs:607-636 | an echo of the pin leaves it alone if and only if the effort is command-line pinned or canonically written, and never counts as a route change when level and native value agree |
| `AgentProperties.NonCanonicalEchoMovesThePin` | src/application/agent.rs:614-636 | a native effort listed as `High` is a concrete case where the echo moves the stored value |
| `AgentProperties.SettingsUpdateMovesTierExactlyWhen` | src/application/agent.rs:413-468 | a settings update leaves its thread's service tier alone if and only if the thread is not initialised, or no unpinned route is named, or no new tier is sent; a pinned tier makes no difference |
| `AgentProperties.PreservationEndsExactlyWhen` | src/application/agent.rs:435-468 | given a fresh decision identifier, a thread stops counting as native-preserved while it keeps its decision if and only if the message is its own settings update naming an unpinned route |
| `AgentProperties.SettingsUpdateReopensNativeDecisions` | src/application/agent.rs:435-468 | a settings update lets a later correction be logged against a native-preserved decision, which was impossible before it |
| `AgentProperties.RejectedTurnConsumesTheRoute` | src/application/agent.rs:508-509 | after a rejected first turn nothing of the waiting explicit route is left |
| `Witnesses.NativeDecisionReceivesFeedback` | src/application/agent.rs:435-468 | a run from the start (preserved first turn, acceptance, settings update, correction) logs an event against a native-preserved decision |
| `Witnesses.TierPassesThrough` | src/application/agent.rs:640-678 | a run with a forwarded tier from the start in which a follow-up carries a tier the thread does not hold |
| `Witnesses.SettingsUpdateMovesPinnedTier` | src/application/agent.rs:443-468 | a run with --no-fast from the start in which a settings update moves the tier to `priority` |
| `Witnesses.EchoMovesListedSpelling` | src/application/agent.rs:614-636 | a run from the start in which an echo of the pinned `High` moves the pin to `high` |
| `Witnesses.RejectionLosesChosenRoute` | src/application/agent.rs:508-509 | a run from the start in which a route chosen before the first turn is gone after its rejection |
| `Witnesses.ChangedEffortIsLearned` | src/application/agent.rs:207-231 | a run from the start in which a thread on Terra and Medium that is asked for high effort logs underpowered, and for low effort overkill |
| `Tuning.CollectDecisions` | src/state/tuning.rs:206-240 | the first pass maps each identifier to its last record |
| `Tuning.CountFeedback` | src/state/tuning.rs:241-278 | the second pass yields, for every repository, the declarative counts, and an entry exactly for repositories with joined feedback |
| `Tuning.AnalyzeRepository` | src/state/tuning.rs:191-325 | with a filter exactly that repository, otherwise every repository with joined feedback or a calibration, each with its declarative counts and recommendation |
| `Tuning.LoadStore` | src/state/tuning.rs:100-134 | a store loads if and only if it is missing, or has version 1 and every offset within plus or minus ten; it then loads as it is, a missing one as empty |
| `Tuning.CalibrationStore.SaveRecommendation` | src/state/tuning.rs:334-369 | saves an eligible, in-range, differing proposal for its repository and reports the offset before and after; changes and reports nothing otherwise |
| `Tuning.CalibrationStore.ResetRepository` | src/state/tuning.rs:371-384 | removes exactly that repository and reports what was removed |
| `Tuning.CountsIgnoreOrder` | src/state/tuning.rs:206-278 | with unique decision identifiers no permutation of the log lines changes any repository's counts |
| `Tuning.DuplicateIdsDependOnOrder` | src/state/tuning.rs:206-240 | with a repeated identifier the order does change them |
| `Tuning.JoinedLinesAreConserved` | src/state/tuning.rs:241-278 | right, underpowered, overkill, failed, preview-excluded, native-excluded and unrecognised add up to the feedback lines joined to the repository |
| `Tuning.FlippingDownIsExpensive` | src/state/tuning.rs:147-189 | from +5 at e eligible events to -5 on a longer log, overkill grows by at least 4e/3 |
| `Tuning.FlippingUpIsExpensive` | src/state/tuning.rs:147-189 | symmetrically from -5 to +5 |
| `Tuning.ThresholdsExclude` | src/state/tuning.rs:147-189 | the two 70% thresholds exclude each other, so each alone decides its proposal |
| `Tuning.RecommendationIsSaved` | src/state/tuning.rs:334-369 | three eligible events, 70% of them one way, save plus or minus five with the counts they rest on; anything else leaves the store alone |
| `Tuning.StatusIsExact` | src/state/tuning.rs:301-306 | for each status the exact condition on counts and current offset |
| `Tuning.SavingIsIdempotent` | src/state/tuning.rs:334-369 | saving twice is saving once, and touches one repository |
| `Tuning.ReachableOffsets` | src/state/tuning.rs:334-384 | every store reachable from the empty one by saves and resets holds only +5 and -5, and loads back |
| `World.EventsAreDecisions` | src/state/tuning.rs:241-278 | with at most one event per decision, counting events is counting distinct decisions |
| `World.JoinedMeansDecided` | src/state/tuning.rs:241-278 | the join accepts an event if and only if it names a logged decision of the repository that is neither preview nor native-preserved |
| `World.RecommendationIsBacked` | src/state/tuning.rs:147-189 | a recommendation is backed by at least three distinct such decisions pointing its way, at least 70% of the eligible ones |
| `World.BackingIsRecommended` | src/state/tuning.rs:147-189 | conversely, with one event per decision, three decisions and 70% of the eligible ones pointing one way are recommended |
| `World.RepeatedEventsAreNotBacking` | src/state/feedback.rs:74-105 | three events given by hand for one decision recommend a calibration that three decisions do not back |
| `WorldSafety.HandlingKeepsItsOwnBooks` | src/application/agent.rs:376-907 | one message either logs nothing, or logs the one event of a decision its thread holds, or logs a decision its thread then holds |
| `WorldSafety.AnalysisIsBacked` | src/application/agent.rs:395-404 | what an analysis adds to the calibrations it loaded is backed by the log it read |
| `WorldSafety.StepKeepsSound` | src/application/agent.rs:376-785 | every action of every process keeps: unique decisions, one event per decision, each decision held by one thread, every stored or loaded calibration backed |
| `WorldSafety.EveryCalibrationIsBacked` | src/application/agent.rs:376-785 | in every interleaved run without manual feedback from an empty log and store, every saved calibration is plus or minus five and backed by at least three distinct decisions, at least 70% of the eligible ones; no decision gets two events |
| `WorldSafety.AgentRunsWorldSteps` | src/application/agent.rs:392-404 | a message followed by its load, analysis and write, when no other process comes between, leaves exactly the log, calibrations and state that the agent's methods leave in one call |
| `CatalogSafety.StepKeepsLocks` | src/codex/catalog.rs:477-510 | every step of every loader keeps: a lock is held exactly while the holder is between taking it and returning |
| `CatalogSafety.AtMostOneRefreshes` | src/codex/catalog.rs:477-510 | at most one loader holds the refresh lock, and the writer's own lock is then free to take |
| `CatalogSafety.OnlyTheHolderReplaces` | src/cache/atomic.rs:60-121 | the cache file changes only by a rename of the refresh lock's holder |
| `CatalogSafety.StepKeepsFileComplete` | src/cache/atomic.rs:60-121 | after every step the file is absent or one complete envelope, sealed under its own digest, of a discovered, never the built-in, catalog |
| `CatalogSafety.RunsStaySound` | src/codex/catalog.rs:519-669 | locks, complete file and the writers' partial files hold over every run with crashes and failed writes |
| `CatalogSafety.ReadersNeverSeeCorruption` | src/codex/catalog.rs:137-177 | over every run no reader finds a corrupt file, and what a reader finds was discovered for its installation |
| `CatalogSafety.LoadersFallBackOnlyBlind` | src/codex/catalog.rs:519-669 | over every run the built-in catalog or an error is returned only by a loader whose first read found nothing; when a read returns says `CatalogSafety.FirstReadReturnsExactlyWhen`, what else may be returned `CatalogSafety.LoadersReturnHonestly` |
| `CatalogSafety.ReadAcceptsExactlyWhen` | src/codex/catalog.rs:137-177 | a read finds a catalog if and only if the file decodes, has the supported schema, belongs to the installation and carries its own digest; it is stale if and only if it is older than the request allows |
| `CatalogSafety.FirstReadReturnsExactlyWhen` | src/codex/catalog.rs:527-534 | the first read returns if and only if the request is neither forced nor bundled-only and the file belongs to the installation and is current; otherwise the loader waits for the lock |
| `CatalogSafety.FirstReadWaitsWithoutCache` | src/codex/catalog.rs:527-534 | a read that finds no catalog waits, and remembers that it found none |
| `CatalogSafety.LoadersReturnHonestly` | src/codex/catalog.rs:519-669 | over every run an ordinary loader returns a stale catalog only with a notice and then the one it first read; a discovered one was written or says that it was not; a bundled one was asked for or says that the live one failed |
| `CatalogSafety.GivingUpReturnsFirstRead` | src/codex/catalog.rs:554-637 | a loader that gives up returns its first read marked stale, and without one the built-in models of the three families |
| `CatalogSafety.BrokenLockReturnsFirstRead` | src/codex/catalog.rs:540-553 | a lock that cannot be opened serves the first read marked stale, and is an error without one |
| `CatalogSafety.OnlyABusyLockIsGivenUp` | src/codex/catalog.rs:477-510 | a waiting loader gives up only while another one refreshes, and takes the lock exactly when none does |
| `CatalogSafety.VersionIsProbedExactlyWhen` | src/codex/catalog.rs:569-588 | a forced refresh and a failing version always start the version probe; otherwise the version may be known |
| `CatalogSafety.ProbeIsExact` | src/codex/catalog.rs:589-640 | the live catalog is tried first and the bundled one after it failed, unless only the bundled one may be; what is found is stored under its own source and version |
| `CatalogSafety.NoTemporaryIsLeft` | src/cache/atomic.rs:60-121 | over every run without a crash every temporary file belongs to a loader that is still writing it |
| `CatalogSafety.LockedLoaderStartsNoProbe` | src/codex/catalog.rs:563-568 | an ordinary loader that holds the lock over a compatible current cache starts no child process in any run and can only return that cache |
| `CatalogSafety.SecondReadReturnsExactlyWhen` | src/codex/catalog.rs:563-568 | the second read returns if and only if the file belongs to the same installation and is current, or for a forced refresh newer than the first read |
| `CatalogSafety.MissesShareOneDiscovery` | src/codex/catalog.rs:519-669 | among any number of concurrent misses at most one more loader runs a child process than fails or dies after running one |
| `TwoHomes.TwoHomesDiscoverTwice` | src/codex/catalog.rs:563-568 | a run in which two concurrent misses from different Codex homes both probe and both write, although neither fails and no time passes |
| `Tail.LatestRoute` | src/state/decision_log.rs:100-168 | the backward loop with early exit returns the newest match among the lines kept of the last 256 KiB |
| `Tail.KeptLinesAreWhole` | src/state/decision_log.rs:125-140 | the lines looked at are the last lines of the full log, whole: a truncated record is never read |
| `Tail.BoundedLookupRefinesFullScan` | src/state/decision_log.rs:100-168 | the bounded lookup is the full newest-first scan if a line after the discarded prefix matches and None otherwise, and always the full scan when the log fits |
| `Tail.NewestMatchIsFoundExactlyWhen` | src/state/decision_log.rs:119-168 | the newest match of a log, written with its newline and followed by anything that does not match, is found if and only if the log fits or the tail reaches back past the first byte of the match |
| `Tail.BoundaryRecordIsDropped` | src/state/decision_log.rs:134-140 | a last record that with its newline fills the tail of a longer log exactly is not found, though a full scan finds it |
| `Tail.LastDecisionDecides` | src/state/decision_log.rs:141-168 | the route found is that of the last decision of the repository that is no preview, none when its family or effort cannot be read |
| `Report.AddTotals` | src/state/report.rs:150-181 | one decision moves exactly the totals of its mode |
| `Report.AddRoute` | src/state/report.rs:150-184 | one decision moves exactly the route distributions of its mode |
| `Report.AddSums` | src/state/report.rs:177-218 | one launched decision moves exactly the sums it qualifies for |
| `Report.AddFeedback` | src/state/report.rs:226-246 | one event is counted by kind, by source, and under the route of a decision logged before it |
| `Report.BuildReport` | src/state/report.rs:111-248 | the one pass gives for every counter what counting it on its own would give |
| `ReportFacts.TotalsAreExact` | src/state/report.rs:161-182 | each total is the number of records of its mode, a missing or unknown mode counting as legacy |
| `ReportFacts.SumsAreExact` | src/state/report.rs:176-218 | fallbacks, downgrades and generic decisions are the numbers of such records among the started ones, native decisions among the agent's |
| `ReportFacts.ClassifierIsExact` | src/state/report.rs:205-210 | samples, runs and failures of the classifier are counted in started records of the first schema only |
| `ReportFacts.SharesAreExact` | src/state/report.rs:183-195 | each family, effort and source is counted as often as it was started |
| `ReportFacts.RoutesAreExact` | src/state/report.rs:161-183 | each route is counted as often as it was started, taken by the agent, previewed or taken in a legacy mode |
| `ReportFacts.RulesAreExact` | src/state/report.rs:219-224 | each rule is counted as often as started records name it, raising and lowering apart |
| `ReportFacts.LatenciesAreExact` | src/state/report.rs:211-213 | a latency is sampled once for each started record of a later schema that took it, zero never |
| `ReportFacts.EventsAreExact` | src/state/report.rs:226-233 | each kind and each source is counted as often as events with a kind carry it |
| `ReportFacts.EventsAreCountedByRoute` | src/state/report.rs:163-243 | each event is counted under the route that its decision last went before the event, and nowhere else |
| `Figures.ReportConserves` | src/state/report.rs:150-200 | total = launched + preview + legacy; route, family, effort and source distributions each sum to launched; agent routes sum to the agent's decisions, at most the launched ones |
| `Figures.EventsConserve` | src/state/report.rs:226-233 | the distributions of events by kind and by source have the same sum |
| `Figures.FeedbackByRouteConserves` | src/state/report.rs:226-246 | for each kind, the events under routes are those of the distribution less the ones that name no earlier decision |
| `Figures.RateIsNearest` | src/state/report.rs:56-61 | a rate is its share rounded to the nearest basis point; the clamp never bites |
| `Figures.RatesAreShares` | src/state/report.rs:249-267 | every reported rate is taken of a number that includes what it counts |
| `Figures.LatencySummary` | src/state/report.rs:82-97 | p50 and p95 are nearest-rank samples, max the largest sample, p50 <= p95 <= max; no samples give zeros |
| `Figures.TopRules` | src/state/report.rs:67-72 | at most ten distinct rules with their counts, best first, and no rule left out outranks a kept one |
| `Counting.DistributionConserves` | src/state/report.rs:63-65 | the counters of a distribution sum to the number of keys counted |
| `Counting.DistributionCounts` | src/state/report.rs:63-65 | each counter is the number of times its key was counted |

## Left out

- Notices, warnings, reasons, labels, confidence points and human or JSON output: texts that no decision reads.
- JSON, TOML and digest codecs: messages and records are modelled as parsed values, object keys as a datatype of the names the program uses plus all others, and a codec as a pair of functions.
- Text classes: white space and alphanumeric characters are arbitrary predicates; prompts are taken already lower-cased.
- Rule matching by phrase and path automata: which rules match is an arbitrary input to the fold.
- Decisive local evidence and the whole of routing inside the agent: the agent takes an arbitrary function from model, effort and prompt to a resolved route, and an arbitrary predicate for the correction phrases.
- Configuration loading, validation, command-line grammar, repository, git and AGENTS.md reading: their results are the fields of `Resolve.Setup`.
- Spawning processes, sockets and timeouts: outcomes are inputs of a step, and message delivery is in order.
- The catalog that the app server may announce after the agent has started: the agent's catalog does not change during a run.
- Input and output errors other than the ones that are steps or inputs: a loader's reads of an existing cache file succeed, and the version cache is a nondeterministic answer.
- Appends to the log that break off in the middle of a line: a line is appended whole or not at all.
- Permissions and directory creation: a failed directory or lock open is the failing write of the model.
- A temporary file whose removal fails: removing it after a failed write succeeds in the model.
- Line endings other than a single newline, and replacement of malformed UTF-8: part of the arbitrary reading of a log line.
- Names of repositories, timestamps, and the human-readable tuning reasons.
- Average confidence and the per-repository table of the report: the first is one division, the second is `Tuning.AnalyzeRepository`.
- Integer widths: scores, deltas, weights and calibrations carry their bounds in their types and no step leaves them; counters of the log are unbounded.
- Shell.PreviewReadsBack: arguments that are not UTF-8 are not covered, because the preview prints a lossy copy of them.
- Launch.EffectiveOverrides: the plan has no prompt argument, because a prompt is the last positional argument and not an override.
- WorldSafety.EveryCalibrationIsBacked: each message of a process is one atomic step; loading, analysing and writing calibrations are separate steps.
- CatalogSafety.MissesShareOneDiscovery: covers ordinary requests of one installation within one cache lifetime; for forced refreshes, bundled requests and other installations the second read is described exactly by `CatalogSafety.SecondReadReturnsExactlyWhen`.
