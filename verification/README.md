# CRT_Master verification

A Dafny 4.11 model of the parts of CRT_Master whose correctness spans many calls: the prospective capture
archive and its auditor, the capital allocator, the append-only research protocols, the price/time
overbalance measurement, the candidate scoring engine, point-in-time selection, the hash-chained event replay
and the evidence pointers. `dafny verify dfyconfig.toml` checks everything.

## How it is organised

| part | files |
|---|---|
| shared vocabulary, stable sorting, text order, readable encodings, ten-decimal rounding | Common, Sorting, TextOrder, Serial, Rounding |
| capture archive: values and decisions, writer class, invariant, reachable archives, auditor, revision chains | CaptureModel, CaptureWriter, CaptureInvariant, CaptureReachable, CaptureAudit, CaptureAuditor, CaptureAuditPasses, CaptureRevisions |
| capital: budgets, validation, conservation, withdrawn fees, reordering | CapitalModel, CapitalBudgets, CapitalValidation, CapitalSafety, CapitalStability, CapitalReordering, CapitalOrders |
| research protocols over one append-only table | ResearchStore, ForecastModel, ForecastHistory, ForecastDesk, ControlModel, ControlTransfer, ControlDesk, ControlWitness |
| overbalance measurement and its checkpoints | OverbalanceModel, OverbalanceReplay, OverbalanceBuilder |
| scoring and selection | ScoringModel, RobustScore, Aggregation, ScoringEngine, LatestRevision |
| event replay and pointers | HairpinModel, HairpinReplay, JsonPointer |

Each part states the source's logic as functions on values; loops and objects of the source are methods and
classes proved equal to those functions, and the theorems are about the functions, over all inputs or all runs.

## Conventions

- SHA-256 of canonical JSON is injective: either a digest is the value it digests, or it is an arbitrary function
  that a validity predicate requires to be injective. In the event replay it also never equals the genesis value.
- Decimal, float and Fraction values are exact reals, apart from the explicit ten-decimal and cent-floor roundings.
- Clocks are integers in milliseconds. Market calendars, page scraping, archive readers, the checks of reference
  levels, the coordinates read off visible bars and the hyperbolic tangent are arbitrary functions; tanh is only
  assumed to stay in [-1, 1].
- The hypotheses on digests, orders and contracts are met: `CaptureModel.ContractsExist`, `CapitalOrders.RanksExist`,
  `ControlWitness.WorldsExist` and `HairpinReplay.DigestsExist` build what they ask for.
- An exception of the source is an error value that carries the raised code.

## Where the code and its promises differ

- Portfolio positions: an asset without a VALIDATED SELL leg is never checked against its open orders
  (`CapitalSafety.OvercommittedWaitAccepted`); `CapitalSafety.PositionBoundIff` gives the exact condition, the
  account having met the bound before any sale.
- Event sequence: the guard compares event names alphabetically, so some out-of-order cycles pass
  (`HairpinReplay.RecordBeforeCardAccepted`); `HairpinReplay.ReplayedSequence` says exactly which.
- Feature weights: `isclose` weights pass validation and can still raise (`Aggregation.CloseWeightsFail`) or put a
  layer score above 100 (`Aggregation.MixedWeightsOverflow`); `Aggregation.AggregationSafeIff` says exactly when no
  score in range raises, and `Aggregation.ScoresStayInRangeIff` exactly when layers and total stay in range.
- Feature history: a transform with a non-positive minimum raises an uncaught exception on an empty selection instead
  of blocking (`ScoringEngine.EmptyHistoryRaises`); `ScoringEngine.ScoreRaisesIff` says exactly on which observations
  and `ScoringEngine.ScoringCompletesIff` exactly which registries are safe.
- Archive audit: an intact receipt whose bytes no longer parse makes the audit raise instead of reporting BLOCKED
  (`CaptureAudit.StrayReceiptRaises`); `CaptureAuditPasses.AuditArchive` says exactly when. Archives that capture
  cycles write never do (`CaptureAudit.ReachableArchivesAuditClean`, `CaptureAudit.InterruptedLoopBlocked`).
- Latest revision: whether ambiguity is raised depends on row order (`LatestRevision.OrderDecidesAmbiguity`).
  `LatestRevision.EveryOrderReturnsIff` says exactly when every order returns,
  `LatestRevision.SomeOrderReturnsIff` when some order does, and `LatestRevision.OrdersDisagreeIff` when two
  orders disagree.
- Pointers: the empty path and the single empty token encode alike, and array indices may have leading zeros
  (`JsonPointer.PointersDistinct`, `JsonPointer.LeadingZerosAccepted`).
- Control transfer: a reviewed assessment dates its validation by the review clock, not by the frozen validation
  (`ControlTransfer.ReviewedInOrder`, and the run of `ControlWitness.ReviewedRunExists`).

## Model

| member | source | states |
|---|---|---|
| CaptureAudit.ReachableArchivesAuditClean | radar/research/prospective_capture.py:778-1042 | Writer and auditor agree: every archive reached from empty by any sequence of capture cycles, with arbitrary responses and parse results, satisfies every check the auditor makes |
| CaptureAudit.InterruptedCycleBlocked | radar/research/etp_capture_audit.py:219-602 | A reachable archive to which anything was added without a new run report is not clean: with the same run reports, only the reachable archive itself audits clean |
| CaptureAudit.InterruptedLoopBlocked | radar/research/prospective_capture.py:836-984 | A cycle interrupted after any ticker leaves an archive that the auditor reports on rather than raises, and blocks exactly when the cycle had added a file |
| CaptureAudit.StrayReceiptRaises | radar/research/etp_capture_audit.py:460-465 | Under any contracts there is an archive, with one receipt that reads back intact but does not parse, on which the audit raises |
| CaptureAudit.CleanDoesNotRaise | radar/research/etp_capture_audit.py:445-483 | No archive that meets the auditor's conditions makes it raise |
| CaptureAuditPasses.AuditArchive | radar/research/etp_capture_audit.py:219-602 | The audit raises exactly when some receipt reads back intact under the current contracts but its bytes no longer parse; otherwise its five passes record no error exactly on clean archives (no orphan file, every receipt replays, recomputed counts and states match), and the verdict is BLOCKED on every other archive and follows from the reports and receipts present on a clean one |
| CaptureAuditor.AuditRuns | radar/research/etp_capture_audit.py:292-443 | The run-report pass accepts exactly when header, counts, state, manifest and per-ticker references of every report are right, and its dictionaries then answer every reference question of the later passes |
| CaptureAuditPasses.AuditReceipts | radar/research/etp_capture_audit.py:445-483 | The receipt pass raises exactly when the parser does on some intact receipt; otherwise it accepts exactly the receipts that are referenced as written and replay, and collects every raw, identity and artifact they name |
| CaptureAuditPasses.ReplayCaptureReceipt | radar/research/prospective_capture.py:687-739 | A replay restores the stored snapshot, fails with its own exception, or lets the parser's exception through, exactly when each applies |
| CaptureAuditPasses.AuditManifests | radar/research/etp_capture_audit.py:485-529 | The manifest pass accepts exactly manifests that are referenced, valid and list receipted artifacts |
| CaptureAuditPasses.AuditIdentities | radar/research/etp_capture_audit.py:531-570 | The identity pass accepts exactly records that hash, sit at their key and belong to a receipt |
| CaptureAuditPasses.AuditRaws | radar/research/etp_capture_audit.py:572-590 | The raw pass accepts exactly content-addressed files that something names |
| CaptureAuditPasses.ValidateDatasetManifest | radar/research/candidate_acquisition.py:354-465 | The validation loop, shared by writer and auditor, reports no error exactly on valid manifests |
| CaptureAudit.HeldIsClean | radar/research/etp_capture_audit.py:219-602 | The writer's invariant implies every auditor check |
| CaptureReachable.CycleKeeps | radar/research/prospective_capture.py:778-1042 | On an archive that satisfies the invariant a cycle completes exactly when its clock is not negative, keeps the invariant and rewrites no file |
| CaptureReachable.ReachableHeld | radar/research/prospective_capture.py:778-1042 | Every reachable archive satisfies the invariant: content-addressed files, replayable receipts, first-seen identities, cited raw bytes and receipts, consistent reports |
| CaptureReachable.NothingRewritten | radar/research/candidate_acquisition.py:151-181 | Over every run, first-seen metadata and every other stored file stay as first written |
| CaptureReachable.CycleNeverRewrites | radar/research/prospective_capture.py:778-1042 | On any archive whatever, tampered or not, a cycle rewrites and removes no file, also when an exception ends it part of the way through |
| CaptureReachable.ManifestBuilt | radar/research/candidate_acquisition.py:291-339 | The manifest of a cycle's captured results always builds and validates |
| CaptureRevisions.RevisionsFormChains | radar/research/prospective_capture.py:626-652 | With retrieval clocks that increase per ticker, the receipts of each (ticker, session) form one chain ordered by first-seen time in which each link names its predecessor's bytes |
| CaptureRevisions.RefetchAcceptedIffNewest | radar/research/prospective_capture.py:836-1042 | In the report of any capture-due cycle on any reachable archive, whatever the other tickers fetch, archived bytes fetched again for the same session are CAPTURED exactly when they are the newest link of their chain, under the stored content type and with a retrieval clock that does not go back |
| CaptureModel.ContractsExist | radar/research/prospective_capture.py:316-345 | Contracts that meet the hypothesis of the capture theorems exist for any hashes, calendar, clocks and scraper |
| CaptureModel.PriorUnique | radar/research/prospective_capture.py:626-652 | The prior revision is a function of the archive: the greatest (first seen, digest) among other bytes of the session |
| CaptureWriter.CaptureArchive.constructor | radar/research/prospective_capture.py:778-800 | A new archive is empty |
| CaptureWriter.CaptureArchive.StageRaw | radar/research/prospective_capture.py:499-505 | Raw bytes are stored once under their digest; a stored file that does not match its name is refused |
| CaptureWriter.CaptureArchive.FindPriorRevision | radar/research/prospective_capture.py:626-652 | The loop over stored receipts re-reads each of them in listing order and returns the newest other revision, or the exception of the first bad receipt |
| CaptureWriter.CaptureArchive.BindFirstSeen | radar/research/candidate_acquisition.py:151-181 | Create-if-absent: the first identity record is returned, never rewritten, and conflicting metadata is refused |
| CaptureWriter.CaptureArchive.ArchiveArtifact | radar/research/candidate_acquisition.py:184-282 | Arguments are checked, bytes stored once and metadata bound to the first capture |
| CaptureWriter.CaptureArchive.WriteReceipt | radar/research/prospective_capture.py:655-685 | A receipt is stored once under the digest of its content |
| CaptureWriter.CaptureArchive.Promote | radar/research/prospective_capture.py:932-973 | Prior lookup, archive write and receipt write in order; a failure keeps what was already written |
| CaptureWriter.CaptureArchive.CaptureTicker | radar/research/prospective_capture.py:836-984 | One ticker: fetch, parse, stale and future outcomes change nothing but staged bytes; a capture writes identity and receipt; an escaping exception leaves the archive as it was |
| CaptureWriter.CaptureArchive.CaptureTickers | radar/research/prospective_capture.py:836-984 | The ticker loop accumulates results and artifacts over all six tickers, or raises with the files of the tickers before kept |
| CaptureWriter.CaptureArchive.PublishManifest | radar/research/prospective_capture.py:985-1008 | The manifest of the captured artifacts is built, validated and written once |
| CaptureWriter.CaptureArchive.WriteRun | radar/research/prospective_capture.py:773-776 | A run report is stored once under its digest |
| CaptureWriter.CaptureArchive.RunCaptureCycle | radar/research/prospective_capture.py:778-1042 | The whole cycle returns its report or raises the specified exception, and in either case leaves exactly the specified archive behind |
| CapitalSafety.CashNeverOvercommitted | radar/src/crt_radar/capital_decision_closure.py:216-253 | In every accepted portfolio with a VALIDATED independent BUY leg, spend bounds plus open-order commitment and fees, restricted cash and reserve fit in the smaller of cash and settled cash; no proceeds are credited |
| CapitalSafety.PositionsNeverOversold | radar/src/crt_radar/capital_decision_closure.py:879-893 | For every asset sold by an accepted portfolio, all VALIDATED SELL quantities of all items, open SELL remainders and the restriction fit in the confirmed holding |
| CapitalSafety.PositionBoundIff | radar/src/crt_radar/capital_decision_closure.py:262-280 | For every asset of an accepted portfolio, sold or not, the bound holds exactly when the account met it before any sale; with a known account that is exactly when position_available answers for a sale, and when it refuses nothing of the asset is sold |
| CapitalSafety.AvailableIff | radar/src/crt_radar/capital_decision_closure.py:262-280 | position_available answers for a sale exactly on a known account (current observation, complete positions and orders, fresh matching qualification, readable restriction) that is not over-committed |
| CapitalSafety.OvercommittedWaitAccepted | radar/src/crt_radar/capital_decision_closure.py:827-830 | A concrete portfolio that only waits is accepted although the account is known and its open SELL orders exceed the holding |
| CapitalSafety.ItemsCash | radar/src/crt_radar/capital_decision_closure.py:842-893 | Used cash equals the summed bounds of VALIDATED independent BUY legs, and is positive with an available cap when there is one |
| CapitalSafety.ItemsPosition | radar/src/crt_radar/capital_decision_closure.py:879-893 | Used positions cover all VALIDATED sales and never exceed what is available |
| CapitalSafety.EvaluateLegs | radar/src/crt_radar/capital_decision_closure.py:842-897 | The leg loop updates ids, cash and positions as specified and stops at the first rejection |
| CapitalSafety.EvaluateItem | radar/src/crt_radar/capital_decision_closure.py:799-905 | An item is rejected, blocked, validated or a non-trading wait as specified, and hands its accumulators to the next item |
| CapitalSafety.EvaluateItems | radar/src/crt_radar/capital_decision_closure.py:796-905 | The item loop carries cash, positions and leg ids from item to item |
| CapitalSafety.ValidateRecommendation | radar/src/crt_radar/capital_decision_closure.py:783-921 | The validator accepts or rejects a portfolio as specified, with the shared budget checked last |
| CapitalBudgets.CommitOpenOrders | radar/src/crt_radar/capital_decision_closure.py:237-242 | The order loop sums open BUY commitments or reports the first order without a bound |
| CapitalBudgets.NormalizeSpendingCap | radar/src/crt_radar/capital_decision_closure.py:216-253 | The cap is the qualified cash intersection floored to cents, or the first blocking reason |
| CapitalBudgets.CommitForAnalysis | radar/src/crt_radar/broker_capital_observation.py:218-234 | The analysis loop sums BUY commitments and gives up at the first unresolved order |
| CapitalBudgets.ReconcileBudget | radar/src/crt_radar/broker_capital_observation.py:175-254 | The analysis budget that CapWithinAnalysisBudget compares with the executable cap, undefined unless observation, orders and reserve are all resolved |
| CapitalBudgets.CommitmentsAgree | radar/src/crt_radar/broker_capital_observation.py:218-234 | When both loops resolve every order they bind the same cash |
| CapitalBudgets.CapWithinAnalysisBudget | radar/src/crt_radar/capital_decision_closure.py:234-250 | On one observation and reserve the executable cap never exceeds the analysis budget, for every order list and either AvailableFunds convention |
| CapitalModel.CheckObservation | radar/src/crt_radar/broker_capital_observation.py:107-140 | An AVAILABLE observation carries both analysis funds |
| CapitalModel.Remaining | radar/src/crt_radar/capital_decision_closure.py:256-259 | A resolved remainder is the order's own and is not negative |
| CapitalStability.FeeWithdrawal | radar/src/crt_radar/capital_decision_closure.py:774-780 | With at most one fee row per asset and side, withdrawing a row no item cites never rejects an accepted portfolio, blocks the affected BUY legs, takes only the proceeds bound of affected SELL legs and changes no other leg |
| CapitalStability.LegWithdrawn | radar/src/crt_radar/capital_decision_closure.py:842-897 | A withdrawn fee row blocks a BUY leg of its asset, takes only the proceeds bound of a SELL leg, leaves other legs alone, and leaves positions and ids as they were with no more cash used |
| CapitalStability.SourceHashReordered | radar/src/crt_radar/capital_decision_closure.py:74-88 | Reordering instruments, fees, scopes, holdings or open orders leaves the digested source unchanged |
| CapitalStability.ValidationReordered | radar/src/crt_radar/capital_decision_closure.py:783-921 | The same reordering changes nothing in any validation, accepted or rejected |
| CapitalReordering.ItemsReordered | radar/src/crt_radar/capital_decision_closure.py:799 | Reordering the items changes nothing, accepted or rejected |
| CapitalReordering.RecommendationReordered | radar/src/crt_radar/capital_decision_closure.py:799-842 | Reordering items and the legs inside them leaves legs, states and spend of an accepted portfolio unchanged |
| CapitalOrders.RanksExist | radar/src/crt_radar/capital_decision_closure.py:74-88 | Orders of instruments, fee rows, holdings and open orders that separate all of them exist |
| ResearchStore.ObservationStore.constructor | radar/src/crt_radar/observation_store.py:278-286 | A new table is empty and valid: ids are non-empty and distinct |
| ResearchStore.ObservationStore.RecordResearchEvent | radar/src/crt_radar/observation_store.py:320-342 | First write wins, an identical rewrite changes nothing, a different one is refused, and ids stay distinct |
| ResearchStore.ObservationStore.FindRow | radar/src/crt_radar/observation_store.py:330-332 | The lookup by event id returns the one row with that id, or nothing when no row has it |
| ResearchStore.ObservationStore.ResearchEvent | radar/src/crt_radar/observation_store.py:367-378 | A record is found by id and kind together |
| ResearchStore.ObservationStore.LatestResearchEvent | radar/src/crt_radar/observation_store.py:380-384 | The last appended record of a kind |
| ResearchStore.EventKept | radar/src/crt_radar/observation_store.py:320-342 | A record reads the same from every later table |
| ResearchStore.RecordedReads | radar/src/crt_radar/observation_store.py:320-378 | A successful write keeps all earlier rows and can be read back |
| ForecastHistory.RunsLinkAnchors | radar/src/crt_radar/btc_tactical_forecast.py:228-255 | Over every run, the anchor revisions of a PRE are one linked list without repeated ids from its original price anchor, with change times that never decrease |
| ForecastHistory.RunKeeps | radar/src/crt_radar/btc_tactical_forecast.py:108-125 | Every run keeps earlier rows in place and every row justified by the table it was appended to |
| ForecastHistory.FrozenForever | radar/src/crt_radar/btc_tactical_forecast.py:108-125 | A frozen record reads the same after any further operations |
| ForecastHistory.RunsReviewClaims | radar/src/crt_radar/btc_tactical_forecast.py:178-225 | In every reachable store each POST reviews each original claim exactly once, every SUPPORTED or REFUTED verdict cites only usable sources observed late enough, and no SUPPORTED verdict is recorded within seven days of its PRE |
| ForecastHistory.Resubmission | radar/src/crt_radar/btc_tactical_forecast.py:138-175 | An accepted operation submitted again at any later clock, after any other operations, returns the original record and changes nothing |
| ForecastHistory.ClaimsAccepted | radar/src/crt_radar/btc_tactical_forecast.py:155-165 | Accepted claims have distinct ids and targets at least seven days away |
| ForecastDesk.QualifySources | radar/src/crt_radar/btc_tactical_forecast.py:68-90 | The source loop returns each reference's qualification or the first rejection |
| ForecastDesk.CheckClaims | radar/src/crt_radar/btc_tactical_forecast.py:155-165 | The claim loop finds the first bad claim, if any |
| ForecastDesk.CheckReviews | radar/src/crt_radar/btc_tactical_forecast.py:202-220 | The review loop finds the first bad review, if any |
| ForecastDesk.AppendTo | radar/src/crt_radar/btc_tactical_forecast.py:108-125 | Append returns the prior record, refuses a conflict or adds one row |
| ForecastDesk.FreezePreIn | radar/src/crt_radar/btc_tactical_forecast.py:138-175 | Freezing a PRE keeps a justified store justified and its rows in place, reads back under its own hash, and changes nothing when refused |
| ForecastDesk.FreezePostIn | radar/src/crt_radar/btc_tactical_forecast.py:178-225 | Freezing a POST keeps a justified store justified, and its record reviews each claim of the named PRE once on usable evidence; nothing changes when refused |
| ForecastDesk.ReviseAnchorIn | radar/src/crt_radar/btc_tactical_forecast.py:228-255 | An accepted anchor revision keeps a justified store justified and joins the linked anchor list of its PRE; nothing changes when refused |
| ForecastDesk.ReadPreIn | radar/src/crt_radar/btc_tactical_forecast.py:128-135 | A PRE is read only under its own content hash |
| ControlTransfer.RunsReviewInOrder | radar/src/crt_radar/btc_control_transfer_validation.py:472-562 | After any run, a reviewed result comes from strictly ordered events: reference window, its freeze clock, candidate formation, post-C window, frozen validation clock, review window; the candidate window too ends before formation |
| ControlTransfer.ReviewedInOrder | radar/src/crt_radar/btc_control_transfer_validation.py:472-562 | The same for any justified table; the reviewed result's own validation clock is the review's, later than the frozen one |
| ControlTransfer.RunsValidateInOrder | radar/src/crt_radar/btc_control_transfer_validation.py:472-562 | After any run, every VALIDATED result rests on a supporting judgement and on strictly ordered events: reference window, its freeze clock, candidate window and formation, post-C window, reported validation clock |
| ControlTransfer.ValidatedInOrder | radar/src/crt_radar/btc_control_transfer_validation.py:472-562 | The same for any justified table, whether the result is fresh or stored |
| ControlTransfer.Reevaluated | radar/src/crt_radar/btc_control_transfer_validation.py:455-562 | Accepted evidence evaluated again from any later table, at any later clock and with any archive returns the assessment stored first exactly while that archive still holds the candidate and reference windows at their own clocks and the post-C and review windows at the evaluation clock; otherwise it is refused, and nothing is written either way |
| ControlTransfer.MeasuredLater | radar/src/crt_radar/btc_transition_replay_evidence.py:182-320 | Bars that measured when all of them were available measure again, with the same facts, at every later clock |
| ControlTransfer.FirstAssessmentLasts | radar/src/crt_radar/btc_control_transfer_validation.py:543-562 | Evaluating the same evidence again from any later table returns the assessment stored first and writes nothing, whenever its checks pass |
| ControlWitness.ReviewedRunExists | radar/src/crt_radar/btc_control_transfer_validation.py:472-562 | In some valid world a concrete run of freeze, post-C test and review ends in a REVIEWING assessment dated 60 by the review, while the validation it reviews stays frozen at 40 |
| ControlWitness.ReviewIsRedated | radar/src/crt_radar/btc_control_transfer_validation.py:472-562 | The same run does so in every world with plain separating digests, a complete archive and acceptable reference levels |
| ControlWitness.WorldsExist | radar/src/crt_radar/btc_control_transfer_validation.py:63-101 | Digests that meet the hypothesis of the control-transfer theorems exist for any archive, level checks and coordinates |
| ControlTransfer.RunKeeps | radar/src/crt_radar/btc_control_transfer_validation.py:104-152 | Every run is append-only and keeps every row justified |
| ControlTransfer.ReferencesNotRedrawn | radar/src/crt_radar/btc_control_transfer_validation.py:104-152 | One observation and one reference source ever yield one candidate |
| ControlTransfer.HighBreakNeverGates | radar/src/crt_radar/btc_control_transfer_validation.py:215-562 | Evaluations of evidence that differ only in a recognised high-break reading report the same state, ids and status, fresh or stored |
| ControlTransfer.FrozenIsSound | radar/src/crt_radar/btc_control_transfer_validation.py:104-152 | A freeze that returns leaves its candidate stored, measured and holding the reference lock |
| ControlModel.ObservationAt | radar/src/crt_radar/btc_control_transfer_validation.py:63-101 | A usable observation is the stored one and its window ends before the cutoff |
| ControlModel.Ground | radar/src/crt_radar/btc_control_transfer_validation.py:472-505 | A re-derived candidate has its windows before formation and before the reference freeze |
| ControlDesk.ReadObservation | radar/src/crt_radar/btc_control_transfer_validation.py:63-101 | An observation is returned only if stored under its own digest, visible by the cutoff and consistent bar by bar; otherwise the first failed check |
| ControlDesk.FreezeCandidateIn | radar/src/crt_radar/btc_control_transfer_validation.py:104-152 | The reference lock is written before the candidate and stays when the candidate is refused; the first candidate is returned on every repeat, and a justified store stays justified |
| ControlDesk.EvaluateIn | radar/src/crt_radar/btc_control_transfer_validation.py:455-562 | The evaluation on the store performs exactly the specified transition, keeps a justified store justified, and its VALIDATED and reviewed results rest on the ordered events above |
| OverbalanceReplay.ChainContinues | radar/src/crt_radar/btc_transition_replay_evidence.py:1242-1313 | Along every chain of accepted checkpoints, whatever bars each request supplies, an earlier bar list is a literal prefix of every later one and no reported first-crossing date is moved or withdrawn |
| OverbalanceReplay.MeasurementMeans | radar/src/crt_radar/btc_transition_replay_evidence.py:1279-1313 | The reported dates are the first days the candidate passed the reference in price and in time, the joint date is the later of the two, and high and duration belong to the first highest bar |
| OverbalanceReplay.ScanCrossings | radar/src/crt_radar/btc_transition_replay_evidence.py:1279-1296 | The latches of the loop are the first crossings of the bar list |
| OverbalanceReplay.JointIsLater | radar/src/crt_radar/btc_transition_replay_evidence.py:1291-1296 | The joint latch is always the later of the price and time latches |
| OverbalanceReplay.VisibleIsPrefix | radar/src/crt_radar/btc_transition_replay_evidence.py:1276-1278 | Rows kept by the visibility filter that are consecutive days are a literal prefix |
| OverbalanceReplay.PriceExceededIff | radar/src/crt_radar/btc_transition_replay_evidence.py:1285-1292 | The exact price ratio exceeds one exactly above the price that equals the reference gain |
| OverbalanceModel.PeakIndex | radar/src/crt_radar/btc_transition_replay_evidence.py:1254-1258 | The first of the highest bars |
| OverbalanceBuilder.LoadCompletedBars | radar/src/crt_radar/btc_transition_replay_evidence.py:1184-1210 | Returns the completed bars visible by as_of with strictly increasing closes, or the first failed check |
| OverbalanceBuilder.CollectVisible | radar/src/crt_radar/btc_transition_replay_evidence.py:109-121 | Keeps exactly the bars available by as_of, in order, or fails at the first one observed after it became available |
| OverbalanceBuilder.CheckStructure | radar/src/crt_radar/btc_transition_replay_evidence.py:123-142 | Finds the first bar that repeats or precedes the previous observation time or has impossible prices, if any |
| OverbalanceBuilder.TakeSegment | radar/src/crt_radar/btc_transition_replay_evidence.py:1242-1250 | A segment is the filtered rows when they close on consecutive days |
| OverbalanceBuilder.ScanCandidate | radar/src/crt_radar/btc_transition_replay_evidence.py:1279-1296 | The measurement loop computes the running high, its day count and the three latches |
| OverbalanceBuilder.BuildMeasurement | radar/src/crt_radar/btc_transition_replay_evidence.py:1213-1315 | Returns the sealed measurement whose meaning MeasurementMeans states, or the first failed check; an earlier measurement is accepted only if its hash, reference, clock and visible bars agree |
| RobustScore.RobustZAffine | radar/src/crt_radar/candidate_engine.py:240-251 | One affine map of value and history leaves the ROBUST_Z score or its rejection unchanged for a positive slope and negates the score for a negative one |
| RobustScore.ScoreIgnoresRowOrder | radar/src/crt_radar/candidate_engine.py:184-216 | Reordering history rows changes neither whether a feature scores nor its score |
| RobustScore.ScoreInRange | radar/src/crt_radar/candidate_engine.py:219-257 | Every feature score lies in [-100, 100] |
| RobustScore.AcceptedIff | radar/src/crt_radar/candidate_engine.py:194-209 | The history loop accepts exactly rows strictly before as_of, in range, with distinct clocks |
| RobustScore.MedianMapped | radar/src/crt_radar/candidate_engine.py:242-243 | A monotone map that keeps midpoints moves the median with it, in either direction |
| Rounding.Round10Near | radar/src/crt_radar/candidate_engine.py:42-44 | Rounding moves a value by at most half a unit of the tenth decimal |
| Aggregation.AggregationBounded | radar/src/crt_radar/candidate_engine.py:283-317 | With weights summing exactly to 100, layer scores and total stay in [-100, 100] and the total is within 1e-10 of the exact doubly weighted sum |
| Aggregation.AggregationMonotone | radar/src/crt_radar/candidate_engine.py:283-317 | Raising feature scores never lowers a layer score, the total or the light bucket |
| Aggregation.ScoresStayInRangeIff | radar/src/crt_radar/candidate_engine.py:283-317 | Every aggregate of scores in range has all layer scores and the total in [-100, 100] exactly when no layer's weights sum to more than 100 after rounding |
| Aggregation.AggregationSafeIff | radar/src/crt_radar/candidate_engine.py:283-317 | Scores in range never raise exactly when the all-100 total is at most 100 |
| Aggregation.CloseWeightsFail | radar/src/crt_radar/candidate_engine.py:154 | A registry whose weights are merely close to 100 validates and still raises on scores in range |
| Aggregation.MixedWeightsOverflow | radar/src/crt_radar/candidate_engine.py:154 | A registry whose weights are merely close to 100 validates and aggregates scores in range into a layer score above 100 |
| ScoringEngine.UnblockedEvaluation | radar/src/crt_radar/candidate_engine.py:354-437 | Every evaluation without blockers yields a total with the same range and accuracy |
| ScoringEngine.ReportedLayers | radar/src/crt_radar/candidate_engine.py:387-408 | Also when the total is withheld, a layer has a score exactly when no blocker names it, that score is in range whenever its weights round to at most 100, and it is the one the aggregate reports |
| ScoringEngine.RuleHoldsIff | radar/src/crt_radar/candidate_engine.py:320-351 | An identity rule blocks nothing exactly when both readings are there at one clock, the ratio is positive and mvrv * nupl equals mvrv - 1 within the tolerance per unit of the ratio |
| ScoringEngine.ScoreRaisesIff | radar/src/crt_radar/candidate_engine.py:184-257 | The scorer raises instead of rejecting exactly on observations that pass every check while a non-positive minimum admits an empty selection: no history, or a negative window at least as long as it |
| ScoringEngine.AllEscapesIff | radar/src/crt_radar/candidate_engine.py:372-385 | The scoring loop raises exactly when some observed feature is in that state |
| ScoringEngine.ScoringCompletesIff | radar/src/crt_radar/candidate_engine.py:211-216 | No observations at all make scoring raise exactly when every feature has a positive minimum history, needs no history or accepts no value |
| ScoringEngine.EmptyHistoryRaises | radar/src/crt_radar/candidate_engine.py:219-256 | Two concrete evaluations of valid registries raise: an empty history, and one row skipped by a negative window |
| ScoringEngine.LoadHistory | radar/src/crt_radar/candidate_engine.py:184-216 | Returns the values of the last window of rows by clock, for any row order, or the first rejected row |
| ScoringEngine.SumLayer | radar/src/crt_radar/candidate_engine.py:295-303 | The weighted sum of one layer or the first missing or out-of-range score |
| ScoringEngine.AggregateFeatureScores | radar/src/crt_radar/candidate_engine.py:283-317 | Returns the aggregate that AggregationBounded and AggregationMonotone describe, or the first missing or out-of-range score |
| ScoringEngine.ScoreLayer | radar/src/crt_radar/candidate_engine.py:372-385 | The feature loop collects scores and blockers, or raises at the first feature with an empty history |
| ScoringEngine.CheckRules | radar/src/crt_radar/candidate_engine.py:320-351 | The rule loop collects the identity blockers |
| ScoringEngine.EvaluateCandidate | radar/src/crt_radar/candidate_engine.py:354-437 | Any blocker withholds the total and the scores of the layers it names; otherwise the aggregate is returned; exceptions escape as in the source |
| LatestRevision.SelectedRows | radar/research/candidate_data.py:1152-1185 | A returned selection holds exactly one row per identity visible by as_of, the one available last, in key order |
| LatestRevision.ReorderingAgrees | radar/research/candidate_data.py:1152-1185 | Two orders of the same rows that both return give the same rows, and the same list when identities have different texts |
| LatestRevision.LaterRowsIgnored | radar/research/candidate_data.py:1173-1174 | Well-formed rows that became available later, added or removed anywhere, change neither the selection nor the rejection of a non-empty input |
| LatestRevision.FoldIff | radar/research/candidate_data.py:1161-1182 | The loop returns exactly when every row is readable and none ties with a different row at the lead so far |
| LatestRevision.EveryOrderReturnsIff | radar/research/candidate_data.py:1161-1182 | Every order of the rows passes the loop exactly when every row is readable and no two different visible rows of one identity share an availability time |
| LatestRevision.SomeOrderReturnsIff | radar/research/candidate_data.py:1161-1182 | Some order of the rows passes the loop exactly when every row is readable and no identity has two different rows available last |
| LatestRevision.SelectReturnsIff | radar/research/candidate_data.py:1152-1185 | A selection is returned exactly when the loop does not raise and some row is visible |
| LatestRevision.OrdersDisagreeIff | radar/research/candidate_data.py:1152-1185 | One order is selected from and another refused exactly when every row is readable, no identity has two different rows available last, and two different rows of some identity tie below that |
| LatestRevision.OrderDecidesAmbiguity | radar/research/candidate_data.py:1178-1182 | Three concrete revisions that raise in one order and return in another |
| LatestRevision.SelectLatestRevisions | radar/research/candidate_data.py:1152-1185 | The loop over the selected dictionary, with its rejections |
| HairpinReplay.EqualChainsEqualHistories | radar/src/crt_radar/dual_hairpin_operational_orchestrator.py:68-81 | Equal chain hashes in two accepted replays mean the same event bodies in the same order, one cycle name and one projection |
| HairpinReplay.DigestsExist | radar/src/crt_radar/dual_hairpin_operational_orchestrator.py:68-81 | Digests that meet the hypothesis of the chain theorems exist whenever some text separates the other fields of events |
| HairpinReplay.SuppliedChainPins | radar/src/crt_radar/dual_hairpin_operational_orchestrator.py:76-78 | A row accepted with the chain hash another replay reported closes the same list of bodies |
| HairpinReplay.ProjectionIsLocal | radar/src/crt_radar/dual_hairpin_operational_orchestrator.py:59-81 | A cycle's projection depends only on its own rows, in any input order when its keys are distinct |
| HairpinReplay.StreamOrderIrrelevant | radar/src/crt_radar/dual_hairpin_operational_orchestrator.py:44-82 | Reordering an accepted stream whose cycles have distinct keys is accepted with the same result |
| HairpinReplay.AdmittedIff | radar/src/crt_radar/dual_hairpin_operational_orchestrator.py:46-57 | The first loop accepts exactly identified rows without a repeated singleton |
| HairpinReplay.GuardIff | radar/src/crt_radar/dual_hairpin_operational_orchestrator.py:63-67 | The guard passes exactly the sequences in documented order and those that never descend alphabetically |
| HairpinReplay.ReplayedSequence | radar/src/crt_radar/dual_hairpin_operational_orchestrator.py:63-67 | An accepted cycle is reported in the documented order exactly when, among its rows sorted by time, no execution record precedes its card or gate and no freeze follows another event |
| HairpinReplay.RecordBeforeCardAccepted | radar/src/crt_radar/dual_hairpin_operational_orchestrator.py:63-67 | A concrete stream with a D0 execution record before its card is accepted |
| HairpinReplay.BuiltReplaysIff | radar/src/crt_radar/dual_hairpin_operational_orchestrator.py:85-90 | Events made by the builder never fail a hash check; their stream replays exactly when admissible and passed by the guard |
| HairpinModel.GroupRows | radar/src/crt_radar/dual_hairpin_operational_orchestrator.py:46-57 | The grouping loop rejects the first bad row or groups rows by cycle in input order |
| HairpinModel.AuditRows | radar/src/crt_radar/dual_hairpin_operational_orchestrator.py:68-80 | The chaining loop links each event hash to the running previous hash |
| HairpinModel.ReplayEvents | radar/src/crt_radar/dual_hairpin_operational_orchestrator.py:44-82 | For every stream the method returns what the theorems are about: the same cycle map or the same first error, with errors of the first loop before those of any cycle |
| JsonPointer.PointerRoundTrip | radar/src/crt_radar/capital_decision_closure.py:410-411 | Resolving the encoded key path of a stored value returns it, reports it as empty, or refuses only the empty path and the single empty token |
| JsonPointer.ResolvedIsStored | radar/src/crt_radar/analysis_coverage_gate.py:79-97 | Any resolved value is stored at a key path, and encoding that path gives the pointer back exactly when the pointer conforms to sections 3 and 4 of RFC 6901 |
| JsonPointer.PointersDistinct | radar/src/crt_radar/capital_decision_closure.py:410-411 | Two paths of names share a pointer exactly when equal, or when both are the empty path or the single empty token |
| JsonPointer.LeadingZerosAccepted | radar/src/crt_radar/analysis_coverage_gate.py:89-92 | Any number of leading zeros names the same array position, which section 4 of RFC 6901 forbids |
| JsonPointer.EscapeRoundTrip | radar/src/crt_radar/analysis_coverage_gate.py:84 | Decoding an escaped token gives it back |
| JsonPointer.ReEscapeIff | radar/src/crt_radar/analysis_coverage_gate.py:84 | A raw token survives decoding and re-encoding exactly when it follows the escape grammar |
| JsonPointer.CanonicalIff | radar/src/crt_radar/analysis_coverage_gate.py:90-92 | An index text is the one str writes exactly when it has no leading zero |
| JsonPointer.Pointer | radar/src/crt_radar/analysis_coverage_gate.py:79-97 | The walk with a reassigned node resolves every path, well-formed or not, as specified, with the same error |

## Left out

- Network fetches, broker sockets, file paths, temporary files, symbolic links and wall clocks: archive files are map entries keyed by their digests and responses are arbitrary inputs.
- The path-safety and directory-scan checks of the auditor: paths are typed keys, so a file outside the five managed kinds cannot exist in the model.
- The auditor checks the form of receipt and manifest references in a run report, not that the named file exists; the model follows it.
- HTML scraping in radar/research/issuer_adapters.py: only that parsing is a function of its arguments is used.
- Validators that compare fields with constants (source authority, acquisition contract, registry metadata, authority envelopes, privacy patterns, response schema): they are typed away or are one Boolean input.
- Rendering, prompts, daily reports, company-health prose, long-horizon scenarios and radar/src/crt_radar/commander_plan_adapter.py: presentation, or built on code that is not part of this model.
- Decimal context rounding and IEEE float rounding: replaced by exact reals.
- Tampered rows of the research table and the batch write of several events at once: the table is only written through the single-event operation.
- CaptureAuditor.AuditRuns: the individual error codes of the audit are collapsed to one per kind of file; its contracts, like those of the other passes, say when the set of errors is empty, not which codes it holds.
- CapitalBudgets.ReconcileBudget: position display quantities and limitation texts of the reconciliation are omitted; they carry no budget.
- ControlTransfer.FirstAssessmentLasts: assumes that the re-evaluation passes its checks; ControlTransfer.Reevaluated says exactly when it does at a later clock.
- LatestRevision.ReorderingAgrees: the same list, not only the same rows, needs identities with different texts, since rows that share the sort key keep the dictionary order.
- JsonPointer.Pointer: digits are the ASCII digits; the isdigit of Python also accepts other Unicode digits, on which int may raise.
