# Vice CEO: a Dafny model of the watch, the warrants and the evidence

This project models the parts of Vice CEO whose correctness rests on order, identity and exact bounds, and
proves what they keep over every input, every history and every interleaving:

- the Registry Change Watch: claim, fetch, snapshot, classify, brief, queue, deliver, save. It is modelled as a
  class over maps (`RegistryWatch`), as whole serial histories (`RegistryHistory`), and as any number of workers
  interleaved step by step with owner decisions, where within `process` only the claim is atomic (`WatchWorkers`,
  `WatchSafety`, `WatchQueue`);
- the reduction of a page to evidence (`PageEvidence`) and the records and candidate ids built from it
  (`RegistryModel`), and how saved runs are read back (`RunPersistence`);
- the Action Warrant gateway (`WarrantGateway`, `WarrantedTransitions`) and the synthetic support loop
  (`SupportLoop`), with the time machine (`TimeMachine`) and the trust verdict (`TrustEngine`) that read its evidence;
- the claim store in its two representations (`ClaimStore`) and the two event codecs (`Events`, `RegistryEvents`)
  down to canonical JSON (section 7 of RFC 8259), base64 (section 4 of RFC 4648), UTF-8 and UTC timestamps
  (section 5.6 of RFC 3339);
- send-once business messages (`BusinessActions`).

What each operation answers is also stated without the functions that compute it, with every condition, text, field
and number written out: `RegistryAnswers` for one call of the watch over any store, `GatewayAnswers` for the gateway
and every call of a run of the loop, `DecodingAnswers` for both decoders on any envelope, `JsonGrammar` for the JSON
reader against a grammar of syntax trees, `Calendar` for the timestamps against the Gregorian calendar, and
`RunDictionaries` for stored runs.

`dafny verify dfyconfig.toml` checks everything.

## How the model is built

- **Text.** A Python string is a sequence of symbols: a code point (surrogates included) or an ideal digest.
  SHA-256 and HMAC-SHA-256 (section 2 of RFC 2104) are free constructors, so equal digests mean equal inputs and a
  signature names its key and message (the zero padding of HMAC keys is not modelled). The program shortens some digests to 20 or 32 hexadecimal digits;
  the model does not, so accidental collisions of short prefixes are outside it.
- **Exceptions** are results. **Clocks, the fetcher, the brief generator, the delivery channel, the fixture table**
  and Python's reading of timestamps other than `YYYY-MM-DDTHH:MM:SS[.ffffff]+00:00` or `Z` (`Lenient`) are arbitrary parameters.
- **State.** Objects that the program mutates are classes with those fields. Their methods are proved equal to
  step functions on the state, and the lemmas about histories and interleavings are about these functions.
- **An owner decision** is either one step of an interleaving, as the transaction of the Firestore store
  (app/registry_watch.py:474-494), or a read and a later write, as in the in-memory store when threads share it
  (app/registry_watch.py:376-384). Both kinds may occur in one run.
- **Order of writes** is the program's: the event's claim is spent before the fetch, the snapshot is saved before
  the generator runs, the candidate is stored before delivery, the run last.

## Where plain statements fail

Five natural statements are false of the code; each has a counterexample that the code accepts and its exact
condition here.

- Two different events can share an idempotency key, and an event need not decode to itself: JSON escaping prints a
  split surrogate pair exactly as the character it encodes. `SplitPairSharesKey` gives two events for the shipped case,
  and `SplitMessageIdIsNotFixed` two scheduler deliveries that decode to different events with one key, one of them no
  fixed point. The conditions are `SyntheticKeysEqualIff`, `WatchKeysEqualIff`, `SyntheticRoundTripIff`,
  `WatchRoundTripIff` and `DecodedWatchIsFixedIff`.
- Two claim scopes can share a Firestore document when a tenant or kind contains "|": `BarInTenantCollides` and
  `SameAnswersIff`. The claims the program makes in Firestore are those of watch events, whose tenant and kind are
  constants without "|" (app/registry_watch.py:420-426); for them both stores always answer alike (`WatchClaimsAgree`).
- Two different outreach requests can share a message key when a part contains "|", and the second is then refused as
  already completed: `AcceptedRequestsCollide` and `KeysEqualIff`.
- An accepted message can go out twice: when the channel raises after sending (no usable receipt, or a failure after the
  request left), no key is recorded and a retry sends again. `AcceptedRequestGoesOutTwice` and `SentTwiceIff`; receipts
  never repeat (`DeliveredOncePerKey`).
- A claimed event can end without a result: an event id that is a lone surrogate decodes and is claimed, and hashing it
  for the handoff raises. `LoneSurrogateDecodes` and `LoneSurrogateSpendsEvent`; `ClaimsAreResultsIff` gives the condition.

That every consumed warrant runs its tool holds for the shipped case table (`ShippedWarrantsRun`). It fails only for
tables with supplementary characters, which the program does not ship: `AlwaysRunsIff` gives the exact condition on
the table, and `SplitTransitionIsConsumedUnrun` a table that fails it.

Three more behaviours are worth knowing. The time machine reports "consumed" for every issued warrant, even one that
expired before use: `ConsumedLabelWrongIff` says exactly when the label is wrong, and `LateUseOnShippedCase` is an input.
Queue items are named by source and the two contents, so a change that comes back reopens an item the owner had resolved
(`ReturningChangeReopens`; `DecidedItemComesBack` is a whole history). Two owner decisions that overlap in the in-memory
store are both recorded, and the second overwrites the first (`BothDecisionsAreRecorded`).

## Model

| member | source | states |
|---|---|---|
| WatchSafety.OneWorkerPerEvent | app/registry_watch.py:1129-1201 | In every interleaving of any number of workers and owner decisions, two workers that have fetched, saved a snapshot, generated, queued, delivered or saved a run hold different idempotency keys |
| WatchSafety.LosersAnswerOnly | app/registry_watch.py:1132-1135 | A worker that has not won its claim has had no effect; if it answers, the answer is the run of the worker that finished that event or the unsaved duplicate marker |
| WatchSafety.ClaimSummary | app/registry_watch.py:1131-1135 | One step of any worker: who wins the claim, what the claims become, and that a step that does not leave a winner changes nothing in the store |
| WatchSafety.DeliveryAccounting | app/registry_watch.py:1137-1201 | In every interleaving a finished run with a brief stored its candidate, then attempted delivery once, then saved the run, in that order; baseline, unchanged and duplicate outcomes attempt none; a generator failure stops after the snapshot, a delivery crash after the one attempt; the run is filed under its event, reports how its capture compares with the snapshot its worker read, and says how its delivery went, a rejected one as a failed receipt on a prepared brief |
| WatchSafety.RunsAreCompleted | app/registry_watch.py:1133-1135 | In every interleaving the stored run of a key is the run of the one worker that finished it, and every finished run is stored |
| WatchSafety.EventsAreHandledOnce | app/registry_watch.py:1129-1201 | A worker given eight steps has ended, however interleaved, and then its valid event has exactly one winner |
| WatchSafety.ActiveStep | app/registry_watch.py:1137-1201 | Every step keeps a worker's values the ones its evidence determines and extends its effects as its place in `process` demands |
| WatchQueue.QueueFollowsLog | app/registry_watch.py:1266-1286 | In every interleaving of workers, one-step decisions, and decisions read and written apart, an item exists once its change was detected, its status, flag, decision and decision time agree, it awaits a decision exactly between a detection and the next recorded decision, and every recorded or pending decision was computed from a read of the open item |
| WatchQueue.DecidedOnceUnlessRedetected | app/registry_watch.py:1617-1634 | In every interleaving, of two recorded decisions on an item either its change was detected again in between, or the later one was read before the earlier one was recorded |
| WatchQueue.OneStepDecidesOnce | app/registry_watch.py:474-494 | When every decision is one step, as in the transaction, an item is decided at most once per detection of its change, in every interleaving |
| WatchQueue.OverlappingDecisions | app/registry_watch.py:376-384 | Whenever an item is open, two decisions both read before either is written are both recorded without a detection in between, and the item holds the second |
| ReturningChange.BothDecisionsAreRecorded | app/registry_watch.py:376-384 | A concrete run in which that happens: two workers detect a change, and two overlapping decisions on its item are both recorded |
| WatchQueue.QueueCounts | app/registry_watch.py:1089-1097 | Awaiting plus resolved items is the total; the awaiting ones are those whose last log entry is a detection, the resolved ones those whose last entry is a decision |
| WatchQueue.DecisionExact | app/registry_watch.py:376-384 | A decision succeeds exactly on an existing, undecided item with "acknowledge" or "archive"; it leaves the item acknowledged or archived with that decision and its time, and changes nothing else; an unknown item and any other text are refused, in this order, and a failed decision changes nothing |
| WatchQueue.CallsRecordOnce | app/registry_watch.py:376-384 | In every interleaving the recorded decisions and those read but not yet written are together at most as many as the calls of `resolve` |
| WatchQueue.ItemsLinkToChanges | app/registry_watch.py:1165-1176 | In every interleaving each item, apart from its decision, is the candidate of a change between two captures of its source: one worker fetched and saved the earlier one, another read exactly that snapshot back, fetched and saved the later one, and queued the item |
| WatchQueue.SplitDecisionIsAtomicIff | app/registry_watch.py:376-384 | A decision computed from an earlier read and written back later equals the atomic decision exactly when the item did not change in between |
| WatchQueue.ItemIdsNameChanges | app/registry_watch.py:1266-1286 | Two such items share an id exactly when source, earlier content and later content agree |
| WatchQueue.SnapshotsWereSaved | app/registry_watch.py:1140-1141 | In every interleaving the stored snapshot of a source, and every snapshot a worker compares with, was saved by a worker on that source |
| WatchWorkers.AloneIsProcess | app/registry_watch.py:1129-1201 | Eight undisturbed steps of a worker give the outcome and the store of one call of `process` |
| SerialWorkers.SerialIsHistory | app/registry_watch.py:1129-1201 | Workers that run one after another leave the store, and the last of them ends with the answer, of the serial history of their calls |
| RegistryHistory.EngineRefines | app/registry_watch.py:1129-1201 | Over any history of calls and owner decisions, with any fetcher, generator, delivery and clock, each call's answer is the one determined by the history alone: the classifier's verdict against the last validated capture of the source for a first call, the first call's run or the duplicate marker for a later one |
| RegistryAnswers.RefusedExactly | app/registry_watch.py:1203-1216 | Over any store a call is refused exactly when its id is blank, its type, source or schema is not the fixed one, its time is unreadable or its source is not registered; the first that holds decides the error and the store stays as it was, and otherwise its key is claimed afterwards |
| RegistryAnswers.ClaimedIsReplayed | app/registry_watch.py:1132-1135 | Over any store an acceptable event claimed before is answered with the stored run, or with a marker that names the event, the recorded run id and the first clock reading; nothing changes |
| RegistryAnswers.CaptureExactly | app/registry_watch.py:1218-1232 | Over any store the first call with a key raises for a failed fetch, another source or URL, an unreadable time or a surrogate in the content, in this order, and leaves only the claim; any other capture is recorded field by field as the source's snapshot |
| RegistryAnswers.ConclusionExactly | app/registry_watch.py:1139-1201 | Over any store, after such a capture: no prior snapshot or another normalization is a baseline, an equal digest no change, and a change is described to the generator with its new segments, queued field by field before delivery, and answered as the delivery went; a completed run is filed under its event and stored, and nothing else changes |
| RegistryHistory.StoreMirrors | app/registry_watch.py:1132-1141 | After any history a source's stored snapshot is its last validated capture, a key is claimed exactly when an accepted call asked for it, and its stored run is the one its first call completed |
| RegistryHistory.CompletedRunsAreClassified | app/registry_watch.py:1143-1198 | A first call reports baseline, no change or a brief exactly as its capture compares with the last validated one; the run is filed under its event with its two clock readings; generator and delivery failures happen only on a change |
| RegistryHistory.LaterCallsAreDuplicates | app/registry_watch.py:1132-1135 | A later call with a claimed key answers the completed run again, or the duplicate marker when the first call failed, and changes nothing: a failed fetch spends the event |
| RegistryHistory.GeneratorFailureAdvances | app/registry_watch.py:1140-1174 | A generator failure spends the event and advances the snapshot, and leaves runs and queue as they were |
| RegistryHistory.IndependentIff | app/registry_watch.py:1129-1201 | Calls on other sources never change a call's outcome exactly when no two registered source ids print as the same JSON string |
| RegistryHistory.ProjectionAgrees | app/registry_watch.py:1129-1201 | Dropping the calls on other sources and the owner decisions leaves a source's snapshot, claims and runs as they were |
| RegistryHistory.ReturningChangeReopens | app/registry_watch.py:364-365 | A first call that detects a change already queued puts a fresh undecided item over it, whatever had been decided, and touches no other item |
| ReturningChange.DecidedItemComesBack | app/registry_watch.py:364-365 | A concrete history for any two contents: after a then b the item is open, the owner acknowledges it, content a leaves it acknowledged, and content b opens the same item again, undecided |
| RegistryHistory.SplicedStreamsReportNoChange | app/registry_watch.py:1156-1164 | After a validated capture, content whose token stream differs only by balanced ignored blocks is answered `no_change`, whatever source version and capture time came with it |
| RegistryWatch.RegistryWatchEngine.ProcessEvent | app/registry_watch.py:1129-1201 | The outcome and the whole new store are those of `Process` on the old store |
| RegistryWatch.InMemoryRegistryWatchStore.ClaimEvent | app/registry_watch.py:347-353 | The claim under the fixed tenant and kind is never refused, and claims and answer are those of first-writer-wins |
| RegistryWatch.InMemoryRegistryWatchStore.ResolveActionCandidate | app/registry_watch.py:376-384 | The answer and the whole new store are those of `ResolveAction` |
| RegistryWatch.InMemoryRegistryWatchStore.SaveActionCandidate | app/registry_watch.py:364-365 | The candidate replaces whatever was stored under its id, and nothing else changes |
| RegistryModel.SameContentIsUnchanged | app/registry_watch.py:1143-1165 | Two validated captures of a source compare as rebaselined, unchanged or changed exactly as normalization version and content say, whatever versions and times |
| RegistryModel.RearrangementIsChange | app/registry_watch.py:1165-1173 | Different content without a new segment is a change, reported with count zero and the fixed excerpt |
| RegistryModel.CandidateIdsEqualIff | app/registry_watch.py:1266-1270 | Candidate ids of two changes agree exactly when source, prior content and current content agree |
| RegistryModel.GuardKeepsEvidence | app/registry_watch.py:566-583 | When the guarded and the inner generator both brief a change, brief id, evidence fields and candidate id agree; a fallback brief takes its evidence fields from the change |
| RegistryModel.GuardFailsIff | app/registry_watch.py:507-519 | On a change between two validated captures a guarded generator fails exactly when an allowed excerpt's inner generator does, or a blocked excerpt comes with a source id that cannot be encoded, which the fallback hashes |
| RegistryAnswers.DeterministicExactly | app/registry_watch.py:504-543 | The deterministic generator fails exactly on an id or excerpt it cannot hash, and otherwise gives the brief whose every field and text is written out |
| RegistryAnswers.GuardExactly | app/registry_watch.py:566-583 | The guarded generator is the inner one on an allowed excerpt, and on a blocked one the safety fallback with its fixed texts and the evidence fields of the change |
| RegistryHistory.BlockedExcerptsAreInert | app/registry_watch.py:566-570 | Over any history with guarded generators, nothing the engine stores or answers depends on what the inner generator would make of a blocked excerpt |
| RegistryModel.WatchScopeIsValid | app/registry_watch.py:347-353 | The claim of every watch event has a non-blank, already stripped scope |
| PageEvidence.VisibleHtmlTextExtractor.Feed | app/registry_watch.py:1433-1444 | Feeding tokens leaves the depth and the parts that `Extract` gives, appended to the earlier parts |
| PageEvidence.SplicesKeepVisible | app/registry_watch.py:1433-1444 | Inserting any balanced ignored blocks anywhere in a token stream, also inside each other, leaves depth and visible parts unchanged |
| PageEvidence.VisibleIsUncovered | app/registry_watch.py:1426-1447 | The visible parts are exactly the data, in order, at positions where every earlier opening of one of the six ignored tags has been closed; surplus closings count for nothing |
| PageEvidence.HtmlWords | app/registry_watch.py:1446-1459 | The words of a page's content are the words of its visible data, one after another, so a word never runs from one piece of data into the next; a page without a word has no content |
| PageEvidence.SplicedStreamsSameContent | app/registry_watch.py:1450-1459 | Two token streams that differ only by such blocks have the same normalized content, or both none |
| PageEvidence.ContentIsTidy | app/registry_watch.py:1450-1459 | Content is refused exactly when it is all whitespace and U+0000; otherwise its normal form is tidy, non-empty, fixed under normalizing, and keeps every other character in order with one space where there was any gap |
| PageEvidence.SeparatorIsMatch | app/registry_watch.py:1547-1547 | A separator starts at a position exactly when one of the pattern's two alternatives matches there, and ends at the longest match of the first that does |
| PageEvidence.SplitCutsLeftmost | app/registry_watch.py:1542-1551 | The split cuts at exactly the leftmost matches, one after another |
| PageEvidence.SplitRebuilds | app/registry_watch.py:1545-1549 | The split pieces and the separators between them rebuild the content |
| PageEvidence.SegmentsOfTidyContent | app/registry_watch.py:1542-1551 | On normalized content there are at most 120 segments of 24 to 800 characters, disjoint slices of the content in its order |
| PageEvidence.SegmentsAreLongPieces | app/registry_watch.py:1542-1551 | On normalized content the segments are exactly the first 120 split pieces of at least 24 characters, cut to 800, so the inner stripping and normalization change nothing |
| PageEvidence.SegmentsExactly | app/registry_watch.py:1542-1551 | Of any content the segments are the first 120 split pieces with at least 24 characters between their outer spaces, whitespace squeezed and cut to 800 |
| PageEvidence.ChangedAreFirstAbsent | app/registry_watch.py:1558-1566 | The changed segments are exactly the first twelve, in order, of the capped current segments absent from the capped prior ones |
| PageEvidence.RearrangementHasNoNewSegment | app/registry_watch.py:1558-1573 | Content whose segments all occur in the prior content has no changed segment and the fixed excerpt |
| PageEvidence.ExcerptBounds | app/registry_watch.py:1569-1573 | The excerpt of any content has between 1 and 6000 characters |
| PageEvidence.ExcerptSpells | app/registry_watch.py:1569-1573 | The excerpt spells the changed segments in order, each at its offset, with one line feed between neighbours, whole up to 6000 characters and cut there; without a changed segment it is the fixed notice |
| Texts.TidyIffNormal | app/registry_watch.py:1446-1459 | The fixed points of whitespace normalization are exactly the texts with single inner U+0020 and no outer space |
| Texts.SpaceCodes | app/registry_watch.py:1456-1456 | The 29 characters that count as whitespace |
| Texts.NormalizeIdempotent | app/registry_watch.py:1450-1459 | Normalizing twice is normalizing once |
| Texts.NormalizeSqueezes | app/registry_watch.py:1456-1456 | Normalizing keeps every non-space character in order and puts one U+0020 before each but the first that had spaces before it |
| Texts.NormalizeDistributes | app/registry_watch.py:1446-1459 | Normalizing space-joined parts depends only on the normalized parts |
| RunPersistence.EngineRunsReadBack | app/registry_watch.py:1637-1680 | Every run the engine makes reads back from its dictionary, and from that dictionary with tuples turned into lists |
| RunPersistence.ReadRunIsFixed | app/registry_watch.py:1637-1680 | Whatever dictionary a run was read from, also a legacy one without the defaulted fields, its own dictionary reads back as it |
| RunPersistence.ListedRunReadsBackIff | app/registry_watch.py:1644-1648 | Through a store without tuples a run reads back exactly when its only tuple is the segment hashes |
| RunPersistence.ReadRunIff | app/registry_watch.py:1637-1680 | A dictionary is read exactly when the run's own fields are there and each part has all required fields, no unknown one, and lacks only defaulted ones |
| RunDictionaries.RunIsWritten | app/registry_watch.py:294-295 | The dictionary of an engine's run holds every field of the run and of its parts under its own name, with the status, reason and decision texts written out |
| RunDictionaries.ReadRunHolds | app/registry_watch.py:1637-1681 | A run read from any dictionary holds its texts as Python spells them, the truth of its flags, and each part with the fields given or the written-out values of earlier releases |
| WarrantGateway.ActionWarrantGateway.ExecuteWarrantedSimulation | app/warrant_gateway.py:207-242 | The attempt and the whole new claim map are those of `Execute` on the old map |
| WarrantGateway.ActionWarrantGateway.ValidateAndConsume | app/warrant_gateway.py:160-205 | The outcome and the whole new claim map are those of `Consume` on the old map |
| WarrantGateway.ExpiryIsExact | app/warrant_gateway.py:137-183 | An issued warrant used as issued with open switches passes every check before the claim at now exactly when now is before issue time plus 300 s, to the microsecond, and is otherwise denied as expired |
| WarrantGateway.ConsumeStep | app/warrant_gateway.py:160-205 | One use either consumes, and then both switches were open, the signature valid, the scope equal, the warrant unexpired and unclaimed; or it leaves the claim map as it was |
| WarrantGateway.ClaimsAreConsumptions | app/warrant_gateway.py:197-205 | Over any sequence of uses the claim map and the authorized consumptions correspond one to one, and no warrant is consumed twice |
| WarrantGateway.SignatureBindsFields | app/warrant_gateway.py:244-254 | A signature made with one key for one warrant validates another warrant under a key exactly when the keys are the same and all eleven fields but the signature, by name, print alike |
| WarrantGateway.WarrantKeysAscend | app/warrant_gateway.py:79-82 | The signed payload lists its fields in ascending key order |
| GatewayAnswers.IssueExactly | app/warrant_gateway.py:107-158 | An issue is refused for the global switch, the capability switch, the policy, an unknown case or an unlisted transition, in this order and with this verdict, or raises at the end of the calendar; otherwise it gives the warrant whose fields, id and signature are written out |
| GatewayAnswers.ExecuteExactly | app/warrant_gateway.py:160-242 | Every use of a warrant is answered by the first check that fails: switches, tool, contract and policy versions, signature, expiry, case, scope, claim; only a use that passes all of them changes the claim map, by its own claim, and runs the tool |
| WarrantGateway.IssuedExecutesSimulated | app/warrant_gateway.py:207-242 | With a case table without surrogates and supplementary characters, consuming an issued warrant, whatever case id and transition are presented, runs the tool as simulated for the case and transition it was issued for |
| WarrantGateway.ConsumedRunsIff | app/warrant_gateway.py:184-242 | Whoever consumes an issued warrant presents its case and transition up to spelling, for a case of the same tenant; the tool then runs as simulated exactly when the presented spelling is listed |
| WarrantedTransitions.AlwaysRunsIff | app/warrant_gateway.py:184-242 | Every consumption of every issued warrant runs as simulated exactly for the case tables that list every spelling of each listed transition, for every spelling of its case with the same usable tenant |
| WarrantedTransitions.ShippedWarrantsRun | app/tools.py:17-26 | For the shipped case table every consumption of every issued warrant runs as simulated, for the case and transition it was issued for |
| SupportLoop.SyntheticSupportLoop.Process | app/support_loop.py:77-154 | The outcome and both new claim maps are those of `Step` on the old ones |
| GatewayAnswers.CallsAnswerExactly | app/support_loop.py:77-154 | Every call of any run: without a usable tenant it is refused; with a claimed event it is a duplicate of the first run; otherwise it claims its event and the first of global switch, capability switch, unlisted transition and late use decides status, reason and warrant id of its receipt, an unencodable id or the end of the calendar raises, and receipt and handoff name the event field by field |
| SupportLoop.SecondCheckOnlyExpires | app/support_loop.py:133-154 | An input that wins its event claim and is issued a warrant ends simulated with the warrant consumed, or denied as expired; no other denial of the second check is reachable |
| SupportLoop.OnlyExpiryDeniesIssued | app/support_loop.py:86-154 | Over any run, such a call ends simulated exactly when its second clock reading is less than 300 s after the first, and its receipt carries the warrant id either way |
| SupportLoop.SimulatedIff | app/support_loop.py:98-154 | Over any run an attempted result is simulated exactly when a warrant was issued and the second clock reading is less than 300 s after the first |
| SupportLoop.Conservation | app/support_loop.py:88-153 | Over any run the consumed warrants number the simulated results, the event claims number the outcomes that are no duplicate (results, and the two exceptions raised after the claim), and every consumed warrant belongs to a claimed event |
| SupportLoop.ClaimsAreResultsIff | app/support_loop.py:88-153 | Over any run the event claims number the non-duplicate results exactly when no call that claims its event has an event id that cannot be encoded, or open switches, a known case and a listed transition with less than 300 s of the calendar left |
| SupportLoop.LoneSurrogateSpendsEvent | app/support_loop.py:88-107 | A run of one call on the shipped case whose event id is a lone surrogate leaves one event claim and no result |
| SupportLoop.LoneSurrogateDecodes | app/event_contracts.py:81-129 | That event decodes from its own envelope |
| SupportLoop.ClaimingCallsEnd | app/support_loop.py:98-154 | Over any run a call that claimed its event ends in an attempted result exactly when its event id can be encoded and its warrant, if one is issued, expires within the calendar, and raises otherwise |
| SupportLoop.DecidedOnce | app/support_loop.py:88-96 | After any call with an event's scope every later call with that scope is a duplicate and changes nothing, so a denied event is never simulated later and no event is simulated twice |
| SupportLoop.ScopesEqualIff | app/event_contracts.py:67-78 | Two events claim the same scope exactly when they print alike and their tenants strip alike |
| TimeMachine.LoopEvidenceReplays | app/business_time_machine.py:61-116 | Evidence of any attempted loop result replays with the twin of its run; the options marked selected are the listings of the recommended transition; the warrant stage reads consumed exactly when a warrant was issued |
| TimeMachine.ConsumedLabelWrongIff | app/business_time_machine.py:94-100 | Over any run the replayed stage of an attempted result reads consumed exactly when a warrant was issued, the call consumed a warrant exactly when it was also used in time, so the label is wrong exactly for an issued warrant used 300 s or more later |
| TimeMachine.LateUseOnShippedCase | app/business_time_machine.py:94-100 | An input for the shipped case whose one-call run consumes no warrant and is replayed as consumed |
| TimeMachine.ReplayAcceptsOneRun | app/business_time_machine.py:66-91 | Replay accepts a result and a twin for an event exactly when both were made from evidence of that event (same id, payload printed alike, same fixture), for one tenant, and the twin under the run's id; without split surrogate pairs, exactly when all three events are one |
| Fixtures.FixtureDigestsEqualIff | app/tools.py:73-84 | Fixture digests agree exactly when the case ids, the transitions one by one and the other four texts of the cases print alike |
| TimeMachine.AttemptIsLinked | app/support_loop.py:98-154 | Receipt and handoff of every attempted result carry the run id, event hash, fixture hash and tenant of the event |
| TimeMachine.TimelineTells | app/business_time_machine.py:93-116 | The timeline of an attempted result and its twin carries run, event, tenant and hashes, the result's status as outcome, the issued warrant as consumed, and every option, selected exactly if it is the recommended one |
| TimeMachine.TwinExactly | app/operational_twin.py:56-93 | The twin refuses an unknown case, then any transitions other than the two, then texts it cannot hash; otherwise it names its run, event and case and recommends preparing the resolution |
| TimeMachine.DuplicateHasNoTimeline | app/business_time_machine.py:66-69 | The result of a duplicate call has no timeline |
| TrustEngine.AssessSyntheticTrust | app/trust_engine.py:47-94 | The loop computes the assessment defined on counts and tenants |
| TrustEngine.AssessmentIgnoresOrder | app/trust_engine.py:50-94 | Permuting the receipts changes only the order of the evidence and the id, which hashes that order |
| TrustEngine.UnsupportedReceiptsAreInert | app/trust_engine.py:53-56 | Dropping receipts of another version changes only evidence, its count and the id |
| TrustEngine.CountsPartition | app/trust_engine.py:61-89 | Verified, failed and ignored receipts add up to all |
| TrustEngine.EarnedIff | app/trust_engine.py:62-78 | Trust is earned exactly by one tenant, no failure and at least three verified receipts |
| TrustEngine.VerdictExactly | app/trust_engine.py:47-110 | Every state and reason by what the receipts say: mixed tenants, then any supported receipt that is not a clean simulation, suspend; otherwise three verified receipts earn trust, one or two are observed, none is unproven; counts and evidence are those of the receipts |
| TrustEngine.TenantExactly | app/trust_engine.py:80-80 | The assessment names a tenant exactly when there is a supported receipt and all of them are for it |
| TrustEngine.SuspensionPersists | app/trust_engine.py:62-78 | No further receipts lift a suspension |
| TrustEngine.LoopReceiptVerifiedIff | app/trust_engine.py:103-110 | Over any run of the support loop, the receipt of each attempted result is verified exactly when the result is simulated |
| TrustEngine.RunTrustIff | app/trust_engine.py:47-94 | The receipts of a run of the support loop are suspended exactly when some attempted result is not simulated or two are for different tenants, and earn trust exactly when all attempted results are simulated, at least three, and for one tenant |
| ClaimStore.InMemoryClaimStore.ClaimOnce | app/claim_store.py:45-58 | A blank scope is refused; a used scope answers its record; a new scope records the id; nothing else changes |
| ClaimStore.FirestoreClaimStore.ClaimOnce | app/claim_store.py:81-118 | The atomic transaction answers and writes as `DocumentStep` on the hashed documents |
| ClaimStore.DocumentsExactly | app/claim_store.py:81-143 | The transaction refuses a blank scope and a text it cannot encode, answers an existing document's record, and otherwise writes one document under the hashed, joined and stripped scope that holds hashed tenant, kind and record id |
| ClaimStore.FirstRecordKept | app/claim_store.py:53-58 | After any calls a scope is recorded exactly when some call had it, with the first such call's record id |
| ClaimStore.SameAnswersIff | app/claim_store.py:132-143 | The hashed store answers a whole history as the in-memory one does exactly when every scope can be encoded and no two different scopes join with a vertical bar to the same text |
| ClaimStore.BarFreeScopesNeverCollide | app/claim_store.py:132-143 | Scopes whose tenant and kind hold no vertical bar never join to the same text |
| RegistryModel.WatchClaimsAgree | app/registry_watch.py:420-426 | The Firestore store answers every history of watch claims as the in-memory store does |
| ClaimStore.BarInTenantCollides | app/claim_store.py:132-136 | A concrete history with a vertical bar in a tenant on which the stores differ |
| Events.SyntheticKeysEqualIff | app/event_contracts.py:44-49 | Two events share a key exactly when all six fields print alike, hence exactly when they are equal if neither has a split surrogate pair |
| Events.SyntheticKeysAscend | app/event_contracts.py:44-46 | The hashed payload lists its fields in ascending key order |
| Events.SplitPairSharesKey | app/event_contracts.py:44-49 | Two different events for the shipped case, with the fixed schema, source and type and a canonical time, share a key, and both encode and decode to the first of them |
| Events.SyntheticDecodesJoined | app/event_contracts.py:81-129 | An encoded event decodes exactly as its joined form does, so to that form when it is canonical |
| Events.SyntheticRoundTripIff | app/event_contracts.py:81-129 | An encoded event decodes to itself exactly when its fields are trimmed, non-empty and without split pairs, its time canonical, its schema, source and type the fixed ones and its case known |
| Events.DecodedSyntheticIsFixed | app/event_contracts.py:81-129 | Whatever envelope an event was decoded from, encoding and decoding it gives it back |
| DecodingAnswers.SyntheticDecodesExactly | app/event_contracts.py:81-122 | Any envelope is answered by the first check that fails: carried JSON, object, exactly the six fields, each field in order, then schema, source, type and case; an accepted event holds the stripped fields and the time reprinted in UTC |
| DecodingAnswers.HeldIsUnique | app/event_contracts.py:108-115 | A payload holds at most one event, and none when a field is bad |
| RegistryEvents.WatchKeysEqualIff | app/registry_watch.py:100-106 | The same key condition for watch events |
| RegistryEvents.WatchKeysAscend | app/registry_watch.py:100-101 | The same for watch events |
| RegistryEvents.WatchRoundTripIff | app/registry_watch.py:108-160 | An encoded watch event decodes to itself exactly when its fields are trimmed, non-empty and without split pairs and its time is canonical |
| RegistryEvents.DecodedWatchIsFixedIff | app/registry_watch.py:108-160 | A decoded watch event, from either accepted shape, is a fixed point exactly when its id has no split pair; the six-field shape always is |
| DecodingAnswers.WatchDecodesExactly | app/registry_watch.py:108-152 | Any envelope is answered by its shape, four fields with identity and time from the message or six fields, and the first check of that shape that fails; an accepted event holds the stripped fields and the time reprinted in UTC |
| DecodingAnswers.HeldWatchIsUnique | app/registry_watch.py:129-150 | The same for watch events of either shape |
| DecodingAnswers.EncodesExactly | app/event_contracts.py:125-129 | An encoded event of either kind is a message with its id and the base64 of its canonical text and nothing else, and its key is its prefix and the digest of that text |
| RegistryEvents.SplitMessageIdIsNotFixed | app/registry_watch.py:108-160 | Two four-field scheduler deliveries whose message ids spell one character differently decode to different events with one key, and the one with the split pair encodes and decodes to the other |
| RegistryEvents.SchedulerDecodes | app/registry_watch.py:108-152 | A scheduler delivery decodes to its event under any trimmed message id, when the other fields are canonical |
| Envelopes.WrapCarries | app/event_contracts.py:125-129 | Unwrapping a wrapped object gives the same keys and every value with its split pairs joined |
| DecodingAnswers.CarriesText | app/event_contracts.py:84-88 | Whatever text an envelope's data is the base64 of in UTF-8, the envelope carries what that text reads as |
| DecodingAnswers.CarriedIsText | app/event_contracts.py:83-89 | An envelope carries something only when its data is base64 of the UTF-8 of a text that reads as it |
| JsonGrammar.LoadsExactly | app/event_contracts.py:87-87 | The reader takes a text for a value exactly when some JSON syntax tree, with every escape, numeral and gap of its own, writes the text between spaces and means the value |
| Json.EscapeInjective | app/event_contracts.py:44-46 | Two strings print as the same JSON string exactly when they join alike |
| Json.EscapeSpells | app/event_contracts.py:44-46 | Each character prints as its short escape, as itself when printable ASCII, or as the four-digit hexadecimal escape of it or of its surrogate pair |
| Json.StringPrints | app/event_contracts.py:44-46 | A string prints as its escaped characters in order between quotes |
| Json.PrintsCompactly | app/event_contracts.py:44-46 | An object prints its members in the given order with no space between tokens |
| Json.LoadsPrintObject | app/event_contracts.py:83-92 | Reading a printed object gives its members with split pairs joined |
| Encoding.Base64RoundTrip | app/event_contracts.py:83-92 | Strict base64 decoding inverts encoding on every byte string |
| Encoding.AlphabetOrder | app/event_contracts.py:125-129 | The 64 characters of the alphabet and their order |
| Encoding.GroupIsNumber | app/event_contracts.py:125-129 | The four symbols of a group spell its three bytes as one number, most significant first |
| Encoding.PaddedGroup | app/event_contracts.py:125-129 | A last group of one or two bytes is the zero-filled group with padding for each missing byte |
| Encoding.InAlphabetIff | app/event_contracts.py:83-92 | Exactly the characters of the alphabet are read |
| Encoding.DecodesIff | app/event_contracts.py:83-92 | Strict base64 decoding accepts exactly the texts of four-character groups over the alphabet with padding only at the end |
| Encoding.Utf8RoundTrip | app/registry_watch.py:186-188 | UTF-8 decoding inverts encoding, and the byte count is the length of the encoding |
| Encoding.DecodedUtf8Encodes | app/event_contracts.py:83-92 | UTF-8 decoding accepts only what encoding produces: no overlong form and no surrogate |
| Timestamps.ParseFormat | app/warrant_gateway.py:272-277 | Parsing a formatted UTC instant gives that instant, to the microsecond, for every date of the calendar |
| Calendar.ReadsExactly | app/warrant_gateway.py:272-277 | The exact reader takes a text for an instant exactly when it is that instant printed with the offset +00:00, or with .000000 before it for a whole second |
| Calendar.MidnightsRead | app/warrant_gateway.py:272-277 | For every year from 1 to 9999 the reader accepts the midnights of exactly the days of each month, with the month lengths and the leap rule written out |
| Calendar.NextDate | app/warrant_gateway.py:272-277 | Instants a day apart print the same clock time and the same or the next date of the written-out calendar |
| Calendar.ClockPrints | app/warrant_gateway.py:272-277 | Hours, minutes, seconds and, when not zero, microseconds of any day print at their places |
| Calendar.LastDayOfMarch | app/warrant_gateway.py:272-277 | An anchor: the instant 63910555200000000 prints as 2026-03-31T12:00:00Z |
| Calendar.LeapDay | app/warrant_gateway.py:272-277 | An anchor: 2024-02-29T12:00:00Z |
| Calendar.CenturyLeapDay | app/warrant_gateway.py:272-277 | An anchor: 2000-02-29T12:00:00Z |
| Calendar.LastSecond | app/warrant_gateway.py:272-277 | An anchor: the last whole second prints as 9999-12-31T23:59:59Z |
| Calendar.FirstInstant | app/warrant_gateway.py:272-277 | An anchor: the instant 0 prints as 0001-01-01T00:00:00Z |
| Timestamps.NormalizeFixesCanonical | app/registry_watch.py:1406-1413 | Normalizing fixes exactly the texts some instant prints as |
| Timestamps.NormalizeTwice | app/registry_watch.py:1406-1413 | A normalized timestamp is canonical, so normalizing again changes nothing |
| BusinessActions.DeliveredOncePerKey | app/business_actions.py:242-247 | Over any requests, with a channel that gives a receipt, sends nothing, or sends and raises, a request gets a receipt exactly when the channel is ready to give one and its key has none; no key has two receipts and no failure spends a key |
| BusinessActions.SentTwiceIff | app/business_actions.py:109-146 | Two requests with one key both go out exactly when the channel raised after sending the first and sends the second before any request with the key got a receipt |
| BusinessActions.ReachedIff | app/business_actions.py:242-247 | A request goes out exactly when the channel sends it and no earlier request with its key got a receipt |
| BusinessActions.AcceptedRequestGoesOutTwice | app/business_actions.py:109-146 | An accepted outreach request asked twice goes out twice when the channel raises after sending it the first time |
| BusinessActions.BusinessActionService.DeliverOnce | app/business_actions.py:242-247 | Answer and ledger of receipts and messages sent are those of `Deliver`, and the completed keys stay the keys with a receipt |
| BusinessActions.KeysEqualIff | app/business_actions.py:172-240 | The messages of two accepted requests, replies or outreach, share a key exactly when their joined parts are the same text; when action id, recipient and subject hold no vertical bar, exactly when all four parts are the same |
| BusinessActions.OutreachExactly | app/business_actions.py:191-240 | An outreach request is refused for a blank campaign, an unsubscribed contact, a missing consent record or address, or blank content, in this order; otherwise it is the message it asks for, keyed by the hash of its joined parts |
| BusinessActions.ReplyExactly | app/business_actions.py:172-240 | A reply is refused for an intent without a template, then for a blank inbound message or a missing address; otherwise it is the template's message, keyed by the hash of its joined parts |
| BusinessActions.AnswersExactly | app/business_actions.py:242-247 | Over any requests the answer to one is its message when it gets the receipt, refused as completed exactly when its key has one, and a delivery failure when the channel gives none |
| BusinessActions.AcceptedRequestsCollide | app/business_actions.py:191-247 | Two accepted outreach requests to different addresses with different subjects share a key, and after the first is delivered the second is refused as already completed |

## Left out

- IssuedExecutesSimulated: needs a table without surrogates and supplementary characters, as the shipped one is; AlwaysRunsIff states the exact condition on a table.
- AssessSyntheticTrust: the assessment id and the evidence hashes, digests of the receipts, are those receipts here.
- LoopEvidenceReplays: speaks of cases whose listed transitions are the two the operational twin accepts, since the twin of any other case does not exist.
- DeliveredOncePerKey: is per key and per service instance, as in the program; the provider's own handling of the key it is sent is not modelled.
- Digest prefixes: the 20- and 32-digit shortenings of SHA-256 are modelled as the whole ideal digest.
- `datetime.fromisoformat` on other than the canonical UTC forms is an arbitrary partial function; naive clocks and their error are not modelled.
- Warrants for run ids that cannot be encoded as UTF-8: the gateway's hashing error there is not modelled; the support loop's run ids are digests.
- Base64 text after a complete padded group is refused; interpreters differ on it.
- The JSON reader's recursion and integer-length limits.
- HTML tokenization: the model starts from start, end and data tokens, a self-closing tag being a start and an end.
- The five patterns of the safety gate are one arbitrary predicate on the excerpt.
- Firestore snapshot, run and queue adapters, their `created_at` field and transactions other than the claim; `latest_snapshot` there drops segment hashes, so the segment difference is stated for the in-memory store.
- The listing order of the owner queue, which sorts creation times as strings.
- Receipt, handoff, twin and timeline ids are the fields they hash; the constant false effect flags and fixed wording of these records are dropped. A split surrogate pair in a transition would make two attempts hash alike; here they stay apart.
- An event whose id cannot be encoded as UTF-8 stops the support loop after its claim, as in the program; the conservation counts include that claim.
- The reply texts of the business actions are a library parameter; SMTP, Resend and the recording delivery are one channel with three answers; all its exceptions are one error.
- Gemini and ADK calls, `urlopen`, HTTP routes, consoles, command lines, deploy scripts and environment configuration: I/O only.
- Judge demo, dossiers, proof bundle, preflight, readiness, topology, capability ledger, evaluation suites, provider canary, specialist routes other than the loop's, and knowledge packs: closed fixtures or finite tables that would add only easy members.
