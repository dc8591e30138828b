/**
 What one call of the watch engine answers, over any store, event, fetcher, generator, delivery and
 clock, with every status, text and field written out: which calls are refused and why, what a capture
 is accepted for, and what the run of each classification holds.
 */
module RegistryAnswers {
  import opened Wrappers
  import opened Texts
  import opened Timestamps
  import opened Json
  import opened Encoding
  import opened RegistryEvents
  import opened ClaimStore
  import opened PageEvidence
  import opened RegistryModel
  import opened RegistryWatch

  // ---------------------------------------------------------------- refused events

  predicate IsWatchType(e: WatchEvent) { e.eventType == Lit("registry.watch.requested") }

  predicate IsTrusted(e: WatchEvent) { e.source == Lit("vice_ceo_registry_watch") }

  predicate IsSchema(e: WatchEvent) { e.schemaVersion == Lit("vice-ceo-registry-watch-event-v1") }

  predicate IsTimed(setup: Setup, e: WatchEvent) { Parse(setup.lenient, e.scheduledFor).Some? }

  predicate IsRegistered(setup: Setup, e: WatchEvent) { e.sourceId in setup.sources }

  predicate Acceptable(setup: Setup, e: WatchEvent) {
    !IsBlank(e.eventId) && IsWatchType(e) && IsTrusted(e) && IsSchema(e) && IsTimed(setup, e) && IsRegistered(setup, e)
  }

  lemma WatchConstants()
    ensures WatchEventType() == Lit("registry.watch.requested") && WatchSource() == Lit("vice_ceo_registry_watch")
    ensures WatchSchemaVersion() == Lit("vice-ceo-registry-watch-event-v1")
    ensures WatchClaimKind() == Lit("registry_watch_event")
  {
    hide Lit;
  }

  /** The claim of a watch event. */
  function EventClaim(e: WatchEvent): ClaimKey {
    ClaimKey(Lit("vice_ceo_registry_watch"), Lit("registry_watch_event"), WatchKey(e))
  }

  /** The six refusals, each exactly when its condition is the first that holds. */
  predicate RefusedInOrder(setup: Setup, e: WatchEvent, outcome: Outcome) {
    && (outcome == Err(EventIdRequired) <==> IsBlank(e.eventId))
    && (outcome == Err(WatchError.UnsupportedEventType) <==> !IsBlank(e.eventId) && !IsWatchType(e))
    && (outcome == Err(UntrustedSource) <==> !IsBlank(e.eventId) && IsWatchType(e) && !IsTrusted(e))
    && (outcome == Err(WatchError.UnsupportedSchema) <==>
          !IsBlank(e.eventId) && IsWatchType(e) && IsTrusted(e) && !IsSchema(e))
    && (outcome == Err(WatchError.TimestampInvalid) <==>
          !IsBlank(e.eventId) && IsWatchType(e) && IsTrusted(e) && IsSchema(e) && !IsTimed(setup, e))
    && (outcome == Err(UnregisteredSource) <==>
          !IsBlank(e.eventId) && IsWatchType(e) && IsTrusted(e) && IsSchema(e) && IsTimed(setup, e)
          && !IsRegistered(setup, e))
  }

  lemma ValidationInOrder(setup: Setup, e: WatchEvent)
    ensures match ValidateEvent(setup.sources, setup.lenient, e)
            case Ok(source) => Acceptable(setup, e) && source == setup.sources[e.sourceId]
            case Err(x) => !Acceptable(setup, e) && RefusedInOrder(setup, e, Err(x))
  {
    hide IsBlank, Strip, Parse, Format, WatchEventType, WatchSource, WatchSchemaVersion, Lit;
    WatchConstants();
    BlankIff(e.eventId);
  }

  /** The errors raised after the claim. */
  predicate Late(outcome: Outcome) {
    match outcome
    case Ok(_) => true
    case Err(x) =>
      x.FetchFailed? || x.CaptureMismatch? || x.CaptureTimestampInvalid? || x.ContentNotEncodable? || x.GeneratorFailed?
      || x.DeliveryCrashed?
  }

  lemma ConclusionIsLate(e: WatchEvent, source: RegistrySource, prior: Option<Snapshot>, seen: Evidence, w: World)
    ensures Late(Conclude(e, source, prior, seen, w).0)
  {
    hide BriefOf, ChangeOf, Format, WatchKey, PlainRun, BriefRun, CandidateFor, RecordedReceipt, Classify;
  }

  lemma WatchIsLate(lenient: Lenient, st: StoreState, e: WatchEvent, source: RegistrySource, w: World)
    ensures Late(Watch(lenient, st, e, source, w).0) && Watch(lenient, st, e, source, w).1.claims == st.claims
  {
    hide Conclude, NormalizeTimestamp, Encodable, SegmentHashes, SaveRun, SaveCandidate, Utf8Length, Sha256Hex;
    match Observe(lenient, source, w)
    case Err(_) =>
    case Ok(seen) => ConclusionIsLate(e, source, Lookup(st.snapshots, source.sourceId), seen, w);
  }

  lemma LateErrors(setup: Setup, st: StoreState, e: WatchEvent, w: World)
    requires ValidateEvent(setup.sources, setup.lenient, e).Ok?
    ensures Late(Process(setup, st, e, w).0)
    ensures WatchScope(WatchKey(e)) in Process(setup, st, e, w).1.claims
  {
    hide ValidateEvent, WatchKey, RunIdOf, Watch, Replay, WatchScope;
    var scope := WatchScope(WatchKey(e));
    WatchIsLate(setup.lenient, st.(claims := st.claims[scope := RunIdOf(WatchKey(e))]), e,
                ValidateEvent(setup.sources, setup.lenient, e).value, w);
  }

  /**
   Over any store, a call is refused exactly when one of the six conditions holds, the first decides
   the error, and the store stays as it was; otherwise the event's key is claimed afterwards.
   */
  lemma RefusedExactly(setup: Setup, st: StoreState, e: WatchEvent, w: World)
    ensures RefusedInOrder(setup, e, Process(setup, st, e, w).0)
    ensures if Acceptable(setup, e) then EventClaim(e) in Process(setup, st, e, w).1.claims
            else Process(setup, st, e, w).1 == st
  {
    hide ValidateEvent, WatchKey, IsBlank, IsWatchType, IsTrusted, IsSchema, IsTimed, IsRegistered, Watch, Replay,
         RunIdOf, Lit;
    ValidationInOrder(setup, e);
    WatchConstants();
    if ValidateEvent(setup.sources, setup.lenient, e).Ok? { LateErrors(setup, st, e, w); }
  }

  // ---------------------------------------------------------------- events claimed before

  /** The marker a claimed event without a stored run is answered with. */
  predicate IsDuplicateMarker(run: WatchRun, e: WatchEvent, runId: Text, at: Text) {
    && run.runId == runId && run.eventId == e.eventId && run.sourceId == e.sourceId && run.idempotencyKey == WatchKey(e)
    && run.status == DuplicateEvent && run.reason == AlreadyClaimed && run.startedAt == at && run.completedAt == at
    && run.snapshot.None? && run.brief.None? && run.delivery.None? && run.candidate.None?
  }

  /** An acceptable event claimed before is answered from the store, which stays as it was. */
  lemma ClaimedIsReplayed(setup: Setup, st: StoreState, e: WatchEvent, w: World)
    requires Acceptable(setup, e) && EventClaim(e) in st.claims
    ensures var (outcome, after) := Process(setup, st, e, w);
            var runId := st.claims[EventClaim(e)];
            && after == st && outcome.Ok?
            && if runId in st.runs then outcome.value == st.runs[runId]
               else IsDuplicateMarker(outcome.value, e, runId, Format(w.startedAt))
  {
    hide ValidateEvent, WatchKey, Format, Lit, Acceptable, Watch;
    ValidationInOrder(setup, e);
    WatchConstants();
  }

  // ---------------------------------------------------------------- captures

  /** Why a fetched capture is no evidence for its source, in the order of the checks. */
  function CaptureFault(setup: Setup, source: RegistrySource, fetched: Option<SourceCapture>): Option<WatchError> {
    match fetched
    case None => Some(FetchFailed)
    case Some(c) =>
      if !(c.sourceId == source.sourceId && c.canonicalUrl == source.canonicalUrl) then Some(CaptureMismatch)
      else if Parse(setup.lenient, c.capturedAt).None? then Some(CaptureTimestampInvalid)
      else if exists i :: 0 <= i < |c.content| && c.content[i].Ch? && 0xD800 <= c.content[i].code < 0xE000
      then Some(ContentNotEncodable)
      else None
  }

  /** The snapshot holds the capture's evidence, field by field. */
  predicate HoldsCapture(setup: Setup, s: Snapshot, c: SourceCapture) {
    && s.sourceId == c.sourceId && s.canonicalUrl == c.canonicalUrl && s.sourceVersion == c.sourceVersion
    && s.normalizationVersion == c.normalizationVersion && s.evidenceDigest == Sha256Hex(c.content)
    && Parse(setup.lenient, c.capturedAt).Some? && s.capturedAt == Format(Parse(setup.lenient, c.capturedAt).value)
    && (Utf8Text(c.content) ==> s.byteCount == |EncodeUtf8(c.content)|)
    && |s.segmentHashes| == |ContentSegments(c.content)|
    && forall i | 0 <= i < |s.segmentHashes| :: s.segmentHashes[i] == Sha256Hex(ContentSegments(c.content)[i])
  }

  lemma SnapshotRecords(setup: Setup, source: RegistrySource, c: SourceCapture)
    ensures match ValidatedSnapshot(setup.lenient, source, c)
            case Err(x) => CaptureFault(setup, source, Some(c)) == Some(x)
            case Ok(s) => CaptureFault(setup, source, Some(c)) == None && HoldsCapture(setup, s, c)
  {
    hide Parse, Format, ContentSegments, Utf8Text, EncodeUtf8, Sha256Hex, Utf8Length;
    if Utf8Text(c.content) { Utf8RoundTrip(c.content); }
  }

  /** The store after the claim of an event that was not claimed before. */
  function WithClaim(st: StoreState, e: WatchEvent): StoreState {
    st.(claims := st.claims[EventClaim(e) := Lit("registry_run_") + Sha256Hex(WatchKey(e))])
  }

  lemma UnclaimedIsWatched(setup: Setup, st: StoreState, e: WatchEvent, w: World)
    requires Acceptable(setup, e) && EventClaim(e) !in st.claims
    ensures ValidateEvent(setup.sources, setup.lenient, e) == Ok(setup.sources[e.sourceId])
    ensures Process(setup, st, e, w) ==
            Watch(setup.lenient, WithClaim(st, e), e, setup.sources[e.sourceId], w)
  {
    hide ValidateEvent, WatchKey, Lit, Acceptable, Watch, Sha256Hex;
    ValidationInOrder(setup, e);
    WatchConstants();
  }

  /**
   The first call with a key: a capture that is no evidence raises its fault and leaves only the claim;
   any other is recorded field by field as the source's snapshot.
   */
  lemma CaptureExactly(setup: Setup, st: StoreState, e: WatchEvent, w: World)
    requires WellKeyed(setup.sources) && Acceptable(setup, e) && EventClaim(e) !in st.claims
    ensures var (outcome, after) := Process(setup, st, e, w);
            var source := setup.sources[e.sourceId];
            match CaptureFault(setup, source, w.fetch(source))
            case Some(x) => outcome == Err(x) && after == WithClaim(st, e)
            case None =>
              && after.claims == WithClaim(st, e).claims && e.sourceId in after.snapshots
              && after.snapshots == st.snapshots[e.sourceId := after.snapshots[e.sourceId]]
              && HoldsCapture(setup, after.snapshots[e.sourceId], w.fetch(source).value)
  {
    hide ValidatedSnapshot, CaptureFault, HoldsCapture, Acceptable, Conclude, SaveRun, SaveCandidate, WatchKey, Lit,
         EventClaim;
    UnclaimedIsWatched(setup, st, e, w);
    var source := setup.sources[e.sourceId];
    assert source.sourceId == e.sourceId by { AcceptableIsRegistered(setup, e); }
    match w.fetch(source)
    case None => FailedFetch(setup, source);
    case Some(c) => SnapshotRecords(setup, source, c);
  }

  lemma AcceptableIsRegistered(setup: Setup, e: WatchEvent)
    requires Acceptable(setup, e)
    ensures e.sourceId in setup.sources
  {
  }

  lemma FailedFetch(setup: Setup, source: RegistrySource)
    ensures CaptureFault(setup, source, None) == Some(FetchFailed)
  {
  }

  // ---------------------------------------------------------------- conclusions

  /** The run is filed under its event with its two clock readings and its snapshot. */
  predicate Filed(run: WatchRun, e: WatchEvent, w: World, s: Snapshot) {
    && run.runId == Lit("registry_run_") + Sha256Hex(WatchKey(e)) && run.idempotencyKey == WatchKey(e)
    && run.eventId == e.eventId && run.sourceId == e.sourceId && run.snapshot == Some(s)
    && run.startedAt == Format(w.startedAt) && run.completedAt == Format(w.completedAt)
  }

  predicate IsPlain(run: WatchRun, status: RunStatus, reason: RunReason) {
    run.status == status && run.reason == reason && run.brief.None? && run.delivery.None? && run.candidate.None?
  }

  /** The change names what it compares, and its excerpt spells the new segments it counts. */
  predicate Describes(
    ch: RegistryChange, source: RegistrySource, prior: Snapshot, current: Snapshot, c: SourceCapture)
  {
    var segments := ChangedSegments(prior.segmentHashes, c.content);
    && ch.source == source && ch.prior == prior && ch.current == current && ch.capture == c
    && ch.changedSegmentCount == |segments|
    && if segments == []
       then ch.excerpt
            == Lit("No newly separable public-text segment was available; review the cited source revision.")
       else Spells(ch.excerpt, segments)
  }

  lemma ChangeDescribes(source: RegistrySource, prior: Snapshot, current: Snapshot, c: SourceCapture)
    ensures Describes(ChangeOf(source, prior, current, c), source, prior, current, c)
  {
    hide ChangedSegments, ChangedExcerpt, Spells, Lit;
    ExcerptSpells(prior.segmentHashes, c.content);
  }

  /** The queue item of a brief, field by field. */
  predicate IsItem(c: ActionCandidate, brief: ImpactBrief, source: RegistrySource, at: Text) {
    && c.candidateId == Lit("registry_action_")
         + Sha256Hex(Join([BAR], [brief.briefId, brief.evidenceDigest, Lit("prepare_internal_impact_memo")]))
    && c.briefId == brief.briefId && c.evidenceDigest == brief.evidenceDigest && c.citationUrl == brief.citationUrl
    && c.reviewSummary == brief.changeSummary && c.nextAction == brief.nextAction
    && c.sourceId == source.sourceId && c.jurisdiction == source.jurisdiction && c.createdAt == at
    && c.status == AwaitingOwnerReview && c.requiresOwnerDecision
    && c.ownerDecision == Unresolved && c.decidedAt == None
  }

  lemma ItemOfBrief(brief: ImpactBrief, source: RegistrySource, at: Text)
    ensures IsItem(CandidateFor(brief, source, at), brief, source, at)
  {
    hide Join;
    JoinThree(brief.briefId, brief.evidenceDigest, Lit("prepare_internal_impact_memo"));
  }

  /** The receipt a run records: the channel's own, or a failed one when the channel rejects the brief. */
  predicate IsReceipt(r: DeliveryReceipt, outcome: DeliveryOutcome) {
    match outcome
    case Delivered(given) => r == given
    case Rejected =>
      && r.state == Lit("failed") && r.provider == Lit("configured_internal_channel")
      && r.recipientDigest == None && r.receiptId == None && r.reasonCode == Lit("internal_brief_delivery_failed")
    case Crashed => false
  }

  predicate IsBriefRun(run: WatchRun, brief: ImpactBrief, c: ActionCandidate, outcome: DeliveryOutcome) {
    && run.brief == Some(brief) && run.candidate == Some(c)
    && run.delivery.Some? && IsReceipt(run.delivery.value, outcome)
    && run.reason == DeliveryReason(run.delivery.value.reasonCode)
    && run.status == if Lit("delivered") <= run.delivery.value.state then BriefDelivered else BriefPrepared
  }

  /** The id of the queue item can be hashed. */
  predicate Usable(brief: ImpactBrief) { Encodable(brief.briefId) && Encodable(brief.evidenceDigest) }

  /** What a detected change is answered with, and what it queues. */
  predicate BriefAnswer(
    source: RegistrySource, ch: RegistryChange, w: World, outcome: Outcome, queued: Option<ActionCandidate>)
  {
    match w.generate(ch)
    case None => outcome == Err(GeneratorFailed) && queued == None
    case Some(brief) =>
      if !Usable(brief) then outcome == Err(GeneratorFailed) && queued == None
      else
        && queued.Some? && IsItem(queued.value, brief, source, Format(w.startedAt))
        && if w.deliver(brief).Crashed? then outcome == Err(DeliveryCrashed)
           else outcome.Ok? && IsBriefRun(outcome.value, brief, queued.value, w.deliver(brief))
  }

  /** The verdict of comparing a snapshot with the one before it. */
  ghost predicate Answers(
    source: RegistrySource, prior: Option<Snapshot>, s: Snapshot, c: SourceCapture, w: World, outcome: Outcome,
    queued: Option<ActionCandidate>)
  {
    match prior
    case None => outcome.Ok? && IsPlain(outcome.value, BaselineCaptured, FirstSnapshot) && queued == None
    case Some(p) =>
      if p.normalizationVersion != s.normalizationVersion
      then outcome.Ok? && IsPlain(outcome.value, BaselineCaptured, Rebaselined) && queued == None
      else if p.evidenceDigest == s.evidenceDigest
      then outcome.Ok? && IsPlain(outcome.value, NoChange, HashUnchanged) && queued == None
      else exists ch :: Describes(ch, source, p, s, c) && BriefAnswer(source, ch, w, outcome, queued)
  }

  lemma RecordedIsReceipt(outcome: DeliveryOutcome)
    requires !outcome.Crashed?
    ensures IsReceipt(RecordedReceipt(outcome), outcome)
  {
    hide Lit;
  }

  lemma ConcludeBriefs(
    e: WatchEvent, source: RegistrySource, p: Snapshot, seen: Evidence, w: World, ch: RegistryChange)
    requires Classify(Some(p), seen.snapshot) == Changed && ch == ChangeOf(source, p, seen.snapshot, seen.capture)
    ensures var end := Conclude(e, source, Some(p), seen, w); BriefAnswer(source, ch, w, end.0, end.1)
  {
    hide WatchKey, RunIdOf, Format, ChangeOf, RecordedReceipt, CandidateFor, IsItem, IsReceipt, Lit, Encodable,
         Classify;
    match BriefOf(w, ch)
    case None =>
    case Some(brief) =>
      ItemOfBrief(brief, source, Format(w.startedAt));
      if !w.deliver(brief).Crashed? { RecordedIsReceipt(w.deliver(brief)); }
  }

  lemma ConcludeAnswers(e: WatchEvent, source: RegistrySource, prior: Option<Snapshot>, seen: Evidence, w: World)
    ensures var end := Conclude(e, source, prior, seen, w);
            Answers(source, prior, seen.snapshot, seen.capture, w, end.0, end.1)
  {
    hide WatchKey, RunIdOf, Format, ChangeOf, BriefAnswer, Describes, BriefOf, BriefRun;
    if prior.Some? && Classify(prior, seen.snapshot) == Changed {
      var ch := ChangeOf(source, prior.value, seen.snapshot, seen.capture);
      ChangeDescribes(source, prior.value, seen.snapshot, seen.capture);
      ConcludeBriefs(e, source, prior.value, seen, w, ch);
    }
  }

  lemma ConcludeFiles(e: WatchEvent, source: RegistrySource, prior: Option<Snapshot>, seen: Evidence, w: World)
    ensures match Conclude(e, source, prior, seen, w).0
            case Ok(run) => Filed(run, e, w, seen.snapshot)
            case Err(_) => true
  {
    hide WatchKey, Format, ChangeOf, Classify, BriefOf, CandidateFor, RecordedReceipt, StatusAfter, Lit;
  }

  /** Where a watched call that has evidence ends. */
  lemma WatchConcludes(
    lenient: Lenient, st: StoreState, e: WatchEvent, source: RegistrySource, w: World, seen: Evidence)
    requires Observe(lenient, source, w) == Ok(seen)
    ensures var end := Conclude(e, source, Lookup(st.snapshots, source.sourceId), seen, w);
            Watch(lenient, st, e, source, w)
            == (end.0, StoreState(st.claims, st.snapshots[seen.snapshot.sourceId := seen.snapshot],
                                  SaveRun(st.runs, end.0), SaveCandidate(st.candidates, end.1)))
  {
    hide Observe, Conclude, SaveRun, SaveCandidate, Lookup;
  }

  lemma CaptureObserved(setup: Setup, source: RegistrySource, w: World) returns (seen: Evidence)
    requires CaptureFault(setup, source, w.fetch(source)) == None
    ensures Observe(setup.lenient, source, w) == Ok(seen)
    ensures w.fetch(source) == Some(seen.capture) && seen.snapshot.sourceId == source.sourceId
  {
    hide CaptureFault, HoldsCapture, ValidatedSnapshot;
    match w.fetch(source)
    case None => FailedFetch(setup, source);
    case Some(c) =>
      SnapshotRecords(setup, source, c);
      seen := Evidence(c, ValidatedSnapshot(setup.lenient, source, c).value);
  }

  /**
   The first call with a key, after a capture that is evidence: first snapshots and changed
   normalizations are baselines, equal digests are no change, and a change is described to the
   generator, queued before delivery, and answered as the delivery went. A completed run is filed and
   stored; nothing else in the store changes.
   */
  lemma ConclusionExactly(setup: Setup, st: StoreState, e: WatchEvent, w: World)
    requires WellKeyed(setup.sources) && Acceptable(setup, e) && EventClaim(e) !in st.claims
    requires CaptureFault(setup, setup.sources[e.sourceId], w.fetch(setup.sources[e.sourceId])) == None
    ensures var (outcome, after) := Process(setup, st, e, w);
            var source := setup.sources[e.sourceId];
            && e.sourceId in after.snapshots
            && (exists queued ::
                  && Answers(source, Lookup(st.snapshots, e.sourceId), after.snapshots[e.sourceId],
                             w.fetch(source).value, w, outcome, queued)
                  && after.candidates == if queued.None? then st.candidates
                                         else st.candidates[queued.value.candidateId := queued.value])
            && match outcome
               case Err(_) => after.runs == st.runs
               case Ok(run) =>
                 Filed(run, e, w, after.snapshots[e.sourceId]) && after.runs == st.runs[run.runId := run]
  {
    hide Observe, CaptureFault, Acceptable, Conclude, Answers, Filed, WatchKey, Lit, EventClaim, Watch, Process, Lookup;
    UnclaimedIsWatched(setup, st, e, w);
    var source := setup.sources[e.sourceId];
    assert source.sourceId == e.sourceId by { AcceptableIsRegistered(setup, e); }
    var seen := CaptureObserved(setup, source, w);
    var prior := Lookup(st.snapshots, e.sourceId);
    WatchConcludes(setup.lenient, WithClaim(st, e), e, source, w, seen);
    ConcludeAnswers(e, source, prior, seen, w);
    ConcludeFiles(e, source, prior, seen, w);
    var (outcome, queued) := Conclude(e, source, prior, seen, w);
    assert Answers(source, prior, seen.snapshot, seen.capture, w, outcome, queued);
  }

  // ---------------------------------------------------------------- briefs

  /** The number some decimal digits spell. */
  function Decimal(t: Text): Option<nat> {
    if t == [] then Some(0)
    else
      var n := |t| - 1;
      match Decimal(t[..n])
      case None => None
      case Some(v) =>
        if t[n].Ch? && '0' as int <= t[n].code <= '9' as int then Some(v * 10 + t[n].code - '0' as int) else None
  }

  /** A count prints as its decimal digits, without leading zeros. */
  lemma {:induction false} DecimalReadsBack(n: nat)
    ensures DecimalText(n) != [] && Decimal(DecimalText(n)) == Some(n)
    ensures DecimalText(n)[0] == Ch('0' as int) <==> n == 0
  {
    var t := DecimalText(n);
    if n < 10 {
      assert t[..0] == [] && Decimal(t[..0]) == Some(0);
    } else {
      DecimalReadsBack(n / 10);
      assert t[..|t| - 1] == DecimalText(n / 10);
    }
  }

  /** The brief takes its evidence from the change, field by field. */
  predicate NamesEvidence(b: ImpactBrief, ch: RegistryChange) {
    && b.briefId == Lit("registry_brief_")
         + Sha256Hex(Join([BAR], [ch.source.sourceId, ch.prior.evidenceDigest, ch.current.evidenceDigest]))
    && b.sourceId == ch.source.sourceId && b.sourceDisplayName == ch.source.displayName
    && b.citationUrl == ch.source.canonicalUrl && b.priorVersion == ch.prior.sourceVersion
    && b.currentVersion == ch.current.sourceVersion && b.evidenceDigest == ch.current.evidenceDigest
    && b.jurisdiction == ch.source.jurisdiction && b.sourceOwner == ch.source.sourceOwner
    && b.operationalFocus == ch.source.operationalFocus && b.excerptDigest == Sha256Hex(ch.excerpt)
    && b.changedSegmentCount == ch.changedSegmentCount && !b.legalConclusion
  }

  lemma StandardNamesEvidence(ch: RegistryChange, summary: Text, nextAction: Text, mode: Text)
    ensures var b := StandardBrief(ch, summary, nextAction, mode);
            NamesEvidence(b, ch) && b.changeSummary == summary && b.nextAction == nextAction && b.modelMode == mode
  {
    hide Join;
    JoinThree(ch.source.sourceId, ch.prior.evidenceDigest, ch.current.evidenceDigest);
  }

  /** The texts of the deterministic brief. */
  predicate TellsAdvance(b: ImpactBrief, ch: RegistryChange) {
    && b.modelMode == Lit("deterministic_evidence_summary")
    && b.changeSummary == Lit("The monitored source advanced from ") + ch.prior.sourceVersion + Lit(" to ")
         + ch.current.sourceVersion + Lit("; ") + DecimalText(ch.changedSegmentCount)
         + Lit(" newly observed public-content segment(s) were isolated for review.")
    && b.nextAction == Lit("Review the cited ") + ch.source.jurisdiction + Lit(" change for ")
    + ch.source.operationalFocus
    + Lit(", compare it to the retained evidence, and decide whether an internal Westover impact memo is needed.")
  }

  function BlockedSummary(): Text {
    Lit("A public-source content safety signal blocked model processing for this change. ")
    + Lit("The evidence hash and official source link were retained for owner review; ")
    + Lit("no source text was treated as an instruction.")
  }

  function BlockedAction(): Text {
    Lit("Review the cited official source directly and determine whether an internal Westover impact memo is needed.")
  }

  /** The texts of the safety fallback. */
  predicate TellsBlocked(b: ImpactBrief) {
    && b.modelMode == Lit("deterministic_public_source_safety_fallback")
    && b.changeSummary == BlockedSummary() && b.nextAction == BlockedAction()
  }

  lemma BlockedSummaryIs()
    ensures SafetySummary() == BlockedSummary()
  {
    hide Lit;
  }

  lemma BlockedActionIs()
    ensures SafetyAction() == BlockedAction()
  {
    hide Lit;
  }

  lemma AdvanceTexts(b: ImpactBrief, ch: RegistryChange)
    requires b.changeSummary == AdvanceSummary(ch) && b.nextAction == ReviewAction(ch.source)
    requires b.modelMode == Lit("deterministic_evidence_summary")
    ensures TellsAdvance(b, ch)
  {
    hide Lit, DecimalText;
  }

  lemma BlockedTexts(b: ImpactBrief)
    requires b.changeSummary == SafetySummary() && b.nextAction == SafetyAction()
    requires b.modelMode == Lit("deterministic_public_source_safety_fallback")
    ensures TellsBlocked(b)
  {
    hide Lit, SafetySummary, SafetyAction, BlockedSummary, BlockedAction;
    BlockedSummaryIs();
    BlockedActionIs();
  }

  /** Both texts the deterministic generator hashes can be encoded. */
  predicate CanHash(ch: RegistryChange) {
    && Encodable(Join([BAR], [ch.source.sourceId, ch.prior.evidenceDigest, ch.current.evidenceDigest]))
    && Encodable(ch.excerpt)
  }

  lemma CanHashIff(ch: RegistryChange)
    ensures CanHash(ch) <==> Hashable(ch)
  {
    hide Join, Encodable;
    JoinThree(ch.source.sourceId, ch.prior.evidenceDigest, ch.current.evidenceDigest);
  }

  /** The deterministic generator fails exactly on a text it cannot hash, and otherwise spells out the change. */
  lemma DeterministicExactly(ch: RegistryChange)
    ensures match DeterministicBrief(ch)
            case None => !CanHash(ch)
            case Some(b) => CanHash(ch) && NamesEvidence(b, ch) && TellsAdvance(b, ch)
  {
    hide CanHash, Hashable, StandardBrief, NamesEvidence, TellsAdvance, AdvanceSummary, ReviewAction, Lit;
    CanHashIff(ch);
    StandardNamesEvidence(ch, AdvanceSummary(ch), ReviewAction(ch.source), Lit("deterministic_evidence_summary"));
    if DeterministicBrief(ch).Some? { AdvanceTexts(DeterministicBrief(ch).value, ch); }
  }

  /** The guarded generator is the inner one on allowed excerpts and the safety fallback on blocked ones. */
  lemma GuardExactly(allowed: Text -> bool, inner: Generator, ch: RegistryChange)
    ensures if allowed(ch.excerpt) then Guarded(allowed, inner, ch) == inner(ch)
            else match Guarded(allowed, inner, ch)
                 case None => !CanHash(ch)
                 case Some(b) => CanHash(ch) && NamesEvidence(b, ch) && TellsBlocked(b)
  {
    hide Lit, NamesEvidence, TellsBlocked, TellsAdvance, CanHash, DeterministicBrief, SafetySummary, SafetyAction;
    DeterministicExactly(ch);
    if DeterministicBrief(ch).Some? && !allowed(ch.excerpt) {
      FallbackNames(DeterministicBrief(ch).value, ch, SafetySummary(), SafetyAction(),
                    Lit("deterministic_public_source_safety_fallback"));
      BlockedTexts(Guarded(allowed, inner, ch).value);
    }
  }

  lemma FallbackNames(b: ImpactBrief, ch: RegistryChange, summary: Text, nextAction: Text, mode: Text)
    requires NamesEvidence(b, ch)
    ensures NamesEvidence(b.(changeSummary := summary, nextAction := nextAction, modelMode := mode), ch)
  {
    hide Join, Lit;
  }
}
