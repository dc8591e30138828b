/** Records and pure steps of the Registry Change Watch. */
module RegistryModel {
  import opened Wrappers
  import opened Texts
  import opened Timestamps
  import opened Encoding
  import opened RegistryEvents
  import opened ClaimStore
  import opened PageEvidence

  function WatchClaimKind(): Text { Lit("registry_watch_event") }
  function MemoAction(): Text { Lit("prepare_internal_impact_memo") }

  datatype RegistrySource = RegistrySource(
    sourceId: Text, displayName: Text, canonicalUrl: Text, jurisdiction: Text,
    sourceOwner: Text, refreshSchedule: Text, operationalFocus: Text)

  type Sources = map<Text, RegistrySource>

  datatype SourceCapture = SourceCapture(
    sourceId: Text, canonicalUrl: Text, sourceVersion: Text, capturedAt: Text, content: Text,
    normalizationVersion: Text)

  datatype Snapshot = Snapshot(
    sourceId: Text, canonicalUrl: Text, sourceVersion: Text, capturedAt: Text,
    evidenceDigest: Text, byteCount: nat, normalizationVersion: Text, segmentHashes: seq<Text>)

  datatype RegistryChange = RegistryChange(
    source: RegistrySource, prior: Snapshot, current: Snapshot, capture: SourceCapture, excerpt: Text,
    changedSegmentCount: nat)

  datatype ImpactBrief = ImpactBrief(
    briefId: Text, sourceId: Text, sourceDisplayName: Text, citationUrl: Text, priorVersion: Text, currentVersion: Text,
    evidenceDigest: Text, changeSummary: Text, nextAction: Text, legalConclusion: bool, modelMode: Text,
    jurisdiction: Text, sourceOwner: Text, operationalFocus: Text, excerptDigest: Text, changedSegmentCount: nat)

  datatype DeliveryReceipt = DeliveryReceipt(
    state: Text, provider: Text, recipientDigest: Option<Text>, receiptId: Option<Text>, reasonCode: Text)

  datatype CandidateStatus = AwaitingOwnerReview | OwnerAcknowledged | OwnerArchived

  datatype OwnerDecision = Unresolved | Acknowledge | Archive

  datatype ActionCandidate = ActionCandidate(
    candidateId: Text, briefId: Text, sourceId: Text, jurisdiction: Text, evidenceDigest: Text,
    status: CandidateStatus, requiresOwnerDecision: bool, createdAt: Text,
    reviewSummary: Text, nextAction: Text, citationUrl: Text, ownerDecision: OwnerDecision, decidedAt: Option<Text>)

  datatype RunStatus = BaselineCaptured | NoChange | BriefDelivered | BriefPrepared | DuplicateEvent

  datatype RunReason = FirstSnapshot | Rebaselined | HashUnchanged | DeliveryReason(code: Text) | AlreadyClaimed

  datatype WatchRun = WatchRun(
    runId: Text, eventId: Text, sourceId: Text, status: RunStatus, reason: RunReason, idempotencyKey: Text,
    startedAt: Text, completedAt: Text, snapshot: Option<Snapshot>, brief: Option<ImpactBrief>,
    delivery: Option<DeliveryReceipt>, candidate: Option<ActionCandidate>)

  /** Exceptions that leave `process`; the first six are raised before the event is claimed. */
  datatype WatchError =
    | EventIdRequired
    | UnsupportedEventType
    | UntrustedSource
    | UnsupportedSchema
    | TimestampInvalid
    | UnregisteredSource
    | FetchFailed
    | CaptureMismatch
    | CaptureTimestampInvalid
    | ContentNotEncodable
    | GeneratorFailed
    | DeliveryCrashed

  // ---------------------------------------------------------------- event and capture

  /** `_validate_event` */
  function ValidateEvent(sources: Sources, lenient: Lenient, e: WatchEvent): Result<RegistrySource, WatchError> {
    if Strip(e.eventId) == [] then Err(EventIdRequired)
    else if e.eventType != WatchEventType() then Err(WatchError.UnsupportedEventType)
    else if e.source != WatchSource() then Err(UntrustedSource)
    else if e.schemaVersion != WatchSchemaVersion() then Err(WatchError.UnsupportedSchema)
    else if NormalizeTimestamp(lenient, e.scheduledFor).None? then Err(WatchError.TimestampInvalid)
    else if e.sourceId !in sources then Err(UnregisteredSource)
    else Ok(sources[e.sourceId])
  }

  function RunIdOf(key: Text): Text { Lit("registry_run_") + Sha256Hex(key) }

  function WatchScope(key: Text): ClaimKey { ClaimKey(WatchSource(), WatchClaimKind(), key) }

  /** The claim the store makes for a watch event is never refused. */
  lemma WatchScopeIsValid(e: WatchEvent)
    ensures ScopedKey(WatchSource(), WatchClaimKind(), WatchKey(e)) == Ok(WatchScope(WatchKey(e)))
  {
    hide Strip, WatchPayload;
    StripFixed(WatchSource());
    StripFixed(WatchClaimKind());
    assert WatchKey(e)[0] == Ch('r' as int);
    assert WatchKey(e)[|WatchKey(e)| - 1] == Hex(Sha256(WatchPayload(e)));
    StripFixed(WatchKey(e));
  }

  /** The claims of watch events, whichever store they are made in. */
  function WatchClaims(events: seq<WatchEvent>): seq<Call> {
    seq(|events|, i requires 0 <= i < |events| =>
      Call(WatchSource(), WatchClaimKind(), WatchKey(events[i]), RunIdOf(WatchKey(events[i]))))
  }

  lemma WatchTenantIsBarFree()
    ensures Without(BAR, WatchSource()) && Without(BAR, WatchClaimKind())
  {
  }

  lemma WatchClaimIsEncodable(e: WatchEvent)
    ensures Encodable(BarJoin(WatchScope(WatchKey(e))))
  {
    hide WatchPayload;
    LitEncodable("vice_ceo_registry_watch");
    LitEncodable("registry_watch_event");
    LitEncodable("registry-watch-");
    assert forall i | 0 <= i < |Sha256Hex(WatchPayload(e))| :: Sha256Hex(WatchPayload(e))[i].Hex?;
  }

  /** The Firestore store answers every history of watch claims as the in-memory store does. */
  lemma WatchClaimsAgree(events: seq<WatchEvent>)
    ensures SameAnswers(WatchClaims(events))
  {
    hide SameAnswers, Encodable, Collides, BarJoin, WatchKey, WatchScope, RunIdOf, ScopedKey, WatchSource,
         WatchClaimKind;
    var calls := WatchClaims(events);
    WatchTenantIsBarFree();
    BarFreeScopesNeverCollide(calls);
    forall i | 0 <= i < |calls| ensures EncodableCall(calls[i]) {
      WatchScopeIsValid(events[i]);
      WatchClaimIsEncodable(events[i]);
    }
    SameAnswersIff(calls);
  }

  lemma RunIdInjective(k: Text, l: Text)
    ensures RunIdOf(k) == RunIdOf(l) <==> k == l
  {
    assert RunIdOf(k)[|Lit("registry_run_")|] == Hex(Sha256(k));
    assert RunIdOf(l)[|Lit("registry_run_")|] == Hex(Sha256(l));
  }

  /** `_validated_snapshot` */
  function ValidatedSnapshot(
    lenient: Lenient, source: RegistrySource, c: SourceCapture
  ): (r: Result<Snapshot, WatchError>)
    ensures r.Ok? ==> r.value.sourceId == source.sourceId
  {
    if c.sourceId != source.sourceId || c.canonicalUrl != source.canonicalUrl then Err(CaptureMismatch)
    else
      match NormalizeTimestamp(lenient, c.capturedAt)
      case None => Err(CaptureTimestampInvalid)
      case Some(capturedAt) =>
        if !Encodable(c.content) then Err(ContentNotEncodable)
        else Ok(Snapshot(c.sourceId, c.canonicalUrl, c.sourceVersion, capturedAt, Sha256Hex(c.content),
          Utf8Length(c.content),
                         c.normalizationVersion, SegmentHashes(c.content)))
  }

  // ---------------------------------------------------------------- classification

  datatype Classification = Baseline(reason: RunReason) | Unchanged | Changed

  /** How a snapshot compares with the previous one of its source. */
  function Classify(prior: Option<Snapshot>, current: Snapshot): Classification {
    match prior
    case None => Baseline(FirstSnapshot)
    case Some(p) =>
      if p.normalizationVersion != current.normalizationVersion then Baseline(Rebaselined)
      else if p.evidenceDigest == current.evidenceDigest then Unchanged
      else Changed
  }

  function ChangeOf(
    source: RegistrySource, prior: Snapshot, current: Snapshot, capture: SourceCapture
  ): RegistryChange {
    RegistryChange(source, prior, current, capture, ChangedExcerpt(prior.segmentHashes, capture.content),
                   |ChangedSegments(prior.segmentHashes, capture.content)|)
  }

  /** A run reports what the classification says. */
  predicate ReportsClassification(run: WatchRun, c: Classification) {
    match c
    case Baseline(reason) => run.status == BaselineCaptured && run.reason == reason && run.brief.None?
    case Unchanged => run.status == NoChange && run.reason == HashUnchanged && run.brief.None?
    case Changed => (run.status == BriefDelivered || run.status == BriefPrepared) && run.brief.Some?
  }

  /** A run is filed under its event and carries its two clock readings. */
  predicate FiledFor(run: WatchRun, e: WatchEvent, started: Instant, completed: Instant) {
    && run.runId == RunIdOf(WatchKey(e)) && run.idempotencyKey == WatchKey(e)
    && run.eventId == e.eventId && run.sourceId == e.sourceId
    && run.startedAt == Format(started) && run.completedAt == Format(completed)
  }

  /** A run says how its delivery went; a rejected delivery leaves the brief prepared and a failed receipt. */
  predicate ReportsDelivery(run: WatchRun, outcome: DeliveryOutcome) {
    match (outcome, run.delivery)
    case (Delivered(r), Some(d)) =>
      d == r && run.reason == DeliveryReason(r.reasonCode)
        && (run.status == BriefDelivered <==> HasPrefix(r.state, Lit("delivered")))
    case (Rejected, Some(d)) =>
      d.state == Lit("failed") && d.receiptId.None? && run.status == BriefPrepared
      && run.reason == DeliveryReason(Lit("internal_brief_delivery_failed"))
    case (_, _) => false
  }

  lemma BriefRunReports(
    e: WatchEvent, brief: ImpactBrief, outcome: DeliveryOutcome, candidate: ActionCandidate,
    startedAt: Text, completedAt: Text, snapshot: Snapshot)
    requires !outcome.Crashed?
    ensures ReportsDelivery(
            BriefRun(e, brief, RecordedReceipt(outcome), candidate, startedAt, completedAt, snapshot), outcome)
  {
    hide WatchKey, RunIdOf;
    assert |Lit("delivered")| == 9 && |Lit("failed")| == 6;
  }

  // ---------------------------------------------------------------- briefs and candidates

  function BriefSeedText(sourceId: Text, priorDigest: Text, currentDigest: Text): Text {
    sourceId + [BAR] + (priorDigest + [BAR] + currentDigest)
  }

  function BriefId(sourceId: Text, priorDigest: Text, currentDigest: Text): Text {
    Lit("registry_brief_") + Sha256Hex(BriefSeedText(sourceId, priorDigest, currentDigest))
  }

  function CandidateId(briefId: Text, evidenceDigest: Text): Text {
    Lit("registry_action_") + Sha256Hex(briefId + [BAR] + (evidenceDigest + [BAR] + MemoAction()))
  }

  /** `_action_candidate` */
  function CandidateFor(brief: ImpactBrief, source: RegistrySource, createdAt: Text): ActionCandidate {
    ActionCandidate(CandidateId(brief.briefId, brief.evidenceDigest), brief.briefId, source.sourceId,
      source.jurisdiction,
                    brief.evidenceDigest, AwaitingOwnerReview, true, createdAt, brief.changeSummary, brief.nextAction,
                    brief.citationUrl, Unresolved, None)
  }

  datatype DeliveryOutcome = Delivered(receipt: DeliveryReceipt) | Rejected | Crashed

  /** The receipt recorded for a delivery; a rejected one is recorded as failed. */
  function RecordedReceipt(outcome: DeliveryOutcome): DeliveryReceipt
    requires !outcome.Crashed?
  {
    match outcome
    case Delivered(r) => r
    case Rejected => DeliveryReceipt(
      Lit("failed"), Lit("configured_internal_channel"), None, None, Lit("internal_brief_delivery_failed"))
  }

  predicate HasPrefix(t: Text, prefix: Text) { prefix <= t }

  function StatusAfter(r: DeliveryReceipt): RunStatus {
    if HasPrefix(r.state, Lit("delivered")) then BriefDelivered else BriefPrepared
  }

  function PlainRun(
    e: WatchEvent, status: RunStatus, reason: RunReason, startedAt: Text, completedAt: Text, snapshot: Snapshot
  ): WatchRun {
    WatchRun(RunIdOf(WatchKey(e)), e.eventId, e.sourceId, status, reason, WatchKey(e), startedAt, completedAt,
      Some(snapshot), None, None, None)
  }

  function BriefRun(
    e: WatchEvent, brief: ImpactBrief, receipt: DeliveryReceipt, candidate: ActionCandidate,
    startedAt: Text, completedAt: Text, snapshot: Snapshot
  ): WatchRun {
    WatchRun(RunIdOf(WatchKey(e)), e.eventId, e.sourceId, StatusAfter(receipt), DeliveryReason(receipt.reasonCode),
      WatchKey(e),
             startedAt, completedAt, Some(snapshot), Some(brief), Some(receipt), Some(candidate))
  }

  /** `_duplicate_run` */
  function DuplicateRun(e: WatchEvent, runId: Text, now: Text): WatchRun {
    WatchRun(runId, e.eventId, e.sourceId, DuplicateEvent, AlreadyClaimed, WatchKey(e), now, now, None, None, None,
      None)
  }

  // ---------------------------------------------------------------- owner decisions

  datatype ResolveError = CandidateNotFound | DecisionInvalid | NotResolvable | DecisionTimestampInvalid

  function ReadDecision(decision: Text): OwnerDecision {
    if decision == Lit("acknowledge") then Acknowledge
    else if decision == Lit("archive") then Archive
    else Unresolved
  }

  /** `_resolved_action_candidate` */
  function ResolvedCandidate(
    lenient: Lenient, c: ActionCandidate, decision: Text, decidedAt: Text
  ): Result<ActionCandidate, ResolveError> {
    var d := ReadDecision(decision);
    if d == Unresolved then Err(DecisionInvalid)
    else if c.status != AwaitingOwnerReview || c.ownerDecision != Unresolved then Err(NotResolvable)
    else if NormalizeTimestamp(lenient, decidedAt).None? then Err(DecisionTimestampInvalid)
    else Ok(c.(status := if d == Acknowledge then OwnerAcknowledged else OwnerArchived,
               requiresOwnerDecision := false, ownerDecision := d, decidedAt := Some(decidedAt)))
  }

  /** The four ways a candidate says whether and how it is decided agree. */
  predicate ConsistentCandidate(c: ActionCandidate) {
    && (c.status == OwnerAcknowledged <==> c.ownerDecision == Acknowledge)
    && (c.status == OwnerArchived <==> c.ownerDecision == Archive)
    && (c.status == AwaitingOwnerReview <==> c.ownerDecision == Unresolved)
    && (c.requiresOwnerDecision <==> c.status == AwaitingOwnerReview)
    && (c.requiresOwnerDecision <==> c.ownerDecision == Unresolved)
    && (c.requiresOwnerDecision <==> c.decidedAt.None?)
  }

  // ---------------------------------------------------------------- generators

  type Generator = RegistryChange -> Option<ImpactBrief>

  function DecimalText(n: nat): Text {
    if n < 10 then [Ch('0' as int + n)] else DecimalText(n / 10) + [Ch('0' as int + n % 10)]
  }

  function StandardBrief(ch: RegistryChange, summary: Text, nextAction: Text, modelMode: Text): ImpactBrief {
    ImpactBrief(
      BriefId(ch.source.sourceId, ch.prior.evidenceDigest, ch.current.evidenceDigest), ch.source.sourceId,
      ch.source.displayName, ch.source.canonicalUrl, ch.prior.sourceVersion, ch.current.sourceVersion,
      ch.current.evidenceDigest, summary, nextAction, false, modelMode, ch.source.jurisdiction, ch.source.sourceOwner,
      ch.source.operationalFocus, Sha256Hex(ch.excerpt), ch.changedSegmentCount)
  }

  function AdvanceSummary(ch: RegistryChange): Text {
    Lit("The monitored source advanced from ") + ch.prior.sourceVersion + Lit(" to ") + ch.current.sourceVersion
      + Lit("; ")
    + DecimalText(ch.changedSegmentCount) + Lit(" newly observed public-content segment(s) were isolated for review.")
  }

  function ReviewAction(source: RegistrySource): Text {
    Lit("Review the cited ") + source.jurisdiction + Lit(" change for ") + source.operationalFocus
    + Lit(", compare it to the retained evidence, and decide whether an internal Westover impact memo is needed.")
  }

  /** Both texts the deterministic generator hashes can be encoded. */
  predicate Hashable(ch: RegistryChange) {
    && Encodable(BriefSeedText(ch.source.sourceId, ch.prior.evidenceDigest, ch.current.evidenceDigest))
    && Encodable(ch.excerpt)
  }

  /** `DeterministicRegistryBriefGenerator.generate`; None is a UnicodeEncodeError. */
  function DeterministicBrief(ch: RegistryChange): Option<ImpactBrief> {
    if !Hashable(ch) then None
    else Some(StandardBrief(ch, AdvanceSummary(ch), ReviewAction(ch.source), Lit("deterministic_evidence_summary")))
  }

  function SafetySummary(): Text {
    Lit("A public-source content safety signal blocked model processing for this change. ")
    + Lit("The evidence hash and official source link were retained for owner review; ")
    + Lit("no source text was treated as an instruction.")
  }

  function SafetyAction(): Text {
    Lit("Review the cited official source directly and determine whether an internal Westover impact memo is needed.")
  }

  /** `GuardedRegistryBriefGenerator.generate` around any safety gate, inner generator and change. */
  function Guarded(allowed: Text -> bool, inner: Generator, ch: RegistryChange): Option<ImpactBrief> {
    if allowed(ch.excerpt) then inner(ch)
    else
      match DeterministicBrief(ch)
      case None => None
      case Some(brief) =>
        Some(brief.(changeSummary := SafetySummary(), nextAction := SafetyAction(),
                    modelMode := Lit("deterministic_public_source_safety_fallback")))
  }

  /** The brief takes every field but summary, next action and mode from the change. */
  predicate FromEvidence(ch: RegistryChange, b: ImpactBrief) {
    b == StandardBrief(ch, b.changeSummary, b.nextAction, b.modelMode)
  }

  /**
   Guarding a generator keeps every evidence field of the brief, so brief and candidate ids are those
   of the inner brief.
   */
  lemma GuardKeepsEvidence(allowed: Text -> bool, inner: Generator, ch: RegistryChange, createdAt: Text)
    requires match inner(ch) case Some(a) => FromEvidence(ch, a) case None => true
    ensures match (Guarded(allowed, inner, ch), inner(ch))
            case (Some(b), Some(a)) =>
              FromEvidence(ch, b) && b.briefId == a.briefId && b.evidenceDigest == a.evidenceDigest
              && CandidateFor(b, ch.source, createdAt).candidateId == CandidateFor(a, ch.source, createdAt).candidateId
            case (Some(b), None) => FromEvidence(ch, b)
            case (None, _) => true
  {
    hide AdvanceSummary, ReviewAction, SafetySummary, SafetyAction, BriefId, CandidateId, Sha256Hex, Lit, Hashable;
  }

  /**
   On a change between two validated captures, a guarded generator fails exactly when an allowed
   excerpt's inner generator does, or when the excerpt is blocked and the source id cannot be encoded:
   the deterministic fallback hashes the id. Nothing else it hashes can fail.
   */
  lemma GuardFailsIff(
    lenient: Lenient, source: RegistrySource, a: SourceCapture, prior: Snapshot, b: SourceCapture, current: Snapshot,
    allowed: Text -> bool, inner: Generator)
    requires ValidatedSnapshot(lenient, source, a) == Ok(prior) && ValidatedSnapshot(lenient, source, b) == Ok(current)
    ensures var change := ChangeOf(source, prior, current, b);
            Guarded(allowed, inner, change).None? <==>
              if allowed(change.excerpt) then inner(change).None? else !Encodable(source.sourceId)
  {
    hide AdvanceSummary, ReviewAction, SafetySummary, SafetyAction, StandardBrief, Lit, ValidatedSnapshot, Encodable;
    hide ChangedExcerpt, ChangedSegments, BriefSeedText;
    ValidatedDigest(lenient, source, a);
    ValidatedDigest(lenient, source, b);
    ExcerptEncodable(prior.segmentHashes, b.content);
    SeedEncodableIff(source.sourceId, a.content, b.content);
  }

  lemma ValidatedDigest(lenient: Lenient, source: RegistrySource, c: SourceCapture)
    ensures match ValidatedSnapshot(lenient, source, c)
            case Ok(snapshot) => snapshot.evidenceDigest == Sha256Hex(c.content) && Encodable(c.content)
            case Err(_) => true
  {
    hide NormalizeTimestamp, SegmentHashes, Utf8Length, Encodable, Sha256Hex;
  }

  lemma SeedEncodableIff(sourceId: Text, p: Text, c: Text)
    ensures Encodable(BriefSeedText(sourceId, Sha256Hex(p), Sha256Hex(c))) <==> Encodable(sourceId)
  {
    var seed := BriefSeedText(sourceId, Sha256Hex(p), Sha256Hex(c));
    assert forall i | 0 <= i < |sourceId| :: seed[i] == sourceId[i];
  }

  /** Only allowed excerpts reach the inner generator: what it does with others cannot be observed. */
  lemma GuardShieldsInner(allowed: Text -> bool, inner: Generator, other: Generator, ch: RegistryChange)
    requires allowed(ch.excerpt) ==> inner(ch) == other(ch)
    ensures Guarded(allowed, inner, ch) == Guarded(allowed, other, ch)
  {
    hide AdvanceSummary, ReviewAction, SafetySummary, SafetyAction, BriefId, CandidateId, Sha256Hex, Lit, Hashable;
  }

  /** A candidate id names its change: source, prior digest and current digest. */
  lemma CandidateIdsEqualIff(s: Text, p: Text, c: Text, t: Text, q: Text, d: Text)
    ensures CandidateId(BriefId(s, Sha256Hex(p), Sha256Hex(c)), Sha256Hex(c))
            == CandidateId(BriefId(t, Sha256Hex(q), Sha256Hex(d)), Sha256Hex(d))
            <==> s == t && p == q && c == d
  {
    var b, e := BriefId(s, Sha256Hex(p), Sha256Hex(c)), BriefId(t, Sha256Hex(q), Sha256Hex(d));
    if CandidateId(b, Sha256Hex(c)) == CandidateId(e, Sha256Hex(d)) {
      CandidateSeed(b, Sha256Hex(c), e, Sha256Hex(d));
      BriefSeed(s, p, c, t, q, d);
    }
  }

  lemma CandidateSeed(b: Text, x: Text, e: Text, y: Text)
    requires CandidateId(b, x) == CandidateId(e, y) && |x| == |y|
    ensures b == e && x == y
  {
    hide MemoAction;
    var n := |Lit("registry_action_")|;
    var u, v := b + [BAR] + (x + [BAR] + MemoAction()), e + [BAR] + (y + [BAR] + MemoAction());
    assert CandidateId(b, x)[n] == Hex(Sha256(u)) && CandidateId(e, y)[n] == Hex(Sha256(v));
    assert |b| == |e|;
    assert b == u[..|b|] && e == v[..|e|];
    assert x == u[|b| + 1..|b| + 1 + |x|] && y == v[|e| + 1..|e| + 1 + |y|];
  }

  lemma BriefSeed(s: Text, p: Text, c: Text, t: Text, q: Text, d: Text)
    requires BriefId(s, Sha256Hex(p), Sha256Hex(c)) == BriefId(t, Sha256Hex(q), Sha256Hex(d))
    ensures s == t && p == q && c == d
  {
    var n := |Lit("registry_brief_")|;
    var u, v := s + [BAR] + (Sha256Hex(p) + [BAR] + Sha256Hex(c)), t + [BAR] + (Sha256Hex(q) + [BAR] + Sha256Hex(d));
    assert BriefId(s, Sha256Hex(p), Sha256Hex(c))[n] == Hex(Sha256(u));
    assert BriefId(t, Sha256Hex(q), Sha256Hex(d))[n] == Hex(Sha256(v));
    assert |s| == |t| && s == u[..|s|] && t == v[..|t|];
    assert u[|s| + 1] == Hex(Sha256(p)) && v[|t| + 1] == Hex(Sha256(q));
    assert u[|s| + 3] == Hex(Sha256(c)) && v[|t| + 3] == Hex(Sha256(d));
  }

  // ---------------------------------------------------------------- evidence and classification

  /** Two captures of a source that hold the same content under the same normalization are no change. */
  lemma SameContentIsUnchanged(lenient: Lenient, source: RegistrySource, a: SourceCapture, b: SourceCapture)
    requires ValidatedSnapshot(lenient, source, a).Ok? && ValidatedSnapshot(lenient, source, b).Ok?
    ensures Classify(Some(ValidatedSnapshot(lenient, source, a).value), ValidatedSnapshot(lenient, source, b).value) ==
            if a.normalizationVersion != b.normalizationVersion then Baseline(Rebaselined)
            else if a.content == b.content then Unchanged
            else Changed
  {
    hide NormalizeTimestamp, SegmentHashes, Utf8Length, Encodable;
    assert Sha256Hex(a.content)[0] == Hex(Sha256(a.content)) && Sha256Hex(b.content)[0] == Hex(Sha256(b.content));
  }

  /**
   Two token streams that differ only by balanced ignored blocks compare as unchanged, whatever source
   versions (ETags) and capture times accompany them.
   */
  lemma SplicedStreamsAreUnchanged(
    lenient: Lenient, source: RegistrySource, tokens: seq<Token>, xs: seq<Splice>, ys: seq<Splice>, a: SourceCapture,
    b: SourceCapture)
    requires SpliceFits(tokens, xs) && SpliceFits(tokens, ys)
    requires HtmlContent(SpliceAll(tokens, xs)) == Some(a.content)
             && HtmlContent(SpliceAll(tokens, ys)) == Some(b.content)
    requires ValidatedSnapshot(lenient, source, a).Ok? && ValidatedSnapshot(lenient, source, b).Ok?
    requires a.normalizationVersion == b.normalizationVersion
    ensures Classify(Some(ValidatedSnapshot(lenient, source, a).value), ValidatedSnapshot(lenient, source, b).value)
            == Unchanged
  {
    hide ValidatedSnapshot, SpliceAll, SpliceFits, HtmlContent;
    SplicedStreamsSameContent(tokens, xs, ys);
    SameContentIsUnchanged(lenient, source, a, b);
  }

  /** A rearrangement with no new segment is still a change, reported with count zero. */
  lemma RearrangementIsChange(lenient: Lenient, source: RegistrySource, a: SourceCapture, b: SourceCapture)
    requires ValidatedSnapshot(lenient, source, a).Ok? && ValidatedSnapshot(lenient, source, b).Ok?
    requires a.normalizationVersion == b.normalizationVersion && a.content != b.content
    requires forall k | 0 <= k < |ContentSegments(b.content)| ::
             ContentSegments(b.content)[k] in ContentSegments(a.content)
    ensures var prior, current := ValidatedSnapshot(lenient, source, a).value,
            ValidatedSnapshot(lenient, source, b).value;
            && Classify(Some(prior), current) == Changed
            && ChangeOf(source, prior, current, b).changedSegmentCount == 0
            && ChangeOf(source, prior, current, b).excerpt == NoSeparableSegment()
  {
    hide NormalizeTimestamp, SegmentHashes, Utf8Length, Encodable, ContentSegments, ChangedSegments, ChangedExcerpt,
         NoSeparableSegment, Classify;
    SameContentIsUnchanged(lenient, source, a, b);
    RearrangementHasNoNewSegment(a.content, b.content);
  }
}
