/** The stored dictionary of a run, entry by entry, and what a run read from any dictionary holds. */
module RunDictionaries {
  import opened Wrappers
  import opened Texts
  import opened RegistryModel
  import opened RunPersistence

  // ---------------------------------------------------------------- reading

  /** What an absent field of a part is read as. */
  function LegacyValue(part: Key, field: Key): Value {
    if part == SnapshotKey then if field == NormalizationKey then Str(Lit("legacy_raw_whitespace_v1")) else Tuple([])
    else if part == BriefKey then if field == SegmentCountKey then Num(0) else Str([])
    else if field == DecisionKey then Str(Lit("unresolved"))
    else if field == DecidedAtKey then Null
    else Str([])
  }

  /** Listed segment hashes are read as a tuple. */
  function AsRead(part: Key, field: Key, value: Value): Value {
    if part == SnapshotKey && field == SegmentsKey && value.List? then Tuple(value.items) else value
  }

  /** The part read from the dictionary: none unless a dictionary is there, and every field given or defaulted. */
  predicate PartRead(part: Option<Row>, data: Row, name: Key) {
    if name in data && data[name].Dict? then
      && part.Some? && data[name].row.Keys <= part.value.Keys
      && forall k | k in part.value ::
           part.value[k] == (if k in data[name].row then AsRead(name, k, data[name].row[k]) else LegacyValue(name, k))
    else part == None
  }

  predicate DefaultsOf(part: Key, defaults: Row) { forall k | k in defaults :: defaults[k] == LegacyValue(part, k) }

  lemma LegacySnapshot()
    ensures DefaultsOf(SnapshotKey, SnapshotDefaults())
  {
    hide Lit;
  }

  lemma LegacyBrief()
    ensures DefaultsOf(BriefKey, BriefDefaults())
  {
    hide Lit;
  }

  lemma LegacyCandidate()
    ensures DefaultsOf(CandidateKey, CandidateDefaults())
  {
    hide Lit;
  }

  lemma LegacyDefaults()
    ensures DefaultsOf(SnapshotKey, SnapshotDefaults()) && DefaultsOf(BriefKey, BriefDefaults())
    ensures DefaultsOf(CandidateKey, CandidateDefaults()) && DefaultsOf(DeliveryKey, map[])
  {
    hide LegacyValue, SnapshotDefaults, BriefDefaults, CandidateDefaults;
    LegacySnapshot();
    LegacyBrief();
    LegacyCandidate();
  }

  lemma PartIsRead(data: Row, part: Key, required: set<Key>, defaults: Row)
    requires part != SnapshotKey && DefaultsOf(part, defaults)
    ensures match ReadPart(data, part, required, defaults)
            case Ok(row) => PartRead(row, data, part)
            case Err(_) => true
  {
    hide LegacyValue;
  }

  lemma SnapshotIsRead(data: Row)
    ensures match ReadSnapshot(data)
            case Ok(row) => PartRead(row, data, SnapshotKey)
            case Err(_) => true
  {
    hide SnapshotDefaults, SnapshotRequired, Lit;
    LegacyDefaults();
  }

  /**
   A run read from any dictionary holds its nine texts as Python spells them, the truth of its three
   flags, and each part with the fields the dictionary gave or the values of earlier releases.
   */
  lemma ReadRunHolds(show: Show, data: Row)
    ensures match RunFromMapping(show, data)
            case Err(_) => true
            case Ok(run) =>
              && run.texts.Keys == RunScalars() <= data.Keys && run.flags.Keys == RunFlags() <= data.Keys
              && (forall k | k in run.texts :: run.texts[k] == show(data[k]))
              && (forall k | k in run.flags :: run.flags[k] == Truth(data[k]))
              && PartRead(run.snapshot, data, SnapshotKey) && PartRead(run.brief, data, BriefKey)
              && PartRead(run.delivery, data, DeliveryKey) && PartRead(run.candidate, data, CandidateKey)
  {
    hide SnapshotRequired, SnapshotDefaults, BriefRequired, BriefDefaults, DeliveryRequired, CandidateRequired,
         CandidateDefaults, ReadPart, ReadSnapshot, RunScalars, RunFlags, PartRead, DefaultsOf;
    LegacyDefaults();
    SnapshotIsRead(data);
    PartIsRead(data, BriefKey, BriefRequired(), BriefDefaults());
    PartIsRead(data, DeliveryKey, DeliveryRequired(), map[]);
    PartIsRead(data, CandidateKey, CandidateRequired(), CandidateDefaults());
  }

  // ---------------------------------------------------------------- writing

  predicate Holds(row: Row, k: Key, v: Value) { k in row && row[k] == v }

  predicate OptionHolds(row: Row, k: Key, t: Option<Text>) {
    k in row && row[k] == match t case None => Null case Some(x) => Str(x)
  }

  predicate SnapshotWritten(row: Row, s: Snapshot) {
    && Holds(row, SourceIdKey, Str(s.sourceId)) && Holds(row, CanonicalUrlKey, Str(s.canonicalUrl))
    && Holds(row, SourceVersionKey, Str(s.sourceVersion)) && Holds(row, CapturedAtKey, Str(s.capturedAt))
    && Holds(row, EvidenceKey, Str(s.evidenceDigest)) && Holds(row, ByteCountKey, Num(s.byteCount))
    && Holds(row, NormalizationKey, Str(s.normalizationVersion))
    && SegmentsKey in row && row[SegmentsKey].Tuple? && |row[SegmentsKey].items| == |s.segmentHashes|
    && forall i | 0 <= i < |s.segmentHashes| :: row[SegmentsKey].items[i] == Str(s.segmentHashes[i])
  }

  predicate BriefWritten(row: Row, b: ImpactBrief) {
    && Holds(row, BriefIdKey, Str(b.briefId)) && Holds(row, SourceIdKey, Str(b.sourceId))
    && Holds(row, DisplayNameKey, Str(b.sourceDisplayName)) && Holds(row, CitationKey, Str(b.citationUrl))
    && Holds(row, PriorVersionKey, Str(b.priorVersion)) && Holds(row, CurrentVersionKey, Str(b.currentVersion))
    && Holds(row, SourceEvidenceKey, Str(b.evidenceDigest)) && Holds(row, SummaryKey, Str(b.changeSummary))
    && Holds(row, NextActionKey, Str(b.nextAction)) && Holds(row, ConclusionKey, Bool(b.legalConclusion))
    && Holds(row, ModelModeKey, Str(b.modelMode))
  }

  predicate ContextWritten(row: Row, b: ImpactBrief) {
    && Holds(row, JurisdictionKey, Str(b.jurisdiction)) && Holds(row, OwnerKey, Str(b.sourceOwner))
    && Holds(row, FocusKey, Str(b.operationalFocus))
    && Holds(row, ExcerptKey, Str(b.excerptDigest)) && Holds(row, SegmentCountKey, Num(b.changedSegmentCount))
  }

  predicate DeliveryWritten(row: Row, r: DeliveryReceipt) {
    && Holds(row, StateKey, Str(r.state)) && Holds(row, ProviderKey, Str(r.provider))
    && OptionHolds(row, RecipientKey, r.recipientDigest) && OptionHolds(row, ReceiptIdKey, r.receiptId)
    && Holds(row, ReasonCodeKey, Str(r.reasonCode)) && Holds(row, ProspectEffectKey, Bool(false))
  }

  predicate CandidateWritten(row: Row, c: ActionCandidate) {
    && Holds(row, CandidateIdKey, Str(c.candidateId)) && Holds(row, BriefIdKey, Str(c.briefId))
    && Holds(row, SourceIdKey, Str(c.sourceId)) && Holds(row, JurisdictionKey, Str(c.jurisdiction))
    && Holds(row, EvidenceKey, Str(c.evidenceDigest)) && Holds(row, CreatedAtKey, Str(c.createdAt))
    && Holds(row, ActionTypeKey, Str(Lit("prepare_internal_impact_memo")))
    && (c.status == AwaitingOwnerReview ==> Holds(row, StatusKey, Str(Lit("awaiting_owner_review"))))
    && (c.status == OwnerAcknowledged ==> Holds(row, StatusKey, Str(Lit("owner_acknowledged"))))
    && (c.status == OwnerArchived ==> Holds(row, StatusKey, Str(Lit("owner_archived"))))
    && Holds(row, RequiresDecisionKey, Bool(c.requiresOwnerDecision))
    && Holds(row, BusinessEffectKey, Bool(false)) && Holds(row, RecordMutationKey, Bool(false))
  }

  predicate ReviewWritten(row: Row, c: ActionCandidate) {
    && Holds(row, ReviewSummaryKey, Str(c.reviewSummary)) && Holds(row, NextActionKey, Str(c.nextAction))
    && Holds(row, CitationKey, Str(c.citationUrl)) && OptionHolds(row, DecidedAtKey, c.decidedAt)
    && (c.ownerDecision == Unresolved ==> Holds(row, DecisionKey, Str(Lit("unresolved"))))
    && (c.ownerDecision == Acknowledge ==> Holds(row, DecisionKey, Str(Lit("acknowledge"))))
    && (c.ownerDecision == Archive ==> Holds(row, DecisionKey, Str(Lit("archive"))))
  }

  /** The text of a status, in the words other readers of the store know. */
  predicate StatusWritten(t: Text, s: RunStatus) {
    match s
    case BaselineCaptured => t == Lit("baseline_captured")
    case NoChange => t == Lit("no_change")
    case BriefDelivered => t == Lit("brief_delivered")
    case BriefPrepared => t == Lit("brief_prepared")
    case DuplicateEvent => t == Lit("duplicate")
  }

  predicate ReasonWritten(t: Text, r: RunReason) {
    match r
    case FirstSnapshot => t == Lit("first_source_snapshot_recorded")
    case Rebaselined => t == Lit("source_normalization_rebaselined")
    case HashUnchanged => t == Lit("source_evidence_hash_unchanged")
    case DeliveryReason(code) => t == code
    case AlreadyClaimed => t == Lit("registry_watch_event_already_claimed")
  }

  predicate PartWritten(d: Row, name: Key, absent: bool) {
    name in d && (absent <==> d[name] == Null) && (!absent ==> d[name].Dict?)
  }

  predicate TextHolds(texts: map<Key, Text>, k: Key, t: Text) { k in texts && texts[k] == t }

  predicate TextsWritten(texts: map<Key, Text>, run: WatchRun) {
    && TextHolds(texts, RunIdKey, run.runId) && TextHolds(texts, EventIdKey, run.eventId)
    && TextHolds(texts, SourceIdKey, run.sourceId) && TextHolds(texts, IdempotencyKeyKey, run.idempotencyKey)
    && TextHolds(texts, StartedAtKey, run.startedAt) && TextHolds(texts, CompletedAtKey, run.completedAt)
    && TextHolds(texts, SchemaVersionKey, Lit("vice-ceo-registry-watch-run-v1"))
    && StatusKey in texts && StatusWritten(texts[StatusKey], run.status)
    && ReasonCodeKey in texts && ReasonWritten(texts[ReasonCodeKey], run.reason)
  }

  ghost predicate ScalarsWritten(d: Row, run: WatchRun) {
    && (exists texts :: TextsWritten(texts, run) && forall k | k in texts :: Holds(d, k, Str(texts[k])))
    && Holds(d, ProspectEffectKey, Bool(false)) && Holds(d, RecordMutationKey, Bool(false))
    && Holds(d, ConclusionKey, Bool(false))
  }

  predicate PartsWritten(d: Row, run: WatchRun) {
    && PartWritten(d, SnapshotKey, run.snapshot.None?) && PartWritten(d, BriefKey, run.brief.None?)
    && PartWritten(d, DeliveryKey, run.delivery.None?) && PartWritten(d, CandidateKey, run.candidate.None?)
    && (run.snapshot.Some? ==> SnapshotWritten(d[SnapshotKey].row, run.snapshot.value))
    && (run.brief.Some? ==>
          BriefWritten(d[BriefKey].row, run.brief.value) && ContextWritten(d[BriefKey].row, run.brief.value))
    && (run.delivery.Some? ==> DeliveryWritten(d[DeliveryKey].row, run.delivery.value))
    && (run.candidate.Some? ==>
          CandidateWritten(d[CandidateKey].row, run.candidate.value)
          && ReviewWritten(d[CandidateKey].row, run.candidate.value))
  }

  lemma SnapshotIsWritten(s: Snapshot)
    ensures SnapshotWritten(SnapshotRow(s), s)
  {
  }

  lemma FactsAreWritten(b: ImpactBrief)
    ensures BriefWritten(BriefFacts(b), b)
  {
  }

  lemma ContextIsWritten(b: ImpactBrief)
    ensures ContextWritten(BriefContext(b), b)
  {
  }

  /** Every entry of a is one of d. */
  predicate Extends(a: Row, d: Row) { forall k | k in a :: k in d && d[k] == a[k] }

  lemma BriefExtends(a: Row, d: Row, b: ImpactBrief)
    requires Extends(a, d) && BriefWritten(a, b)
    ensures BriefWritten(d, b)
  {
  }

  lemma ContextExtends(a: Row, d: Row, b: ImpactBrief)
    requires Extends(a, d) && ContextWritten(a, b)
    ensures ContextWritten(d, b)
  {
  }

  lemma CandidateExtends(a: Row, d: Row, c: ActionCandidate)
    requires Extends(a, d)
    ensures CandidateWritten(a, c) ==> CandidateWritten(d, c)
    ensures ReviewWritten(a, c) ==> ReviewWritten(d, c)
  {
    hide Lit;
  }

  lemma BriefIsWritten(b: ImpactBrief)
    ensures BriefWritten(BriefRow(b), b) && ContextWritten(BriefRow(b), b)
  {
    hide BriefFacts, BriefContext, BriefWritten, ContextWritten, BriefRequired, BriefDefaults;
    FactsAreWritten(b);
    ContextIsWritten(b);
    BriefKeys(b);
    DefaultsAreOptional();
    BriefExtends(BriefFacts(b), BriefRow(b), b);
    ContextExtends(BriefContext(b), BriefRow(b), b);
  }

  lemma DeliveryIsWritten(r: DeliveryReceipt)
    ensures DeliveryWritten(DeliveryRow(r), r)
  {
  }

  lemma CandidateFactsAreWritten(c: ActionCandidate)
    ensures CandidateWritten(CandidateFacts(c), c)
  {
    hide Lit;
  }

  lemma ReviewIsWritten(c: ActionCandidate)
    ensures ReviewWritten(CandidateReview(c), c)
  {
    hide Lit;
  }

  lemma CandidateIsWritten(c: ActionCandidate)
    ensures CandidateWritten(CandidateRow(c), c) && ReviewWritten(CandidateRow(c), c)
  {
    hide CandidateFacts, CandidateReview, CandidateWritten, ReviewWritten, CandidateRequired, CandidateDefaults;
    CandidateFactsAreWritten(c);
    ReviewIsWritten(c);
    CandidateKeys(c);
    DefaultsAreOptional();
    CandidateExtends(CandidateFacts(c), CandidateRow(c), c);
    CandidateExtends(CandidateReview(c), CandidateRow(c), c);
  }

  lemma PartsAreWritten(run: WatchRun)
    ensures PartsWritten(Parts(Stored(run)), run)
  {
    hide SnapshotRow, BriefRow, DeliveryRow, CandidateRow, SnapshotWritten, BriefWritten, ContextWritten,
         DeliveryWritten, CandidateWritten, ReviewWritten, Lit, RunStatusText, ReasonText;
    if run.snapshot.Some? { SnapshotIsWritten(run.snapshot.value); }
    if run.brief.Some? { BriefIsWritten(run.brief.value); }
    if run.delivery.Some? { DeliveryIsWritten(run.delivery.value); }
    if run.candidate.Some? { CandidateIsWritten(run.candidate.value); }
  }

  lemma TextsAreWritten(run: WatchRun)
    ensures TextsWritten(Stored(run).texts, run)
  {
    hide SnapshotRow, BriefRow, DeliveryRow, CandidateRow, Lit;
  }

  lemma FlagsAreFalse(run: WatchRun)
    ensures forall k | k in RunFlags() :: k in Stored(run).flags && !Stored(run).flags[k]
  {
    hide SnapshotRow, BriefRow, DeliveryRow, CandidateRow, Lit, RunStatusText, ReasonText;
  }

  /** The dictionary of an engine's run holds every field of the run under its own name. */
  lemma RunIsWritten(run: WatchRun)
    ensures ScalarsWritten(AsDict(Stored(run)), run) && PartsWritten(AsDict(Stored(run)), run)
  {
    hide Stored, AsDict, PartsWritten, TextsWritten, RunScalars;
    TextsAreWritten(run);
    FlagsAreFalse(run);
    PartsAreWritten(run);
    StoredFields(run);
    DictFields(Stored(run));
    SameParts(AsDict(Stored(run)), Parts(Stored(run)), run);
  }

  lemma SameParts(d: Row, parts: Row, run: WatchRun)
    requires PartsWritten(parts, run)
    requires forall k | k in {SnapshotKey, BriefKey, DeliveryKey, CandidateKey} ::
               k in parts ==> k in d && d[k] == parts[k]
    ensures PartsWritten(d, run)
  {
    hide SnapshotWritten, BriefWritten, ContextWritten, DeliveryWritten, CandidateWritten, ReviewWritten;
  }
}
