/**
 Stored runs: what a run's dictionary holds, and how a run is rebuilt from a dictionary that may
 have been written by an earlier release or have passed through a store without tuples.

 A rebuilt snapshot, brief, delivery or candidate holds whatever values its dictionary held, so
 these parts are rows of dynamic values here.
 */
module RunPersistence {
  import opened Wrappers
  import opened Texts
  import opened RegistryModel

  datatype Key =
    | RunIdKey | EventIdKey | SourceIdKey | StatusKey | ReasonCodeKey | IdempotencyKeyKey | SchemaVersionKey
    | StartedAtKey | CompletedAtKey | SnapshotKey | BriefKey | DeliveryKey | ProspectEffectKey | RecordMutationKey
    | ConclusionKey | CandidateKey
    | CanonicalUrlKey | SourceVersionKey | CapturedAtKey | EvidenceKey | ByteCountKey | NormalizationKey | SegmentsKey
    | BriefIdKey | DisplayNameKey | CitationKey | PriorVersionKey | CurrentVersionKey | SourceEvidenceKey | SummaryKey
    | NextActionKey | ModelModeKey | JurisdictionKey | OwnerKey | FocusKey | ExcerptKey | SegmentCountKey
    | StateKey | ProviderKey | RecipientKey | ReceiptIdKey
    | CandidateIdKey | ActionTypeKey | RequiresDecisionKey | BusinessEffectKey | CreatedAtKey | ReviewSummaryKey
    | DecisionKey | DecidedAtKey
    | OtherKey(name: Text)

  datatype Value =
    | Null
    | Bool(b: bool)
    | Num(n: int)
    | Str(text: Text)
    | List(items: seq<Value>)
    | Tuple(items: seq<Value>)
    | Dict(row: map<Key, Value>)

  type Row = map<Key, Value>

  /** How Python spells any value as text; only strings are fixed. */
  type Show = Value -> Text

  ghost predicate KeepsStrings(show: Show) { forall t: Text :: show(Str(t)) == t }

  function Truth(v: Value): bool {
    match v
    case Null => false
    case Bool(b) => b
    case Num(n) => n != 0
    case Str(t) => t != []
    case List(items) => items != []
    case Tuple(items) => items != []
    case Dict(row) => row != map[]
  }

  // ---------------------------------------------------------------- the shapes

  function SnapshotRequired(): set<Key> {
    {SourceIdKey, CanonicalUrlKey, SourceVersionKey, CapturedAtKey, EvidenceKey, ByteCountKey}
  }

  function SnapshotDefaults(): Row { map[NormalizationKey := Str(LegacyNormalization()), SegmentsKey := Tuple([])] }

  function LegacyNormalization(): Text { Lit("legacy_raw_whitespace_v1") }

  function BriefRequired(): set<Key> {
    {BriefIdKey, SourceIdKey, DisplayNameKey, CitationKey, PriorVersionKey, CurrentVersionKey, SourceEvidenceKey,
     SummaryKey,
     NextActionKey, ConclusionKey, ModelModeKey}
  }

  function BriefDefaults(): Row {
    map[JurisdictionKey := Str([]), OwnerKey := Str([]), FocusKey := Str([]), ExcerptKey := Str([]),
        SegmentCountKey := Num(0)]
  }

  function DeliveryRequired(): set<Key> {
    {StateKey, ProviderKey, RecipientKey, ReceiptIdKey, ReasonCodeKey, ProspectEffectKey}
  }

  function CandidateRequired(): set<Key> {
    {CandidateIdKey, BriefIdKey, SourceIdKey, JurisdictionKey, EvidenceKey, ActionTypeKey, StatusKey,
     RequiresDecisionKey,
     BusinessEffectKey, RecordMutationKey, CreatedAtKey}
  }

  function CandidateDefaults(): Row {
    map[ReviewSummaryKey := Str([]), NextActionKey := Str([]), CitationKey := Str([]),
        DecisionKey := Str(Lit("unresolved")),
        DecidedAtKey := Null]
  }

  function RunScalars(): set<Key> {
    {RunIdKey, EventIdKey, SourceIdKey, StatusKey, ReasonCodeKey, IdempotencyKeyKey, SchemaVersionKey, StartedAtKey,
     CompletedAtKey}
  }

  function RunFlags(): set<Key> { {ProspectEffectKey, RecordMutationKey, ConclusionKey} }

  /** A run object: nine texts, three flags and four optional parts. */
  datatype StoredRun = StoredRun(
    texts: map<Key, Text>, flags: map<Key, bool>, snapshot: Option<Row>, brief: Option<Row>, delivery: Option<Row>,
    candidate: Option<Row>)

  // ---------------------------------------------------------------- writing

  function PartValue(part: Option<Row>): Value {
    match part
    case None => Null
    case Some(row) => Dict(row)
  }

  function Parts(run: StoredRun): Row {
    map[SnapshotKey := PartValue(run.snapshot), BriefKey := PartValue(run.brief),
        DeliveryKey := PartValue(run.delivery),
        CandidateKey := PartValue(run.candidate)]
  }

  function TextFields(run: StoredRun): Row { map k | k in run.texts :: Str(run.texts[k]) }

  function FlagFields(run: StoredRun): Row { map k | k in run.flags :: Bool(run.flags[k]) }

  /** `as_dict` */
  function AsDict(run: StoredRun): Row { TextFields(run) + FlagFields(run) + Parts(run) }

  /** A store without tuples gives lists back. */
  function Listed(v: Value): Value {
    match v
    case List(items) => List(seq(|items|, i requires 0 <= i < |items| => Listed(items[i])))
    case Tuple(items) => List(seq(|items|, i requires 0 <= i < |items| => Listed(items[i])))
    case Dict(row) => Dict(map k | k in row :: Listed(row[k]))
    case _ => v
  }

  function ListedRow(row: Row): Row { map k | k in row :: Listed(row[k]) }

  // ---------------------------------------------------------------- reading

  datatype ReadError = FieldsMismatch(part: Key) | FieldMissing

  /** A frozen dataclass built from keywords, after the defaults: every field and no other. */
  function Build(part: Key, row: Row, required: set<Key>, defaults: Row): Result<Row, ReadError> {
    if (defaults + row).Keys == required + defaults.Keys then Ok(defaults + row) else Err(FieldsMismatch(part))
  }

  /** A part is read only when its value is a dictionary. */
  function ReadPart(data: Row, part: Key, required: set<Key>, defaults: Row): Result<Option<Row>, ReadError> {
    if part in data && data[part].Dict? then
      match Build(part, data[part].row, required, defaults)
      case Err(x) => Err(x)
      case Ok(row) => Ok(Some(row))
    else Ok(None)
  }

  function Retupled(row: Row): Row {
    if SegmentsKey in row && row[SegmentsKey].List? then row[SegmentsKey := Tuple(row[SegmentsKey].items)] else row
  }

  function ReadSnapshot(data: Row): Result<Option<Row>, ReadError> {
    match ReadPart(data, SnapshotKey, SnapshotRequired(), SnapshotDefaults())
    case Ok(Some(row)) => Ok(Some(Retupled(row)))
    case other => other
  }

  /** `_run_from_mapping` */
  function RunFromMapping(show: Show, data: Row): Result<StoredRun, ReadError> {
    match ReadSnapshot(data)
    case Err(x) => Err(x)
    case Ok(snapshot) =>
      match ReadPart(data, BriefKey, BriefRequired(), BriefDefaults())
      case Err(x) => Err(x)
      case Ok(brief) =>
        match ReadPart(data, DeliveryKey, DeliveryRequired(), map[])
        case Err(x) => Err(x)
        case Ok(delivery) =>
          match ReadPart(data, CandidateKey, CandidateRequired(), CandidateDefaults())
          case Err(x) => Err(x)
          case Ok(candidate) =>
            if !(RunScalars() + RunFlags() <= data.Keys) then Err(FieldMissing)
            else Ok(StoredRun(map k | k in RunScalars() :: show(data[k]), map k | k in RunFlags() :: Truth(data[k]),
                              snapshot, brief, delivery, candidate))
  }

  // ---------------------------------------------------------------- what can be a run object

  predicate ShapedPart(part: Option<Row>, required: set<Key>, defaults: Row) {
    part.Some? ==> part.value.Keys == required + defaults.Keys
  }

  /** The fields of the dataclasses, with the segment hashes not a list. */
  predicate Shaped(run: StoredRun) {
    && run.texts.Keys == RunScalars() && run.flags.Keys == RunFlags()
    && ShapedPart(run.snapshot, SnapshotRequired(), SnapshotDefaults())
    && (run.snapshot.Some? ==> SegmentsKey in run.snapshot.value && !run.snapshot.value[SegmentsKey].List?)
    && ShapedPart(run.brief, BriefRequired(), BriefDefaults())
    && ShapedPart(run.delivery, DeliveryRequired(), map[])
    && ShapedPart(run.candidate, CandidateRequired(), CandidateDefaults())
  }

  lemma PartReadsBack(data: Row, part: Key, row: Option<Row>, required: set<Key>, defaults: Row)
    requires part in data && data[part] == PartValue(row) && ShapedPart(row, required, defaults)
    ensures ReadPart(data, part, required, defaults) == Ok(row)
  {
    if row.Some? { assert defaults + row.value == row.value; }
  }

  lemma ReadPartIsShaped(data: Row, part: Key, required: set<Key>, defaults: Row)
    ensures match ReadPart(data, part, required, defaults)
            case Ok(row) => ShapedPart(row, required, defaults)
            case Err(_) => true
  {
  }

  lemma KeysApart(run: StoredRun)
    ensures RunScalars() !! RunFlags() && RunScalars() !! Parts(run).Keys && RunFlags() !! Parts(run).Keys
    ensures SnapshotKey in Parts(run) && BriefKey in Parts(run) && DeliveryKey in Parts(run)
            && CandidateKey in Parts(run)
  {
    hide PartValue;
    assert Parts(run).Keys == {SnapshotKey, BriefKey, DeliveryKey, CandidateKey};
  }

  lemma DictFields(run: StoredRun)
    requires run.texts.Keys == RunScalars() && run.flags.Keys == RunFlags()
    ensures var d := AsDict(run);
            && RunScalars() + RunFlags() <= d.Keys
            && (forall k | k in RunScalars() :: d[k] == Str(run.texts[k]))
            && (forall k | k in RunFlags() :: d[k] == Bool(run.flags[k]))
            && SnapshotKey in d && d[SnapshotKey] == PartValue(run.snapshot)
            && BriefKey in d && d[BriefKey] == PartValue(run.brief)
            && DeliveryKey in d && d[DeliveryKey] == PartValue(run.delivery)
            && CandidateKey in d && d[CandidateKey] == PartValue(run.candidate)
  {
    hide RunScalars, RunFlags, PartValue;
    KeysApart(run);
  }

  lemma SnapshotReadsBack(data: Row, row: Option<Row>)
    requires SnapshotKey in data && data[SnapshotKey] == PartValue(row)
             && ShapedPart(row, SnapshotRequired(), SnapshotDefaults())
    ensures ReadSnapshot(data) == Ok(match row case None => None case Some(r) => Some(Retupled(r)))
  {
    hide SnapshotRequired, SnapshotDefaults, ReadPart;
    PartReadsBack(data, SnapshotKey, row, SnapshotRequired(), SnapshotDefaults());
  }

  /** A run object's dictionary reads back as that object. */
  lemma RunReadsBack(show: Show, run: StoredRun)
    requires KeepsStrings(show) && Shaped(run)
    ensures RunFromMapping(show, AsDict(run)) == Ok(run)
  {
    hide AsDict, SnapshotRequired, SnapshotDefaults, BriefRequired, BriefDefaults, DeliveryRequired, CandidateRequired,
         CandidateDefaults, ReadPart, ReadSnapshot, RunScalars, RunFlags;
    var d := AsDict(run);
    DictFields(run);
    SnapshotReadsBack(d, run.snapshot);
    PartReadsBack(d, BriefKey, run.brief, BriefRequired(), BriefDefaults());
    PartReadsBack(d, DeliveryKey, run.delivery, DeliveryRequired(), map[]);
    PartReadsBack(d, CandidateKey, run.candidate, CandidateRequired(), CandidateDefaults());
    assert (map k | k in RunScalars() :: show(d[k])) == run.texts;
    assert (map k | k in RunFlags() :: Truth(d[k])) == run.flags;
  }

  lemma ReadSnapshotIsShaped(data: Row)
    ensures match ReadSnapshot(data)
            case Ok(row) =>
              ShapedPart(row, SnapshotRequired(), SnapshotDefaults())
              && (row.Some? ==> SegmentsKey in row.value && !row.value[SegmentsKey].List?)
            case Err(_) => true
  {
    hide ReadPart, SnapshotRequired, LegacyNormalization;
    ReadPartIsShaped(data, SnapshotKey, SnapshotRequired(), SnapshotDefaults());
    match ReadPart(data, SnapshotKey, SnapshotRequired(), SnapshotDefaults())
    case Ok(Some(row)) =>
      assert SegmentsKey in SnapshotDefaults() && SegmentsKey in row; assert Retupled(row).Keys == row.Keys;
    case _ =>
  }

  /** Whatever dictionary a run was read from, old release or new, its own dictionary reads back as it. */
  lemma ReadRunIsFixed(show: Show, data: Row)
    requires KeepsStrings(show)
    ensures match RunFromMapping(show, data)
            case Ok(run) => Shaped(run) && RunFromMapping(show, AsDict(run)) == Ok(run)
            case Err(_) => true
  {
    hide AsDict, SnapshotRequired, SnapshotDefaults, BriefRequired, BriefDefaults, DeliveryRequired, CandidateRequired,
         CandidateDefaults, ReadPart, ReadSnapshot, RunScalars, RunFlags;
    ReadSnapshotIsShaped(data);
    ReadPartIsShaped(data, BriefKey, BriefRequired(), BriefDefaults());
    ReadPartIsShaped(data, DeliveryKey, DeliveryRequired(), map[]);
    ReadPartIsShaped(data, CandidateKey, CandidateRequired(), CandidateDefaults());
    if RunFromMapping(show, data).Ok? {
      RunReadsBack(show, RunFromMapping(show, data).value);
    }
  }

  // ---------------------------------------------------------------- which dictionaries are read

  /** A part that is a dictionary has every required field and no unknown one; defaulted fields may lack. */
  predicate Acceptable(data: Row, part: Key, required: set<Key>, defaults: Row) {
    part in data && data[part].Dict? ==> required <= data[part].row.Keys <= required + defaults.Keys
  }

  lemma ReadPartIff(data: Row, part: Key, required: set<Key>, defaults: Row)
    requires required !! defaults.Keys
    ensures ReadPart(data, part, required, defaults).Ok? <==> Acceptable(data, part, required, defaults)
  {
    if part in data && data[part].Dict? {
      var row := data[part].row;
      assert (defaults + row).Keys == defaults.Keys + row.Keys;
      assert (defaults + row).Keys == required + defaults.Keys <==> required <= row.Keys <= required + defaults.Keys;
    }
  }

  lemma DefaultsAreOptional()
    ensures SnapshotRequired() !! SnapshotDefaults().Keys
    ensures BriefRequired() !! BriefDefaults().Keys
    ensures CandidateRequired() !! CandidateDefaults().Keys
  {
    assert SnapshotDefaults().Keys == {NormalizationKey, SegmentsKey};
    assert BriefDefaults().Keys == {JurisdictionKey, OwnerKey, FocusKey, ExcerptKey, SegmentCountKey};
    assert CandidateDefaults().Keys == {ReviewSummaryKey, NextActionKey, CitationKey, DecisionKey, DecidedAtKey};
  }

  /** A dictionary is read exactly when its run fields are there and each part lacks only defaulted fields. */
  lemma ReadRunIff(show: Show, data: Row)
    ensures RunFromMapping(show, data).Ok? <==>
            && RunScalars() + RunFlags() <= data.Keys
            && Acceptable(data, SnapshotKey, SnapshotRequired(), SnapshotDefaults())
            && Acceptable(data, BriefKey, BriefRequired(), BriefDefaults())
            && Acceptable(data, DeliveryKey, DeliveryRequired(), map[])
            && Acceptable(data, CandidateKey, CandidateRequired(), CandidateDefaults())
  {
    hide SnapshotRequired, SnapshotDefaults, BriefRequired, BriefDefaults, DeliveryRequired, CandidateRequired,
         CandidateDefaults, ReadPart, RunScalars, RunFlags, Acceptable;
    DefaultsAreOptional();
    ReadPartIff(data, SnapshotKey, SnapshotRequired(), SnapshotDefaults());
    ReadPartIff(data, BriefKey, BriefRequired(), BriefDefaults());
    ReadPartIff(data, DeliveryKey, DeliveryRequired(), map[]);
    ReadPartIff(data, CandidateKey, CandidateRequired(), CandidateDefaults());
  }

  // ---------------------------------------------------------------- through a store without tuples

  predicate ListsOnly(v: Value) { Listed(v) == v }

  predicate ListsOnlyRow(row: Row) { forall k | k in row :: ListsOnly(row[k]) }

  /** No tuples, but for the segment hashes being a tuple of values without tuples. */
  predicate TupleOnlySegments(run: StoredRun) {
    && (run.brief.Some? ==> ListsOnlyRow(run.brief.value))
    && (run.delivery.Some? ==> ListsOnlyRow(run.delivery.value))
    && (run.candidate.Some? ==> ListsOnlyRow(run.candidate.value))
    && (run.snapshot.Some? ==> forall k | k in run.snapshot.value :: SurvivesListing(k, run.snapshot.value[k]))
  }

  predicate SurvivesListing(k: Key, v: Value) {
    if k == SegmentsKey && v.Tuple? then (forall i | 0 <= i < |v.items| :: ListsOnly(v.items[i])) else ListsOnly(v)
  }

  lemma ListedPart(part: Option<Row>)
    ensures Listed(PartValue(part)) == PartValue(match part case None => None case Some(r) => Some(ListedRow(r)))
  {
  }

  lemma ListedRowFixed(row: Row)
    ensures ListedRow(row) == row <==> ListsOnlyRow(row)
    ensures ListedRow(row).Keys == row.Keys
  {
    if ListedRow(row) == row {
      forall k | k in row ensures ListsOnly(row[k]) { assert ListedRow(row)[k] == Listed(row[k]); }
    }
  }

  lemma ListedSnapshotFixed(row: Row)
    requires SegmentsKey in row && !row[SegmentsKey].List?
    ensures Retupled(ListedRow(row)) == row <==> forall k | k in row :: SurvivesListing(k, row[k])
  {
    var r := Retupled(ListedRow(row));
    assert r.Keys == row.Keys;
    forall k | k in row ensures r[k] == row[k] <==> SurvivesListing(k, row[k]) {
      var v := row[k];
      if k == SegmentsKey && v.Tuple? {
        assert Listed(v).items == seq(|v.items|, i requires 0 <= i < |v.items| => Listed(v.items[i]));
        assert forall i | 0 <= i < |v.items| :: Listed(v).items[i] == Listed(v.items[i]);
      }
    }
  }

  lemma SnapshotThroughLists(part: Option<Row>)
    requires part.Some? ==> SegmentsKey in part.value && !part.value[SegmentsKey].List?
    requires ShapedPart(part, SnapshotRequired(), SnapshotDefaults())
    ensures forall data: Row | SnapshotKey in data && data[SnapshotKey] == Listed(PartValue(part)) ::
              ReadSnapshot(data) == Ok(part)
              <==> (part.Some? ==> forall k | k in part.value :: SurvivesListing(k, part.value[k]))
  {
    hide SnapshotRequired, SnapshotDefaults, ReadSnapshot, Retupled, ListedRow, SurvivesListing, Listed, PartValue;
    ListedPart(part);
    forall data: Row | SnapshotKey in data && data[SnapshotKey] == Listed(PartValue(part))
      ensures ReadSnapshot(data) == Ok(part) <==>
              (part.Some? ==> forall k | k in part.value :: SurvivesListing(k, part.value[k]))
    {
      match part
      case None => SnapshotReadsBack(data, None);
      case Some(row) =>
        ListedRowFixed(row);
        SnapshotReadsBack(data, Some(ListedRow(row)));
        ListedSnapshotFixed(row);
    }
  }

  lemma PartThroughLists(part: Option<Row>, name: Key, required: set<Key>, defaults: Row)
    requires ShapedPart(part, required, defaults)
    ensures forall data: Row | name in data && data[name] == Listed(PartValue(part)) ::
              ReadPart(data, name, required, defaults).Ok?
              && (ReadPart(data, name, required, defaults) == Ok(part) <==> (part.Some? ==> ListsOnlyRow(part.value)))
  {
    hide ReadPart, ListedRow, Listed, PartValue, ListsOnlyRow;
    ListedPart(part);
    forall data: Row | name in data && data[name] == Listed(PartValue(part))
      ensures ReadPart(data, name, required, defaults).Ok?
              && (ReadPart(data, name, required, defaults) == Ok(part) <==> (part.Some? ==> ListsOnlyRow(part.value)))
    {
      match part
      case None => PartReadsBack(data, name, None, required, defaults);
      case Some(row) =>
        ListedRowFixed(row);
        PartReadsBack(data, name, Some(ListedRow(row)), required, defaults);
    }
  }

  lemma ListedDictFields(run: StoredRun)
    requires run.texts.Keys == RunScalars() && run.flags.Keys == RunFlags()
    ensures var d := ListedRow(AsDict(run));
            && RunScalars() + RunFlags() <= d.Keys
            && (forall k | k in RunScalars() :: d[k] == Str(run.texts[k]))
            && (forall k | k in RunFlags() :: d[k] == Bool(run.flags[k]))
            && SnapshotKey in d && d[SnapshotKey] == Listed(PartValue(run.snapshot))
            && BriefKey in d && d[BriefKey] == Listed(PartValue(run.brief))
            && DeliveryKey in d && d[DeliveryKey] == Listed(PartValue(run.delivery))
            && CandidateKey in d && d[CandidateKey] == Listed(PartValue(run.candidate))
  {
    hide RunScalars, RunFlags, PartValue, AsDict;
    DictFields(run);
  }

  /**
   Through a store that turns tuples into lists, a run reads back exactly when its only tuple is the
   segment hashes.
   */
  lemma ListedRunReadsBackIff(show: Show, run: StoredRun)
    requires KeepsStrings(show) && Shaped(run)
    ensures RunFromMapping(show, ListedRow(AsDict(run))) == Ok(run) <==> TupleOnlySegments(run)
  {
    hide AsDict, ListedRow, Listed, PartValue, SnapshotRequired, SnapshotDefaults, BriefRequired, BriefDefaults,
         DeliveryRequired, CandidateRequired, CandidateDefaults, ReadPart, ReadSnapshot, RunScalars, RunFlags,
         ListsOnlyRow, SurvivesListing;
    var d := ListedRow(AsDict(run));
    ListedDictFields(run);
    SnapshotThroughLists(run.snapshot);
    PartThroughLists(run.brief, BriefKey, BriefRequired(), BriefDefaults());
    PartThroughLists(run.delivery, DeliveryKey, DeliveryRequired(), map[]);
    PartThroughLists(run.candidate, CandidateKey, CandidateRequired(), CandidateDefaults());
    assert (map k | k in RunScalars() :: show(d[k])) == run.texts;
    assert (map k | k in RunFlags() :: Truth(d[k])) == run.flags;
  }

  // ---------------------------------------------------------------- the runs the engine saves

  function Maybe(t: Option<Text>): Value { match t case None => Null case Some(x) => Str(x) }

  function SnapshotRow(s: Snapshot): Row {
    map[SourceIdKey := Str(s.sourceId), CanonicalUrlKey := Str(s.canonicalUrl),
        SourceVersionKey := Str(s.sourceVersion),
        CapturedAtKey := Str(s.capturedAt), EvidenceKey := Str(s.evidenceDigest), ByteCountKey := Num(s.byteCount),
        NormalizationKey := Str(s.normalizationVersion),
        SegmentsKey := Tuple(seq(|s.segmentHashes|, i requires 0 <= i < |s.segmentHashes| => Str(s.segmentHashes[i])))]
  }

  function BriefRow(b: ImpactBrief): Row { BriefFacts(b) + BriefContext(b) }

  function BriefFacts(b: ImpactBrief): Row {
    map[BriefIdKey := Str(b.briefId), SourceIdKey := Str(b.sourceId), DisplayNameKey := Str(b.sourceDisplayName),
        CitationKey := Str(b.citationUrl), PriorVersionKey := Str(b.priorVersion),
        CurrentVersionKey := Str(b.currentVersion),
        SourceEvidenceKey := Str(b.evidenceDigest), SummaryKey := Str(b.changeSummary),
        NextActionKey := Str(b.nextAction),
        ConclusionKey := Bool(b.legalConclusion), ModelModeKey := Str(b.modelMode)]
  }

  function BriefContext(b: ImpactBrief): Row {
    map[JurisdictionKey := Str(b.jurisdiction), OwnerKey := Str(b.sourceOwner), FocusKey := Str(b.operationalFocus),
        ExcerptKey := Str(b.excerptDigest),
        SegmentCountKey := Num(b.changedSegmentCount)]
  }

  function DeliveryRow(r: DeliveryReceipt): Row {
    map[StateKey := Str(r.state), ProviderKey := Str(r.provider), RecipientKey := Maybe(r.recipientDigest),
        ReceiptIdKey := Maybe(r.receiptId), ReasonCodeKey := Str(r.reasonCode), ProspectEffectKey := Bool(false)]
  }

  function CandidateRow(c: ActionCandidate): Row { CandidateFacts(c) + CandidateReview(c) }

  function CandidateFacts(c: ActionCandidate): Row {
    map[CandidateIdKey := Str(c.candidateId), BriefIdKey := Str(c.briefId), SourceIdKey := Str(c.sourceId),
        JurisdictionKey := Str(c.jurisdiction), EvidenceKey := Str(c.evidenceDigest),
        ActionTypeKey := Str(MemoAction()),
        StatusKey := Str(StatusText(c.status)), RequiresDecisionKey := Bool(c.requiresOwnerDecision),
        BusinessEffectKey := Bool(false), RecordMutationKey := Bool(false), CreatedAtKey := Str(c.createdAt)]
  }

  function CandidateReview(c: ActionCandidate): Row {
    map[ReviewSummaryKey := Str(c.reviewSummary), NextActionKey := Str(c.nextAction), CitationKey := Str(c.citationUrl),
        DecisionKey := Str(DecisionText(c.ownerDecision)), DecidedAtKey := Maybe(c.decidedAt)]
  }

  function StatusText(s: CandidateStatus): Text {
    match s
    case AwaitingOwnerReview => Lit("awaiting_owner_review")
    case OwnerAcknowledged => Lit("owner_acknowledged")
    case OwnerArchived => Lit("owner_archived")
  }

  function DecisionText(d: OwnerDecision): Text {
    match d
    case Unresolved => Lit("unresolved")
    case Acknowledge => Lit("acknowledge")
    case Archive => Lit("archive")
  }

  function RunStatusText(s: RunStatus): Text {
    match s
    case BaselineCaptured => Lit("baseline_captured")
    case NoChange => Lit("no_change")
    case BriefDelivered => Lit("brief_delivered")
    case BriefPrepared => Lit("brief_prepared")
    case DuplicateEvent => Lit("duplicate")
  }

  function ReasonText(r: RunReason): Text {
    match r
    case FirstSnapshot => Lit("first_source_snapshot_recorded")
    case Rebaselined => Lit("source_normalization_rebaselined")
    case HashUnchanged => Lit("source_evidence_hash_unchanged")
    case DeliveryReason(code) => code
    case AlreadyClaimed => Lit("registry_watch_event_already_claimed")
  }

  function MapOption<A, B>(x: Option<A>, f: A -> B): Option<B> { match x case None => None case Some(a) => Some(f(a)) }

  /** A run of the engine, with the texts its fields hold. */
  function Stored(run: WatchRun): StoredRun {
    StoredRun(
      map[RunIdKey := run.runId, EventIdKey := run.eventId, SourceIdKey := run.sourceId,
          StatusKey := RunStatusText(run.status),
          ReasonCodeKey := ReasonText(run.reason), IdempotencyKeyKey := run.idempotencyKey,
          SchemaVersionKey := Lit("vice-ceo-registry-watch-run-v1"), StartedAtKey := run.startedAt,
          CompletedAtKey := run.completedAt],
      map[ProspectEffectKey := false, RecordMutationKey := false, ConclusionKey := false],
      MapOption(run.snapshot, SnapshotRow), MapOption(run.brief, BriefRow), MapOption(run.delivery, DeliveryRow),
      MapOption(run.candidate, CandidateRow))
  }

  lemma ShapedSnapshot(s: Snapshot)
    ensures var row := SnapshotRow(s);
            && row.Keys == SnapshotRequired() + SnapshotDefaults().Keys
            && SegmentsKey in row && !row[SegmentsKey].List? && (forall k | k in row :: SurvivesListing(k, row[k]))
  {
    hide LegacyNormalization;
  }

  predicate Atomic(v: Value) { v.Null? || v.Bool? || v.Num? || v.Str? }

  predicate AtomicRow(row: Row) { forall k | k in row :: Atomic(row[k]) }

  lemma AtomicSum(a: Row, b: Row)
    requires AtomicRow(a) && AtomicRow(b)
    ensures ListsOnlyRow(a + b) && (a + b).Keys == a.Keys + b.Keys
  {
    forall k | k in a + b ensures ListsOnly((a + b)[k]) { assert (a + b)[k] == if k in b then b[k] else a[k]; }
  }

  lemma BriefKeys(b: ImpactBrief)
    ensures BriefFacts(b).Keys == BriefRequired() && BriefContext(b).Keys == BriefDefaults().Keys
  {
  }

  lemma BriefAtoms(b: ImpactBrief)
    ensures AtomicRow(BriefFacts(b)) && AtomicRow(BriefContext(b))
  {
  }

  lemma ShapedBrief(b: ImpactBrief)
    ensures BriefRow(b).Keys == BriefRequired() + BriefDefaults().Keys && ListsOnlyRow(BriefRow(b))
  {
    hide BriefFacts, BriefContext, BriefRequired, BriefDefaults, AtomicRow, ListsOnlyRow;
    BriefKeys(b);
    BriefAtoms(b);
    AtomicSum(BriefFacts(b), BriefContext(b));
  }

  lemma CandidateKeys(c: ActionCandidate)
    ensures CandidateFacts(c).Keys == CandidateRequired() && CandidateReview(c).Keys == CandidateDefaults().Keys
  {
    hide MemoAction, StatusText, DecisionText, Lit;
  }

  lemma CandidateAtoms(c: ActionCandidate)
    ensures AtomicRow(CandidateFacts(c)) && AtomicRow(CandidateReview(c))
  {
    hide MemoAction, StatusText, DecisionText, Lit;
  }

  lemma ShapedDelivery(r: DeliveryReceipt)
    ensures DeliveryRow(r).Keys == DeliveryRequired() && ListsOnlyRow(DeliveryRow(r))
  {
  }

  lemma ShapedCandidate(c: ActionCandidate)
    ensures CandidateRow(c).Keys == CandidateRequired() + CandidateDefaults().Keys && ListsOnlyRow(CandidateRow(c))
  {
    hide CandidateFacts, CandidateReview, CandidateRequired, CandidateDefaults, AtomicRow, ListsOnlyRow;
    CandidateKeys(c);
    CandidateAtoms(c);
    AtomicSum(CandidateFacts(c), CandidateReview(c));
  }

  lemma StoredFields(run: WatchRun)
    ensures Stored(run).texts.Keys == RunScalars() && Stored(run).flags.Keys == RunFlags()
  {
    hide Lit, RunStatusText, ReasonText, SnapshotRow, BriefRow, DeliveryRow, CandidateRow;
  }

  /** Every run the engine makes reads back, straight or through a store without tuples. */
  lemma EngineRunsReadBack(show: Show, run: WatchRun)
    requires KeepsStrings(show)
    ensures Shaped(Stored(run))
    ensures RunFromMapping(show, AsDict(Stored(run))) == Ok(Stored(run))
    ensures RunFromMapping(show, ListedRow(AsDict(Stored(run)))) == Ok(Stored(run))
  {
    hide AsDict, ListedRow, RunFromMapping, RunScalars, RunFlags, SnapshotRow, BriefRow, DeliveryRow, CandidateRow,
         SnapshotRequired, SnapshotDefaults, BriefRequired, BriefDefaults, DeliveryRequired, CandidateRequired,
         CandidateDefaults, ListsOnlyRow, SurvivesListing, Lit, RunStatusText, ReasonText;
    StoredFields(run);
    if run.snapshot.Some? { ShapedSnapshot(run.snapshot.value); }
    if run.brief.Some? { ShapedBrief(run.brief.value); }
    if run.delivery.Some? { ShapedDelivery(run.delivery.value); }
    if run.candidate.Some? { ShapedCandidate(run.candidate.value); }
    RunReadsBack(show, Stored(run));
    ListedRunReadsBackIff(show, Stored(run));
  }
}
