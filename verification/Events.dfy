/** The two strict event contracts: identity, encoding and decoding. */
module Events {
  import opened Wrappers
  import opened Texts
  import opened Timestamps
  import opened Json
  import opened Envelopes
  import opened Fixtures

  // ---------------------------------------------------------------- field names

  function CaseIdField(): Text { Lit("case_id") }
  function EventIdField(): Text { Lit("event_id") }
  function EventTypeField(): Text { Lit("event_type") }
  function OccurredAtField(): Text { Lit("occurred_at") }
  function ScheduledForField(): Text { Lit("scheduled_for") }
  function SchemaVersionField(): Text { Lit("schema_version") }
  function SourceField(): Text { Lit("source") }
  function SourceIdField(): Text { Lit("source_id") }
  function PublishTimeField(): Text { Lit("publishTime") }

  function EventSchemaVersion(): Text { Lit("vice-ceo-demo-event-v1") }
  function DemoSource(): Text { Lit("vice_ceo_demo_fixture") }
  function SupportEventType(): Text { Lit("support.requested") }

  lemma LitIsPlain(s: string)
    ensures Plain(Lit(s)) && NoSplitPair(Lit(s))
  {
  }

  // ---------------------------------------------------------------- synthetic events

  datatype SyntheticEvent = SyntheticEvent(
    eventId: Text, eventType: Text, source: Text, caseId: Text, occurredAt: Text, schemaVersion: Text)

  function SyntheticMembers(e: SyntheticEvent): seq<Member> {
    [Member(CaseIdField(), e.caseId), Member(EventIdField(), e.eventId), Member(EventTypeField(), e.eventType),
     Member(OccurredAtField(), e.occurredAt), Member(SchemaVersionField(), e.schemaVersion),
     Member(SourceField(), e.source)]
  }

  /** `canonical_payload()` */
  function SyntheticPayload(e: SyntheticEvent): Text { PrintObject(SyntheticMembers(e)) }

  /** The payload lists its fields in key order. */
  lemma SyntheticKeysAscend(e: SyntheticEvent)
    ensures KeysAscend(SyntheticMembers(e))
  {
    hide Less, Lit;
    InitialsAscend("case_id", "event_id");
    LitsAscend("event_id", "event_type", 6);
    InitialsAscend("event_type", "occurred_at");
    InitialsAscend("occurred_at", "schema_version");
    LitsAscend("schema_version", "source", 1);
  }

  /** `idempotency_key` */
  function SyntheticKey(e: SyntheticEvent): Text { Lit("vice-ceo-demo-") + Sha256Hex(SyntheticPayload(e)) }

  /** The event as a reader of its payload sees it. */
  function JoinedSynthetic(e: SyntheticEvent): SyntheticEvent {
    SyntheticEvent(Joined(e.eventId), Joined(e.eventType), Joined(e.source), Joined(e.caseId), Joined(e.occurredAt),
      Joined(e.schemaVersion))
  }

  predicate SyntheticHasNoSplitPair(e: SyntheticEvent) {
    && NoSplitPair(e.eventId) && NoSplitPair(e.eventType) && NoSplitPair(e.source)
    && NoSplitPair(e.caseId) && NoSplitPair(e.occurredAt) && NoSplitPair(e.schemaVersion)
  }

  lemma SyntheticPayloadsEqualIff(e: SyntheticEvent, f: SyntheticEvent)
    ensures SyntheticPayload(e) == SyntheticPayload(f) <==> JoinedSynthetic(e) == JoinedSynthetic(f)
  {
    hide PrintObject, Joined;
    var a, b := SyntheticMembers(e), SyntheticMembers(f);
    PrintObjectInjective(a, b);
    if JoinedSynthetic(e) != JoinedSynthetic(f) {
      assert Joined(a[0].value) != Joined(b[0].value) || Joined(a[1].value) != Joined(b[1].value)
        || Joined(a[2].value) != Joined(b[2].value) || Joined(a[3].value) != Joined(b[3].value)
        || Joined(a[4].value) != Joined(b[4].value) || Joined(a[5].value) != Joined(b[5].value);
    }
  }

  /** Two events share an idempotency key exactly when all six fields join alike. */
  lemma SyntheticKeysEqualIff(e: SyntheticEvent, f: SyntheticEvent)
    ensures SyntheticKey(e) == SyntheticKey(f) <==> JoinedSynthetic(e) == JoinedSynthetic(f)
    ensures SyntheticHasNoSplitPair(e) && SyntheticHasNoSplitPair(f) ==>
            (SyntheticKey(e) == SyntheticKey(f) <==> e == f)
  {
    hide SyntheticPayload, Joined, NoSplitPair;
    SyntheticPayloadsEqualIff(e, f);
    assert SyntheticKey(e)[|Lit("vice-ceo-demo-")|] == Hex(Sha256(SyntheticPayload(e)));
    assert SyntheticKey(f)[|Lit("vice-ceo-demo-")|] == Hex(Sha256(SyntheticPayload(f)));
    JoinedSyntheticFixes(e);
    JoinedSyntheticFixes(f);
  }

  lemma JoinedSyntheticFixes(e: SyntheticEvent)
    ensures JoinedSynthetic(e) == e <==> SyntheticHasNoSplitPair(e)
  {
    hide Joined, NoSplitPair;
    JoinedFixes(e.eventId);
    JoinedFixes(e.eventType);
    JoinedFixes(e.source);
    JoinedFixes(e.caseId);
    JoinedFixes(e.occurredAt);
    JoinedFixes(e.schemaVersion);
  }

  datatype EventError =
    | MalformedEnvelope
    | PayloadMustBeObject
    | UnrecognizedFields
    | MissingOrInvalid(field: Text)
    | UnsupportedSchema
    | OnlyDemoSourceAllowed
    | UnsupportedEventType
    | UnknownCaseId

  function SyntheticFields(): set<Text> {
    {EventIdField(), EventTypeField(), SourceField(), CaseIdField(), OccurredAtField(), SchemaVersionField()}
  }

  /** The event the six required strings spell, before the contract's constants are checked. */
  function ReadSynthetic(lenient: Lenient, m: map<Text, Json>): Result<SyntheticEvent, EventError> {
    match RequireString(m, EventIdField())
    case None => Err(MissingOrInvalid(EventIdField()))
    case Some(eventId) =>
      match RequireString(m, EventTypeField())
      case None => Err(MissingOrInvalid(EventTypeField()))
      case Some(eventType) =>
        match RequireString(m, SourceField())
        case None => Err(MissingOrInvalid(SourceField()))
        case Some(source) =>
          match RequireString(m, CaseIdField())
          case None => Err(MissingOrInvalid(CaseIdField()))
          case Some(caseId) =>
            match RequireTimestamp(lenient, m, OccurredAtField())
            case None => Err(MissingOrInvalid(OccurredAtField()))
            case Some(occurredAt) =>
              match RequireString(m, SchemaVersionField())
              case None => Err(MissingOrInvalid(SchemaVersionField()))
              case Some(schemaVersion) =>
                Ok(SyntheticEvent(eventId, eventType, source, caseId, occurredAt, schemaVersion))
  }

  function RequireTimestamp(lenient: Lenient, m: map<Text, Json>, field: Text): Option<Text> {
    match RequireString(m, field)
    case None => None
    case Some(value) => NormalizeTimestamp(lenient, value)
  }

  function CheckSynthetic(cases: Cases, e: SyntheticEvent): Result<SyntheticEvent, EventError> {
    if e.schemaVersion != EventSchemaVersion() then Err(UnsupportedSchema)
    else if e.source != DemoSource() then Err(OnlyDemoSourceAllowed)
    else if e.eventType != SupportEventType() then Err(UnsupportedEventType)
    else if e.caseId !in cases then Err(UnknownCaseId)
    else Ok(e)
  }

  /** `decode_synthetic_pubsub_event` */
  function DecodeSynthetic(cases: Cases, lenient: Lenient, envelope: Envelope): Result<SyntheticEvent, EventError> {
    match CarriedJson(envelope)
    case None => Err(MalformedEnvelope)
    case Some(value) =>
      if !value.JObject? then Err(PayloadMustBeObject)
      else if value.members.Keys != SyntheticFields() then Err(UnrecognizedFields)
      else
        match ReadSynthetic(lenient, value.members)
        case Err(e) => Err(e)
        case Ok(event) => CheckSynthetic(cases, event)
  }

  /** The fields are characters: symbolic digests never occur in an event. */
  predicate PlainSynthetic(e: SyntheticEvent) {
    Plain(e.eventId) && Plain(e.eventType) && Plain(e.source) && Plain(e.caseId) && Plain(e.occurredAt)
      && Plain(e.schemaVersion)
  }

  lemma SyntheticMembersOk(e: SyntheticEvent)
    requires PlainSynthetic(e)
    ensures PlainMembers(SyntheticMembers(e)) && DistinctKeys(SyntheticMembers(e))
    ensures KeysOf(SyntheticMembers(e)) == SyntheticFields()
  {
    hide Plain, NoSplitPair;
    var ms := SyntheticMembers(e);
    LitIsPlain("case_id");
    LitIsPlain("event_id");
    LitIsPlain("event_type");
    LitIsPlain("occurred_at");
    LitIsPlain("schema_version");
    LitIsPlain("source");
    assert |ms[0].key| == 7 && |ms[1].key| == 8 && |ms[2].key| == 10 && |ms[3].key| == 11 && |ms[4].key| == 14
      && |ms[5].key| == 6;
    assert KeysOf(ms) == {ms[0].key, ms[1].key, ms[2].key, ms[3].key, ms[4].key, ms[5].key};
  }

  /** `encode_synthetic_pubsub_event` */
  function EncodeSynthetic(e: SyntheticEvent): Envelope
    requires PlainSynthetic(e)
  {
    SyntheticMembersOk(e);
    Wrap(e.eventId, SyntheticMembers(e))
  }

  /** The events that travel unchanged. */
  ghost predicate CanonicalSynthetic(cases: Cases, e: SyntheticEvent) {
    && e.schemaVersion == EventSchemaVersion() && e.source == DemoSource() && e.eventType == SupportEventType()
    && e.caseId in cases
    && Sound(e.eventId) && Sound(e.caseId)
    && NoSplitPair(e.eventId) && NoSplitPair(e.caseId)
    && IsCanonicalTimestamp(e.occurredAt)
  }

  /** The mapping spells the event with its split pairs joined. */
  predicate SpellsSynthetic(m: map<Text, Json>, e: SyntheticEvent) {
    && m.Keys == SyntheticFields()
    && Spells(m, CaseIdField(), e.caseId) && Spells(m, EventIdField(), e.eventId)
    && Spells(m, EventTypeField(), e.eventType) && Spells(m, OccurredAtField(), e.occurredAt)
    && Spells(m, SchemaVersionField(), e.schemaVersion) && Spells(m, SourceField(), e.source)
  }

  predicate Spells(m: map<Text, Json>, field: Text, value: Text) {
    field in m && m[field] == JString(Joined(value))
  }

  lemma SyntheticCarried(e: SyntheticEvent) returns (m: map<Text, Json>)
    requires PlainSynthetic(e)
    ensures CarriedJson(EncodeSynthetic(e)) == Some(JObject(m)) && SpellsSynthetic(m, e)
  {
    hide Joined, CarriedJson, Wrap, KeysOf, PlainMembers, DistinctKeys, SyntheticFields;
    var ms := SyntheticMembers(e);
    SyntheticMembersOk(e);
    WrapCarries(e.eventId, ms);
    m := CarriedJson(Wrap(e.eventId, ms)).value.members;
    assert Spells(m, ms[0].key, ms[0].value) && Spells(m, ms[1].key, ms[1].value) && Spells(m, ms[2].key, ms[2].value);
    assert Spells(m, ms[3].key, ms[3].value) && Spells(m, ms[4].key, ms[4].value) && Spells(m, ms[5].key, ms[5].value);
  }

  lemma RequireSpelled(m: map<Text, Json>, field: Text, value: Text)
    requires Spells(m, field, value)
    ensures RequireString(m, field) == Some(value) <==> Sound(value) && NoSplitPair(value)
  {
    hide Strip, Joined, NoSplitPair, Sound;
    FieldSurvivesIff(value);
  }

  lemma RequireSpelledTimestamp(lenient: Lenient, m: map<Text, Json>, field: Text, value: Text)
    requires Spells(m, field, value)
    ensures IsCanonicalTimestamp(value) ==> RequireTimestamp(lenient, m, field) == Some(value)
    ensures RequireTimestamp(lenient, m, field) == Some(value) ==> IsCanonicalTimestamp(value)
  {
    hide RequireString, NormalizeTimestamp, IsCanonicalTimestamp;
    if IsCanonicalTimestamp(value) {
      CanonicalIsSound(value);
      RequireSpelled(m, field, value);
      NormalizeFixesCanonical(lenient, value);
    }
    if RequireTimestamp(lenient, m, field) == Some(value) {
      NormalizedIsCanonical(lenient, RequireString(m, field).value);
    }
  }

  lemma CanonicalIsSound(value: Text)
    requires IsCanonicalTimestamp(value)
    ensures Sound(value) && Readable(value)
  {
    hide Format;
    var t: Instant :| value == Format(t);
    FormatIsSound(t);
  }

  lemma FormatIsSound(t: Instant)
    ensures Sound(Format(t)) && Readable(Format(t))
  {
    var b := Body(t);
    BodyIsPrintable(t);
    assert Format(t)[0] == b[0];
  }

  predicate Printable(t: Text) {
    forall i | 0 <= i < |t| :: t[i].Ch? && 0x2D <= t[i].code <= 0x54
  }

  lemma DateIsPrintable(c: Civil)
    requires ValidCivil(c)
    ensures Printable(DatePart(c))
  {
    hide Pad, ValidCivil;
  }

  lemma TimeIsPrintable(f: Fields)
    requires ValidFields(f)
    ensures Printable(TimePart(f))
  {
    hide Pad, ValidCivil;
  }

  lemma MicroIsPrintable(n: nat)
    ensures Printable([Ch('.' as int)] + Pad(n, 6))
  {
    hide Pad;
  }

  lemma BodyIsPrintable(t: Instant)
    ensures Printable(Body(t))
  {
    hide DatePart, TimePart, Pad, FieldsOf;
    var f := FieldsOf(t);
    DateIsPrintable(f.date);
    TimeIsPrintable(f);
    MicroIsPrintable(f.micro);
  }

  /** An encoded event decodes to itself exactly when it is canonical. */
  lemma SyntheticRoundTripIff(cases: Cases, lenient: Lenient, e: SyntheticEvent)
    requires PlainSynthetic(e)
    ensures DecodeSynthetic(cases, lenient, EncodeSynthetic(e)) == Ok(e) <==> CanonicalSynthetic(cases, e)
  {
    hide CarriedJson, EncodeSynthetic, SyntheticFields, ReadSynthetic, IsCanonicalTimestamp;
    hide EventSchemaVersion, DemoSource, SupportEventType;
    var m := SyntheticCarried(e);
    ReadSpelledSynthetic(lenient, m, e);
    ConstantsAreSound();
    if ReadSynthetic(lenient, m).Ok? {
      assert CheckSynthetic(cases, ReadSynthetic(lenient, m).value) == Ok(e) ==> ReadSynthetic(lenient, m) == Ok(e);
    }
  }

  lemma ReadSpelledSynthetic(lenient: Lenient, m: map<Text, Json>, e: SyntheticEvent)
    requires SpellsSynthetic(m, e)
    ensures ReadSynthetic(lenient, m) == Ok(e) <==>
            && Sound(e.eventId) && Sound(e.eventType) && Sound(e.source) && Sound(e.caseId) && Sound(e.schemaVersion)
            && NoSplitPair(e.eventId) && NoSplitPair(e.eventType) && NoSplitPair(e.source)
            && NoSplitPair(e.caseId) && NoSplitPair(e.schemaVersion)
            && IsCanonicalTimestamp(e.occurredAt)
  {
    hide RequireString, RequireTimestamp, Spells, Sound, NoSplitPair, IsCanonicalTimestamp;
    RequireSpelled(m, EventIdField(), e.eventId);
    RequireSpelled(m, EventTypeField(), e.eventType);
    RequireSpelled(m, SourceField(), e.source);
    RequireSpelled(m, CaseIdField(), e.caseId);
    RequireSpelled(m, SchemaVersionField(), e.schemaVersion);
    RequireSpelledTimestamp(lenient, m, OccurredAtField(), e.occurredAt);
  }

  lemma ConstantsAreSound()
    ensures Sound(EventSchemaVersion()) && Sound(DemoSource()) && Sound(SupportEventType())
    ensures NoSplitPair(EventSchemaVersion()) && NoSplitPair(DemoSource()) && NoSplitPair(SupportEventType())
  {
  }

  lemma ReadIsCanonical(lenient: Lenient, m: map<Text, Json>)
    requires ReadableStrings(JObject(m))
    ensures match ReadSynthetic(lenient, m)
            case Err(_) => true
            case Ok(e) =>
              && Sound(e.eventId) && Sound(e.caseId) && Readable(e.eventId) && Readable(e.caseId)
              && Readable(e.eventType) && Readable(e.source) && Readable(e.schemaVersion)
              && Readable(e.occurredAt) && IsCanonicalTimestamp(e.occurredAt)
  {
    hide RequireString, NormalizeTimestamp, Sound, Readable, IsCanonicalTimestamp, ReadableStrings;
    RequiredIsReadable(m, EventIdField());
    RequiredIsReadable(m, EventTypeField());
    RequiredIsReadable(m, SourceField());
    RequiredIsReadable(m, CaseIdField());
    RequiredIsReadable(m, SchemaVersionField());
    if RequireString(m, OccurredAtField()).Some? {
      NormalizedIsCanonical(lenient, RequireString(m, OccurredAtField()).value);
      if NormalizeTimestamp(lenient, RequireString(m, OccurredAtField()).value).Some? {
        CanonicalIsSound(NormalizeTimestamp(lenient, RequireString(m, OccurredAtField()).value).value);
      }
    }
  }

  /** Whatever envelope an event was decoded from, encoding and decoding it again gives it back. */
  lemma DecodedSyntheticIsFixed(cases: Cases, lenient: Lenient, envelope: Envelope)
    ensures match DecodeSynthetic(cases, lenient, envelope)
            case Err(_) => true
            case Ok(e) =>
              && PlainSynthetic(e) && SyntheticHasNoSplitPair(e)
              && DecodeSynthetic(cases, lenient, EncodeSynthetic(e)) == Ok(e)
  {
    hide CarriedJson, EncodeSynthetic, SyntheticFields, ReadSynthetic, IsCanonicalTimestamp, ReadableStrings;
    hide EventSchemaVersion, DemoSource, SupportEventType;
    if DecodeSynthetic(cases, lenient, envelope).Ok? {
      var e := DecodeSynthetic(cases, lenient, envelope).value;
      CarriedIsReadable(envelope);
      ReadIsCanonical(lenient, CarriedJson(envelope).value.members);
      SyntheticRoundTripIff(cases, lenient, e);
    }
  }

  // ---------------------------------------------------------------- two spellings of one event

  lemma JoinedSyntheticIsPlain(e: SyntheticEvent)
    requires PlainSynthetic(e)
    ensures PlainSynthetic(JoinedSynthetic(e)) && JoinedSynthetic(JoinedSynthetic(e)) == JoinedSynthetic(e)
  {
    hide Plain, Joined;
    JoinedIsPlain(e.eventId);
    JoinedIsPlain(e.eventType);
    JoinedIsPlain(e.source);
    JoinedIsPlain(e.caseId);
    JoinedIsPlain(e.occurredAt);
    JoinedIsPlain(e.schemaVersion);
    JoiningTwice(e.eventId);
    JoiningTwice(e.eventType);
    JoiningTwice(e.source);
    JoiningTwice(e.caseId);
    JoiningTwice(e.occurredAt);
    JoiningTwice(e.schemaVersion);
  }

  /** An encoded event decodes as its joined form does, so to that form when it is canonical. */
  lemma SyntheticDecodesJoined(cases: Cases, lenient: Lenient, e: SyntheticEvent)
    requires PlainSynthetic(e)
    ensures PlainSynthetic(JoinedSynthetic(e))
    ensures DecodeSynthetic(cases, lenient, EncodeSynthetic(e))
            == DecodeSynthetic(cases, lenient, EncodeSynthetic(JoinedSynthetic(e)))
    ensures CanonicalSynthetic(cases, JoinedSynthetic(e)) ==>
              DecodeSynthetic(cases, lenient, EncodeSynthetic(e)) == Ok(JoinedSynthetic(e))
  {
    hide CarriedJson, Wrap, PrintObject, ReadSynthetic, CanonicalSynthetic, JoinedSynthetic, SyntheticMembers,
         PlainSynthetic;
    var j := JoinedSynthetic(e);
    JoinedSyntheticIsPlain(e);
    SyntheticMembersOk(e);
    SyntheticMembersOk(j);
    SyntheticPayloadsEqualIff(e, j);
    SamePrintCarriesSame(e.eventId, SyntheticMembers(e), j.eventId, SyntheticMembers(j));
    SyntheticRoundTripIff(cases, lenient, j);
  }

  /** A support request for the shipped case, with any event id. */
  function ShippedEvent(id: Text): SyntheticEvent {
    SyntheticEvent(id, SupportEventType(), DemoSource(), ShippedCaseId(), Format(0), EventSchemaVersion())
  }

  lemma SmilingEventsAreSound()
    ensures CanonicalSynthetic(ShippedCases(), ShippedEvent(Smile()))
    ensures PlainSynthetic(ShippedEvent(Smile())) && PlainSynthetic(ShippedEvent(SplitSmile()))
    ensures JoinedSynthetic(ShippedEvent(SplitSmile())) == ShippedEvent(Smile())
            == JoinedSynthetic(ShippedEvent(Smile()))
  {
    hide Format, Joined, NoSplitPair, Lit, IsCanonicalTimestamp, Readable;
    SmilesJoinAlike();
    FormatIsCanonical(0);
    CanonicalIsSound(Format(0));
    PlainConstants();
    CaseIdIsSound();
    ConstantsAreSound();
    ReadableIsPlain(Format(0));
    JoinedFixes(SupportEventType());
    JoinedFixes(DemoSource());
    JoinedFixes(ShippedCaseId());
    JoinedFixes(Format(0));
    JoinedFixes(EventSchemaVersion());
  }

  lemma ReadableIsPlain(t: Text)
    requires Readable(t)
    ensures Plain(t) && NoSplitPair(t)
  {
  }

  lemma PlainConstants()
    ensures Plain(SupportEventType()) && Plain(DemoSource()) && Plain(EventSchemaVersion()) && Plain(ShippedCaseId())
    ensures NoSplitPair(ShippedCaseId())
  {
    LitIsPlain("vice-ceo-demo-event-v1");
    LitIsPlain("vice_ceo_demo_fixture");
    LitIsPlain("support.requested");
    LitIsPlain("case_support_password_reset");
  }

  lemma CaseIdIsSound()
    ensures Sound(ShippedCaseId())
  {
  }

  /**
   Two different events for the shipped case, alike but for the spelling of U+1F600 in their ids, share
   a key, and what is decoded from either's envelope is the first.
   */
  lemma SplitPairSharesKey(lenient: Lenient) returns (e: SyntheticEvent, f: SyntheticEvent)
    ensures PlainSynthetic(e) && PlainSynthetic(f) && CanonicalSynthetic(ShippedCases(), e)
    ensures f == e.(eventId := SplitSmile()) && e != f && SyntheticKey(e) == SyntheticKey(f)
    ensures DecodeSynthetic(ShippedCases(), lenient, EncodeSynthetic(e)) == Ok(e)
    ensures DecodeSynthetic(ShippedCases(), lenient, EncodeSynthetic(f)) == Ok(e)
  {
    hide CanonicalSynthetic, PlainSynthetic, JoinedSynthetic, DecodeSynthetic, EncodeSynthetic, SyntheticKey,
         ShippedCases;
    hide SyntheticHasNoSplitPair, Smile, SplitSmile, Format, Lit;
    e, f := ShippedEvent(Smile()), ShippedEvent(SplitSmile());
    SmilingEventsAreSound();
    SmilesJoinAlike();
    SyntheticKeysEqualIff(e, f);
    SyntheticDecodesJoined(ShippedCases(), lenient, e);
    SyntheticDecodesJoined(ShippedCases(), lenient, f);
  }
}
