/** The scheduled watch event: identity, encoding, and decoding in its two accepted shapes. */
module RegistryEvents {
  import opened Wrappers
  import opened Texts
  import opened Timestamps
  import opened Json
  import opened Encoding
  import opened Envelopes
  import opened Events

  function WatchEventType(): Text { Lit("registry.watch.requested") }
  function WatchSource(): Text { Lit("vice_ceo_registry_watch") }
  function WatchSchemaVersion(): Text { Lit("vice-ceo-registry-watch-event-v1") }

  datatype WatchEvent = WatchEvent(
    eventId: Text, sourceId: Text, scheduledFor: Text, eventType: Text, source: Text, schemaVersion: Text)

  function WatchMembers(e: WatchEvent): seq<Member> {
    [Member(EventIdField(), e.eventId), Member(EventTypeField(), e.eventType),
     Member(ScheduledForField(), e.scheduledFor),
     Member(SchemaVersionField(), e.schemaVersion), Member(SourceField(), e.source),
     Member(SourceIdField(), e.sourceId)]
  }

  function WatchPayload(e: WatchEvent): Text { PrintObject(WatchMembers(e)) }

  /** The payload lists its fields in key order. */
  lemma WatchKeysAscend(e: WatchEvent)
    ensures KeysAscend(WatchMembers(e))
  {
    hide Less, Lit;
    LitsAscend("event_id", "event_type", 6);
    InitialsAscend("event_type", "scheduled_for");
    LitsAscend("scheduled_for", "schema_version", 4);
    LitsAscend("schema_version", "source", 1);
    LitsAscend("source", "source_id", 6);
  }

  /** `idempotency_key` */
  function WatchKey(e: WatchEvent): Text { Lit("registry-watch-") + Sha256Hex(WatchPayload(e)) }

  function JoinedWatch(e: WatchEvent): WatchEvent {
    WatchEvent(Joined(e.eventId), Joined(e.sourceId), Joined(e.scheduledFor), Joined(e.eventType), Joined(e.source),
      Joined(e.schemaVersion))
  }

  predicate WatchHasNoSplitPair(e: WatchEvent) {
    && NoSplitPair(e.eventId) && NoSplitPair(e.sourceId) && NoSplitPair(e.scheduledFor)
    && NoSplitPair(e.eventType) && NoSplitPair(e.source) && NoSplitPair(e.schemaVersion)
  }

  lemma JoinedWatchFixes(e: WatchEvent)
    ensures JoinedWatch(e) == e <==> WatchHasNoSplitPair(e)
  {
    hide Joined, NoSplitPair;
    JoinedFixes(e.eventId);
    JoinedFixes(e.sourceId);
    JoinedFixes(e.scheduledFor);
    JoinedFixes(e.eventType);
    JoinedFixes(e.source);
    JoinedFixes(e.schemaVersion);
  }

  lemma WatchPayloadsEqualIff(e: WatchEvent, f: WatchEvent)
    ensures WatchPayload(e) == WatchPayload(f) <==> JoinedWatch(e) == JoinedWatch(f)
  {
    hide PrintObject, Joined;
    var a, b := WatchMembers(e), WatchMembers(f);
    PrintObjectInjective(a, b);
    if JoinedWatch(e) != JoinedWatch(f) {
      assert Joined(a[0].value) != Joined(b[0].value) || Joined(a[1].value) != Joined(b[1].value)
        || Joined(a[2].value) != Joined(b[2].value) || Joined(a[3].value) != Joined(b[3].value)
        || Joined(a[4].value) != Joined(b[4].value) || Joined(a[5].value) != Joined(b[5].value);
    }
  }

  /** Two watch events share an idempotency key exactly when all six fields join alike. */
  lemma WatchKeysEqualIff(e: WatchEvent, f: WatchEvent)
    ensures WatchKey(e) == WatchKey(f) <==> JoinedWatch(e) == JoinedWatch(f)
    ensures WatchHasNoSplitPair(e) && WatchHasNoSplitPair(f) ==> (WatchKey(e) == WatchKey(f) <==> e == f)
  {
    hide WatchPayload, Joined, NoSplitPair;
    WatchPayloadsEqualIff(e, f);
    assert WatchKey(e)[|Lit("registry-watch-")|] == Hex(Sha256(WatchPayload(e)));
    assert WatchKey(f)[|Lit("registry-watch-")|] == Hex(Sha256(WatchPayload(f)));
    JoinedWatchFixes(e);
    JoinedWatchFixes(f);
  }

  datatype WatchEventError =
    | MalformedEnvelope
    | PayloadMustBeObject
    | UnrecognizedFields
    | FieldInvalid(field: Text)
    | TimestampInvalid

  function WatchFields(): set<Text> {
    {EventIdField(), SourceIdField(), ScheduledForField(), EventTypeField(), SourceField(), SchemaVersionField()}
  }

  function SchedulerFields(): set<Text> {
    {SourceIdField(), EventTypeField(), SourceField(), SchemaVersionField()}
  }

  /**
   The identity and time come from `outer` under the given names; the other four fields from
   the payload `m`. The six-field shape has outer == m.
   */
  function ReadWatch(
    lenient: Lenient, outer: map<Text, Json>, idField: Text, timeField: Text, m: map<Text, Json>
  ): Result<WatchEvent, WatchEventError> {
    match RequireString(outer, idField)
    case None => Err(FieldInvalid(idField))
    case Some(eventId) =>
      match RequireString(m, SourceIdField())
      case None => Err(FieldInvalid(SourceIdField()))
      case Some(sourceId) =>
        match RequireString(outer, timeField)
        case None => Err(FieldInvalid(timeField))
        case Some(time) =>
          match NormalizeTimestamp(lenient, time)
          case None => Err(TimestampInvalid)
          case Some(scheduledFor) =>
            match RequireString(m, EventTypeField())
            case None => Err(FieldInvalid(EventTypeField()))
            case Some(eventType) =>
              match RequireString(m, SourceField())
              case None => Err(FieldInvalid(SourceField()))
              case Some(source) =>
                match RequireString(m, SchemaVersionField())
                case None => Err(FieldInvalid(SchemaVersionField()))
                case Some(schemaVersion) =>
                  Ok(WatchEvent(eventId, sourceId, scheduledFor, eventType, source, schemaVersion))
  }

  /** `decode_registry_watch_pubsub_event` */
  function DecodeWatch(lenient: Lenient, envelope: Envelope): Result<WatchEvent, WatchEventError> {
    match CarriedJson(envelope)
    case None => Err(WatchEventError.MalformedEnvelope)
    case Some(value) =>
      if !value.JObject? then Err(WatchEventError.PayloadMustBeObject)
      else if value.members.Keys == SchedulerFields() then
        if envelope.NoMessage? then Err(WatchEventError.MalformedEnvelope)
        else ReadWatch(lenient, envelope.fields, MessageIdField(), PublishTimeField(), value.members)
      else if value.members.Keys != WatchFields() then Err(WatchEventError.UnrecognizedFields)
      else ReadWatch(lenient, value.members, EventIdField(), ScheduledForField(), value.members)
  }

  predicate PlainWatch(e: WatchEvent) {
    Plain(e.eventId) && Plain(e.sourceId) && Plain(e.scheduledFor) && Plain(e.eventType) && Plain(e.source)
      && Plain(e.schemaVersion)
  }

  lemma WatchMembersOk(e: WatchEvent)
    requires PlainWatch(e)
    ensures PlainMembers(WatchMembers(e)) && DistinctKeys(WatchMembers(e))
    ensures KeysOf(WatchMembers(e)) == WatchFields()
    ensures WatchFields() != SchedulerFields()
  {
    hide Plain, NoSplitPair;
    var ms := WatchMembers(e);
    LitIsPlain("event_id");
    LitIsPlain("event_type");
    LitIsPlain("scheduled_for");
    LitIsPlain("schema_version");
    LitIsPlain("source");
    LitIsPlain("source_id");
    assert |ms[0].key| == 8 && |ms[1].key| == 10 && |ms[2].key| == 13 && |ms[3].key| == 14 && |ms[4].key| == 6
      && |ms[5].key| == 9;
    assert KeysOf(ms) == {ms[0].key, ms[1].key, ms[2].key, ms[3].key, ms[4].key, ms[5].key};
    assert EventIdField() in WatchFields() && EventIdField() !in SchedulerFields();
  }

  /** `encode_registry_watch_pubsub_event` */
  function EncodeWatch(e: WatchEvent): Envelope
    requires PlainWatch(e)
  {
    WatchMembersOk(e);
    Wrap(e.eventId, WatchMembers(e))
  }

  /** The events that travel unchanged. */
  ghost predicate CanonicalWatch(e: WatchEvent) {
    && Sound(e.eventId) && Sound(e.sourceId) && Sound(e.eventType) && Sound(e.source) && Sound(e.schemaVersion)
    && NoSplitPair(e.eventId) && NoSplitPair(e.sourceId) && NoSplitPair(e.eventType)
    && NoSplitPair(e.source) && NoSplitPair(e.schemaVersion)
    && IsCanonicalTimestamp(e.scheduledFor)
  }

  predicate SpellsWatch(m: map<Text, Json>, e: WatchEvent) {
    && m.Keys == WatchFields()
    && Spells(m, EventIdField(), e.eventId) && Spells(m, EventTypeField(), e.eventType)
    && Spells(m, ScheduledForField(), e.scheduledFor) && Spells(m, SchemaVersionField(), e.schemaVersion)
    && Spells(m, SourceField(), e.source) && Spells(m, SourceIdField(), e.sourceId)
  }

  lemma WatchCarried(e: WatchEvent) returns (m: map<Text, Json>)
    requires PlainWatch(e)
    ensures CarriedJson(EncodeWatch(e)) == Some(JObject(m)) && SpellsWatch(m, e)
  {
    hide Joined, CarriedJson, Wrap, KeysOf, PlainMembers, DistinctKeys, WatchFields;
    var ms := WatchMembers(e);
    WatchMembersOk(e);
    WrapCarries(e.eventId, ms);
    m := CarriedJson(Wrap(e.eventId, ms)).value.members;
    assert Spells(m, ms[0].key, ms[0].value) && Spells(m, ms[1].key, ms[1].value) && Spells(m, ms[2].key, ms[2].value);
    assert Spells(m, ms[3].key, ms[3].value) && Spells(m, ms[4].key, ms[4].value) && Spells(m, ms[5].key, ms[5].value);
  }

  lemma ReadSpelledWatch(lenient: Lenient, m: map<Text, Json>, e: WatchEvent)
    requires SpellsWatch(m, e)
    ensures ReadWatch(lenient, m, EventIdField(), ScheduledForField(), m) == Ok(e) <==> CanonicalWatch(e)
  {
    hide RequireString, NormalizeTimestamp, Spells, Sound, NoSplitPair, IsCanonicalTimestamp;
    RequireSpelled(m, EventIdField(), e.eventId);
    RequireSpelled(m, EventTypeField(), e.eventType);
    RequireSpelled(m, SourceField(), e.source);
    RequireSpelled(m, SourceIdField(), e.sourceId);
    RequireSpelled(m, SchemaVersionField(), e.schemaVersion);
    RequireSpelledTimestamp(lenient, m, ScheduledForField(), e.scheduledFor);
  }

  /** An encoded watch event decodes to itself exactly when it is canonical. */
  lemma WatchRoundTripIff(lenient: Lenient, e: WatchEvent)
    requires PlainWatch(e)
    ensures DecodeWatch(lenient, EncodeWatch(e)) == Ok(e) <==> CanonicalWatch(e)
  {
    hide CarriedJson, EncodeWatch, WatchFields, SchedulerFields, ReadWatch, CanonicalWatch;
    var m := WatchCarried(e);
    WatchMembersOk(e);
    ReadSpelledWatch(lenient, m, e);
  }

  lemma ReadWatchIsCanonical(
    lenient: Lenient, outer: map<Text, Json>, idField: Text, timeField: Text, m: map<Text, Json>)
    requires ReadableStrings(JObject(m))
    ensures match ReadWatch(lenient, outer, idField, timeField, m)
            case Err(_) => true
            case Ok(e) =>
              && RequireString(outer, idField) == Some(e.eventId)
              && (NoSplitPair(e.eventId) <==> CanonicalWatch(e))
              && Plain(e.sourceId) && Plain(e.scheduledFor) && Plain(e.eventType) && Plain(e.source)
                 && Plain(e.schemaVersion)
  {
    hide NormalizeTimestamp, Strip, NoSplitPair, IsCanonicalTimestamp, ReadableStrings;
    RequiredIsReadable(m, SourceIdField());
    RequiredIsReadable(m, EventTypeField());
    RequiredIsReadable(m, SourceField());
    RequiredIsReadable(m, SchemaVersionField());
    if RequireString(outer, timeField).Some? {
      var time := RequireString(outer, timeField).value;
      NormalizedIsCanonical(lenient, time);
      if NormalizeTimestamp(lenient, time).Some? { CanonicalIsSound(NormalizeTimestamp(lenient, time).value); }
    }
    if RequireString(outer, idField).Some? {
      StripTwice(outer[idField].text);
      StripFixed(RequireString(outer, idField).value);
    }
  }

  /**
   A decoded watch event encodes and decodes to itself exactly when its id has no split surrogate
   pair. Only the scheduler shape can break that: its id is the transport's message id, which
   does not pass through the JSON reader.
   */
  lemma DecodedWatchIsFixedIff(lenient: Lenient, envelope: Envelope, e: WatchEvent)
    requires DecodeWatch(lenient, envelope) == Ok(e) && Plain(e.eventId)
    ensures PlainWatch(e)
    ensures DecodeWatch(lenient, EncodeWatch(e)) == Ok(e) <==> NoSplitPair(e.eventId)
    ensures CarriedJson(envelope).value.members.Keys == WatchFields() ==> NoSplitPair(e.eventId)
  {
    hide CarriedJson, EncodeWatch, WatchFields, SchedulerFields, ReadWatch, ReadableStrings, CanonicalWatch, Plain,
         NoSplitPair, RequireString;
    CarriedIsReadable(envelope);
    var m := CarriedJson(envelope).value.members;
    ReadWatchIsCanonical(lenient, m, EventIdField(), ScheduledForField(), m);
    if !envelope.NoMessage? {
      ReadWatchIsCanonical(lenient, envelope.fields, MessageIdField(), PublishTimeField(), m);
    }
    WatchRoundTripIff(lenient, e);
    RequiredIdIsReadable(m);
    KeySetsDiffer();
  }

  lemma RequiredIdIsReadable(m: map<Text, Json>)
    requires ReadableStrings(JObject(m))
    ensures match RequireString(m, EventIdField())
            case Some(t) => NoSplitPair(t)
            case None => true
  {
    RequiredIsReadable(m, EventIdField());
  }

  lemma KeySetsDiffer()
    ensures WatchFields() != SchedulerFields()
  {
    assert |EventIdField()| == 8 && |SourceIdField()| == 9 && |EventTypeField()| == 10
        && |SourceField()| == 6 && |SchemaVersionField()| == 14;
    assert EventIdField() in WatchFields() && EventIdField() !in SchedulerFields();
  }

  // ---------------------------------------------------------------- two spellings of one event

  lemma JoinedWatchIsPlain(e: WatchEvent)
    requires PlainWatch(e)
    ensures PlainWatch(JoinedWatch(e)) && JoinedWatch(JoinedWatch(e)) == JoinedWatch(e)
  {
    hide Plain, Joined;
    JoinedIsPlain(e.eventId);
    JoinedIsPlain(e.sourceId);
    JoinedIsPlain(e.scheduledFor);
    JoinedIsPlain(e.eventType);
    JoinedIsPlain(e.source);
    JoinedIsPlain(e.schemaVersion);
    JoiningTwice(e.eventId);
    JoiningTwice(e.sourceId);
    JoiningTwice(e.scheduledFor);
    JoiningTwice(e.eventType);
    JoiningTwice(e.source);
    JoiningTwice(e.schemaVersion);
  }

  /** An encoded watch event decodes as its joined form does, so to that form when it is canonical. */
  lemma WatchDecodesJoined(lenient: Lenient, e: WatchEvent)
    requires PlainWatch(e)
    ensures PlainWatch(JoinedWatch(e))
    ensures CarriedJson(EncodeWatch(e)) == CarriedJson(EncodeWatch(JoinedWatch(e)))
    ensures CanonicalWatch(JoinedWatch(e)) ==> DecodeWatch(lenient, EncodeWatch(e)) == Ok(JoinedWatch(e))
  {
    hide CarriedJson, PrintObject, ReadWatch, CanonicalWatch, JoinedWatch, WatchMembers, PlainWatch, WatchFields,
         SchedulerFields;
    var j := JoinedWatch(e);
    JoinedWatchIsPlain(e);
    WatchMembersOk(e);
    WatchMembersOk(j);
    WatchPayloadsEqualIff(e, j);
    SamePrintCarriesSame(e.eventId, WatchMembers(e), j.eventId, WatchMembers(j));
    WatchRoundTripIff(lenient, j);
    var m := WatchCarried(e);
    KeySetsDiffer();
    CarriedKeys(m, e);
  }

  lemma CarriedKeys(m: map<Text, Json>, e: WatchEvent)
    requires SpellsWatch(m, e)
    ensures m.Keys == WatchFields()
  {
    hide WatchFields;
  }

  /** The payload of the scheduler shape, whose id and time travel outside it. */
  function SchedulerMembers(e: WatchEvent): seq<Member> {
    [Member(EventTypeField(), e.eventType), Member(SchemaVersionField(), e.schemaVersion),
     Member(SourceField(), e.source), Member(SourceIdField(), e.sourceId)]
  }

  lemma SchedulerMembersOk(e: WatchEvent)
    requires PlainWatch(e)
    ensures PlainMembers(SchedulerMembers(e)) && DistinctKeys(SchedulerMembers(e))
    ensures KeysOf(SchedulerMembers(e)) == SchedulerFields()
  {
    hide Plain, NoSplitPair;
    var ms := SchedulerMembers(e);
    LitIsPlain("event_type");
    LitIsPlain("schema_version");
    LitIsPlain("source");
    LitIsPlain("source_id");
    assert |ms[0].key| == 10 && |ms[1].key| == 14 && |ms[2].key| == 6 && |ms[3].key| == 9;
    assert KeysOf(ms) == {ms[0].key, ms[1].key, ms[2].key, ms[3].key};
  }

  /** What the scheduler's subscription delivers for this event. */
  function SchedulerEnvelope(e: WatchEvent): Envelope
    requires PlainWatch(e)
  {
    SchedulerMembersOk(e);
    Message(Wrap(e.eventId, SchedulerMembers(e)).fields[PublishTimeField() := JString(e.scheduledFor)])
  }

  lemma SchedulerCarries(e: WatchEvent)
    requires PlainWatch(e)
    ensures PlainMembers(SchedulerMembers(e))
    ensures CarriedJson(SchedulerEnvelope(e)) == CarriedJson(Wrap(e.eventId, SchedulerMembers(e)))
    ensures SchedulerEnvelope(e).Message?
    ensures var fields := SchedulerEnvelope(e).fields;
            && MessageIdField() in fields && fields[MessageIdField()] == JString(e.eventId)
            && PublishTimeField() in fields && fields[PublishTimeField()] == JString(e.scheduledFor)
  {
    hide SchedulerMembers, PlainMembers, EncodeBase64, AsciiBytes, PrintObject, DecodeBase64, DecodeUtf8, Loads;
    SchedulerMembersOk(e);
    assert |DataField()| == 4 && |MessageIdField()| == 9 && |PublishTimeField()| == 11;
  }

  /** A scheduler delivery decodes to its event, whatever the spelling of the id, when the rest is canonical. */
  lemma SchedulerDecodes(lenient: Lenient, e: WatchEvent)
    requires PlainWatch(e) && CanonicalWatch(e.(eventId := Lit("e"))) && Sound(e.eventId)
    ensures DecodeWatch(lenient, SchedulerEnvelope(e)) == Ok(e)
  {
    hide CarriedJson, SchedulerEnvelope, Wrap, KeysOf, PlainMembers, DistinctKeys, SchedulerFields, WatchFields;
    hide Joined, NoSplitPair, Strip, Trimmed, Lit, IsCanonicalTimestamp, NormalizeTimestamp, PlainWatch;
    var ms := SchedulerMembers(e);
    SchedulerMembersOk(e);
    SchedulerCarries(e);
    WrapCarries(e.eventId, ms);
    var m := CarriedJson(Wrap(e.eventId, ms)).value.members;
    assert Spells(m, ms[0].key, ms[0].value) && Spells(m, ms[1].key, ms[1].value);
    assert Spells(m, ms[2].key, ms[2].value) && Spells(m, ms[3].key, ms[3].value);
    RequireSpelled(m, EventTypeField(), e.eventType);
    RequireSpelled(m, SchemaVersionField(), e.schemaVersion);
    RequireSpelled(m, SourceField(), e.source);
    RequireSpelled(m, SourceIdField(), e.sourceId);
    StripFixed(e.eventId);
    CanonicalIsSound(e.scheduledFor);
    StripFixed(e.scheduledFor);
    NormalizeFixesCanonical(lenient, e.scheduledFor);
  }

  function SomeWatch(id: Text): WatchEvent {
    WatchEvent(id, Lit("registry"), Format(0), WatchEventType(), WatchSource(), WatchSchemaVersion())
  }

  lemma WatchConstantsAreSound()
    ensures Sound(Lit("registry")) && Sound(WatchEventType()) && Sound(WatchSource()) && Sound(WatchSchemaVersion())
    ensures Plain(Lit("registry")) && Plain(WatchEventType()) && Plain(WatchSource()) && Plain(WatchSchemaVersion())
    ensures NoSplitPair(Lit("registry")) && NoSplitPair(WatchEventType())
    ensures NoSplitPair(WatchSource()) && NoSplitPair(WatchSchemaVersion())
  {
    hide Plain, NoSplitPair;
    LitIsPlain("registry");
    LitIsPlain("registry.watch.requested");
    LitIsPlain("vice_ceo_registry_watch");
    LitIsPlain("vice-ceo-registry-watch-event-v1");
  }

  lemma SomeWatchesAreCanonical()
    ensures CanonicalWatch(SomeWatch(Smile())) && CanonicalWatch(SomeWatch(Lit("e")))
    ensures PlainWatch(SomeWatch(Smile())) && PlainWatch(SomeWatch(SplitSmile())) && Sound(SplitSmile())
    ensures JoinedWatch(SomeWatch(SplitSmile())) == SomeWatch(Smile()) == JoinedWatch(SomeWatch(Smile()))
  {
    hide Format, Joined, NoSplitPair, IsCanonicalTimestamp, Readable;
    SmilesJoinAlike();
    FormatIsCanonical(0);
    CanonicalIsSound(Format(0));
    ReadableIsPlain(Format(0));
    LitIsPlain("e");
    WatchConstantsAreSound();
    JoinedFixes(Lit("registry"));
    JoinedFixes(Format(0));
    JoinedFixes(WatchEventType());
    JoinedFixes(WatchSource());
    JoinedFixes(WatchSchemaVersion());
  }

  /**
   Two scheduler deliveries whose message ids spell U+1F600 differently decode to different events with
   one key, and the event with the split pair encodes and decodes to the other.
   */
  lemma SplitMessageIdIsNotFixed(lenient: Lenient) returns (e: WatchEvent, f: WatchEvent)
    ensures PlainWatch(e) && PlainWatch(f) && e != f && WatchKey(e) == WatchKey(f)
    ensures f == e.(eventId := SplitSmile())
    ensures DecodeWatch(lenient, SchedulerEnvelope(e)) == Ok(e) && DecodeWatch(lenient, SchedulerEnvelope(f)) == Ok(f)
    ensures DecodeWatch(lenient, EncodeWatch(f)) == Ok(e)
  {
    hide CanonicalWatch, PlainWatch, JoinedWatch, DecodeWatch, EncodeWatch, SchedulerEnvelope, WatchKey;
    hide WatchHasNoSplitPair, Smile, SplitSmile, Format, Lit, Sound;
    e, f := SomeWatch(Smile()), SomeWatch(SplitSmile());
    SomeWatchesAreCanonical();
    SmilesJoinAlike();
    SmileIsSound();
    WatchKeysEqualIff(e, f);
    SchedulerDecodes(lenient, e);
    SchedulerDecodes(lenient, f);
    WatchDecodesJoined(lenient, f);
  }

  lemma SmileIsSound()
    ensures Sound(Smile())
  {
  }
}
