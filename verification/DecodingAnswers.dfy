/**
 What the two event decoders answer to any envelope, with every field name, constant and error written
 out: the first field that is missing or invalid decides the error, and an accepted event holds the
 stripped fields and the time reprinted in UTC.
 */
module DecodingAnswers {
  import opened Wrappers
  import opened Texts
  import opened Timestamps
  import opened Json
  import opened Encoding
  import opened Fixtures
  import opened Envelopes
  import opened Events
  import opened RegistryEvents

  // ---------------------------------------------------------------- what an envelope carries

  /** An envelope whose message has this data text. */
  predicate HasData(e: Envelope, data: Text) {
    e.Message? && Lit("data") in e.fields && e.fields[Lit("data")] == JString(data)
  }

  /** Base64 of UTF-8 text carries what the text reads as. */
  lemma CarriesText(e: Envelope, t: Text)
    requires Utf8Text(t) && HasData(e, EncodeBase64(EncodeUtf8(t)))
    ensures CarriedJson(e) == Loads(t)
  {
    hide EncodeBase64, DecodeBase64, EncodeUtf8, DecodeUtf8, Loads, Lit, Utf8Text;
    Base64RoundTrip(EncodeUtf8(t));
    Utf8RoundTrip(t);
  }

  /** An envelope carries something only if its data is base64 of the UTF-8 of a JSON text. */
  lemma CarriedIsText(e: Envelope)
    ensures match CarriedJson(e)
            case None => true
            case Some(v) =>
              exists data, t :: HasData(e, data) && Utf8Text(t) && DecodeBase64(data) == Some(EncodeUtf8(t))
                                && Loads(t) == Some(v)
  {
    hide DecodeBase64, EncodeUtf8, DecodeUtf8, Loads, Lit, Utf8Text;
    if CarriedJson(e).Some? {
      var data := e.fields[DataField()].text;
      var bytes := DecodeBase64(data).value;
      DecodedUtf8Encodes(bytes);
      var t := DecodeUtf8(bytes).value;
      assert HasData(e, data) && Utf8Text(t) && DecodeBase64(data) == Some(EncodeUtf8(t)) && Loads(t) == CarriedJson(e);
    }
  }

  /** An encoded event is a message with its id and the base64 of its canonical text, and nothing else. */
  predicate IsMessage(e: Envelope, id: Text, payload: Text)
    requires Ascii(payload)
  {
    && e.Message? && e.fields.Keys == {Lit("messageId"), Lit("data")}
    && e.fields[Lit("messageId")] == JString(id)
    && e.fields[Lit("data")] == JString(EncodeBase64(AsciiBytes(payload)))
  }

  lemma WrapsExactly(id: Text, ms: seq<Member>)
    requires PlainMembers(ms)
    ensures Ascii(PrintObject(ms)) && IsMessage(Wrap(id, ms), id, PrintObject(ms))
  {
    hide PrintObject, EncodeBase64, AsciiBytes, PlainMembers;
    PrintObjectIsAscii(ms);
    assert |Lit("data")| == 4 && |Lit("messageId")| == 9;
  }

  /** Both kinds of event travel as their payload, and their keys hash that payload. */
  lemma EncodesExactly(e: SyntheticEvent, w: WatchEvent)
    requires PlainSynthetic(e) && PlainWatch(w)
    ensures Ascii(SyntheticPayload(e)) && IsMessage(EncodeSynthetic(e), e.eventId, SyntheticPayload(e))
    ensures Ascii(WatchPayload(w)) && IsMessage(EncodeWatch(w), w.eventId, WatchPayload(w))
    ensures SyntheticKey(e) == Lit("vice-ceo-demo-") + Sha256Hex(SyntheticPayload(e))
    ensures WatchKey(w) == Lit("registry-watch-") + Sha256Hex(WatchPayload(w))
  {
    hide Lit, Sha256Hex, PrintObject, EncodeBase64, AsciiBytes, PlainMembers, IsMessage, SyntheticMembers, WatchMembers,
         Wrap;
    SyntheticMembersOk(e);
    WatchMembersOk(w);
    WrapsExactly(e.eventId, SyntheticMembers(e));
    WrapsExactly(w.eventId, WatchMembers(w));
  }

  // ---------------------------------------------------------------- fields

  /** A string that is not blank. */
  predicate Present(m: map<Text, Json>, field: Text) {
    field in m && m[field].JString? && !IsBlank(m[field].text)
  }

  /** The present field without the spaces around it. */
  function Value(m: map<Text, Json>, field: Text): Text
    requires Present(m, field)
  {
    Strip(m[field].text)
  }

  lemma RequiredExactly(m: map<Text, Json>, field: Text)
    ensures RequireString(m, field) == if Present(m, field) then Some(Value(m, field)) else None
  {
    hide Strip, IsBlank;
    if field in m && m[field].JString? { BlankIff(m[field].text); }
  }

  predicate PresentTime(lenient: Lenient, m: map<Text, Json>, field: Text) {
    Present(m, field) && Parse(lenient, Value(m, field)).Some?
  }

  function TimeValue(lenient: Lenient, m: map<Text, Json>, field: Text): Text
    requires PresentTime(lenient, m, field)
  {
    Format(Parse(lenient, Value(m, field)).value)
  }

  // ---------------------------------------------------------------- synthetic events

  function SyntheticNames(): seq<Text> {
    [Lit("event_id"), Lit("event_type"), Lit("source"), Lit("case_id"), Lit("occurred_at"), Lit("schema_version")]
  }

  /** The k-th required field is present; the fifth is a readable time. */
  predicate GoodSynthetic(lenient: Lenient, m: map<Text, Json>, k: nat)
    requires k < 6
  {
    if k == 4 then PresentTime(lenient, m, Lit("occurred_at")) else Present(m, SyntheticNames()[k])
  }

  /** The event's fields are the stripped strings, its time reprinted in UTC. */
  predicate HoldsSynthetic(lenient: Lenient, m: map<Text, Json>, e: SyntheticEvent) {
    && Present(m, Lit("event_id")) && e.eventId == Value(m, Lit("event_id"))
    && Present(m, Lit("event_type")) && e.eventType == Value(m, Lit("event_type"))
    && Present(m, Lit("source")) && e.source == Value(m, Lit("source"))
    && Present(m, Lit("case_id")) && e.caseId == Value(m, Lit("case_id"))
    && PresentTime(lenient, m, Lit("occurred_at")) && e.occurredAt == TimeValue(lenient, m, Lit("occurred_at"))
    && Present(m, Lit("schema_version")) && e.schemaVersion == Value(m, Lit("schema_version"))
  }

  predicate FirstBadSynthetic(lenient: Lenient, m: map<Text, Json>, k: nat) {
    k < 6 && !GoodSynthetic(lenient, m, k) && forall j | 0 <= j < k :: GoodSynthetic(lenient, m, j)
  }

  lemma TimeExactly(lenient: Lenient, m: map<Text, Json>, field: Text)
    ensures RequireTimestamp(lenient, m, field)
            == if PresentTime(lenient, m, field) then Some(TimeValue(lenient, m, field)) else None
  {
    hide Parse, Format, Strip, IsBlank;
    RequiredExactly(m, field);
  }

  lemma ReadsSynthetic(lenient: Lenient, m: map<Text, Json>)
    ensures match ReadSynthetic(lenient, m)
            case Err(x) =>
              exists k: nat :: FirstBadSynthetic(lenient, m, k) && x == MissingOrInvalid(SyntheticNames()[k])
            case Ok(e) => HoldsSynthetic(lenient, m, e)
  {
    hide Present, Value, TimeValue, PresentTime, RequireString, RequireTimestamp, Lit;
    var names := SyntheticNames();
    RequiredExactly(m, names[0]);
    RequiredExactly(m, names[1]);
    RequiredExactly(m, names[2]);
    RequiredExactly(m, names[3]);
    TimeExactly(lenient, m, names[4]);
    RequiredExactly(m, names[5]);
    if !GoodSynthetic(lenient, m, 0) { assert FirstBadSynthetic(lenient, m, 0); }
    else if !GoodSynthetic(lenient, m, 1) { assert FirstBadSynthetic(lenient, m, 1); }
    else if !GoodSynthetic(lenient, m, 2) { assert FirstBadSynthetic(lenient, m, 2); }
    else if !GoodSynthetic(lenient, m, 3) { assert FirstBadSynthetic(lenient, m, 3); }
    else if !GoodSynthetic(lenient, m, 4) { assert FirstBadSynthetic(lenient, m, 4); }
    else if !GoodSynthetic(lenient, m, 5) { assert FirstBadSynthetic(lenient, m, 5); }
  }

  /** The contract's constants decide an event whose fields could be read. */
  predicate DecidesSynthetic(cases: Cases, e: SyntheticEvent, r: Result<SyntheticEvent, EventError>) {
    if e.schemaVersion != Lit("vice-ceo-demo-event-v1") then r == Err(EventError.UnsupportedSchema)
    else if e.source != Lit("vice_ceo_demo_fixture") then r == Err(OnlyDemoSourceAllowed)
    else if e.eventType != Lit("support.requested") then r == Err(EventError.UnsupportedEventType)
    else if e.caseId !in cases then r == Err(UnknownCaseId)
    else r == Ok(e)
  }

  ghost predicate AnswersSynthetic(
    cases: Cases, lenient: Lenient, carried: Option<Json>, r: Result<SyntheticEvent, EventError>)
  {
    match carried
    case None => r == Err(EventError.MalformedEnvelope)
    case Some(value) =>
      if !value.JObject? then r == Err(EventError.PayloadMustBeObject)
      else if value.members.Keys != (set k | 0 <= k < 6 :: SyntheticNames()[k])
      then r == Err(EventError.UnrecognizedFields)
      else
        || (exists k: nat :: FirstBadSynthetic(lenient, value.members, k)
                             && r == Err(MissingOrInvalid(SyntheticNames()[k])))
        || (exists e :: HoldsSynthetic(lenient, value.members, e) && DecidesSynthetic(cases, e, r))
  }

  lemma SyntheticNameSet()
    ensures SyntheticFields() == (set k | 0 <= k < 6 :: SyntheticNames()[k])
  {
    hide Lit;
    var names := SyntheticNames();
    assert SyntheticFields() == {names[0], names[1], names[2], names[3], names[4], names[5]};
  }

  /**
   Any envelope is answered by the first check that fails: JSON, object, exactly the six fields, each
   field in order, then schema, source, type and case. HoldsSynthetic names at most one event, and an
   event is held only when no field is bad.
   */
  lemma SyntheticDecodesExactly(cases: Cases, lenient: Lenient, envelope: Envelope)
    ensures AnswersSynthetic(cases, lenient, CarriedJson(envelope), DecodeSynthetic(cases, lenient, envelope))
  {
    hide CarriedJson, ReadSynthetic, HoldsSynthetic, FirstBadSynthetic, SyntheticNames, Lit, SyntheticFields;
    SyntheticNameSet();
    match CarriedJson(envelope)
    case None =>
    case Some(value) => if value.JObject? { ReadsSynthetic(lenient, value.members); }
  }

  lemma HeldIsUnique(lenient: Lenient, m: map<Text, Json>, e: SyntheticEvent, k: nat)
    requires HoldsSynthetic(lenient, m, e)
    ensures !FirstBadSynthetic(lenient, m, k)
    ensures forall f :: HoldsSynthetic(lenient, m, f) ==> f == e
  {
    hide Present, Value, TimeValue, PresentTime, Lit;
    if k < 6 {
      assert k == 0 || k == 1 || k == 2 || k == 3 || k == 4 || k == 5;
    }
  }

  // ---------------------------------------------------------------- watch events

  datatype Shape = Shape(outer: map<Text, Json>, idField: Text, timeField: Text)

  /** The k-th check of a watch event passes; the third is the time's presence, the fourth its form. */
  predicate GoodWatch(lenient: Lenient, s: Shape, m: map<Text, Json>, k: nat) {
    if k == 0 then Present(s.outer, s.idField)
    else if k == 1 then Present(m, Lit("source_id"))
    else if k == 2 then Present(s.outer, s.timeField)
    else if k == 3 then PresentTime(lenient, s.outer, s.timeField)
    else if k == 4 then Present(m, Lit("event_type"))
    else if k == 5 then Present(m, Lit("source"))
    else Present(m, Lit("schema_version"))
  }

  /** The error of the k-th check. */
  function WatchFault(s: Shape, k: nat): WatchEventError {
    if k == 0 then FieldInvalid(s.idField)
    else if k == 1 then FieldInvalid(Lit("source_id"))
    else if k == 2 then FieldInvalid(s.timeField)
    else if k == 3 then WatchEventError.TimestampInvalid
    else if k == 4 then FieldInvalid(Lit("event_type"))
    else if k == 5 then FieldInvalid(Lit("source"))
    else FieldInvalid(Lit("schema_version"))
  }

  predicate HoldsWatch(lenient: Lenient, s: Shape, m: map<Text, Json>, e: WatchEvent) {
    && Present(s.outer, s.idField) && e.eventId == Value(s.outer, s.idField)
    && Present(m, Lit("source_id")) && e.sourceId == Value(m, Lit("source_id"))
    && PresentTime(lenient, s.outer, s.timeField) && e.scheduledFor == TimeValue(lenient, s.outer, s.timeField)
    && Present(m, Lit("event_type")) && e.eventType == Value(m, Lit("event_type"))
    && Present(m, Lit("source")) && e.source == Value(m, Lit("source"))
    && Present(m, Lit("schema_version")) && e.schemaVersion == Value(m, Lit("schema_version"))
  }

  predicate FirstBadWatch(lenient: Lenient, s: Shape, m: map<Text, Json>, k: nat) {
    k < 7 && !GoodWatch(lenient, s, m, k) && forall j | 0 <= j < k :: GoodWatch(lenient, s, m, j)
  }

  /** The first failing check decides the error; without one the event holds the fields. */
  ghost predicate AnswersShape(
    lenient: Lenient, s: Shape, m: map<Text, Json>, r: Result<WatchEvent, WatchEventError>)
  {
    match r
    case Err(x) => exists k: nat :: FirstBadWatch(lenient, s, m, k) && x == WatchFault(s, k)
    case Ok(e) => HoldsWatch(lenient, s, m, e)
  }

  lemma ReadsWatch(lenient: Lenient, s: Shape, m: map<Text, Json>)
    ensures AnswersShape(lenient, s, m, ReadWatch(lenient, s.outer, s.idField, s.timeField, m))
  {
    hide Present, Value, TimeValue, PresentTime, RequireString, RequireTimestamp, Lit, NormalizeTimestamp;
    RequiredExactly(s.outer, s.idField);
    RequiredExactly(m, Lit("source_id"));
    RequiredExactly(s.outer, s.timeField);
    TimeExactly(lenient, s.outer, s.timeField);
    NormalizedTime(lenient, s.outer, s.timeField);
    RequiredExactly(m, Lit("event_type"));
    RequiredExactly(m, Lit("source"));
    RequiredExactly(m, Lit("schema_version"));
    if !GoodWatch(lenient, s, m, 0) { assert FirstBadWatch(lenient, s, m, 0); }
    else if !GoodWatch(lenient, s, m, 1) { assert FirstBadWatch(lenient, s, m, 1); }
    else if !GoodWatch(lenient, s, m, 2) { assert FirstBadWatch(lenient, s, m, 2); }
    else if !GoodWatch(lenient, s, m, 3) { assert FirstBadWatch(lenient, s, m, 3); }
    else if !GoodWatch(lenient, s, m, 4) { assert FirstBadWatch(lenient, s, m, 4); }
    else if !GoodWatch(lenient, s, m, 5) { assert FirstBadWatch(lenient, s, m, 5); }
    else if !GoodWatch(lenient, s, m, 6) { assert FirstBadWatch(lenient, s, m, 6); }
  }

  lemma NormalizedTime(lenient: Lenient, m: map<Text, Json>, field: Text)
    ensures match RequireString(m, field)
            case Some(value) => NormalizeTimestamp(lenient, value) == RequireTimestamp(lenient, m, field)
            case None => RequireTimestamp(lenient, m, field) == None
    ensures PresentTime(lenient, m, field) ==> Present(m, field)
  {
    hide RequireString, NormalizeTimestamp, Parse, Present;
  }

  /** The four-field shape takes identity and time from the message, the six-field shape from the payload. */
  ghost predicate AnswersWatch(lenient: Lenient, envelope: Envelope, r: Result<WatchEvent, WatchEventError>) {
    match CarriedJson(envelope)
    case None => r == Err(WatchEventError.MalformedEnvelope)
    case Some(value) =>
      if !value.JObject? then r == Err(WatchEventError.PayloadMustBeObject)
      else if value.members.Keys == {Lit("source_id"), Lit("event_type"), Lit("source"), Lit("schema_version")}
      then envelope.Message? && AnswersShape(
             lenient, Shape(envelope.fields, Lit("messageId"), Lit("publishTime")), value.members, r)
      else if value.members.Keys == {Lit("event_id"), Lit("source_id"), Lit("scheduled_for"), Lit("event_type"),
                                     Lit("source"), Lit("schema_version")}
      then AnswersShape(lenient, Shape(value.members, Lit("event_id"), Lit("scheduled_for")), value.members, r)
      else r == Err(WatchEventError.UnrecognizedFields)
  }

  /** Any envelope is answered by its shape and the first check of that shape that fails. */
  lemma WatchDecodesExactly(lenient: Lenient, envelope: Envelope)
    ensures AnswersWatch(lenient, envelope, DecodeWatch(lenient, envelope))
  {
    hide CarriedJson, ReadWatch, AnswersShape, Lit;
    CarriedHasMessage(envelope);
    match CarriedJson(envelope)
    case None =>
    case Some(value) =>
      if value.JObject? {
        if envelope.Message? {
          ReadsWatch(lenient, Shape(envelope.fields, Lit("messageId"), Lit("publishTime")), value.members);
        }
        ReadsWatch(lenient, Shape(value.members, Lit("event_id"), Lit("scheduled_for")), value.members);
      }
  }

  lemma CarriedHasMessage(envelope: Envelope)
    ensures CarriedJson(envelope).Some? ==> envelope.Message?
  {
  }

  lemma HeldWatchIsUnique(lenient: Lenient, s: Shape, m: map<Text, Json>, e: WatchEvent, k: nat)
    requires HoldsWatch(lenient, s, m, e)
    ensures !FirstBadWatch(lenient, s, m, k)
    ensures forall f :: HoldsWatch(lenient, s, m, f) ==> f == e
  {
    hide Present, Value, TimeValue, PresentTime, Lit;
    NormalizedTime(lenient, s.outer, s.timeField);
  }
}
