/** The Pub/Sub-shaped wrapper both event kinds travel in: canonical JSON, UTF-8, base64. */
module Envelopes {
  import opened Wrappers
  import opened Texts
  import opened Json
  import opened Encoding

  /** `envelope["message"]`; every other shape of envelope raises KeyError or TypeError. */
  datatype Envelope = NoMessage | Message(fields: map<Text, Json>)

  function DataField(): Text { Lit("data") }

  function MessageIdField(): Text { Lit("messageId") }

  /** The JSON value an envelope carries; None is the malformed-envelope error. */
  function CarriedJson(e: Envelope): Option<Json> {
    if e.NoMessage? || DataField() !in e.fields || !e.fields[DataField()].JString? then None
    else
      match DecodeBase64(e.fields[DataField()].text)
      case None => None
      case Some(bytes) =>
        match DecodeUtf8(bytes)
        case None => None
        case Some(text) => Loads(text)
  }

  function Wrap(messageId: Text, ms: seq<Member>): Envelope
    requires PlainMembers(ms)
  {
    PrintObjectIsAscii(ms);
    Message(map[MessageIdField() := JString(messageId),
                DataField() := JString(EncodeBase64(AsciiBytes(PrintObject(ms))))])
  }

  predicate PlainMembers(ms: seq<Member>) {
    forall k | 0 <= k < |ms| :: Plain(ms[k].key) && Plain(ms[k].value)
  }

  lemma PrintObjectIsAscii(ms: seq<Member>)
    requires PlainMembers(ms)
    ensures Ascii(PrintObject(ms))
  {
    hide PrintMembers;
    PrintMembersIsAscii(ms);
  }

  predicate DistinctKeys(ms: seq<Member>) {
    && (forall i | 0 <= i < |ms| :: NoSplitPair(ms[i].key))
    && (forall i, j | 0 <= i < j < |ms| :: ms[i].key != ms[j].key)
  }

  function KeysOf(ms: seq<Member>): set<Text> {
    set i | 0 <= i < |ms| :: ms[i].key
  }

  lemma {:induction false} CollectReads(ms: seq<Member>, found: map<Text, Json>)
    requires DistinctKeys(ms)
    requires forall i | 0 <= i < |ms| :: ms[i].key !in found
    ensures Collect(ms, found).Keys == found.Keys + KeysOf(ms)
    ensures forall i | 0 <= i < |ms| ::
              ms[i].key in Collect(ms, found) && Collect(ms, found)[ms[i].key] == JString(Joined(ms[i].value))
    ensures forall k | k in found :: k in Collect(ms, found) && Collect(ms, found)[k] == found[k]
  {
    hide Joined, NoSplitPair;
    if ms != [] {
      JoinedFixes(ms[0].key);
      var tail := ms[1..];
      var next := found[ms[0].key := JString(Joined(ms[0].value))];
      assert forall i | 0 <= i < |tail| :: tail[i] == ms[i + 1];
      CollectReads(tail, next);
      assert KeysOf(ms) == {ms[0].key} + KeysOf(tail) by {
        forall k | k in KeysOf(ms) ensures k in {ms[0].key} + KeysOf(tail) {
          var i :| 0 <= i < |ms| && ms[i].key == k;
          if i > 0 { assert tail[i - 1].key == k; }
        }
        forall k | k in KeysOf(tail) ensures k in KeysOf(ms) {
          var i :| 0 <= i < |tail| && tail[i].key == k;
          assert ms[i + 1].key == k;
        }
      }
      assert forall i | 0 < i < |ms| :: ms[i] == tail[i - 1];
    }
  }

  /** What is read back from a wrapped object: the same keys, every value with its split pairs joined. */
  lemma WrapCarries(messageId: Text, ms: seq<Member>)
    requires ms != [] && PlainMembers(ms) && DistinctKeys(ms)
    ensures var read := CarriedJson(Wrap(messageId, ms));
            && read.Some? && read.value.JObject?
            && read.value.members.Keys == KeysOf(ms)
            && forall i | 0 <= i < |ms| ::
                 ms[i].key in read.value.members && read.value.members[ms[i].key] == JString(Joined(ms[i].value))
  {
    hide PrintObject, AsciiBytes, EncodeBase64, DecodeBase64, DecodeUtf8, Loads, Collect, Joined, NoSplitPair;
    PrintObjectIsAscii(ms);
    Base64RoundTrip(AsciiBytes(PrintObject(ms)));
    AsciiRoundTrip(PrintObject(ms));
    LoadsPrintObject(ms);
    CollectReads(ms, map[]);
  }

  /** What is carried depends only on the printed object, not on the message id. */
  lemma SamePrintCarriesSame(a: Text, ms: seq<Member>, b: Text, ns: seq<Member>)
    requires PlainMembers(ms) && PlainMembers(ns) && PrintObject(ms) == PrintObject(ns)
    ensures CarriedJson(Wrap(a, ms)) == CarriedJson(Wrap(b, ns))
  {
    hide PrintObject, AsciiBytes, EncodeBase64, DecodeBase64, DecodeUtf8, Loads, PlainMembers;
    assert |DataField()| == 4 && |MessageIdField()| == 9;
  }

  /** Strings that arrive inside an envelope are characters without split surrogate pairs. */
  lemma CarriedIsReadable(e: Envelope)
    ensures CarriedJson(e).Some? ==> ReadableStrings(CarriedJson(e).value)
  {
    hide DecodeBase64, DecodeUtf8, Loads, ReadableStrings;
    if CarriedJson(e).Some? {
      LoadsIsReadable(DecodeUtf8(DecodeBase64(e.fields[DataField()].text).value).value);
    }
  }

  // ---------------------------------------------------------------- required string fields

  /** A present, non-blank string field, stripped. */
  function RequireString(fields: map<Text, Json>, name: Text): Option<Text> {
    if name in fields && fields[name].JString? && Strip(fields[name].text) != [] then Some(Strip(fields[name].text))
      else None
  }

  predicate Sound(t: Text) {
    t != [] && Trimmed(t)
  }

  /** A field survives printing and required reading exactly when it is sound and has no split pair. */
  lemma FieldSurvivesIff(t: Text)
    ensures Strip(Joined(t)) == t && t != [] <==> Sound(t) && NoSplitPair(t)
  {
    hide Strip, Joined, NoSplitPair;
    JoinedFixes(t);
    StripFixed(t);
    StripFixed(Joined(t));
    if Strip(Joined(t)) == t {
      StripTwice(Joined(t));
      var i := StripIsSlice(Joined(t));
      assert |Joined(t)| == |t|;
      assert Strip(Joined(t)) == Joined(t);
    }
  }

  /** A required field of readable strings is sound and readable. */
  lemma RequiredIsReadable(fields: map<Text, Json>, name: Text)
    requires ReadableStrings(JObject(fields))
    ensures match RequireString(fields, name)
            case Some(t) => Sound(t) && Readable(t)
            case None => true
  {
    hide Strip;
    if RequireString(fields, name).Some? {
      var t := fields[name].text;
      var i := StripIsSlice(t);
      StripTwice(t);
      StripFixed(Strip(t));
      assert forall k | 0 <= k < |Strip(t)| :: Strip(t)[k] == t[i + k];
    }
  }
}
