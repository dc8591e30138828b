/** Send-once delivery of customer replies and approved outreach. */
module BusinessActions {
  import opened Wrappers
  import opened Texts

  datatype CustomerServiceCase = CustomerServiceCase(
    caseId: Text, customerEmail: Text, customerName: Text, intent: Text, inboundMessageId: Text, sourcePolicy: Text)

  datatype OutreachContact = OutreachContact(
    contactId: Text, email: Text, displayName: Text, consentRecordId: Text, unsubscribed: bool)

  /** A reply template around the customer's and the business's name. */
  datatype Template = Template(subject: Text, beforeName: Text, betweenNames: Text, afterBusiness: Text)

  datatype ActionKind = CustomerServiceReply | OutreachFollowUp

  datatype PreparedMessage = PreparedMessage(
    actionId: Text, kind: ActionKind, recipient: Text, subject: Text, text: Text, idempotencyKey: Text,
    sourceReference: Text)

  datatype ActionError =
    | RequiresHumanReview
    | SourceOrRecipientInvalid
    | CampaignNotApproved
    | ContactSuppressed
    | ConsentOrRecipientInvalid
    | ContentInvalid
    | KeyNotEncodable
    | AlreadyCompleted
    | DeliveryFailed

  predicate Blank(t: Text) { Strip(t) == [] }

  const AT: Symbol := Ch('@' as int)

  function KeySeed(actionId: Text, recipient: Text, subject: Text, sourceReference: Text): Text {
    actionId + [BAR] + recipient + [BAR] + subject + [BAR] + sourceReference
  }

  function ActionKey(seed: Text): Text { Lit("vice-ceo-") + Sha256Hex(seed) }

  /** `_message` */
  function Prepare(
    actionId: Text, kind: ActionKind, recipient: Text, subject: Text, text: Text, sourceReference: Text
  ): Result<PreparedMessage, ActionError> {
    var seed := KeySeed(actionId, recipient, subject, sourceReference);
    if !Encodable(seed) then Err(KeyNotEncodable)
    else Ok(PreparedMessage(actionId, kind, recipient, subject, text, ActionKey(seed), sourceReference))
  }

  function PrepareReply(
    library: map<Text, Template>, businessName: Text, c: CustomerServiceCase
  ): Result<PreparedMessage, ActionError> {
    if c.intent !in library then Err(RequiresHumanReview)
    else if Blank(c.inboundMessageId) || AT !in c.customerEmail then Err(SourceOrRecipientInvalid)
    else
      var t := library[c.intent];
      Prepare(Lit("customer_reply_") + c.caseId, CustomerServiceReply, c.customerEmail, t.subject,
                 t.beforeName + c.customerName + t.betweenNames + businessName + t.afterBusiness,
                 Lit("inbound_message:") + c.inboundMessageId + Lit("|policy:") + c.sourcePolicy)
  }

  function OutreachId(campaignId: Text, contactId: Text): Text {
    Lit("outreach_follow_up_") + campaignId + Lit("_") + contactId
  }

  function OutreachSource(campaignId: Text, campaignName: Text, consentRecordId: Text): Text {
    Lit("campaign:") + campaignId + Lit(":") + campaignName + Lit("|consent:") + consentRecordId
  }

  function PrepareOutreach(
    campaignId: Text, campaignName: Text, contact: OutreachContact, subject: Text, text: Text
  ): Result<PreparedMessage, ActionError> {
    if Blank(campaignId) || Blank(campaignName) then Err(CampaignNotApproved)
    else if contact.unsubscribed then Err(ContactSuppressed)
    else if Blank(contact.consentRecordId) || AT !in contact.email then Err(ConsentOrRecipientInvalid)
    else if Blank(subject) || Blank(text) then Err(ContentInvalid)
    else
      Prepare(OutreachId(campaignId, contact.contactId), OutreachFollowUp, contact.email, subject, text,
              OutreachSource(campaignId, campaignName, contact.consentRecordId))
  }

  // ---------------------------------------------------------------- what is accepted, and as which message

  /** The message's key hashes its four parts, or the parts cannot be encoded. */
  predicate KeyedOrRefused(r: Result<PreparedMessage, ActionError>, m: PreparedMessage) {
    var seed := Join([BAR], [m.actionId, m.recipient, m.subject, m.sourceReference]);
    if Encodable(seed) then r == Ok(m) && m.idempotencyKey == Lit("vice-ceo-") + Sha256Hex(seed)
    else r == Err(KeyNotEncodable)
  }

  lemma SeedIsJoin(actionId: Text, recipient: Text, subject: Text, source: Text)
    ensures KeySeed(actionId, recipient, subject, source) == Join([BAR], [actionId, recipient, subject, source])
  {
    var parts := [actionId, recipient, subject, source];
    assert parts[1..] == [recipient, subject, source] && parts[1..][1..] == [subject, source];
    assert [subject, source][1..] == [source] && Join([BAR], [source]) == source;
    assert Join([BAR], [subject, source]) == subject + [BAR] + source;
    assert Join([BAR], [recipient, subject, source]) == recipient + [BAR] + (subject + [BAR] + source);
  }

  lemma PrepareIsKeyed(
    actionId: Text, kind: ActionKind, recipient: Text, subject: Text, text: Text, source: Text
  ) returns (m: PreparedMessage)
    ensures KeyedOrRefused(Prepare(actionId, kind, recipient, subject, text, source), m)
    ensures m.actionId == actionId && m.kind == kind && m.recipient == recipient && m.subject == subject
    ensures m.text == text && m.sourceReference == source
  {
    hide Join, KeySeed, Lit, Encodable;
    SeedIsJoin(actionId, recipient, subject, source);
    m := PreparedMessage(actionId, kind, recipient, subject, text,
                         ActionKey(KeySeed(actionId, recipient, subject, source)), source);
  }

  predicate AddressInvalid(record: Text, address: Text) { IsBlank(record) || Ch('@' as int) !in address }

  /** The message an outreach request asks for. */
  predicate IsOutreach(
    m: PreparedMessage, campaignId: Text, campaignName: Text, contact: OutreachContact, subject: Text, text: Text)
  {
    && m.kind == OutreachFollowUp && m.recipient == contact.email && m.subject == subject && m.text == text
    && m.actionId == Lit("outreach_follow_up_") + campaignId + Lit("_") + contact.contactId
    && m.sourceReference
       == Lit("campaign:") + campaignId + Lit(":") + campaignName + Lit("|consent:") + contact.consentRecordId
  }

  /**
   An outreach request is refused for a blank campaign, an unsubscribed contact, a missing consent
   record or address, or blank content, in this order; otherwise it is the message it asks for.
   */
  lemma OutreachExactly(
    campaignId: Text, campaignName: Text, contact: OutreachContact, subject: Text, text: Text)
    ensures var r := PrepareOutreach(campaignId, campaignName, contact, subject, text);
            if IsBlank(campaignId) || IsBlank(campaignName) then r == Err(CampaignNotApproved)
            else if contact.unsubscribed then r == Err(ContactSuppressed)
            else if AddressInvalid(contact.consentRecordId, contact.email) then r == Err(ConsentOrRecipientInvalid)
            else if IsBlank(subject) || IsBlank(text) then r == Err(ContentInvalid)
            else exists m :: IsOutreach(m, campaignId, campaignName, contact, subject, text) && KeyedOrRefused(r, m)
  {
    hide IsBlank, Strip, Lit, Prepare, KeyedOrRefused;
    BlankIff(campaignId);
    BlankIff(campaignName);
    BlankIff(contact.consentRecordId);
    BlankIff(subject);
    BlankIff(text);
    var m := PrepareIsKeyed(OutreachId(campaignId, contact.contactId), OutreachFollowUp, contact.email, subject, text,
                            OutreachSource(campaignId, campaignName, contact.consentRecordId));
    assert IsOutreach(m, campaignId, campaignName, contact, subject, text);
  }

  /** The message a reply request asks for. */
  predicate IsReply(m: PreparedMessage, t: Template, businessName: Text, c: CustomerServiceCase) {
    && m.kind == CustomerServiceReply && m.recipient == c.customerEmail && m.subject == t.subject
    && m.text == t.beforeName + c.customerName + t.betweenNames + businessName + t.afterBusiness
    && m.actionId == Lit("customer_reply_") + c.caseId
    && m.sourceReference == Lit("inbound_message:") + c.inboundMessageId + Lit("|policy:") + c.sourcePolicy
  }

  /**
   A reply is refused for an intent without a template, then for a blank inbound message or a missing
   address; otherwise it is the template's message.
   */
  lemma ReplyExactly(library: map<Text, Template>, businessName: Text, c: CustomerServiceCase)
    ensures var r := PrepareReply(library, businessName, c);
            if c.intent !in library then r == Err(RequiresHumanReview)
            else if AddressInvalid(c.inboundMessageId, c.customerEmail) then r == Err(SourceOrRecipientInvalid)
            else exists m :: IsReply(m, library[c.intent], businessName, c) && KeyedOrRefused(r, m)
  {
    hide IsBlank, Strip, Lit, Prepare, KeyedOrRefused;
    BlankIff(c.inboundMessageId);
    if c.intent in library {
      var t := library[c.intent];
      var m := PrepareIsKeyed(Lit("customer_reply_") + c.caseId, CustomerServiceReply, c.customerEmail, t.subject,
                              t.beforeName + c.customerName + t.betweenNames + businessName + t.afterBusiness,
                              Lit("inbound_message:") + c.inboundMessageId + Lit("|policy:") + c.sourcePolicy);
      assert IsReply(m, t, businessName, c);
    }
  }

  type Messages = seq<PreparedMessage>

  predicate SentKey(sent: Messages, key: Text) {
    exists i :: 0 <= i < |sent| && sent[i].idempotencyKey == key
  }

  /**
   What the channel does when it is asked: it returns a receipt, raises before anything went out, or
   raises although the message went out (no usable receipt, or a failure after the request was sent).
   */
  datatype ChannelAnswer = Receipt | Unsent | SentThenRaised

  /** The messages that got a receipt, and all that went out, in order. */
  datatype Ledger = Ledger(receipted: Messages, reached: Messages)

  function NothingSent(): Ledger { Ledger([], []) }

  /** `_deliver_once` after these deliveries. */
  function Deliver(
    l: Ledger, message: PreparedMessage, answer: ChannelAnswer
  ): (Result<PreparedMessage, ActionError>, Ledger) {
    if SentKey(l.receipted, message.idempotencyKey) then (Err(AlreadyCompleted), l)
    else
      match answer
      case Unsent => (Err(DeliveryFailed), l)
      case SentThenRaised => (Err(DeliveryFailed), l.(reached := l.reached + [message]))
      case Receipt => (Ok(message), Ledger(l.receipted + [message], l.reached + [message]))
  }

  /** Deliver what was prepared, if anything was. */
  function Send(
    l: Ledger, prepared: Result<PreparedMessage, ActionError>, answer: ChannelAnswer
  ): (Result<PreparedMessage, ActionError>, Ledger) {
    match prepared
    case Err(x) => (Err(x), l)
    case Ok(message) => Deliver(l, message, answer)
  }

  class BusinessActionService {
    const library: map<Text, Template>
    const businessName: Text
    var completedKeys: set<Text>
    /** What its channel has sent. */
    ghost var ledger: Ledger

    ghost predicate Valid()
      reads this
    {
      completedKeys == (set i | 0 <= i < |ledger.receipted| :: ledger.receipted[i].idempotencyKey)
    }

    constructor (library: map<Text, Template>, businessName: Text)
      ensures Valid() && ledger == NothingSent() && this.library == library && this.businessName == businessName
    {
      this.library := library;
      this.businessName := businessName;
      this.completedKeys := {};
      this.ledger := NothingSent();
    }

    method DeliverOnce(
      message: PreparedMessage, answer: ChannelAnswer
    ) returns (r: Result<PreparedMessage, ActionError>)
      requires Valid()
      modifies this
      ensures Valid() && (r, ledger) == Deliver(old(ledger), message, answer)
    {
      if message.idempotencyKey in completedKeys { return Err(AlreadyCompleted); }
      ledger := Deliver(ledger, message, answer).1;
      if answer != Receipt { return Err(DeliveryFailed); }
      completedKeys := completedKeys + {message.idempotencyKey};
      assert ledger.receipted[|ledger.receipted| - 1] == message;
      assert forall i | 0 <= i < |old(ledger.receipted)| :: ledger.receipted[i] == old(ledger.receipted)[i];
      r := Ok(message);
    }

    method SendCustomerReply(
      c: CustomerServiceCase, answer: ChannelAnswer
    ) returns (r: Result<PreparedMessage, ActionError>)
      requires Valid()
      modifies this
      ensures Valid() && (r, ledger) == Send(old(ledger), PrepareReply(library, businessName, c), answer)
    {
      var prepared := PrepareReply(library, businessName, c);
      if prepared.Err? { return prepared; }
      r := DeliverOnce(prepared.value, answer);
    }

    method SendOutreachFollowUp(
      campaignId: Text, campaignName: Text, contact: OutreachContact, subject: Text, text: Text, answer: ChannelAnswer
    ) returns (r: Result<PreparedMessage, ActionError>)
      requires Valid()
      modifies this
      ensures Valid() && (r, ledger)
              == Send(old(ledger), PrepareOutreach(campaignId, campaignName, contact, subject, text), answer)
    {
      var prepared := PrepareOutreach(campaignId, campaignName, contact, subject, text);
      if prepared.Err? { return prepared; }
      r := DeliverOnce(prepared.value, answer);
    }
  }

  // ---------------------------------------------------------------- histories of one service

  datatype Asked = Asked(message: PreparedMessage, answer: ChannelAnswer)

  function After(history: seq<Asked>): Ledger {
    if history == [] then NothingSent()
    else
      var last := history[|history| - 1];
      Deliver(After(history[..|history| - 1]), last.message, last.answer).1
  }

  predicate ReceiptAt(history: seq<Asked>, i: nat, key: Text) {
    i < |history| && history[i].answer == Receipt && history[i].message.idempotencyKey == key
  }

  /** Some request with this key met a channel ready to give a receipt. */
  ghost predicate Completed(history: seq<Asked>, key: Text) {
    exists i: nat :: ReceiptAt(history, i, key)
  }

  /** A key has a receipt exactly when some request with it met a channel ready to give one. */
  lemma {:induction false} ReceiptIffReady(history: seq<Asked>, key: Text)
    ensures SentKey(After(history).receipted, key) <==> Completed(history, key)
  {
    if history != [] {
      var n := |history| - 1;
      var prior, last := history[..n], history[n];
      ReceiptIffReady(prior, key);
      ReceiptIffReady(prior, last.message.idempotencyKey);
      var before, after := After(prior).receipted, After(history).receipted;
      assert forall i: nat :: i < n ==> ReceiptAt(history, i, key) == ReceiptAt(prior, i, key);
      if Completed(prior, key) {
        var i: nat :| ReceiptAt(prior, i, key);
        assert ReceiptAt(history, i, key);
        var k :| 0 <= k < |before| && before[k].idempotencyKey == key;
        assert after[k] == before[k];
      } else if ReceiptAt(history, n, key) {
        assert after == before + [last.message];
        assert after[|before|] == last.message;
      }
    }
  }

  /** Request i went out: the service asked the channel, and the channel sent the message. */
  ghost predicate ReachedAt(history: seq<Asked>, i: nat)
    requires i < |history|
  {
    After(history[..i + 1]).reached == After(history[..i]).reached + [history[i].message]
  }

  /**
   The last request gets a receipt exactly when its channel is ready and its key has none yet, so no
   key ever has two receipts and a failure spends no key.
   */
  lemma DeliveredOncePerKey(history: seq<Asked>)
    requires history != []
    ensures var n := |history| - 1;
            var last := history[n];
            After(history).receipted == After(history[..n]).receipted +
              (if last.answer == Receipt && !Completed(history[..n], last.message.idempotencyKey) then [last.message]
               else [])
    ensures forall i, j | 0 <= i < j < |After(history).receipted| ::
              After(history).receipted[i].idempotencyKey != After(history).receipted[j].idempotencyKey
  {
    var n := |history| - 1;
    ReceiptIffReady(history[..n], history[n].message.idempotencyKey);
    ReceiptKeysDiffer(history);
  }

  /**
   The answer to the last request: its message when it gets the receipt, refused as completed when its
   key has one, and a delivery failure when the channel gives none.
   */
  lemma AnswersExactly(history: seq<Asked>)
    requires history != []
    ensures var n := |history| - 1;
            var last := history[n];
            var answer := Deliver(After(history[..n]), last.message, last.answer).0;
            var done := Completed(history[..n], last.message.idempotencyKey);
            && (answer == Err(AlreadyCompleted) <==> done)
            && (answer == Err(DeliveryFailed) <==> !done && last.answer != Receipt)
            && (answer == Ok(last.message) <==> !done && last.answer == Receipt)
  {
    ReceiptIffReady(history[..|history| - 1], history[|history| - 1].message.idempotencyKey);
  }

  lemma {:induction false} ReceiptKeysDiffer(history: seq<Asked>)
    ensures forall i, j | 0 <= i < j < |After(history).receipted| ::
              After(history).receipted[i].idempotencyKey != After(history).receipted[j].idempotencyKey
  {
    if history != [] { ReceiptKeysDiffer(history[..|history| - 1]); }
  }

  /** A request goes out exactly when the channel sends it and no earlier request with its key got a receipt. */
  lemma ReachedIff(history: seq<Asked>, i: nat)
    requires i < |history|
    ensures ReachedAt(history, i) <==>
              history[i].answer != Unsent && !Completed(history[..i], history[i].message.idempotencyKey)
  {
    assert history[..i + 1][..i] == history[..i] && history[..i + 1][i] == history[i];
    ReceiptIffReady(history[..i], history[i].message.idempotencyKey);
  }

  /**
   Two requests with one key both go out exactly when the channel raised after sending the first, and
   sends the second before any request with the key has got a receipt.
   */
  lemma SentTwiceIff(history: seq<Asked>, i: nat, j: nat)
    requires i < j < |history| && history[i].message.idempotencyKey == history[j].message.idempotencyKey
    ensures ReachedAt(history, i) && ReachedAt(history, j) <==>
              && history[i].answer == SentThenRaised && history[j].answer != Unsent
              && !Completed(history[..j], history[j].message.idempotencyKey)
  {
    hide ReachedAt, After;
    ReachedIff(history, i);
    ReachedIff(history, j);
    var key := history[j].message.idempotencyKey;
    if Completed(history[..i], key) {
      var k: nat :| ReceiptAt(history[..i], k, key);
      assert ReceiptAt(history[..j], k, key);
    }
    if history[i].answer == Receipt { assert ReceiptAt(history[..j], i, key); }
  }

  /** One accepted request, asked twice: the channel raises after sending it, and then sends it again. */
  lemma AcceptedRequestGoesOutTwice() returns (contact: OutreachContact, m: PreparedMessage)
    ensures PrepareOutreach(Lit("c"), Lit("c"), contact, Lit("s"), Lit("t")) == Ok(m)
    ensures var (first, once) := Send(NothingSent(), Ok(m), SentThenRaised);
            var (second, twice) := Send(once, Ok(m), Receipt);
            first == Err(DeliveryFailed) && second == Ok(m) && twice.reached == [m, m] && twice.receipted == [m]
  {
    hide KeySeed, ActionKey, Strip, OutreachId, OutreachSource;
    contact := OutreachContact(Lit("c"), [AT], Lit("c"), Lit("c"), false);
    StripFixed(Lit("c"));
    StripFixed(Lit("s"));
    StripFixed(Lit("t"));
    LitEncodable("s");
    OutreachSeedIsEncodable(contact.email, Lit("s"));
    m := PrepareOutreach(Lit("c"), Lit("c"), contact, Lit("s"), Lit("t")).value;
    assert [] + [m] == [m];
  }

  // ---------------------------------------------------------------- what a key identifies

  function SeedOf(m: PreparedMessage): Text { KeySeed(m.actionId, m.recipient, m.subject, m.sourceReference) }

  /** What a caller can ask the service for. */
  datatype Request =
    | Reply(c: CustomerServiceCase)
    | Outreach(campaignId: Text, campaignName: Text, contact: OutreachContact, subject: Text, text: Text)

  function PrepareRequest(
    library: map<Text, Template>, businessName: Text, r: Request
  ): Result<PreparedMessage, ActionError> {
    match r
    case Reply(c) => PrepareReply(library, businessName, c)
    case Outreach(id, name, contact, subject, text) => PrepareOutreach(id, name, contact, subject, text)
  }

  lemma PreparedHasOwnKey(library: map<Text, Template>, businessName: Text, r: Request)
    ensures match PrepareRequest(library, businessName, r)
            case Ok(m) => m.idempotencyKey == ActionKey(SeedOf(m))
            case Err(_) => true
  {
    hide Lit, Strip, KeySeed, ActionKey, Encodable;
  }

  predicate BarFree(m: PreparedMessage) {
    Without(BAR, m.actionId) && Without(BAR, m.recipient) && Without(BAR, m.subject)
  }

  /**
   The messages of two accepted requests, replies or outreach, share a key exactly when their
   "|"-joined parts are the same text; when action id, recipient and subject hold no "|", exactly when
   all four parts are the same.
   */
  lemma KeysEqualIff(
    library: map<Text, Template>, businessName: Text, q: Request, r: Request, m: PreparedMessage, n: PreparedMessage)
    requires PrepareRequest(library, businessName, q) == Ok(m) && PrepareRequest(library, businessName, r) == Ok(n)
    ensures m.idempotencyKey == n.idempotencyKey <==> SeedOf(m) == SeedOf(n)
    ensures BarFree(m) && BarFree(n) ==>
              (m.idempotencyKey == n.idempotencyKey <==>
                 && m.actionId == n.actionId && m.recipient == n.recipient
                 && m.subject == n.subject && m.sourceReference == n.sourceReference)
  {
    hide KeySeed, PrepareRequest;
    PreparedHasOwnKey(library, businessName, q);
    PreparedHasOwnKey(library, businessName, r);
    var k := |Lit("vice-ceo-")|;
    assert ActionKey(SeedOf(m))[k] == Hex(Sha256(SeedOf(m))) && ActionKey(SeedOf(n))[k] == Hex(Sha256(SeedOf(n)));
    if BarFree(m) && BarFree(n) && SeedOf(m) == SeedOf(n) { BarFreeParts(m, n); }
  }

  lemma BarFreeParts(m: PreparedMessage, n: PreparedMessage)
    requires BarFree(m) && BarFree(n) && SeedOf(m) == SeedOf(n)
    ensures m.actionId == n.actionId && m.recipient == n.recipient
    ensures m.subject == n.subject && m.sourceReference == n.sourceReference
  {
    SeedParts(m);
    SeedParts(n);
    var a, b := m.subject + [BAR] + m.sourceReference, n.subject + [BAR] + n.sourceReference;
    SplitAtFirst(BAR, m.actionId, m.recipient + [BAR] + a, n.actionId, n.recipient + [BAR] + b);
    SplitAtFirst(BAR, m.recipient, a, n.recipient, b);
    SplitAtFirst(BAR, m.subject, m.sourceReference, n.subject, n.sourceReference);
  }

  lemma SeedParts(m: PreparedMessage)
    ensures SeedOf(m) == m.actionId + [BAR] + (m.recipient + [BAR] + (m.subject + [BAR] + m.sourceReference))
  {
  }

  /**
   Two outreach requests of one campaign and contact that the service accepts, to different addresses
   with different subjects, share a key; once the first is delivered the second is never sent.
   */
  lemma AcceptedRequestsCollide() returns (
    campaign: Text, a: OutreachContact, b: OutreachContact, s: Text, t: Text, m: PreparedMessage, n: PreparedMessage)
    ensures PrepareOutreach(campaign, campaign, a, s, campaign) == Ok(m)
            && PrepareOutreach(campaign, campaign, b, t, campaign) == Ok(n)
    ensures m.recipient != n.recipient && m.subject != n.subject && m.idempotencyKey == n.idempotencyKey
    ensures var (first, sent) := Send(NothingSent(), Ok(m), Receipt);
            first == Ok(m) && Send(sent, Ok(n), Receipt) == (Err(AlreadyCompleted), sent)
  {
    hide KeySeed, ActionKey, Strip, OutreachId, OutreachSource;
    campaign := Lit("c");
    var at, x := [AT], [Ch('x' as int)];
    a := OutreachContact(campaign, at + [BAR] + x, campaign, campaign, false);
    b := OutreachContact(campaign, at, campaign, campaign, false);
    s, t := x, x + [BAR] + x;
    StripFixed(campaign);
    StripFixed(s);
    StripFixed(t);
    KeysShift(OutreachId(campaign, campaign), at, x, x, OutreachSource(campaign, campaign, campaign));
    OutreachSeedIsEncodable(a.email, s);
    OutreachSeedIsEncodable(b.email, t);
    m := PrepareOutreach(campaign, campaign, a, s, campaign).value;
    n := PrepareOutreach(campaign, campaign, b, t, campaign).value;
    SecondIsRefused(m, n);
  }

  lemma SecondIsRefused(m: PreparedMessage, n: PreparedMessage)
    requires m.idempotencyKey == n.idempotencyKey
    ensures var (first, sent) := Send(NothingSent(), Ok(m), Receipt);
            first == Ok(m) && Send(sent, Ok(n), Receipt) == (Err(AlreadyCompleted), sent)
  {
    assert [m][0].idempotencyKey == n.idempotencyKey;
    assert [] + [m] == [m];
  }

  lemma OutreachSeedIsEncodable(recipient: Text, subject: Text)
    requires Encodable(recipient) && Encodable(subject)
    ensures var c := Lit("c"); Encodable(KeySeed(OutreachId(c, c), recipient, subject, OutreachSource(c, c, c)))
  {
  }

  /** A "|" moved from recipient to subject keeps the key. */
  lemma KeysShift(actionId: Text, a: Text, b: Text, c: Text, source: Text)
    ensures KeySeed(actionId, a + [BAR] + b, c, source) == KeySeed(actionId, a, b + [BAR] + c, source)
  {
  }
}
