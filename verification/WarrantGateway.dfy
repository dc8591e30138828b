/**
 The Action Warrant gateway: issue a signed, short-lived, one-use warrant for the simulated
 ticket tool, re-check it at use time, consume it, and run the tool.

 Clock readings are arguments. `Issue`, `Precheck` and `Consume` are the functions the methods
 of the class are proved against; the lemmas are about any sequence of uses.
 */
module WarrantGateway {
  import opened Wrappers
  import opened Texts
  import opened Timestamps
  import opened Json
  import opened Fixtures
  import opened Events
  import opened ClaimStore

  const WARRANT_TTL_SECONDS: int := 300

  function SimulatedTicketCapability(): Text { Lit("simulated_ticket_transition") }
  function SimulatedTicketTool(): Text { Lit("prepare_simulated_ticket_transition") }
  function ToolContractVersion(): Text { Lit("vice-ceo-demo-tool-contract-v1") }
  function PolicyVersion(): Text { Lit("vice-ceo-demo-policy-v1") }
  function WarrantClaimKind(): Text { Lit("action_warrant") }

  // ---------------------------------------------------------------- policy and controls

  datatype Controls = Controls(globalKillSwitchEngaged: bool, disabledCapabilities: set<Text>) {
    predicate Allows(capability: Text) {
      !globalKillSwitchEngaged && capability !in disabledCapabilities
    }
  }

  datatype Verdict = Allow | Deny | Escalate

  datatype PolicyDecision = PolicyDecision(
    result: Verdict, reason: PolicyReason, proposedTool: Option<Text>, requiresActionWarrant: bool, policyVersion: Text)

  datatype PolicyReason = CaseEvidenceMissing | ReadAndSimulationOnly

  /** `evaluate_sprint_two_policy` */
  function EvaluatePolicy(cases: Cases, e: SyntheticEvent): PolicyDecision {
    if e.caseId !in cases then PolicyDecision(Escalate, CaseEvidenceMissing, None, true, PolicyVersion())
    else PolicyDecision(Allow, ReadAndSimulationOnly, Some(SimulatedTicketTool()), true, PolicyVersion())
  }

  // ---------------------------------------------------------------- warrants

  datatype ActionWarrant = ActionWarrant(
    warrantId: Text,
    eventId: Text,
    runId: Text,
    tenant: Text,
    toolName: Text,
    toolContractVersion: Text,
    policyVersion: Text,
    argumentsDigest: Text,
    idempotencyKey: Text,
    issuedAt: Text,
    expiresAt: Text,
    signature: Text)

  function WarrantMembers(w: ActionWarrant): seq<Member> {
    [Member(Lit("event_id"), w.eventId), Member(Lit("expires_at"), w.expiresAt),
     Member(Lit("idempotency_key"), w.idempotencyKey), Member(Lit("issued_at"), w.issuedAt),
     Member(Lit("normalized_arguments_sha256"), w.argumentsDigest), Member(Lit("policy_version"), w.policyVersion),
     Member(Lit("run_id"), w.runId), Member(Lit("tenant"), w.tenant),
     Member(Lit("tool_contract_version"), w.toolContractVersion), Member(Lit("tool_name"), w.toolName),
     Member(Lit("warrant_id"), w.warrantId)]
  }

  /** `unsigned_payload()` */
  function UnsignedPayload(w: ActionWarrant): Text { PrintObject(WarrantMembers(w)) }

  /** The payload lists its fields in key order. */
  lemma WarrantKeysAscend(w: ActionWarrant)
    ensures KeysAscend(WarrantMembers(w))
  {
    hide Less, Lit;
    LitsAscend("event_id", "expires_at", 1);
    InitialsAscend("expires_at", "idempotency_key");
    LitsAscend("idempotency_key", "issued_at", 1);
    InitialsAscend("issued_at", "normalized_arguments_sha256");
    InitialsAscend("normalized_arguments_sha256", "policy_version");
    InitialsAscend("policy_version", "run_id");
    InitialsAscend("run_id", "tenant");
    LitsAscend("tenant", "tool_contract_version", 1);
    LitsAscend("tool_contract_version", "tool_name", 5);
    InitialsAscend("tool_name", "warrant_id");
  }

  function Signature(signingKey: Text, w: ActionWarrant): Text { [Hex(Hmac(signingKey, UnsignedPayload(w)))] }

  function Sign(signingKey: Text, w: ActionWarrant): ActionWarrant { w.(signature := Signature(signingKey, w)) }

  predicate SignatureIsValid(signingKey: Text, w: ActionWarrant) { w.signature == Signature(signingKey, w) }

  /** Every field but the signature joins alike. */
  predicate SignedAlike(w: ActionWarrant, v: ActionWarrant) {
    && Joined(w.warrantId) == Joined(v.warrantId) && Joined(w.eventId) == Joined(v.eventId)
    && Joined(w.runId) == Joined(v.runId) && Joined(w.tenant) == Joined(v.tenant)
    && Joined(w.toolName) == Joined(v.toolName) && Joined(w.toolContractVersion) == Joined(v.toolContractVersion)
    && Joined(w.policyVersion) == Joined(v.policyVersion) && Joined(w.argumentsDigest) == Joined(v.argumentsDigest)
    && Joined(w.idempotencyKey) == Joined(v.idempotencyKey) && Joined(w.issuedAt) == Joined(v.issuedAt)
    && Joined(w.expiresAt) == Joined(v.expiresAt)
  }

  lemma SignedAlikeIff(w: ActionWarrant, v: ActionWarrant)
    ensures SignedAlike(w, v) <==>
            forall i | 0 <= i < 11 :: Joined(WarrantMembers(w)[i].value) == Joined(WarrantMembers(v)[i].value)
  {
    hide Joined, Lit;
    var a, b := WarrantMembers(w), WarrantMembers(v);
    if forall i | 0 <= i < 11 :: Joined(a[i].value) == Joined(b[i].value) {
      assert Joined(a[0].value) == Joined(b[0].value) && Joined(a[1].value) == Joined(b[1].value);
      assert Joined(a[2].value) == Joined(b[2].value) && Joined(a[3].value) == Joined(b[3].value);
      assert Joined(a[4].value) == Joined(b[4].value) && Joined(a[5].value) == Joined(b[5].value);
      assert Joined(a[6].value) == Joined(b[6].value) && Joined(a[7].value) == Joined(b[7].value);
      assert Joined(a[8].value) == Joined(b[8].value) && Joined(a[9].value) == Joined(b[9].value);
      assert Joined(a[10].value) == Joined(b[10].value);
    }
  }

  /**
   A signature made with one key for one warrant validates another under a key exactly when the keys
   are the same and every signed field joins alike.
   */
  lemma SignatureBindsFields(signingKey: Text, w: ActionWarrant, otherKey: Text, v: ActionWarrant)
    requires SignatureIsValid(signingKey, w)
    ensures SignatureIsValid(otherKey, v.(signature := w.signature)) <==>
            otherKey == signingKey && SignedAlike(w, v)
  {
    hide PrintObject, Joined;
    SignedAlikeIff(w, v);
    PrintObjectInjective(WarrantMembers(w), WarrantMembers(v));
    assert WarrantMembers(v.(signature := w.signature)) == WarrantMembers(v);
    assert w.signature[0] == Hex(Hmac(signingKey, UnsignedPayload(w)));
  }

  function ArgumentsDigest(caseId: Text, transition: Text): Text {
    Sha256Hex(PrintObject([Member(CaseIdField(), caseId), Member(Lit("transition"), transition)]))
  }

  lemma Sha256Injective(s: Text, t: Text)
    ensures Sha256Hex(s) == Sha256Hex(t) <==> s == t
  {
    assert Sha256Hex(s)[0] == Hex(Sha256(s)) && Sha256Hex(t)[0] == Hex(Sha256(t));
  }

  lemma PrintTwoInjective(k: Text, l: Text, c: Text, t: Text, d: Text, u: Text)
    ensures PrintObject([Member(k, c), Member(l, t)]) == PrintObject([Member(k, d), Member(l, u)]) <==>
            Joined(c) == Joined(d) && Joined(t) == Joined(u)
  {
    hide *;
    PrintPairInjective([Member(k, c), Member(l, t)], [Member(k, d), Member(l, u)]);
  }

  lemma PrintPairInjective(a: seq<Member>, b: seq<Member>)
    requires |a| == |b| == 2
    ensures PrintObject(a) == PrintObject(b) <==>
            Joined(a[0].key) == Joined(b[0].key) && Joined(a[0].value) == Joined(b[0].value)
            && Joined(a[1].key) == Joined(b[1].key) && Joined(a[1].value) == Joined(b[1].value)
  {
    hide *;
    PrintObjectInjective(a, b);
  }

  lemma ArgumentsDigestsEqualIff(c: Text, t: Text, d: Text, u: Text)
    ensures ArgumentsDigest(c, t) == ArgumentsDigest(d, u) <==> Joined(c) == Joined(d) && Joined(t) == Joined(u)
  {
    hide PrintObject, Joined, Lit, Sha256Hex;
    PrintTwoInjective(CaseIdField(), Lit("transition"), c, t, d, u);
    Sha256Injective(PrintObject([Member(CaseIdField(), c), Member(Lit("transition"), t)]),
                    PrintObject([Member(CaseIdField(), d), Member(Lit("transition"), u)]));
  }

  function WarrantId(idempotencyKey: Text, runId: Text, argumentsDigest: Text, now: Instant): Text {
    Lit("warrant_") + Sha256Hex(
      idempotencyKey + [BAR] + (runId + [BAR] + (argumentsDigest + [BAR] + (Body(now) + UtcOffset()))))
  }

  datatype Reason =
    | GlobalKillSwitchEngaged
    | CapabilityKillSwitchEngaged
    | PolicyDoesNotAuthorizeTool
    | CaseEvidenceUnavailable
    | TransitionNotAllowed
    | WarrantIssued
    | WrongTool
    | ToolContractVersionMismatch
    | PolicyVersionMismatch
    | InvalidSignature
    | WarrantExpired
    | ScopeMismatch
    | AlreadyConsumed
    | WarrantConsumed
    | WarrantedSimulationOnly

  datatype WarrantResult = WarrantResult(verdict: Verdict, reason: Reason, warrant: Option<ActionWarrant>)

  /** Exceptions that leave the gateway. */
  datatype GatewayError = ClockOverflow | SignatureNotAscii | TimestampUnreadable | ClaimRefused(error: ClaimError)

  type Outcome = Result<WarrantResult, GatewayError>

  function Refuse(verdict: Verdict, reason: Reason): Outcome { Ok(WarrantResult(verdict, reason, None)) }

  /** What a gateway is built with: its key, the case table, and how timestamps are read. */
  datatype Config = Config(signingKey: Text, cases: Cases, lenient: Lenient)

  /** `issue_simulated_ticket_warrant` */
  function Issue(
    config: Config, event: SyntheticEvent, runId: Text, decision: PolicyDecision,
    transition: Text, controls: Controls, now: Instant
  ): Outcome {
    if controls.globalKillSwitchEngaged then Refuse(Deny, GlobalKillSwitchEngaged)
    else if !controls.Allows(SimulatedTicketCapability()) then Refuse(Deny, CapabilityKillSwitchEngaged)
    else if !decision.result.Allow? || decision.proposedTool != Some(SimulatedTicketTool())
      || !decision.requiresActionWarrant || decision.policyVersion != PolicyVersion() then
      Refuse(Deny, PolicyDoesNotAuthorizeTool)
    else if event.caseId !in config.cases then Refuse(Escalate, CaseEvidenceUnavailable)
    else if transition !in config.cases[event.caseId].allowedTransitions then Refuse(Deny, Reason.TransitionNotAllowed)
    else if now + WARRANT_TTL_SECONDS * SECOND >= MAX_INSTANT then Err(ClockOverflow)
    else Ok(WarrantResult(Allow, WarrantIssued,
      Some(Sign(config.signingKey, Draft(config.cases, event, runId, decision.policyVersion, transition, now)))))
  }

  function Draft(
    cases: Cases, event: SyntheticEvent, runId: Text, policyVersion: Text, transition: Text, now: Instant
  ): ActionWarrant
    requires event.caseId in cases && now + WARRANT_TTL_SECONDS * SECOND < MAX_INSTANT
  {
    var digest := ArgumentsDigest(event.caseId, transition);
    ActionWarrant(
      WarrantId(SyntheticKey(event), runId, digest, now), event.eventId, runId, cases[event.caseId].tenant,
      SimulatedTicketTool(), ToolContractVersion(), policyVersion, digest, SyntheticKey(event),
      Format(now), Format(now + WARRANT_TTL_SECONDS * SECOND), [])
  }

  predicate ScopeMatches(cases: Cases, w: ActionWarrant, event: SyntheticEvent, runId: Text, transition: Text)
    requires event.caseId in cases
  {
    && w.eventId == event.eventId && w.runId == runId && w.tenant == cases[event.caseId].tenant
    && w.idempotencyKey == SyntheticKey(event) && w.argumentsDigest == ArgumentsDigest(event.caseId, transition)
  }

  predicate AsciiText(t: Text) { forall i | 0 <= i < |t| :: t[i].Ch? ==> t[i].code < 0x80 }

  /** One use of a warrant: what is presented, and the controls and clock at that moment. */
  datatype Use = Use(
    warrant: ActionWarrant, event: SyntheticEvent, runId: Text, transition: Text, controls: Controls, now: Instant)

  /** The checks of `validate_and_consume` that come before its claim. */
  function Precheck(config: Config, u: Use): Outcome {
    if u.controls.globalKillSwitchEngaged then Refuse(Deny, GlobalKillSwitchEngaged)
    else if !u.controls.Allows(SimulatedTicketCapability()) then Refuse(Deny, CapabilityKillSwitchEngaged)
    else if u.warrant.toolName != SimulatedTicketTool() then Refuse(Deny, WrongTool)
    else if u.warrant.toolContractVersion != ToolContractVersion() then Refuse(Deny, ToolContractVersionMismatch)
    else if u.warrant.policyVersion != PolicyVersion() then Refuse(Deny, PolicyVersionMismatch)
    else if !AsciiText(u.warrant.signature) then Err(SignatureNotAscii)
    else if !SignatureIsValid(config.signingKey, u.warrant) then Refuse(Deny, InvalidSignature)
    else
      match Parse(config.lenient, u.warrant.expiresAt)
      case None => Err(TimestampUnreadable)
      case Some(expiresAt) =>
        if expiresAt <= u.now then Refuse(Deny, WarrantExpired)
        else if u.event.caseId !in config.cases then Refuse(Escalate, CaseEvidenceUnavailable)
        else if !ScopeMatches(config.cases, u.warrant, u.event, u.runId, u.transition) then Refuse(Deny, ScopeMismatch)
        else Ok(WarrantResult(Allow, WarrantConsumed, Some(u.warrant)))
  }

  /** `validate_and_consume` */
  function Consume(config: Config, u: Use, records: Records): (Outcome, Records) {
    var checked := Precheck(config, u);
    if checked.Err? || !checked.value.verdict.Allow? then (checked, records)
    else
      match ScopedKey(u.warrant.tenant, WarrantClaimKind(), u.warrant.warrantId)
      case Err(e) => (Err(ClaimRefused(e)), records)
      case Ok(k) =>
        if Claim(records, k, u.warrant.warrantId).0.claimed
        then (checked, Claim(records, k, u.warrant.warrantId).1)
        else (Refuse(Deny, AlreadyConsumed), records)
  }

  datatype AttemptStatus = Refused(verdict: Verdict) | Tool(status: ToolStatus)

  datatype Attempt = Attempt(status: AttemptStatus, reason: Reason, warrantId: Option<Text>)

  /** `execute_warranted_simulation` */
  function Execute(
    config: Config, u: Use, records: Records
  ): (Result<Attempt, GatewayError>, Records) {
    var (outcome, after) := Consume(config, u, records);
    match outcome
    case Err(e) => (Err(e), after)
    case Ok(r) =>
      if !r.verdict.Allow? then (Ok(Attempt(Refused(r.verdict), r.reason, None)), after)
      else (Ok(Attempt(Tool(PrepareTransition(config.cases, u.event.caseId, u.transition)), WarrantedSimulationOnly,
        Some(u.warrant.warrantId))), after)
  }

  class ActionWarrantGateway {
    const config: Config
    const claims: InMemoryClaimStore

    constructor (config: Config)
      ensures this.config == config && fresh(claims) && claims.records == map[]
    {
      this.config := config;
      this.claims := new InMemoryClaimStore();
    }

    method IssueSimulatedTicketWarrant(
      event: SyntheticEvent, runId: Text, decision: PolicyDecision, transition: Text, controls: Controls, now: Instant
    ) returns (outcome: Outcome)
      ensures outcome == Issue(config, event, runId, decision, transition, controls, now)
    {
      outcome := Issue(config, event, runId, decision, transition, controls, now);
    }

    method ValidateAndConsume(u: Use) returns (outcome: Outcome)
      modifies claims
      ensures (outcome, claims.records) == Consume(config, u, old(claims.records))
    {
      outcome := Precheck(config, u);
      if outcome.Err? || !outcome.value.verdict.Allow? {
        return;
      }
      var answer := claims.ClaimOnce(u.warrant.tenant, WarrantClaimKind(), u.warrant.warrantId, u.warrant.warrantId);
      match answer
      case Err(e) => outcome := Err(ClaimRefused(e));
      case Ok(result) =>
        if !result.claimed { outcome := Refuse(Deny, AlreadyConsumed); }
    }

    method ExecuteWarrantedSimulation(u: Use) returns (attempt: Result<Attempt, GatewayError>)
      modifies claims
      ensures (attempt, claims.records) == Execute(config, u, old(claims.records))
    {
      var outcome := ValidateAndConsume(u);
      match outcome
      case Err(e) => attempt := Err(e);
      case Ok(r) =>
        if !r.verdict.Allow? { return Ok(Attempt(Refused(r.verdict), r.reason, None)); }
        var status := PrepareTransition(config.cases, u.event.caseId, u.transition);
        attempt := Ok(Attempt(Tool(status), WarrantedSimulationOnly, Some(u.warrant.warrantId)));
    }
  }

  // ---------------------------------------------------------------- expiry

  /** What the gateway answers to an otherwise faultless use of a warrant it issued. */
  predicate UsedAsIssued(
    config: Config, event: SyntheticEvent, runId: Text, decision: PolicyDecision,
    transition: Text, controls: Controls, issuedAt: Instant, u: Use)
  {
    var issued := Issue(config, event, runId, decision, transition, controls, issuedAt);
    && issued.Ok? && issued.value.warrant == Some(u.warrant)
    && u.event == event && u.runId == runId && u.transition == transition
    && u.controls.Allows(SimulatedTicketCapability())
  }

  /** An issued warrant passes every check before the claim exactly while now < issue time + 300 s. */
  lemma ExpiryIsExact(
    config: Config, event: SyntheticEvent, runId: Text, decision: PolicyDecision,
    transition: Text, controls: Controls, issuedAt: Instant, u: Use)
    requires UsedAsIssued(config, event, runId, decision, transition, controls, issuedAt, u)
    ensures Precheck(config, u) ==
            if u.now < issuedAt + WARRANT_TTL_SECONDS * SECOND
            then Ok(WarrantResult(Allow, WarrantConsumed, Some(u.warrant)))
            else Refuse(Deny, WarrantExpired)
  {
    hide Format, Parse, UnsignedPayload, ArgumentsDigest, WarrantId, SyntheticKey;
    hide SimulatedTicketCapability, SimulatedTicketTool, ToolContractVersion, PolicyVersion;
    ParseFormat(config.lenient, issuedAt + WARRANT_TTL_SECONDS * SECOND);
    SigningIgnoresSignature(
      config.signingKey, Draft(config.cases, event, runId, decision.policyVersion, transition, issuedAt));
  }

  lemma SigningIgnoresSignature(signingKey: Text, w: ActionWarrant)
    ensures SignatureIsValid(signingKey, Sign(signingKey, w)) && AsciiText(Sign(signingKey, w).signature)
  {
    hide PrintObject;
    assert WarrantMembers(Sign(signingKey, w)) == WarrantMembers(w);
  }

  // ---------------------------------------------------------------- any sequence of uses

  function RecordsAfter(config: Config, uses: seq<Use>): Records {
    if uses == [] then map[]
    else Consume(config, uses[|uses| - 1],
                 RecordsAfter(config, uses[..|uses| - 1])).1
  }

  function OutcomeAt(config: Config, uses: seq<Use>, i: nat): Outcome
    requires i < |uses|
  {
    Consume(config, uses[i], RecordsAfter(config, uses[..i])).0
  }

  predicate ConsumedAt(config: Config, uses: seq<Use>, i: nat)
    requires i < |uses|
  {
    var outcome := OutcomeAt(config, uses, i);
    outcome.Ok? && outcome.value.verdict.Allow?
  }

  /** Everything a consumption proves about the moment it happened. */
  predicate Authorized(config: Config, u: Use) {
    && !u.controls.globalKillSwitchEngaged && SimulatedTicketCapability() !in u.controls.disabledCapabilities
    && SignatureIsValid(config.signingKey, u.warrant)
    && u.event.caseId in config.cases && ScopeMatches(config.cases, u.warrant, u.event, u.runId, u.transition)
    && Parse(config.lenient, u.warrant.expiresAt).Some? && u.now < Parse(config.lenient, u.warrant.expiresAt).value
  }

  function UseKey(u: Use): Result<ClaimKey, ClaimError> {
    ScopedKey(u.warrant.tenant, WarrantClaimKind(), u.warrant.warrantId)
  }

  /** One use: it consumes, or it leaves the claim map as it was. */
  lemma ConsumeStep(config: Config, u: Use, records: Records)
    ensures var (outcome, after) := Consume(config, u, records);
            if outcome.Ok? && outcome.value.verdict.Allow?
            then && Authorized(config, u)
                 && UseKey(u).Ok? && UseKey(u).value !in records
                 && after == records[UseKey(u).value := u.warrant.warrantId]
            else after == records
  {
    hide Parse, SyntheticKey, ArgumentsDigest, UnsignedPayload, Strip;
  }

  /** The uses that consumed, as a set of positions. */
  function Consumptions(config: Config, uses: seq<Use>): set<nat> {
    set i: nat | i < |uses| && ConsumedAt(config, uses, i)
  }

  lemma ConsumptionsUnroll(config: Config, uses: seq<Use>)
    requires uses != []
    ensures var n, prior := |uses| - 1, uses[..|uses| - 1];
            var before := RecordsAfter(config, prior);
            && n !in Consumptions(config, prior)
            && if ConsumedAt(config, uses, n)
               then && Consumptions(config, uses) == Consumptions(config, prior) + {n}
                    && Authorized(config, uses[n]) && UseKey(uses[n]).Ok? && UseKey(uses[n]).value !in before
                    && RecordsAfter(config, uses) == before[UseKey(uses[n]).value := uses[n].warrant.warrantId]
               else Consumptions(config, uses) == Consumptions(config, prior) && RecordsAfter(config, uses) == before
  {
    hide Consume, Authorized, UseKey;
    var n := |uses| - 1;
    var prior := uses[..n];
    ConsumeStep(config, uses[n], RecordsAfter(config, prior));
    forall i: nat | i < n ensures ConsumedAt(config, uses, i) == ConsumedAt(config, prior, i) {
      assert uses[..i] == prior[..i];
    }
  }

  /**
   Over any sequence of uses, the claim map and the consumptions correspond one to one: every entry
   comes from an authorized use, no warrant is consumed twice, and a denied use left no trace.
   */
  lemma {:induction false} ClaimsAreConsumptions(config: Config, uses: seq<Use>)
    ensures |RecordsAfter(config, uses)| == |Consumptions(config, uses)|
    ensures forall i | i in Consumptions(config, uses) ::
              && i < |uses| && Authorized(config, uses[i])
              && UseKey(uses[i]).Ok? && UseKey(uses[i]).value in RecordsAfter(config, uses)
    ensures forall i, j | i in Consumptions(config, uses) && j in Consumptions(config, uses) && i != j ::
              UseKey(uses[i]) != UseKey(uses[j])
  {
    hide Authorized, UseKey, ConsumedAt, Consume;
    if uses != [] {
      var n := |uses| - 1;
      ClaimsAreConsumptions(config, uses[..n]);
      ConsumptionsUnroll(config, uses);
    } else {
      assert Consumptions(config, uses) == {};
    }
  }

  // ---------------------------------------------------------------- issue, then execute

  /** Everything an issue is asked with. */
  datatype Issuance = Issuance(
    event: SyntheticEvent, runId: Text, decision: PolicyDecision, transition: Text, controls: Controls,
    issuedAt: Instant)

  predicate IssuedFor(config: Config, i: Issuance, w: ActionWarrant) {
    var issued := Issue(config, i.event, i.runId, i.decision, i.transition, i.controls, i.issuedAt);
    issued.Ok? && issued.value.warrant == Some(w)
  }

  predicate Consumes(config: Config, u: Use, records: Records) {
    var outcome := Consume(config, u, records).0;
    outcome.Ok? && outcome.value.verdict.Allow?
  }

  predicate RunsSimulated(config: Config, u: Use, records: Records) {
    Execute(config, u, records).0 == Ok(Attempt(Tool(Simulated), WarrantedSimulationOnly, Some(u.warrant.warrantId)))
  }

  /** A case and a transition are presented under these spellings by what the scope check lets through. */
  predicate SameSpelling(cases: Cases, c: Text, t: Text, d: Text, s: Text)
    requires c in cases && d in cases
  {
    && Joined(c) == Joined(d) && Joined(t) == Joined(s)
    && cases[c].tenant == cases[d].tenant && Strip(cases[c].tenant) != []
  }

  /**
   Whoever consumes an issued warrant presents its case and transition, up to spelling; and the tool
   then runs as "simulated" exactly when the presented spelling of the transition is listed.
   */
  lemma ConsumedRunsIff(config: Config, i: Issuance, u: Use, records: Records)
    requires IssuedFor(config, i, u.warrant) && Consumes(config, u, records)
    ensures var c, d := i.event.caseId, u.event.caseId;
            && c in config.cases && d in config.cases && i.transition in config.cases[c].allowedTransitions
            && SameSpelling(config.cases, c, i.transition, d, u.transition)
            && (RunsSimulated(config, u, records) <==> u.transition in config.cases[d].allowedTransitions)
  {
    hide Parse, Format, SyntheticKey, UnsignedPayload, Strip, ArgumentsDigest, WarrantId, Joined, SignatureIsValid,
         Precheck;
    ConsumeStep(config, u, records);
    ArgumentsDigestsEqualIff(i.event.caseId, i.transition, u.event.caseId, u.transition);
  }

  /**
   With a table of basic texts, such as the shipped one, every consumption of an issued warrant runs
   as "simulated" for the case and transition it was issued for, whatever was presented.
   */
  lemma IssuedExecutesSimulated(config: Config, i: Issuance, u: Use, records: Records)
    requires BasicTable(config.cases) && IssuedFor(config, i, u.warrant) && Consumes(config, u, records)
    ensures RunsSimulated(config, u, records)
    ensures u.event.caseId == i.event.caseId && u.transition == i.transition
  {
    hide Consumes, IssuedFor, RunsSimulated, Joined, Strip, Basic;
    ConsumedRunsIff(config, i, u, records);
    BasicHasOneSpelling(i.event.caseId, u.event.caseId);
    var listed := config.cases[i.event.caseId].allowedTransitions;
    var k :| 0 <= k < |listed| && listed[k] == i.transition;
    BasicHasOneSpelling(listed[k], u.transition);
  }
}
