/**
 What the warrant gateway and the support loop answer, with every verdict, reason, text and field
 written out: which check decides an issue, a use or a call of the loop, over any run.
 */
module GatewayAnswers {
  import opened Wrappers
  import opened Texts
  import opened Timestamps
  import opened Json
  import opened Fixtures
  import opened Events
  import opened ClaimStore
  import opened WarrantGateway
  import opened SupportLoop

  predicate GlobalOff(controls: Controls) { controls.globalKillSwitchEngaged }

  predicate ToolOff(controls: Controls) { Lit("simulated_ticket_transition") in controls.disabledCapabilities }

  predicate SwitchesOn(controls: Controls) { !GlobalOff(controls) && !ToolOff(controls) }

  predicate Authorizes(d: PolicyDecision) {
    && d.result == Allow && d.proposedTool == Some(Lit("prepare_simulated_ticket_transition"))
    && d.requiresActionWarrant && d.policyVersion == Lit("vice-ceo-demo-policy-v1")
  }

  predicate Listed(cases: Cases, caseId: Text, transition: Text) {
    caseId in cases && transition in cases[caseId].allowedTransitions
  }

  lemma GatewayConstants()
    ensures SimulatedTicketCapability() == Lit("simulated_ticket_transition")
    ensures SimulatedTicketTool() == Lit("prepare_simulated_ticket_transition")
    ensures ToolContractVersion() == Lit("vice-ceo-demo-tool-contract-v1")
    ensures PolicyVersion() == Lit("vice-ceo-demo-policy-v1") && WarrantClaimKind() == Lit("action_warrant")
    ensures EventClaimKind() == Lit("synthetic_event")
  {
    hide Lit;
  }

  // ---------------------------------------------------------------- issuing

  predicate Refuses(outcome: WarrantGateway.Outcome, verdict: Verdict, reason: Reason) {
    outcome == Ok(WarrantResult(verdict, reason, None))
  }

  /** The refusals of an issue, each exactly when its condition is the first that holds. */
  predicate IssueInOrder(config: Config, i: Issuance, outcome: WarrantGateway.Outcome) {
    && (Refuses(outcome, Deny, GlobalKillSwitchEngaged) <==> GlobalOff(i.controls))
    && (Refuses(outcome, Deny, CapabilityKillSwitchEngaged) <==> !GlobalOff(i.controls) && ToolOff(i.controls))
    && (Refuses(outcome, Deny, PolicyDoesNotAuthorizeTool) <==> SwitchesOn(i.controls) && !Authorizes(i.decision))
    && (Refuses(outcome, Escalate, CaseEvidenceUnavailable) <==>
          SwitchesOn(i.controls) && Authorizes(i.decision) && i.event.caseId !in config.cases)
    && (Refuses(outcome, Deny, Reason.TransitionNotAllowed) <==>
          SwitchesOn(i.controls) && Authorizes(i.decision) && i.event.caseId in config.cases
          && !Listed(config.cases, i.event.caseId, i.transition))
    && (outcome == Err(ClockOverflow) <==>
          SwitchesOn(i.controls) && Authorizes(i.decision) && Listed(config.cases, i.event.caseId, i.transition)
          && i.issuedAt + 300_000_000 >= MAX_INSTANT)
  }

  predicate Issues(config: Config, i: Issuance) {
    SwitchesOn(i.controls) && Authorizes(i.decision) && Listed(config.cases, i.event.caseId, i.transition)
    && i.issuedAt + 300_000_000 < MAX_INSTANT
  }

  function ArgumentsText(caseId: Text, transition: Text): Text {
    PrintObject([Member(Lit("case_id"), caseId), Member(Lit("transition"), transition)])
  }

  /** The eleven signed fields by name. */
  function SignedText(w: ActionWarrant): Text {
    PrintObject([
      Member(Lit("event_id"), w.eventId), Member(Lit("expires_at"), w.expiresAt),
      Member(Lit("idempotency_key"), w.idempotencyKey), Member(Lit("issued_at"), w.issuedAt),
      Member(Lit("normalized_arguments_sha256"), w.argumentsDigest), Member(Lit("policy_version"), w.policyVersion),
      Member(Lit("run_id"), w.runId), Member(Lit("tenant"), w.tenant),
      Member(Lit("tool_contract_version"), w.toolContractVersion), Member(Lit("tool_name"), w.toolName),
      Member(Lit("warrant_id"), w.warrantId)])
  }

  /** The issued warrant's fields. */
  predicate IsWarrant(i: Issuance, tenant: Text, expiry: Instant, w: ActionWarrant) {
    && w.eventId == i.event.eventId && w.runId == i.runId && w.tenant == tenant
    && w.toolName == Lit("prepare_simulated_ticket_transition")
    && w.toolContractVersion == Lit("vice-ceo-demo-tool-contract-v1")
    && w.policyVersion == Lit("vice-ceo-demo-policy-v1")
    && w.argumentsDigest == Sha256Hex(ArgumentsText(i.event.caseId, i.transition))
    && w.idempotencyKey == SyntheticKey(i.event)
    && w.issuedAt == Format(i.issuedAt) && w.expiresAt == Format(expiry)
  }

  /** The issued warrant's id and signature. */
  predicate IsSealed(signingKey: Text, issuedAt: Instant, w: ActionWarrant) {
    && w.signature == [Hex(Hmac(signingKey, SignedText(w)))]
    && w.warrantId == Lit("warrant_") + Sha256Hex(
         Join([BAR], [w.idempotencyKey, w.runId, w.argumentsDigest, Body(issuedAt) + Lit("+00:00")]))
  }

  predicate IsIssued(config: Config, i: Issuance, w: ActionWarrant) {
    && Issues(config, i) && IsWarrant(i, config.cases[i.event.caseId].tenant, i.issuedAt + 300_000_000, w)
    && IsSealed(config.signingKey, i.issuedAt, w)
  }

  lemma JoinFour(a: Text, b: Text, c: Text, d: Text)
    ensures Join([BAR], [a, b, c, d]) == a + [BAR] + (b + [BAR] + (c + [BAR] + d))
  {
    assert [a, b, c, d][1..] == [b, c, d] && [b, c, d][1..] == [c, d] && [c, d][1..] == [d];
    assert Join([BAR], [d]) == d && Join([BAR], [c, d]) == c + [BAR] + d;
    assert Join([BAR], [b, c, d]) == b + [BAR] + (c + [BAR] + d);
  }

  function IssueOf(config: Config, i: Issuance): WarrantGateway.Outcome {
    Issue(config, i.event, i.runId, i.decision, i.transition, i.controls, i.issuedAt)
  }

  lemma DraftIsWarrant(config: Config, i: Issuance, w: ActionWarrant)
    requires Issues(config, i)
    requires w == Sign(config.signingKey,
                       Draft(config.cases, i.event, i.runId, i.decision.policyVersion, i.transition, i.issuedAt))
    ensures IsIssued(config, i, w)
  {
    hide Format, SyntheticKey, PrintObject, Join, Body, Sha256Hex, Lit;
    JoinFour(w.idempotencyKey, w.runId, w.argumentsDigest, Body(i.issuedAt) + Lit("+00:00"));
    GatewayConstants();
  }

  /**
   An issue is refused exactly when one of the conditions holds, the first deciding verdict and reason;
   otherwise it gives the warrant whose fields, id and signature are written out here.
   */
  lemma IssueExactly(config: Config, i: Issuance)
    ensures IssueInOrder(config, i, IssueOf(config, i))
    ensures match IssueOf(config, i)
            case Ok(r) => r.verdict == Allow ==>
              r.reason == WarrantIssued && r.warrant.Some? && IsIssued(config, i, r.warrant.value)
            case Err(_) => true
    ensures Issues(config, i) ==> IssueOf(config, i).Ok? && IssueOf(config, i).value.verdict == Allow
  {
    hide Lit, IsIssued, Sign, Draft;
    GatewayConstants();
    if Issues(config, i) {
      DraftIsWarrant(config, i, Sign(config.signingKey,
        Draft(config.cases, i.event, i.runId, i.decision.policyVersion, i.transition, i.issuedAt)));
    }
  }

  // ---------------------------------------------------------------- using a warrant

  predicate NamesTool(w: ActionWarrant) { w.toolName == Lit("prepare_simulated_ticket_transition") }

  predicate NamesContract(w: ActionWarrant) { w.toolContractVersion == Lit("vice-ceo-demo-tool-contract-v1") }

  predicate NamesPolicy(w: ActionWarrant) { w.policyVersion == Lit("vice-ceo-demo-policy-v1") }

  predicate Versioned(u: Use) {
    SwitchesOn(u.controls) && NamesTool(u.warrant) && NamesContract(u.warrant) && NamesPolicy(u.warrant)
  }

  predicate PlainSignature(w: ActionWarrant) { AsciiText(w.signature) }

  predicate Genuine(config: Config, w: ActionWarrant) { w.signature == [Hex(Hmac(config.signingKey, SignedText(w)))] }

  predicate Sealed(config: Config, u: Use) {
    Versioned(u) && PlainSignature(u.warrant) && Genuine(config, u.warrant)
  }

  predicate Dated(config: Config, w: ActionWarrant) { Parse(config.lenient, w.expiresAt).Some? }

  /** The warrant has not expired at the time of use. */
  predicate Live(config: Config, u: Use)
    requires Dated(config, u.warrant)
  {
    u.now < Parse(config.lenient, u.warrant.expiresAt).value
  }

  predicate Current(config: Config, u: Use) {
    Sealed(config, u) && Dated(config, u.warrant) && Live(config, u)
  }

  /** The warrant is for what is presented: event, run, tenant, key and arguments. */
  predicate Fits(config: Config, u: Use)
    requires u.event.caseId in config.cases
  {
    && u.warrant.eventId == u.event.eventId && u.warrant.runId == u.runId
    && u.warrant.tenant == config.cases[u.event.caseId].tenant
    && u.warrant.idempotencyKey == SyntheticKey(u.event)
    && u.warrant.argumentsDigest == Sha256Hex(ArgumentsText(u.event.caseId, u.transition))
  }

  predicate InScope(config: Config, u: Use) {
    Current(config, u) && u.event.caseId in config.cases && Fits(config, u)
  }

  /** The claim a use makes. */
  function UseClaim(w: ActionWarrant): ClaimKey {
    ClaimKey(Strip(w.tenant), Lit("action_warrant"), Strip(w.warrantId))
  }

  predicate Claimable(w: ActionWarrant) { Strip(w.tenant) != [] && Strip(w.warrantId) != [] }

  type Answered = Result<Attempt, GatewayError>

  predicate Denied(a: Answered, verdict: Verdict, reason: Reason) { a == Ok(Attempt(Refused(verdict), reason, None)) }

  /** The refusals of a use, each exactly when its condition is the first that holds. */
  predicate SealInOrder(config: Config, u: Use, a: Answered) {
    && (Denied(a, Deny, GlobalKillSwitchEngaged) <==> GlobalOff(u.controls))
    && (Denied(a, Deny, CapabilityKillSwitchEngaged) <==> !GlobalOff(u.controls) && ToolOff(u.controls))
    && (Denied(a, Deny, WrongTool) <==> SwitchesOn(u.controls) && !NamesTool(u.warrant))
    && (Denied(a, Deny, ToolContractVersionMismatch) <==>
          SwitchesOn(u.controls) && NamesTool(u.warrant) && !NamesContract(u.warrant))
    && (Denied(a, Deny, PolicyVersionMismatch) <==>
          SwitchesOn(u.controls) && NamesTool(u.warrant) && NamesContract(u.warrant) && !NamesPolicy(u.warrant))
    && (a == Err(SignatureNotAscii) <==> Versioned(u) && !PlainSignature(u.warrant))
    && (Denied(a, Deny, InvalidSignature) <==>
          Versioned(u) && PlainSignature(u.warrant) && !Genuine(config, u.warrant))
  }

  predicate ScopeInOrder(config: Config, u: Use, a: Answered) {
    && (a == Err(TimestampUnreadable) <==> Sealed(config, u) && !Dated(config, u.warrant))
    && (Denied(a, Deny, WarrantExpired) <==>
          Sealed(config, u) && Dated(config, u.warrant) && !Live(config, u))
    && (Denied(a, Escalate, CaseEvidenceUnavailable) <==>
          Current(config, u) && u.event.caseId !in config.cases)
    && (Denied(a, Deny, ScopeMismatch) <==>
          Current(config, u) && u.event.caseId in config.cases && !Fits(config, u))
  }

  /** What is left decides the claim: blank scopes raise, a used warrant is denied, a fresh one runs the tool. */
  predicate ClaimInOrder(config: Config, u: Use, records: Records, a: Answered, after: Records) {
    && (a == Err(ClaimRefused(ScopeFieldsRequired)) <==> InScope(config, u) && !Claimable(u.warrant))
    && (Denied(a, Deny, AlreadyConsumed) <==>
          InScope(config, u) && Claimable(u.warrant) && UseClaim(u.warrant) in records)
    && if InScope(config, u) && Claimable(u.warrant) && UseClaim(u.warrant) !in records
       then && a == Ok(Attempt(Tool(ToolAnswer(config.cases, u.event.caseId, u.transition)), WarrantedSimulationOnly,
                               Some(u.warrant.warrantId)))
            && after == records[UseClaim(u.warrant) := u.warrant.warrantId]
       else after == records
  }

  function ToolAnswer(cases: Cases, caseId: Text, transition: Text): ToolStatus {
    if Listed(cases, caseId, transition) then Simulated
    else if caseId in cases then ToolStatus.TransitionNotAllowed
    else UnknownCase
  }

  lemma GenuineIff(config: Config, w: ActionWarrant)
    ensures SignatureIsValid(config.signingKey, w) <==> Genuine(config, w)
  {
    hide PrintObject, Lit;
  }

  lemma FitsIff(config: Config, u: Use)
    requires u.event.caseId in config.cases
    ensures ScopeMatches(config.cases, u.warrant, u.event, u.runId, u.transition) <==> Fits(config, u)
  {
    hide PrintObject, Lit, SyntheticKey;
  }

  /** The first check that fails, as an answer; None when all before the claim pass. */
  lemma PrecheckSeals(config: Config, u: Use)
    ensures match Precheck(config, u)
            case Err(x) => !InScope(config, u) && SealInOrder(config, u, Err(x)) && ScopeInOrder(config, u, Err(x))
              && (x == SignatureNotAscii || x == TimestampUnreadable)
            case Ok(r) =>
              if r.verdict == Allow then Sealed(config, u) && InScope(config, u) && r.warrant == Some(u.warrant)
              else
                && !InScope(config, u) && SealInOrder(config, u, Ok(Attempt(Refused(r.verdict), r.reason, None)))
                && ScopeInOrder(config, u, Ok(Attempt(Refused(r.verdict), r.reason, None)))
                && r.reason != AlreadyConsumed
  {
    hide Lit, PrintObject, SyntheticKey, Parse, SignatureIsValid, Genuine, ScopeMatches, Fits, AsciiText;
    GatewayConstants();
    GenuineIff(config, u.warrant);
    if u.event.caseId in config.cases { FitsIff(config, u); }
  }

  predicate ClaimAnswer(a: Answered) {
    match a
    case Err(x) => x.ClaimRefused?
    case Ok(attempt) => attempt.reason == AlreadyConsumed || attempt.reason == WarrantedSimulationOnly
  }

  lemma InScopeIsInOrder(config: Config, u: Use, a: Answered)
    requires InScope(config, u) && ClaimAnswer(a)
    ensures SealInOrder(config, u, a) && ScopeInOrder(config, u, a)
  {
    hide Lit, PrintObject, SyntheticKey, Parse, Genuine, AsciiText;
  }

  lemma ScopeOfUse(w: ActionWarrant)
    ensures ScopedKey(w.tenant, WarrantClaimKind(), w.warrantId)
            == if Claimable(w) then Ok(UseClaim(w)) else Err(ScopeFieldsRequired)
  {
    hide Strip;
    KindShape();
  }

  lemma ToolAnswers(cases: Cases, caseId: Text, transition: Text)
    ensures PrepareTransition(cases, caseId, transition) == ToolAnswer(cases, caseId, transition)
  {
  }

  /**
   Every use of a warrant is answered by the first check that fails, in this order: switches, tool,
   contract and policy versions, signature, expiry, case, scope, claim; only a use that passes all of
   them changes the claim map, by its own claim, and runs the tool.
   */
  lemma ExecuteExactly(config: Config, u: Use, records: Records)
    ensures var (a, after) := Execute(config, u, records);
            SealInOrder(config, u, a) && ScopeInOrder(config, u, a) && ClaimInOrder(config, u, records, a, after)
  {
    hide Precheck, SealInOrder, ScopeInOrder, InScope, Claimable, UseClaim, ScopedKey, WarrantClaimKind,
         PrepareTransition, ToolAnswer, Lit;
    PrecheckSeals(config, u);
    ScopeOfUse(u.warrant);
    ToolAnswers(config.cases, u.event.caseId, u.transition);
    if InScope(config, u) { InScopeIsInOrder(config, u, Execute(config, u, records).0); }
  }

  // ---------------------------------------------------------------- calls of the loop

  predicate Late(input: Input) { input.useTime >= input.issueTime + 300_000_000 }

  /** The outcome is an attempt with this status, reason and warrant id on its receipt. */
  predicate Attempts(outcome: LoopOutcome, status: AttemptStatus, reason: Reason, warrantId: Option<Text>) {
    && outcome.Ok? && outcome.value.status == Attempted(status) && outcome.value.receipt.Some?
    && outcome.value.receipt.value.actionState == status && outcome.value.receipt.value.reason == reason
    && outcome.value.receipt.value.actionWarrantId == warrantId
  }

  /** The answer of a call that claims its event and does not raise. */
  predicate Decides(config: Config, input: Input, outcome: LoopOutcome) {
    if GlobalOff(input.controls) then Attempts(outcome, Refused(Deny), GlobalKillSwitchEngaged, None)
    else if ToolOff(input.controls) then Attempts(outcome, Refused(Deny), CapabilityKillSwitchEngaged, None)
    else if !Listed(config.cases, input.event.caseId, input.transition)
    then Attempts(outcome, Refused(Deny), Reason.TransitionNotAllowed, None)
    else
      && IssuedWarrant(config, input).Some?
      && var id := Some(IssuedWarrant(config, input).value.warrantId);
         if Late(input) then Attempts(outcome, Refused(Deny), WarrantExpired, id)
         else Attempts(outcome, Tool(Simulated), WarrantedSimulationOnly, id)
  }

  function IssuanceOf(config: Config, input: Input): Issuance {
    Issuance(input.event, RunId(input.event), EvaluatePolicy(config.cases, input.event), input.transition,
             input.controls, input.issueTime)
  }

  /** The policy allows the one tool for a known case and escalates any other. */
  lemma PolicyExactly(cases: Cases, e: SyntheticEvent)
    ensures var d := EvaluatePolicy(cases, e);
            && d.requiresActionWarrant && d.policyVersion == Lit("vice-ceo-demo-policy-v1")
            && (Authorizes(d) <==> e.caseId in cases)
            && (e.caseId in cases ==> d.result == Allow && d.reason == ReadAndSimulationOnly)
            && (e.caseId !in cases ==>
                  d.result == Escalate && d.reason == CaseEvidenceMissing && d.proposedTool == None)
  {
    hide Lit;
    GatewayConstants();
  }

  lemma LoopIsAuthorized(config: Config, input: Input)
    requires input.event.caseId in config.cases
    ensures Authorizes(IssuanceOf(config, input).decision)
  {
    hide EvaluatePolicy, Authorizes, RunId;
    PolicyExactly(config.cases, input.event);
  }

  /** A refused issue ends the call with the refusal, and no warrant id. */
  lemma RefusalEnds(config: Config, input: Input, warrants: Records, verdict: Verdict, reason: Reason)
    requires input.event.caseId in config.cases && Encodable(input.event.eventId)
    requires verdict != Allow && Refuses(IssueFor(config, input), verdict, reason)
    ensures Attempts(Continue(config, input, warrants).0, Refused(verdict), reason, None)
  {
    hide IssueFor, Execute, Encodable, RunId, SourceDigest, FixtureDigest, Format, EvaluatePolicy, Lit, Handoff;
  }

  lemma LateIff(input: Input)
    ensures Late(input) <==> !(input.useTime < input.issueTime + WARRANT_TTL_SECONDS * SECOND)
  {
  }

  /** An issued warrant is used at once, in time or late. */
  lemma IssuedEnds(config: Config, st: LoopState, input: Input, k: ClaimKey)
    requires WarrantsFollowEvents(st) && Encodable(input.event.eventId)
    requires EventScope(config.cases, input.event) == Ok(k) && k !in st.events
             && IssuedWarrant(config, input).Some?
    ensures input.event.caseId in config.cases
    ensures var id := Some(IssuedWarrant(config, input).value.warrantId);
            var outcome := Continue(config, input, st.warrants).0;
            if Late(input) then Attempts(outcome, Refused(Deny), WarrantExpired, id)
            else Attempts(outcome, Tool(Simulated), WarrantedSimulationOnly, id)
  {
    hide IssuedWarrant, EventScope, Execute, WarrantsFollowEvents, Encodable, RunId, SourceDigest, FixtureDigest,
         Format, EvaluatePolicy, Lit, Handoff, Late, Continue, Completed, Attempts;
    ScopedCaseIsKnown(config, input);
    ContinueCases(config, input, st.warrants);
    SecondCheckOnlyExpires(config, st, input, IssuedWarrant(config, input).value, k);
    LateIff(input);
    var w := IssuedWarrant(config, input).value;
    var a := Execute(config, UseFor(input, w), st.warrants).0;
    CompletedAttempts(config, input, a.value, Some(w.warrantId));
  }

  lemma CompletedAttempts(config: Config, input: Input, a: Attempt, warrantId: Option<Text>)
    requires input.event.caseId in config.cases
    ensures Attempts(Completed(config, input, a, warrantId), a.status, a.reason, warrantId)
  {
    hide RunId, SourceDigest, FixtureDigest, Format, EvaluatePolicy, Lit, Handoff;
  }

  predicate Overdue(config: Config, input: Input) {
    SwitchesOn(input.controls) && Listed(config.cases, input.event.caseId, input.transition)
    && input.issueTime + 300_000_000 >= MAX_INSTANT
  }

  lemma IssueForIs(config: Config, input: Input)
    ensures IssueFor(config, input) == IssueOf(config, IssuanceOf(config, input))
    ensures var i := IssuanceOf(config, input);
            i.controls == input.controls && i.event == input.event && i.transition == input.transition
            && i.issuedAt == input.issueTime
  {
    hide Issue, RunId, EvaluatePolicy;
  }

  /** What follows a claim, with the warrants of an earlier run. */
  lemma ContinueDecides(config: Config, st: LoopState, input: Input, k: ClaimKey)
    requires WarrantsFollowEvents(st) && EventScope(config.cases, input.event) == Ok(k) && k !in st.events
    ensures input.event.caseId in config.cases
    ensures var outcome := Continue(config, input, st.warrants).0;
            if !Encodable(input.event.eventId) then outcome == Err(HandoffNotEncodable)
            else if Overdue(config, input) then outcome == Err(GatewayRaised(ClockOverflow))
            else Decides(config, input, outcome)
  {
    hide EventScope, WarrantsFollowEvents, Encodable, Execute, IssueFor, IssueOf, IssuedWarrant, Attempts, Authorizes,
         UseFor, Completed, GlobalOff, ToolOff, Listed, IssuanceOf;
    ScopedCaseIsKnown(config, input);
    var i := IssuanceOf(config, input);
    IssueForIs(config, input);
    LoopIsAuthorized(config, input);
    IssueExactly(config, i);
    if Encodable(input.event.eventId) {
      if GlobalOff(input.controls) {
        RefusalEnds(config, input, st.warrants, Deny, GlobalKillSwitchEngaged);
      } else if ToolOff(input.controls) {
        RefusalEnds(config, input, st.warrants, Deny, CapabilityKillSwitchEngaged);
      } else if !Listed(config.cases, input.event.caseId, input.transition) {
        RefusalEnds(config, input, st.warrants, Deny, Reason.TransitionNotAllowed);
      } else if !Overdue(config, input) {
        IssuedIsSome(config, input);
        IssuedEnds(config, st, input, k);
      }
    }
  }

  lemma IssuedIsSome(config: Config, input: Input)
    requires Issues(config, IssuanceOf(config, input))
    ensures IssuedWarrant(config, input).Some?
  {
    hide IssueOf, IssueFor, Issues, IssuanceOf, IsIssued, IssueInOrder;
    IssueExactly(config, IssuanceOf(config, input));
    IssueForIs(config, input);
  }

  // ---------------------------------------------------------------- whole calls

  /** The claim an event of a case with this tenant makes. */
  function LoopClaim(tenant: Text, e: SyntheticEvent): ClaimKey {
    ClaimKey(Strip(tenant), Lit("synthetic_event"), SyntheticKey(e))
  }

  lemma ScopeExactly(cases: Cases, e: SyntheticEvent)
    ensures EventScope(cases, e) ==
            if e.caseId !in cases then Err(UnknownSyntheticCase)
            else if cases[e.caseId].tenant == [] then Err(TenantUnavailable)
            else if Strip(cases[e.caseId].tenant) == [] then Err(EventClaimRefused(ScopeFieldsRequired))
            else Ok(LoopClaim(cases[e.caseId].tenant, e))
  {
    hide Strip, SyntheticKey;
    KindShape();
    KeyShape(e);
  }

  /** The receipt says what it is evidence of, field by field. */
  predicate ReceiptNames(r: OutcomeReceipt, input: Input, tenant: Text, fixture: Text) {
    && r.runId == Lit("run_") + Sha256Hex(SyntheticKey(input.event)) && r.eventId == input.event.eventId
    && r.tenant == tenant && r.version == Lit("vice-ceo-demo-outcome-receipt-v1") && r.policyResult == Allow
    && r.sourceDigest == Sha256Hex(SyntheticPayload(input.event)) && r.fixtureDigest == fixture
    && !r.externalEffect && !r.persistentWrite && r.businessOutcome == Lit("not_measured_synthetic_only")
    && r.reconciliationState == Lit("not_applicable_no_external_effect") && r.recordedAt == Format(input.receiptTime)
    && r.receiptId.runId == r.runId && r.receiptId.warrantId == r.actionWarrantId
    && r.receiptId.attempt.status == r.actionState && r.receiptId.attempt.reason == r.reason
  }

  predicate HandoffNames(h: SpecialistHandoff, input: Input, tenant: Text, fixture: Text) {
    && h.runId == Lit("run_") + Sha256Hex(SyntheticKey(input.event)) && h.eventId == input.event.eventId
    && h.caseId == input.event.caseId && h.tenant == tenant && h.fixtureDigest == fixture
    && h.sourceDigest == Sha256Hex(SyntheticPayload(input.event))
    && h.policyResult == Allow && h.reason == ReadAndSimulationOnly
    && h.proposedTool == Some(Lit("prepare_simulated_ticket_transition"))
  }

  /** A result carries receipt and handoff of its event, and the event's run id. */
  predicate NamesEvent(outcome: LoopOutcome, input: Input, c: SyntheticCase) {
    match outcome
    case Err(_) => true
    case Ok(r) =>
      var fixture := FixtureDigest(input.event.caseId, c);
      && r.runId == Lit("run_") + Sha256Hex(SyntheticKey(input.event))
      && r.receipt.Some? && ReceiptNames(r.receipt.value, input, c.tenant, fixture)
      && r.handoff.Some? && HandoffNames(r.handoff.value, input, c.tenant, fixture)
  }

  lemma CompletedNames(config: Config, input: Input, a: Attempt, warrantId: Option<Text>)
    requires input.event.caseId in config.cases
    ensures NamesEvent(Completed(config, input, a, warrantId), input, config.cases[input.event.caseId])
  {
    hide SyntheticKey, SyntheticPayload, FixtureDigest, Format, Lit, Sha256Hex, PolicyVersion;
    GatewayConstants();
  }

  lemma ContinueNames(config: Config, input: Input, warrants: Records)
    requires input.event.caseId in config.cases
    ensures NamesEvent(Continue(config, input, warrants).0, input, config.cases[input.event.caseId])
  {
    hide NamesEvent, Completed, Execute, IssueFor, UseFor, Encodable;
    NoResultNames(config, input);
    match IssueFor(config, input)
    case Err(_) =>
    case Ok(issued) =>
      CompletedNames(config, input, Attempt(Refused(issued.verdict), issued.reason, None), None);
      if issued.warrant.Some? {
        var w := issued.warrant.value;
        match Execute(config, UseFor(input, w), warrants).0
        case Ok(a) => CompletedNames(config, input, a, Some(w.warrantId));
        case Err(_) =>
      }
  }

  lemma NoResultNames(config: Config, input: Input)
    requires input.event.caseId in config.cases
    ensures forall x :: NamesEvent(Err(x), input, config.cases[input.event.caseId])
  {
  }

  /** The answer of a call whose event was claimed before. */
  predicate AnswersDuplicate(outcome: LoopOutcome, runId: Text) {
    outcome == Ok(LoopResult(Duplicate, runId, None, None))
  }

  /** The answer of a call that claims its event. */
  predicate AnswersClaim(config: Config, input: Input, outcome: LoopOutcome) {
    if !Encodable(input.event.eventId) then outcome == Err(HandoffNotEncodable)
    else if Overdue(config, input) then outcome == Err(GatewayRaised(ClockOverflow))
    else Decides(config, input, outcome)
  }

  /** A call refused before any claim. */
  predicate AnswersRefusal(cases: Cases, e: SyntheticEvent, outcome: LoopOutcome) {
    if e.caseId !in cases then outcome == Err(UnknownSyntheticCase)
    else if cases[e.caseId].tenant == [] then outcome == Err(TenantUnavailable)
    else Strip(cases[e.caseId].tenant) == [] && outcome == Err(EventClaimRefused(ScopeFieldsRequired))
  }

  predicate HasTenant(cases: Cases, e: SyntheticEvent) {
    e.caseId in cases && Strip(cases[e.caseId].tenant) != []
  }

  /**
   Every call of any run: without a usable tenant it is refused and changes nothing; with a claimed
   event it answers the first run and changes nothing; otherwise it claims its event, and the first of
   global switch, capability switch, unlisted transition and late use decides status, reason and
   warrant id of its receipt, or it raises for the event id or the end of the calendar.
   */
  lemma CallsAnswerExactly(config: Config, inputs: seq<Input>, i: nat)
    requires i < |inputs|
    ensures var st, input := SupportLoop.After(config, inputs[..i]), inputs[i];
            var (outcome, after) := Step(config, st, input);
            if !HasTenant(config.cases, input.event)
            then AnswersRefusal(config.cases, input.event, outcome) && after == st
            else
              var c := config.cases[input.event.caseId];
              var k := LoopClaim(c.tenant, input.event);
              if k in st.events then AnswersDuplicate(outcome, st.events[k]) && after == st
              else
                && AnswersClaim(config, input, outcome) && NamesEvent(outcome, input, c)
                && after.events == st.events[k := Lit("run_") + Sha256Hex(SyntheticKey(input.event))]
  {
    hide EventScope, Continue, WarrantsFollowEvents, Encodable, Decides, Overdue, NamesEvent, LoopClaim, Strip,
         SyntheticKey;
    var st, input := SupportLoop.After(config, inputs[..i]), inputs[i];
    Conservation(config, inputs[..i]);
    ScopeExactly(config.cases, input.event);
    EmptyStrips();
    if HasTenant(config.cases, input.event) {
      var k := LoopClaim(config.cases[input.event.caseId].tenant, input.event);
      if k !in st.events {
        ContinueDecides(config, st, input, k);
        ContinueNames(config, input, st.warrants);
      }
    }
  }

  lemma EmptyStrips()
    ensures Strip([]) == []
  {
  }
}
