/**
 The continuous-support loop: claim the event once, hand off, issue a warrant, re-check and
 consume it, and record a receipt.

 `Step` is what one call does to the two claim maps; the class is proved against it, and the
 lemmas speak about every run, that is every sequence of inputs with arbitrary clock readings.
 */
module SupportLoop {
  import opened Wrappers
  import opened Texts
  import opened Timestamps
  import opened Json
  import opened Envelopes
  import opened Fixtures
  import opened Events
  import opened ClaimStore
  import opened WarrantGateway

  function EventClaimKind(): Text { Lit("synthetic_event") }
  function OutcomeReceiptVersion(): Text { Lit("vice-ceo-demo-outcome-receipt-v1") }
  function NotMeasured(): Text { Lit("not_measured_synthetic_only") }
  function NotApplicable(): Text { Lit("not_applicable_no_external_effect") }

  /** Identifiers hash the listed fields; here they are those fields. */
  datatype ReceiptId = ReceiptId(runId: Text, attempt: Attempt, warrantId: Option<Text>)

  datatype OutcomeReceipt = OutcomeReceipt(
    receiptId: ReceiptId,
    runId: Text,
    eventId: Text,
    tenant: Text,
    version: Text,
    policyResult: Verdict,
    reason: Reason,
    actionState: AttemptStatus,
    actionWarrantId: Option<Text>,
    sourceDigest: Text,
    fixtureDigest: Text,
    externalEffect: bool,
    persistentWrite: bool,
    businessOutcome: Text,
    reconciliationState: Text,
    recordedAt: Text)

  datatype SpecialistHandoff = SpecialistHandoff(
    runId: Text, eventId: Text, caseId: Text, tenant: Text, sourceDigest: Text, fixtureDigest: Text,
    policyResult: Verdict, reason: PolicyReason, proposedTool: Option<Text>)

  datatype LoopStatus = Duplicate | Attempted(status: AttemptStatus)

  datatype LoopResult = LoopResult(
    status: LoopStatus, runId: Text, receipt: Option<OutcomeReceipt>, handoff: Option<SpecialistHandoff>)

  /** Exceptions that leave `process`; the first three are raised before the event is claimed. */
  datatype LoopError =
    | UnknownSyntheticCase
    | TenantUnavailable
    | EventClaimRefused(claimError: ClaimError)
    | HandoffNotEncodable
    | GatewayRaised(gatewayError: GatewayError)

  type LoopOutcome = Result<LoopResult, LoopError>

  datatype LoopState = LoopState(events: Records, warrants: Records)

  datatype Input = Input(
    event: SyntheticEvent, transition: Text, controls: Controls, issueTime: Instant, useTime: Instant,
    receiptTime: Instant)

  /** `build_synthetic_run(event)["run_id"]` */
  function RunId(e: SyntheticEvent): Text { Lit("run_") + Sha256Hex(SyntheticKey(e)) }

  function SourceDigest(e: SyntheticEvent): Text { Sha256Hex(SyntheticPayload(e)) }

  /** `build_specialist_handoff` on the one route the loop uses. */
  function Handoff(cases: Cases, e: SyntheticEvent): SpecialistHandoff
    requires e.caseId in cases
  {
    var decision := EvaluatePolicy(cases, e);
    SpecialistHandoff(RunId(e), e.eventId, e.caseId, cases[e.caseId].tenant, SourceDigest(e),
                      FixtureDigest(e.caseId, cases[e.caseId]), decision.result, decision.reason, decision.proposedTool)
  }

  /** `_build_receipt` */
  function Receipt(
    cases: Cases, e: SyntheticEvent, attempt: Attempt, warrantId: Option<Text>, now: Instant
  ): OutcomeReceipt
    requires e.caseId in cases
  {
    OutcomeReceipt(
      ReceiptId(RunId(e), attempt, warrantId), RunId(e), e.eventId, cases[e.caseId].tenant, OutcomeReceiptVersion(),
      EvaluatePolicy(cases, e).result, attempt.reason, attempt.status, warrantId, SourceDigest(e),
      FixtureDigest(e.caseId, cases[e.caseId]), false, false, NotMeasured(), NotApplicable(), Format(now))
  }

  /** The claim an event makes, or why it cannot make one. */
  function EventScope(cases: Cases, e: SyntheticEvent): Result<ClaimKey, LoopError> {
    if e.caseId !in cases then Err(UnknownSyntheticCase)
    else if cases[e.caseId].tenant == [] then Err(TenantUnavailable)
    else
      match ScopedKey(cases[e.caseId].tenant, EventClaimKind(), SyntheticKey(e))
      case Err(error) => Err(EventClaimRefused(error))
      case Ok(k) => Ok(k)
  }

  function IssueFor(config: Config, input: Input): Outcome {
    Issue(config, input.event, RunId(input.event), EvaluatePolicy(config.cases, input.event),
          input.transition, input.controls, input.issueTime)
  }

  /** The warrant the gateway issues for an input, if it issues one. */
  function IssuedWarrant(config: Config, input: Input): Option<ActionWarrant> {
    match IssueFor(config, input)
    case Ok(r) => if r.verdict.Allow? then r.warrant else None
    case Err(_) => None
  }

  function UseFor(input: Input, w: ActionWarrant): Use {
    Use(w, input.event, RunId(input.event), input.transition, input.controls, input.useTime)
  }

  function Completed(config: Config, input: Input, attempt: Attempt, warrantId: Option<Text>): LoopOutcome
    requires input.event.caseId in config.cases
  {
    var e := input.event;
    Ok(LoopResult(Attempted(attempt.status), RunId(e),
                  Some(Receipt(config.cases, e, attempt, warrantId, input.receiptTime)),
                    Some(Handoff(config.cases, e))))
  }

  /** What follows a won event claim; only the warrant claims can change. */
  function Continue(config: Config, input: Input, warrants: Records): (LoopOutcome, Records)
    requires input.event.caseId in config.cases
  {
    if !Encodable(input.event.eventId) then (Err(HandoffNotEncodable), warrants)
    else
      match IssueFor(config, input)
      case Err(e) => (Err(GatewayRaised(e)), warrants)
      case Ok(issued) =>
        if !issued.verdict.Allow? || issued.warrant.None? then
          (Completed(config, input, Attempt(Refused(issued.verdict), issued.reason, None), None), warrants)
        else
          var w := issued.warrant.value;
          var (attempt, after) := Execute(config, UseFor(input, w), warrants);
          match attempt
          case Err(e) => (Err(GatewayRaised(e)), after)
          case Ok(a) => (Completed(config, input, a, Some(w.warrantId)), after)
  }

  /** `SyntheticSupportLoop.process` */
  function Step(config: Config, st: LoopState, input: Input): (LoopOutcome, LoopState) {
    match EventScope(config.cases, input.event)
    case Err(e) => (Err(e), st)
    case Ok(k) =>
      if k in st.events then (Ok(LoopResult(Duplicate, st.events[k], None, None)), st)
      else
        var (outcome, warrants) := Continue(config, input, st.warrants);
        (outcome, LoopState(st.events[k := RunId(input.event)], warrants))
  }

  class EventClaims {
    const cases: Cases
    const claims: InMemoryClaimStore

    constructor (cases: Cases)
      ensures this.cases == cases && fresh(claims) && claims.records == map[]
    {
      this.cases := cases;
      this.claims := new InMemoryClaimStore();
    }

    method ClaimEvent(e: SyntheticEvent, runId: Text) returns (answer: Result<ClaimResult, LoopError>)
      requires e.caseId in cases
      modifies claims
      ensures match EventScope(cases, e)
              case Err(error) => answer == Err(error) && claims.records == old(claims.records)
              case Ok(k) =>
                && answer == Ok(Claim(old(claims.records), k, runId).0)
                && claims.records == Claim(old(claims.records), k, runId).1
    {
      if cases[e.caseId].tenant == [] { return Err(TenantUnavailable); }
      var result := claims.ClaimOnce(cases[e.caseId].tenant, EventClaimKind(), SyntheticKey(e), runId);
      match result
      case Err(error) => answer := Err(EventClaimRefused(error));
      case Ok(r) => answer := Ok(r);
    }
  }

  class SyntheticSupportLoop {
    const config: Config
    const eventClaims: EventClaims
    const warrants: ActionWarrantGateway

    ghost predicate Valid() {
      && eventClaims.cases == config.cases
      && warrants.config == config
      && eventClaims.claims != warrants.claims
    }

    ghost function State(): LoopState
      reads eventClaims.claims, warrants.claims
    {
      LoopState(eventClaims.claims.records, warrants.claims.records)
    }

    constructor (config: Config)
      ensures Valid() && this.config == config && State() == LoopState(map[], map[])
    {
      this.config := config;
      this.eventClaims := new EventClaims(config.cases);
      this.warrants := new ActionWarrantGateway(config);
    }

    method Process(input: Input) returns (outcome: LoopOutcome)
      requires Valid()
      modifies eventClaims.claims, warrants.claims
      ensures (outcome, State()) == Step(config, old(State()), input)
    {
      var e := input.event;
      if e.caseId !in config.cases { return Err(UnknownSyntheticCase); }
      var claim := eventClaims.ClaimEvent(e, RunId(e));
      if claim.Err? { return Err(claim.error); }
      if !claim.value.claimed { return Ok(LoopResult(Duplicate, claim.value.recordId, None, None)); }
      if !Encodable(e.eventId) { return Err(HandoffNotEncodable); }
      var issued := warrants.IssueSimulatedTicketWarrant(
        e, RunId(e), EvaluatePolicy(config.cases, e), input.transition, input.controls, input.issueTime);
      if issued.Err? { return Err(GatewayRaised(issued.error)); }
      if !issued.value.verdict.Allow? || issued.value.warrant.None? {
        return Completed(config, input, Attempt(Refused(issued.value.verdict), issued.value.reason, None), None);
      }
      var w := issued.value.warrant.value;
      var attempt := warrants.ExecuteWarrantedSimulation(UseFor(input, w));
      match attempt
      case Err(error) => outcome := Err(GatewayRaised(error));
      case Ok(a) => outcome := Completed(config, input, a, Some(w.warrantId));
    }
  }

  // ---------------------------------------------------------------- warrant ids are fresh

  /** Every consumed warrant id was derived from an event key that is claimed for the same tenant. */
  ghost predicate WarrantsFollowEvents(st: LoopState) {
    forall k | k in st.warrants :: exists eventKey, rest :: DerivedFrom(st, k, eventKey, rest)
  }

  predicate DerivedFrom(st: LoopState, k: ClaimKey, eventKey: Text, rest: Text) {
    && Without(BAR, eventKey)
    && ClaimKey(k.tenant, EventClaimKind(), eventKey) in st.events
    && k.key == Lit("warrant_") + Sha256Hex(eventKey + [BAR] + rest)
  }

  lemma KeyShape(e: SyntheticEvent)
    ensures Without(BAR, SyntheticKey(e)) && SyntheticKey(e) != [] && Strip(SyntheticKey(e)) == SyntheticKey(e)
  {
    hide SyntheticPayload, Strip;
    StripFixed(SyntheticKey(e));
    assert SyntheticKey(e)[0] == Ch('v' as int);
    assert SyntheticKey(e)[|SyntheticKey(e)| - 1] == Hex(Sha256(SyntheticPayload(e)));
  }

  lemma WarrantIdShape(seed: Text)
    ensures var id := Lit("warrant_") + Sha256Hex(seed); id != [] && Strip(id) == id
    ensures Lit("warrant_")[0] == Ch('w' as int)
  {
    hide Strip;
    var id := Lit("warrant_") + Sha256Hex(seed);
    StripFixed(id);
    assert id[|id| - 1] == Hex(Sha256(seed));
  }

  lemma KindShape()
    ensures Strip(WarrantClaimKind()) == WarrantClaimKind() && WarrantClaimKind() != []
    ensures Strip(EventClaimKind()) == EventClaimKind() && EventClaimKind() != []
  {
    hide Strip;
    StripFixed(WarrantClaimKind());
    StripFixed(EventClaimKind());
  }

  lemma WarrantIdsEqual(a: Text, b: Text, x: Text, y: Text)
    requires Without(BAR, a) && Without(BAR, b)
    requires Lit("warrant_") + Sha256Hex(a + [BAR] + x) == Lit("warrant_") + Sha256Hex(b + [BAR] + y)
    ensures a == b
  {
    var n := |Lit("warrant_")|;
    assert (Lit("warrant_") + Sha256Hex(a + [BAR] + x))[n] == Hex(Sha256(a + [BAR] + x));
    assert (Lit("warrant_") + Sha256Hex(b + [BAR] + y))[n] == Hex(Sha256(b + [BAR] + y));
    SplitAtFirst(BAR, a, x, b, y);
  }

  function SeedRest(input: Input): Text {
    RunId(input.event) + [BAR]
      + (ArgumentsDigest(input.event.caseId, input.transition) + [BAR] + (Body(input.issueTime) + UtcOffset()))
  }

  /** The claim an issued warrant makes when the event's claim is `k`. */
  function WarrantScope(k: ClaimKey, w: ActionWarrant): ClaimKey {
    ClaimKey(k.tenant, WarrantClaimKind(), w.warrantId)
  }

  lemma IssuedFields(config: Config, input: Input, w: ActionWarrant)
    requires IssuedWarrant(config, input) == Some(w)
    ensures input.event.caseId in config.cases && w.tenant == config.cases[input.event.caseId].tenant
    ensures w.warrantId == Lit("warrant_") + Sha256Hex(SyntheticKey(input.event) + [BAR] + SeedRest(input))
    ensures UsedAsIssued(config, input.event, RunId(input.event), EvaluatePolicy(config.cases, input.event),
                         input.transition, input.controls, input.issueTime, UseFor(input, w))
    ensures PrepareTransition(config.cases, input.event.caseId, input.transition) == Simulated
  {
    hide Format, UnsignedPayload, SyntheticKey, ArgumentsDigest, Body, RunId, Lit, Sha256Hex;
  }

  lemma IssuedScope(config: Config, input: Input, w: ActionWarrant, k: ClaimKey)
    requires EventScope(config.cases, input.event) == Ok(k) && IssuedWarrant(config, input) == Some(w)
    ensures k == ClaimKey(k.tenant, EventClaimKind(), SyntheticKey(input.event))
    ensures UseKey(UseFor(input, w)) == Ok(WarrantScope(k, w))
  {
    hide Strip, IssuedWarrant, SyntheticKey, SeedRest, Lit, Sha256Hex, WarrantClaimKind, EventClaimKind, RunId,
         UsedAsIssued, PrepareTransition;
    KindShape();
    KeyShape(input.event);
    IssuedFields(config, input, w);
    WarrantIdShape(SyntheticKey(input.event) + [BAR] + SeedRest(input));
  }

  lemma FreshWarrant(config: Config, st: LoopState, input: Input, w: ActionWarrant, k: ClaimKey)
    requires WarrantsFollowEvents(st)
    requires EventScope(config.cases, input.event) == Ok(k) && k !in st.events
             && IssuedWarrant(config, input) == Some(w)
    ensures UseKey(UseFor(input, w)) == Ok(WarrantScope(k, w)) && WarrantScope(k, w) !in st.warrants
  {
    hide IssuedWarrant, EventScope, UseKey, Lit, Sha256Hex, SyntheticKey, SeedRest, UseFor, UsedAsIssued;
    IssuedScope(config, input, w, k);
    IssuedFields(config, input, w);
    KeyShape(input.event);
    if WarrantScope(k, w) in st.warrants {
      var eventKey, rest :| DerivedFrom(st, WarrantScope(k, w), eventKey, rest);
      WarrantIdsEqual(eventKey, SyntheticKey(input.event), rest, SeedRest(input));
      assert false;
    }
  }

  /**
   In a state whose warrants follow its events, an input that wins its event claim and is issued a
   warrant ends simulated, or denied because the second clock reading is 300 s or more after the first.
   No other denial of the second check is reachable, and exactly a simulation consumes a warrant.
   */
  lemma SecondCheckOnlyExpires(config: Config, st: LoopState, input: Input, w: ActionWarrant, k: ClaimKey)
    requires WarrantsFollowEvents(st)
    requires EventScope(config.cases, input.event) == Ok(k) && k !in st.events
             && IssuedWarrant(config, input) == Some(w)
    ensures Execute(config, UseFor(input, w), st.warrants) ==
            if input.useTime < input.issueTime + WARRANT_TTL_SECONDS * SECOND
            then (Ok(Attempt(Tool(Simulated), WarrantedSimulationOnly, Some(w.warrantId))),
                  st.warrants[WarrantScope(k, w) := w.warrantId])
            else (Ok(Attempt(Refused(Deny), WarrantExpired, None)), st.warrants)
  {
    hide Precheck, EventScope, ScopedKey, IssuedWarrant, WarrantsFollowEvents, UsedAsIssued, WarrantScope,
         PrepareTransition, Lit, Sha256Hex, SeedRest;
    FreshWarrant(config, st, input, w, k);
    IssuedFields(config, input, w);
    ExpiryIsExact(config, input.event, RunId(input.event), EvaluatePolicy(config.cases, input.event), input.transition,
                  input.controls, input.issueTime, UseFor(input, w));
  }

  // ---------------------------------------------------------------- what a step can do

  predicate IsSimulated(outcome: LoopOutcome) {
    outcome.Ok? && outcome.value.status == Attempted(Tool(Simulated))
  }

  predicate IsAttempt(outcome: LoopOutcome) { outcome.Ok? && outcome.value.status.Attempted? }

  /** The call claimed its event: it is neither a duplicate nor stopped before the claim. */
  predicate ClaimedEvent(config: Config, st: LoopState, input: Input) {
    EventScope(config.cases, input.event).Ok? && EventScope(config.cases, input.event).value !in st.events
  }

  /** A result that is no duplicate, or an exception raised after the event was claimed. */
  predicate ClaimingOutcome(outcome: LoopOutcome) {
    match outcome
    case Ok(r) => r.status != Duplicate
    case Err(x) => x.HandoffNotEncodable? || x.GatewayRaised?
  }

  /** A call's outcome alone says whether it claimed its event. */
  lemma OutcomeShowsClaim(config: Config, st: LoopState, input: Input)
    ensures ClaimingOutcome(Step(config, st, input).0) <==> ClaimedEvent(config, st, input)
  {
    hide ScopedKey, SyntheticKey, Execute, UseFor, Handoff, Receipt, Encodable, IssueFor, RunId;
  }

  /**
   What a caller can see beforehand: a warrant would be issued, and its expiry lies beyond the last
   instant of the calendar.
   */
  predicate Overflows(config: Config, input: Input) {
    && input.controls.Allows(SimulatedTicketCapability())
    && input.event.caseId in config.cases
    && input.transition in config.cases[input.event.caseId].allowedTransitions
    && input.issueTime + WARRANT_TTL_SECONDS * SECOND >= MAX_INSTANT
  }

  /** Issuing raises exactly on that guard. */
  lemma IssueErrors(config: Config, input: Input)
    ensures IssueFor(config, input).Err? <==> Overflows(config, input)
    ensures match IssueFor(config, input) case Ok(r) => r.verdict.Allow? <==> r.warrant.Some? case Err(_) => true
  {
    hide SimulatedTicketCapability, SimulatedTicketTool, PolicyVersion, Sign, Draft, RunId;
  }

  /** A warrant is issued exactly with the switches open, a known case, a listed transition and no overflow. */
  lemma IssuesIff(config: Config, input: Input)
    ensures IssuedWarrant(config, input).Some? <==>
              && input.controls.Allows(SimulatedTicketCapability()) && input.event.caseId in config.cases
              && input.transition in config.cases[input.event.caseId].allowedTransitions
              && input.issueTime + WARRANT_TTL_SECONDS * SECOND < MAX_INSTANT
  {
    hide SimulatedTicketCapability, SimulatedTicketTool, PolicyVersion, Sign, Draft, RunId;
  }

  /** What follows a won claim, by cases on whether a warrant is issued. */
  lemma ContinueCases(config: Config, input: Input, warrants: Records)
    requires input.event.caseId in config.cases
    ensures var (outcome, after) := Continue(config, input, warrants);
            if Encodable(input.event.eventId) && IssuedWarrant(config, input).Some?
            then var w := IssuedWarrant(config, input).value;
                 var (attempt, used) := Execute(config, UseFor(input, w), warrants);
                 && after == used
                 && (attempt.Ok? ==> outcome == Completed(config, input, attempt.value, Some(w.warrantId)))
            else && after == warrants
                 && (outcome.Ok? ==> outcome.value.status.Attempted? && outcome.value.status.status.Refused?)
  {
    hide Execute, UseFor, RunId, Handoff, Receipt, Sign, Draft, Encodable, EvaluatePolicy;
    hide SimulatedTicketCapability, SimulatedTicketTool, PolicyVersion;
  }

  /** One step keeps the freshness invariant and consumes a warrant exactly when it simulates. */
  lemma StepSummary(config: Config, st: LoopState, input: Input)
    requires WarrantsFollowEvents(st)
    ensures var (outcome, after) := Step(config, st, input);
            && WarrantsFollowEvents(after)
            && (ClaimedEvent(config, st, input) ==>
                  after.events == st.events[EventScope(config.cases, input.event).value := RunId(input.event)])
            && (!ClaimedEvent(config, st, input) ==> after == st && !IsSimulated(outcome))
            && |after.warrants| == |st.warrants| + (if IsSimulated(outcome) then 1 else 0)
  {
    hide IssuedWarrant, EventScope, UseKey, UseFor, RunId, Execute, Continue, WarrantsFollowEvents, Encodable,
         WarrantScope;
    if ClaimedEvent(config, st, input) {
      var k := EventScope(config.cases, input.event).value;
      ScopedCaseIsKnown(config, input);
      EventsGrow(st, k, RunId(input.event));
      ContinueCases(config, input, st.warrants);
      if Encodable(input.event.eventId) && IssuedWarrant(config, input).Some? {
        var w := IssuedWarrant(config, input).value;
        SecondCheckOnlyExpires(config, st, input, w, k);
        FreshWarrant(config, st, input, w, k);
        WarrantAdded(config, st, input, w, k);
      }
    }
  }

  lemma ScopedCaseIsKnown(config: Config, input: Input)
    ensures EventScope(config.cases, input.event).Ok? ==> input.event.caseId in config.cases
  {
  }

  lemma EventsGrow(st: LoopState, k: ClaimKey, runId: Text)
    requires WarrantsFollowEvents(st)
    ensures WarrantsFollowEvents(st.(events := st.events[k := runId]))
  {
    hide Lit, Sha256Hex;
    var grown := st.(events := st.events[k := runId]);
    forall w | w in grown.warrants ensures exists eventKey, rest :: DerivedFrom(grown, w, eventKey, rest) {
      var eventKey, rest :| DerivedFrom(st, w, eventKey, rest);
      assert DerivedFrom(grown, w, eventKey, rest);
    }
  }

  lemma WarrantAdded(config: Config, st: LoopState, input: Input, w: ActionWarrant, k: ClaimKey)
    requires WarrantsFollowEvents(st)
    requires EventScope(config.cases, input.event) == Ok(k) && IssuedWarrant(config, input) == Some(w)
    ensures WarrantsFollowEvents(
            LoopState(st.events[k := RunId(input.event)], st.warrants[WarrantScope(k, w) := w.warrantId]))
  {
    hide IssuedWarrant, EventScope, UseKey, Lit, Sha256Hex, SyntheticKey, SeedRest, UseFor, RunId, UsedAsIssued;
    IssuedScope(config, input, w, k);
    IssuedFields(config, input, w);
    KeyShape(input.event);
    EventsGrow(st, k, RunId(input.event));
    var grown := st.(events := st.events[k := RunId(input.event)]);
    var both := LoopState(grown.events, st.warrants[WarrantScope(k, w) := w.warrantId]);
    assert DerivedFrom(both, WarrantScope(k, w), SyntheticKey(input.event), SeedRest(input));
    forall l | l in both.warrants ensures exists eventKey, rest :: DerivedFrom(both, l, eventKey, rest) {
      if l != WarrantScope(k, w) {
        var eventKey, rest :| DerivedFrom(grown, l, eventKey, rest);
        assert DerivedFrom(both, l, eventKey, rest);
      }
    }
  }

  // ---------------------------------------------------------------- whole runs

  function After(config: Config, inputs: seq<Input>): LoopState {
    if inputs == [] then LoopState(map[], map[])
    else Step(config, After(config, inputs[..|inputs| - 1]), inputs[|inputs| - 1]).1
  }

  function OutcomeAt(config: Config, inputs: seq<Input>, i: nat): LoopOutcome
    requires i < |inputs|
  {
    Step(config, After(config, inputs[..i]), inputs[i]).0
  }

  predicate ClaimedAt(config: Config, inputs: seq<Input>, i: nat)
    requires i < |inputs|
  {
    ClaimedEvent(config, After(config, inputs[..i]), inputs[i])
  }

  function Simulations(config: Config, inputs: seq<Input>): set<nat> {
    set i: nat | i < |inputs| && IsSimulated(OutcomeAt(config, inputs, i))
  }

  /** The calls whose outcome is no duplicate: a result, or an exception raised after the claim. */
  function Claimings(config: Config, inputs: seq<Input>): set<nat> {
    set i: nat | i < |inputs| && ClaimingOutcome(OutcomeAt(config, inputs, i))
  }

  lemma RunUnroll(config: Config, inputs: seq<Input>)
    requires inputs != []
    ensures var n, prior := |inputs| - 1, inputs[..|inputs| - 1];
            && n !in Simulations(config, prior) && n !in Claimings(config, prior)
            && Simulations(config, inputs)
               == Simulations(config, prior) + (if IsSimulated(OutcomeAt(config, inputs, n)) then {n} else {})
            && Claimings(config, inputs) ==
               Claimings(config, prior) + (if ClaimingOutcome(OutcomeAt(config, inputs, n)) then {n} else {})
  {
    hide Step, ClaimingOutcome, IsSimulated;
    var n, prior := |inputs| - 1, inputs[..|inputs| - 1];
    forall i: nat | i < n
      ensures OutcomeAt(config, inputs, i) == OutcomeAt(config, prior, i)
    {
      assert inputs[..i] == prior[..i];
    }
  }

  /**
   Conservation over any run: consumed warrants number the simulated results, event claims number
   the outcomes that are no duplicate, and the freshness invariant holds throughout.
   */
  lemma {:induction false} Conservation(config: Config, inputs: seq<Input>)
    ensures WarrantsFollowEvents(After(config, inputs))
    ensures |After(config, inputs).warrants| == |Simulations(config, inputs)|
    ensures |After(config, inputs).events| == |Claimings(config, inputs)|
  {
    hide Step, IsSimulated, ClaimedEvent, ClaimingOutcome, EventScope, DerivedFrom;
    if inputs == [] {
      assert Simulations(config, inputs) == {} && Claimings(config, inputs) == {};
    } else {
      var n, prior := |inputs| - 1, inputs[..|inputs| - 1];
      Conservation(config, prior);
      RunUnroll(config, inputs);
      StepSummary(config, After(config, prior), inputs[n]);
      ClaimIsNew(config, After(config, prior), inputs[n]);
      OutcomeShowsClaim(config, After(config, prior), inputs[n]);
    }
  }

  lemma ClaimIsNew(config: Config, st: LoopState, input: Input)
    ensures ClaimedEvent(config, st, input) ==>
              EventScope(config.cases, input.event).Ok? && EventScope(config.cases, input.event).value !in st.events
  {
  }

  /** The calls of a run that ended in an attempted result, that is one that is no duplicate. */
  function Attempts(config: Config, inputs: seq<Input>): set<nat> {
    set i: nat | i < |inputs| && IsAttempt(OutcomeAt(config, inputs, i))
  }

  /** Nothing a caller can see beforehand makes this call raise after its claim. */
  predicate CannotRaise(config: Config, input: Input) {
    Encodable(input.event.eventId) && !Overflows(config, input)
  }

  lemma SubsetEquality(a: set<nat>, b: set<nat>)
    requires a <= b
    ensures |a| <= |b| && (|a| == |b| <==> b <= a)
  {
    assert b == a + (b - a);
  }

  /**
   The event claims of a run number its non-duplicate results exactly when no call that claims its
   event has an event id that cannot be encoded or a warrant that would outlive the calendar.
   */
  lemma ClaimsAreResultsIff(config: Config, inputs: seq<Input>)
    ensures |After(config, inputs).events| == |Attempts(config, inputs)| <==>
            forall i | i in Claimings(config, inputs) :: CannotRaise(config, inputs[i])
  {
    hide Step, Overflows, Encodable, After;
    Conservation(config, inputs);
    forall i | i in Claimings(config, inputs)
      ensures i in Attempts(config, inputs) <==> CannotRaise(config, inputs[i])
    {
      ClaimingCallsEnd(config, inputs, i);
    }
    SubsetEquality(Attempts(config, inputs), Claimings(config, inputs));
  }

  function LoneSurrogateEvent(): SyntheticEvent {
    ShippedEvent([Ch(0xD800)])
  }

  lemma ShippedScope(id: Text)
    ensures EventScope(ShippedCases(), ShippedEvent(id)).Ok?
  {
    hide SyntheticKey, Strip, Format;
    KeyShape(ShippedEvent(id));
    KindShape();
    StripFixed(Lit("demo_tenant_northstar"));
  }

  /** An event of the shipped case whose id is a lone surrogate decodes from its own envelope. */
  lemma LoneSurrogateDecodes(lenient: Lenient)
    ensures PlainSynthetic(LoneSurrogateEvent())
    ensures DecodeSynthetic(ShippedCases(), lenient, EncodeSynthetic(LoneSurrogateEvent())) == Ok(LoneSurrogateEvent())
  {
    hide Format, Lit, IsCanonicalTimestamp, Readable, NoSplitPair, DecodeSynthetic, EncodeSynthetic;
    FormatIsCanonical(0);
    CanonicalIsSound(Format(0));
    ReadableIsPlain(Format(0));
    PlainConstants();
    CaseIdIsSound();
    LoneSurrogateIsSound();
    SyntheticRoundTripIff(ShippedCases(), lenient, LoneSurrogateEvent());
  }

  /** The run of this one call claims its event and ends without a result, in the handoff's encoding error. */
  predicate SpendsEvent(config: Config, input: Input) {
    && OutcomeAt(config, [input], 0) == Err(HandoffNotEncodable)
    && |After(config, [input]).events| == 1 && Attempts(config, [input]) == {}
  }

  lemma UnencodableSpendsEvent(config: Config, input: Input)
    requires EventScope(config.cases, input.event).Ok? && !Encodable(input.event.eventId)
    ensures SpendsEvent(config, input)
  {
    hide EventScope, RunId, Encodable;
    ScopedCaseIsKnown(config, input);
    assert [input][..0] == [];
  }

  /** On the shipped case: the claim is made, hashing the lone surrogate raises, and the event is spent. */
  lemma LoneSurrogateSpendsEvent(config: Config, input: Input)
    requires config.cases == ShippedCases() && input.event == LoneSurrogateEvent()
    ensures SpendsEvent(config, input)
  {
    hide *;
    LoneSurrogateIsShipped();
    ShippedScope([Ch(0xD800)]);
    LoneSurrogateIsUnencodable();
    UnencodableSpendsEvent(config, input);
  }

  lemma LoneSurrogateIsShipped()
    ensures LoneSurrogateEvent() == ShippedEvent([Ch(0xD800)])
  {
    hide ShippedEvent;
  }

  lemma LoneSurrogateIsUnencodable()
    ensures !Encodable(LoneSurrogateEvent().eventId)
  {
    hide Format, Lit;
    assert IsHighSurrogate(LoneSurrogateEvent().eventId[0].code);
  }

  lemma LoneSurrogateIsSound()
    ensures Sound([Ch(0xD800)]) && NoSplitPair([Ch(0xD800)]) && Plain([Ch(0xD800)])
  {
  }

  /**
   Over any run, a call that claims its event ends in a result exactly when its event id can be
   encoded and its warrant, if one is issued, expires within the calendar.
   */
  lemma ClaimingCallsEnd(config: Config, inputs: seq<Input>, i: nat)
    requires i < |inputs| && ClaimingOutcome(OutcomeAt(config, inputs, i))
    ensures OutcomeAt(config, inputs, i).Err? <==> !CannotRaise(config, inputs[i])
    ensures IsAttempt(OutcomeAt(config, inputs, i)) <==> CannotRaise(config, inputs[i])
  {
    hide IssuedWarrant, EventScope, Execute, WarrantsFollowEvents, Handoff, RunId, UseFor, Encodable,
         IssueFor, Receipt, Overflows;
    var st, input := After(config, inputs[..i]), inputs[i];
    Conservation(config, inputs[..i]);
    OutcomeShowsClaim(config, st, input);
    ScopedCaseIsKnown(config, input);
    IssueErrors(config, input);
    IssuedIsAllowed(config, input);
    if IssuedWarrant(config, input).Some? {
      SecondCheckOnlyExpires(
        config, st, input, IssuedWarrant(config, input).value, EventScope(config.cases, input.event).value);
    }
  }

  lemma IssuedIsAllowed(config: Config, input: Input)
    ensures match IssueFor(config, input)
            case Ok(r) => IssuedWarrant(config, input) == (if r.verdict.Allow? then r.warrant else None)
            case Err(_) => IssuedWarrant(config, input) == None
  {
    hide IssueFor;
  }

  /**
   Over any run, a call that claimed its event and was issued a warrant ends simulated exactly when
   its second clock reading is less than 300 s after the first; otherwise it ends denied as expired,
   and its receipt still carries the warrant id.
   */
  lemma OnlyExpiryDeniesIssued(config: Config, inputs: seq<Input>, i: nat, w: ActionWarrant)
    requires i < |inputs| && ClaimedAt(config, inputs, i)
    requires Encodable(inputs[i].event.eventId) && IssuedWarrant(config, inputs[i]) == Some(w)
    ensures var outcome := OutcomeAt(config, inputs, i);
            && outcome.Ok? && outcome.value.receipt.Some?
            && outcome.value.receipt.value.actionWarrantId == Some(w.warrantId)
            && if inputs[i].useTime < inputs[i].issueTime + WARRANT_TTL_SECONDS * SECOND
               then outcome.value.status == Attempted(Tool(Simulated))
               else
                 && outcome.value.status == Attempted(Refused(Deny))
                 && outcome.value.receipt.value.reason == WarrantExpired
  {
    hide IssuedWarrant, EventScope, Continue, Execute, WarrantsFollowEvents, Handoff, RunId, UseFor, Encodable;
    Conservation(config, inputs[..i]);
    var k := EventScope(config.cases, inputs[i].event).value;
    ScopedCaseIsKnown(config, inputs[i]);
    ContinueCases(config, inputs[i], After(config, inputs[..i]).warrants);
    SecondCheckOnlyExpires(config, After(config, inputs[..i]), inputs[i], w, k);
  }

  /** The second clock reading is less than 300 s after the first. */
  predicate InTime(input: Input) { input.useTime < input.issueTime + WARRANT_TTL_SECONDS * SECOND }

  /** Over any run, an attempted result is simulated exactly when a warrant was issued and used in time. */
  lemma SimulatedIff(config: Config, inputs: seq<Input>, i: nat)
    requires i in Attempts(config, inputs)
    ensures IsSimulated(OutcomeAt(config, inputs, i)) <==> IssuedWarrant(config, inputs[i]).Some? && InTime(inputs[i])
  {
    hide IssuedWarrant, EventScope, Continue, Execute, Overflows, Encodable, UseFor, Handoff, RunId;
    ClaimingCallsEnd(config, inputs, i);
    var st := After(config, inputs[..i]);
    OutcomeShowsClaim(config, st, inputs[i]);
    ScopedCaseIsKnown(config, inputs[i]);
    ContinueCases(config, inputs[i], st.warrants);
    if IssuedWarrant(config, inputs[i]).Some? {
      OnlyExpiryDeniesIssued(config, inputs, i, IssuedWarrant(config, inputs[i]).value);
    }
  }

  lemma {:induction false} ClaimPersists(config: Config, inputs: seq<Input>, i: nat, k: ClaimKey)
    requires i < |inputs| && EventScope(config.cases, inputs[i].event) == Ok(k)
    ensures k in After(config, inputs).events
    ensures ClaimedAt(config, inputs, i) ==> After(config, inputs).events[k] == RunId(inputs[i].event)
  {
    hide EventScope, Continue, RunId;
    var n := |inputs| - 1;
    if i < n {
      var prior := inputs[..n];
      ClaimPersists(config, prior, i, k);
      assert prior[..i] == inputs[..i];
    }
  }

  /**
   An event is decided once: after a call with an event scope, every later call with the same scope
   is answered as a duplicate of the claiming run. So an event denied by a kill switch is never
   simulated later, and no event is simulated twice.
   */
  lemma DecidedOnce(config: Config, inputs: seq<Input>, i: nat, j: nat)
    requires i < j < |inputs|
    requires EventScope(config.cases, inputs[i].event).Ok?
    requires EventScope(config.cases, inputs[j].event) == EventScope(config.cases, inputs[i].event)
    ensures var outcome := OutcomeAt(config, inputs, j);
            && outcome.Ok? && outcome.value.status == Duplicate && !IsSimulated(outcome)
            && (ClaimedAt(config, inputs, i) ==> outcome.value.runId == RunId(inputs[i].event))
            && Step(config, After(config, inputs[..j]), inputs[j]).1 == After(config, inputs[..j])
  {
    hide EventScope, Continue, RunId;
    ClaimPersists(config, inputs[..j], i, EventScope(config.cases, inputs[i].event).value);
    assert inputs[..j][..i] == inputs[..i];
  }

  /** A scope names its event up to joined surrogate pairs. */
  lemma ScopesEqualIff(cases: Cases, e: SyntheticEvent, f: SyntheticEvent)
    requires EventScope(cases, e).Ok? && EventScope(cases, f).Ok?
    ensures EventScope(cases, e) == EventScope(cases, f) <==>
            JoinedSynthetic(e) == JoinedSynthetic(f) && Strip(cases[e.caseId].tenant) == Strip(cases[f.caseId].tenant)
  {
    hide SyntheticKey, JoinedSynthetic, Strip, SyntheticHasNoSplitPair;
    KeyShape(e);
    KeyShape(f);
    SyntheticKeysEqualIff(e, f);
  }
}
