/** The operational twin and the read-only replay that links event, loop result and twin. */
module TimeMachine {
  import opened Wrappers
  import opened Texts
  import opened Timestamps
  import opened Fixtures
  import opened Events
  import opened ClaimStore
  import opened WarrantGateway
  import opened SupportLoop

  function Triaged(): Text { Lit("triaged") }
  function ResolutionPrepared(): Text { Lit("resolution_prepared") }

  datatype TwinAnalysis = TwinAnalysis(
    runId: Text, eventId: Text, tenant: Text, sourceDigest: Text, fixtureDigest: Text,
    alternatives: seq<Text>, recommendedTransition: Text)

  datatype TwinError = TwinCaseUnavailable | UnexpectedTransitionContract | TwinSeedNotEncodable

  /** `compare_synthetic_support_options` */
  function CompareOptions(cases: Cases, e: SyntheticEvent, runId: Text): Result<TwinAnalysis, TwinError> {
    if e.caseId !in cases then Err(TwinCaseUnavailable)
    else
      var c := cases[e.caseId];
      if (set t | t in c.allowedTransitions) != {Triaged(), ResolutionPrepared()} then Err(UnexpectedTransitionContract)
      else if !Encodable(runId) || !Encodable(e.eventId) then Err(TwinSeedNotEncodable)
      else Ok(TwinAnalysis(runId, e.eventId, c.tenant, SourceDigest(e), FixtureDigest(e.caseId, c),
        c.allowedTransitions, ResolutionPrepared()))
  }

  datatype Counterfactual = Counterfactual(transition: Text, selected: bool)

  datatype Timeline = Timeline(
    runId: Text, eventId: Text, tenant: Text, sourceDigest: Text, fixtureDigest: Text,
    warrantStage: WarrantStage, outcome: AttemptStatus, counterfactuals: seq<Counterfactual>)

  datatype WarrantStage = NotIssued | Consumed(warrantId: Text)

  datatype TimelineError = CompleteEvidenceRequired | UnknownFixture | LinkageMismatch

  /** `_explain_option` on every alternative. */
  function ExplainOptions(options: seq<Text>, recommended: Text): (r: seq<Counterfactual>)
    ensures |r| == |options|
    ensures forall i | 0 <= i < |options| :: r[i] == Counterfactual(options[i], options[i] == recommended)
  {
    seq(|options|, i requires 0 <= i < |options| => Counterfactual(options[i], options[i] == recommended))
  }

  /** `replay_synthetic_evidence` */
  function Replay(
    cases: Cases, e: SyntheticEvent, result: LoopResult, twin: TwinAnalysis
  ): Result<Timeline, TimelineError> {
    if result.receipt.None? || result.handoff.None? then Err(CompleteEvidenceRequired)
    else if e.caseId !in cases then Err(UnknownFixture)
    else
      var receipt, handoff := result.receipt.value, result.handoff.value;
      var source, fixture := SourceDigest(e), FixtureDigest(e.caseId, cases[e.caseId]);
      if && result.runId == receipt.runId == handoff.runId == twin.runId
         && e.eventId == receipt.eventId == handoff.eventId == twin.eventId
         && source == receipt.sourceDigest == handoff.sourceDigest == twin.sourceDigest
         && fixture == receipt.fixtureDigest == handoff.fixtureDigest == twin.fixtureDigest
         && receipt.tenant == handoff.tenant == twin.tenant
      then
        var stage := if receipt.actionWarrantId.Some? && receipt.actionWarrantId.value != []
                     then Consumed(receipt.actionWarrantId.value) else NotIssued;
        Ok(Timeline(result.runId, e.eventId, receipt.tenant, source, fixture, stage, receipt.actionState,
                    ExplainOptions(twin.alternatives, twin.recommendedTransition)))
      else Err(LinkageMismatch)
  }

  // ---------------------------------------------------------------- evidence the loop produces

  /** Receipt and handoff of the result both describe this event. */
  predicate Linked(cases: Cases, e: SyntheticEvent, r: LoopResult) {
    && e.caseId in cases && r.receipt.Some? && r.handoff.Some?
    && var receipt, handoff := r.receipt.value, r.handoff.value;
    && r.runId == receipt.runId == handoff.runId == RunId(e)
    && receipt.eventId == handoff.eventId == e.eventId
    && receipt.sourceDigest == handoff.sourceDigest == SourceDigest(e)
    && receipt.fixtureDigest == handoff.fixtureDigest == FixtureDigest(e.caseId, cases[e.caseId])
    && receipt.tenant == handoff.tenant == cases[e.caseId].tenant
  }

  function IssuedId(config: Config, input: Input): Option<Text> {
    match IssuedWarrant(config, input)
    case Some(w) => Some(w.warrantId)
    case None => None
  }

  /** A result that is not a duplicate carries linked evidence, and names the warrant that was issued. */
  lemma AttemptIsLinked(config: Config, st: LoopState, input: Input)
    requires IsAttempt(Step(config, st, input).0)
    ensures Encodable(input.event.eventId) && Linked(config.cases, input.event, Step(config, st, input).0.value)
    ensures Step(config, st, input).0.value.receipt.value.actionWarrantId == IssuedId(config, input)
  {
    hide Linked, Encodable, Continue, ScopedKey, SyntheticKey, IssuedId;
    ContinueIsLinked(config, input, st.warrants);
  }

  lemma ContinueIsLinked(config: Config, input: Input, warrants: Records)
    requires input.event.caseId in config.cases
    ensures var outcome := Continue(config, input, warrants).0;
            outcome.Ok? ==>
              && Encodable(input.event.eventId) && Linked(config.cases, input.event, outcome.value)
              && outcome.value.receipt.Some? && outcome.value.receipt.value.actionWarrantId == IssuedId(config, input)
  {
    hide Execute, Completed, Linked, Encodable, UseFor, Sign, Draft, EvaluatePolicy, RunId;
    hide SimulatedTicketCapability, SimulatedTicketTool, PolicyVersion;
    if Encodable(input.event.eventId) && IssueFor(config, input).Ok? {
      var issued := IssueFor(config, input).value;
      if !issued.verdict.Allow? || issued.warrant.None? {
        CompletedFacts(config, input, Attempt(Refused(issued.verdict), issued.reason, None), None);
      } else {
        var w := issued.warrant.value;
        var attempt := Execute(config, UseFor(input, w), warrants).0;
        if attempt.Ok? { CompletedFacts(config, input, attempt.value, Some(w.warrantId)); }
      }
    }
  }

  lemma CompletedFacts(config: Config, input: Input, attempt: Attempt, id: Option<Text>)
    requires input.event.caseId in config.cases
    ensures Completed(config, input, attempt, id).Ok?
    ensures Linked(config.cases, input.event, Completed(config, input, attempt, id).value)
    ensures Completed(config, input, attempt, id).value.receipt.Some?
    ensures Completed(config, input, attempt, id).value.receipt.value.actionWarrantId == id
  {
    hide RunId, SourceDigest, FixtureDigest, EvaluatePolicy;
  }

  // ---------------------------------------------------------------- completeness

  /** How often a transition is listed. */
  function Listed(options: seq<Text>, t: Text): nat {
    multiset(options)[t]
  }

  function SelectedCount(cs: seq<Counterfactual>): nat {
    if cs == [] then 0 else (if cs[0].selected then 1 else 0) + SelectedCount(cs[1..])
  }

  lemma {:induction false} SelectedAreListed(options: seq<Text>, recommended: Text)
    ensures SelectedCount(ExplainOptions(options, recommended)) == Listed(options, recommended)
  {
    if options != [] {
      assert options == [options[0]] + options[1..];
      assert ExplainOptions(options, recommended)[1..] == ExplainOptions(options[1..], recommended);
      SelectedAreListed(options[1..], recommended);
    }
  }

  /**
   Evidence from any attempted loop result replays with the twin of the same run, whenever that twin
   exists; the options marked selected are the listings of the recommended transition, at least one,
   and exactly one when the case lists no transition twice. The warrant stage reads "consumed" for
   every issued warrant, even one that expired before use.
   */
  lemma LoopEvidenceReplays(config: Config, st: LoopState, input: Input)
    requires IsAttempt(Step(config, st, input).0)
    requires (set t | t in config.cases[input.event.caseId].allowedTransitions) == {Triaged(), ResolutionPrepared()}
    ensures var e := input.event;
            var twin := CompareOptions(config.cases, e, RunId(e));
            && e.caseId in config.cases && twin.Ok?
            && var timeline := Replay(config.cases, e, Step(config, st, input).0.value, twin.value);
            && timeline.Ok?
            && SelectedCount(timeline.value.counterfactuals)
               == Listed(config.cases[e.caseId].allowedTransitions, ResolutionPrepared())
            && SelectedCount(timeline.value.counterfactuals) >= 1
            && (timeline.value.warrantStage.Consumed? <==> IssuedWarrant(config, input).Some?)
  {
    hide Step, SyntheticKey, SourceDigest, FixtureDigest, Lit;
    AttemptIsLinked(config, st, input);
    var c := config.cases[input.event.caseId];
    SelectedAreListed(c.allowedTransitions, ResolutionPrepared());
    assert ResolutionPrepared() in (set t | t in c.allowedTransitions);
    RunIdIsEncodable(input.event);
    if IssuedWarrant(config, input).Some? {
      IssuedIdIsNonEmpty(config, input);
    }
  }

  /** The timeline tells the run it is of, field by field, and marks the recommended transition. */
  predicate Tells(t: Timeline, e: SyntheticEvent, c: SyntheticCase, status: LoopStatus, issued: Option<Text>) {
    && t.runId == Lit("run_") + Sha256Hex(SyntheticKey(e)) && t.eventId == e.eventId && t.tenant == c.tenant
    && t.sourceDigest == Sha256Hex(SyntheticPayload(e)) && t.fixtureDigest == FixtureDigest(e.caseId, c)
    && status == Attempted(t.outcome)
    && t.warrantStage == (if issued.Some? then Consumed(issued.value) else NotIssued)
    && |t.counterfactuals| == |c.allowedTransitions|
    && forall i | 0 <= i < |t.counterfactuals| ::
         && t.counterfactuals[i].transition == c.allowedTransitions[i]
         && (t.counterfactuals[i].selected <==> c.allowedTransitions[i] == Lit("resolution_prepared"))
  }

  lemma CompletedStatus(config: Config, input: Input, attempt: Attempt, id: Option<Text>)
    requires input.event.caseId in config.cases
    ensures var outcome := Completed(config, input, attempt, id);
            outcome.Ok? && outcome.value.receipt.Some?
            && outcome.value.status == Attempted(outcome.value.receipt.value.actionState)
  {
    hide RunId, SourceDigest, FixtureDigest, EvaluatePolicy, Handoff;
  }

  lemma StatusIsState(config: Config, st: LoopState, input: Input)
    requires IsAttempt(Step(config, st, input).0)
    ensures var r := Step(config, st, input).0.value;
            r.receipt.Some? && r.status == Attempted(r.receipt.value.actionState)
  {
    hide Execute, Completed, Encodable, UseFor, IssueFor, ScopedKey, SyntheticKey, RunId;
    var issued := IssueFor(config, input);
    if issued.Ok? {
      CompletedStatus(config, input, Attempt(Refused(issued.value.verdict), issued.value.reason, None), None);
      if issued.value.warrant.Some? {
        var w := issued.value.warrant.value;
        var attempt := Execute(config, UseFor(input, w), st.warrants).0;
        if attempt.Ok? { CompletedStatus(config, input, attempt.value, Some(w.warrantId)); }
      }
    }
  }

  /** The timeline of an attempted loop result and its twin tells event, outcome, warrant and options. */
  lemma TimelineTells(config: Config, st: LoopState, input: Input)
    requires IsAttempt(Step(config, st, input).0) && TwinExists(config, input)
    ensures var twin := CompareOptions(config.cases, input.event, RunId(input.event));
            && twin.Ok?
            && var result := Step(config, st, input).0.value;
               var timeline := Replay(config.cases, input.event, result, twin.value);
               timeline.Ok? && Tells(timeline.value, input.event, config.cases[input.event.caseId], result.status,
                                     IssuedId(config, input))
  {
    hide Step, SyntheticKey, FixtureDigest, Lit, IssuedId, SyntheticPayload;
    AttemptIsLinked(config, st, input);
    StatusIsState(config, st, input);
    RunIdIsEncodable(input.event);
    IssuedIdIsText(config, input);
  }

  lemma IssuedIdIsText(config: Config, input: Input)
    ensures IssuedId(config, input) != Some([])
  {
    hide IssuedWarrant;
    if IssuedWarrant(config, input).Some? { IssuedIdIsNonEmpty(config, input); }
  }

  /** The list holds "triaged" and "resolution_prepared" and nothing else. */
  predicate ListsBoth(listed: seq<Text>) {
    && Lit("triaged") in listed && Lit("resolution_prepared") in listed
    && forall k | 0 <= k < |listed| :: listed[k] == Lit("triaged") || listed[k] == Lit("resolution_prepared")
  }

  lemma ListsBothIff(listed: seq<Text>)
    ensures (set t | t in listed) == {Triaged(), ResolutionPrepared()} <==> ListsBoth(listed)
  {
    hide Lit;
    var found := set t | t in listed;
    if found == {Triaged(), ResolutionPrepared()} {
      assert Triaged() in found && ResolutionPrepared() in found;
      assert forall k | 0 <= k < |listed| :: listed[k] in found;
    }
  }

  /**
   The twin refuses an unknown case, then any list of transitions other than these two; otherwise it
   names its run, event and case, lists the options and recommends preparing the resolution.
   */
  lemma TwinExactly(cases: Cases, e: SyntheticEvent, runId: Text)
    ensures var r := CompareOptions(cases, e, runId);
            && (r == Err(TwinCaseUnavailable) <==> e.caseId !in cases)
            && (e.caseId in cases ==>
                  var c := cases[e.caseId];
                  && (r == Err(UnexpectedTransitionContract) <==>
                        !ListsBoth(c.allowedTransitions))
                  && (r == Err(TwinSeedNotEncodable) <==>
                        ListsBoth(c.allowedTransitions) && !(Encodable(runId) && Encodable(e.eventId)))
                  && (r.Ok? ==>
                        && r.value.runId == runId && r.value.eventId == e.eventId && r.value.tenant == c.tenant
                        && r.value.alternatives == c.allowedTransitions
                        && r.value.sourceDigest == Sha256Hex(SyntheticPayload(e))
                        && r.value.fixtureDigest == FixtureDigest(e.caseId, c)
                        && r.value.recommendedTransition == Lit("resolution_prepared")))
  {
    hide Lit, FixtureDigest, SyntheticPayload, Encodable, ListsBoth;
    if e.caseId in cases { ListsBothIff(cases[e.caseId].allowedTransitions); }
  }

  /** A result without evidence, such as a duplicate's, has no timeline. */
  lemma DuplicateHasNoTimeline(config: Config, st: LoopState, input: Input, twin: TwinAnalysis)
    requires match Step(config, st, input).0 case Ok(r) => r.status == Duplicate case Err(_) => false
    ensures Replay(config.cases, input.event, Step(config, st, input).0.value, twin) == Err(CompleteEvidenceRequired)
  {
    hide Continue, ScopedKey, SyntheticKey, RunId;
    OutcomeShowsClaim(config, st, input);
  }

  /** The warrant stage replayed from a loop result and the twin of its run. */
  function ReplayedStage(cases: Cases, e: SyntheticEvent, outcome: LoopOutcome): Option<WarrantStage> {
    match (outcome, CompareOptions(cases, e, RunId(e)))
    case (Ok(result), Ok(twin)) =>
      (match Replay(cases, e, result, twin)
       case Ok(timeline) => Some(timeline.warrantStage)
       case Err(_) => None)
    case (_, _) => None
  }

  /** The case of the input lists exactly the transitions the twin accepts. */
  predicate TwinExists(config: Config, input: Input) {
    input.event.caseId in config.cases
    && (set t | t in config.cases[input.event.caseId].allowedTransitions) == {Triaged(), ResolutionPrepared()}
  }

  /** How many warrants are consumed after the first n calls. */
  function ConsumedAfter(config: Config, inputs: seq<Input>, n: nat): nat
    requires n <= |inputs|
  {
    |SupportLoop.After(config, inputs[..n]).warrants|
  }

  /**
   Over any run, the stage of an attempted result reads "consumed" exactly when a warrant was issued,
   while the call consumed a warrant exactly when it was issued and used in time: the label is wrong
   exactly for an issued warrant whose second clock reading is 300 s or more after the first.
   */
  lemma ConsumedLabelWrongIff(config: Config, inputs: seq<Input>, i: nat)
    requires i in Attempts(config, inputs) && TwinExists(config, inputs[i])
    ensures match ReplayedStage(config.cases, inputs[i].event, SupportLoop.OutcomeAt(config, inputs, i))
            case None => false
            case Some(stage) =>
              var consumes := ConsumedAfter(config, inputs, i + 1) == ConsumedAfter(config, inputs, i) + 1;
              && (stage.Consumed? <==> IssuedWarrant(config, inputs[i]).Some?)
              && (consumes <==> IssuedWarrant(config, inputs[i]).Some? && InTime(inputs[i]))
              && (stage.Consumed? != consumes <==> IssuedWarrant(config, inputs[i]).Some? && !InTime(inputs[i]))
  {
    hide Step, Replay, CompareOptions, IssuedWarrant, RunId, Lit, ClaimedEvent, InTime;
    var st := SupportLoop.After(config, inputs[..i]);
    LoopEvidenceReplays(config, st, inputs[i]);
    SimulatedIff(config, inputs, i);
    Conservation(config, inputs[..i]);
    StepSummary(config, st, inputs[i]);
    assert inputs[..i + 1][..i] == inputs[..i];
  }

  /** The run of this one call consumes no warrant and is replayed as "consumed". */
  predicate Mislabels(config: Config, input: Input) {
    && ReplayedStage(config.cases, input.event, SupportLoop.OutcomeAt(config, [input], 0)) != Some(NotIssued)
    && ReplayedStage(config.cases, input.event, SupportLoop.OutcomeAt(config, [input], 0)) != None
    && SupportLoop.After(config, [input]).warrants == map[]
  }

  lemma LateUseIsMislabelled(config: Config, input: Input)
    requires EventScope(config.cases, input.event).Ok? && CannotRaise(config, input) && TwinExists(config, input)
    requires IssuedWarrant(config, input).Some? && !InTime(input)
    ensures Mislabels(config, input)
  {
    hide Step, EventScope, CannotRaise, TwinExists, IssuedWarrant, InTime, ReplayedStage;
    assert [input][..0] == [] && [input][..1] == [input];
    FirstCallClaims(config, input);
    ClaimingCallsEnd(config, [input], 0);
    ConsumedLabelWrongIff(config, [input], 0);
    NothingConsumed(config, input);
  }

  /** The instant at which a warrant issued at 0 expires. */
  const FIRST_EXPIRY: Instant := WARRANT_TTL_SECONDS * SECOND

  function LateInput(): Input {
    hide ShippedEvent, ResolutionPrepared;
    Input(ShippedEvent(Lit("e")), ResolutionPrepared(), Controls(false, {}), 0, FIRST_EXPIRY, FIRST_EXPIRY)
  }

  lemma LateInputIsLate()
    ensures LateInput().event == ShippedEvent(Lit("e")) && LateInput().transition == ResolutionPrepared()
    ensures LateInput().controls == Controls(false, {}) && LateInput().issueTime == 0 && !InTime(LateInput())
  {
    hide ShippedEvent, Lit;
  }

  lemma ShippedTransitions(e: SyntheticEvent)
    requires e.caseId == ShippedCaseId()
    ensures e.caseId in ShippedCases()
    ensures ShippedCases()[e.caseId].allowedTransitions == [Triaged(), ResolutionPrepared()]
  {
    hide Lit;
  }

  lemma ShippedEventCase(id: Text)
    ensures ShippedEvent(id).caseId == ShippedCaseId() && ShippedEvent(id).eventId == id
  {
    hide Format, Lit;
  }

  lemma LateInputIsIssued(config: Config)
    requires config.cases == ShippedCases()
    ensures IssuedWarrant(config, LateInput()).Some? && TwinExists(config, LateInput())
            && CannotRaise(config, LateInput())
  {
    hide ShippedCases, LateInput, IssuedWarrant, Triaged, ResolutionPrepared, ShippedEvent, ShippedCaseId, Encodable,
         InTime,
         SimulatedTicketCapability;
    LateInputIsLate();
    ShippedEventCase(Lit("e"));
    ShippedTransitions(LateInput().event);
    LitEncodable("e");
    IssuesIff(config, LateInput());
    var listed := [Triaged(), ResolutionPrepared()];
    assert listed[0] == Triaged() && listed[1] == ResolutionPrepared();
    assert (set t | t in listed) == {Triaged(), ResolutionPrepared()};
  }

  /** On the shipped case: used 300 s after issue, the warrant is denied, and replay reads "consumed". */
  lemma LateUseOnShippedCase(config: Config)
    requires config.cases == ShippedCases()
    ensures Mislabels(config, LateInput())
  {
    hide *;
    LateInputIsLate();
    LateInputIsIssued(config);
    ShippedScope(Lit("e"));
    LateUseIsMislabelled(config, LateInput());
  }

  lemma FirstCallClaims(config: Config, input: Input)
    requires EventScope(config.cases, input.event).Ok?
    ensures ClaimingOutcome(SupportLoop.OutcomeAt(config, [input], 0))
  {
    hide Step, EventScope;
    assert [input][..0] == [];
    OutcomeShowsClaim(config, LoopState(map[], map[]), input);
  }

  lemma NothingConsumed(config: Config, input: Input)
    requires ConsumedAfter(config, [input], 1) != ConsumedAfter(config, [input], 0) + 1
    ensures SupportLoop.After(config, [input]).warrants == map[]
  {
    hide Step;
    assert [input][..0] == [] && [input][..1] == [input];
    Conservation(config, []);
    StepSummary(config, LoopState(map[], map[]), input);
  }

  lemma RunIdIsEncodable(e: SyntheticEvent)
    ensures Encodable(RunId(e))
  {
    hide SyntheticKey;
  }

  lemma IssuedIdIsNonEmpty(config: Config, input: Input)
    requires IssuedWarrant(config, input).Some?
    ensures IssuedWarrant(config, input).value.warrantId != []
  {
    hide Lit, Sha256Hex, SeedRest, SyntheticKey, UsedAsIssued, PrepareTransition, IssuedWarrant;
    IssuedFields(config, input, IssuedWarrant(config, input).value);
    WarrantIdShape(SyntheticKey(input.event) + [BAR] + SeedRest(input));
  }

  // ---------------------------------------------------------------- soundness

  /** What replay compares of an event: its id, its payload as readers see it, and its case as readers see it. */
  predicate SameEvidence(cases: Cases, e: SyntheticEvent, f: SyntheticEvent)
    requires e.caseId in cases && f.caseId in cases
  {
    && e.eventId == f.eventId && JoinedSynthetic(e) == JoinedSynthetic(f)
    && SameCase(e.caseId, cases[e.caseId], f.caseId, cases[f.caseId])
  }

  /**
   Replay accepts a loop result and a twin for an event exactly when all three are of one run: result
   and twin were made from evidence of that event, for one tenant, and the twin under the run's id.
   Events without split surrogate pairs must then be the same event.
   */
  lemma ReplayAcceptsOneRun(
    config: Config, st: LoopState, input: Input, e: SyntheticEvent, f: SyntheticEvent, runId: Text)
    requires IsAttempt(Step(config, st, input).0)
    requires CompareOptions(config.cases, f, runId).Ok? && e.caseId in config.cases
    ensures var accepted := Replay(
            config.cases, e, Step(config, st, input).0.value, CompareOptions(config.cases, f, runId).value).Ok?;
            && input.event.caseId in config.cases && f.caseId in config.cases
            && (accepted <==>
                  && SameEvidence(config.cases, e, input.event) && SameEvidence(config.cases, f, input.event)
                  && config.cases[f.caseId].tenant == config.cases[input.event.caseId].tenant
                  && runId == RunId(input.event))
            && (SyntheticHasNoSplitPair(e) && SyntheticHasNoSplitPair(f) && SyntheticHasNoSplitPair(input.event) ==>
                  (accepted <==> e == input.event && f == input.event && runId == RunId(input.event)))
  {
    hide Step, RunId, SourceDigest, FixtureDigest, SameCase, Lit, SyntheticHasNoSplitPair, JoinedSynthetic,
         ExplainOptions;
    AttemptIsLinked(config, st, input);
    SameFixtureIff(config.cases, e, input.event);
    SameFixtureIff(config.cases, f, input.event);
    SourceDigestsEqualIff(e, input.event);
    SourceDigestsEqualIff(f, input.event);
    JoinedSyntheticFixes(e);
    JoinedSyntheticFixes(f);
    JoinedSyntheticFixes(input.event);
  }

  lemma SameFixtureIff(cases: Cases, e: SyntheticEvent, f: SyntheticEvent)
    requires e.caseId in cases && f.caseId in cases
    ensures FixtureDigest(e.caseId, cases[e.caseId]) == FixtureDigest(f.caseId, cases[f.caseId]) <==>
            SameCase(e.caseId, cases[e.caseId], f.caseId, cases[f.caseId])
    ensures e == f ==> SameCase(e.caseId, cases[e.caseId], f.caseId, cases[f.caseId])
  {
    hide FixtureDigest, SameCase;
    FixtureDigestsEqualIff(e.caseId, cases[e.caseId], f.caseId, cases[f.caseId]);
  }

  lemma SourceDigestsEqualIff(e: SyntheticEvent, f: SyntheticEvent)
    ensures SourceDigest(e) == SourceDigest(f) <==> JoinedSynthetic(e) == JoinedSynthetic(f)
  {
    hide SyntheticPayload, Sha256Hex, JoinedSynthetic;
    Sha256Injective(SyntheticPayload(e), SyntheticPayload(f));
    SyntheticPayloadsEqualIff(e, f);
  }
}
