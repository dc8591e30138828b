/** The trust verdict: a fold over outcome receipts, and what the verdict cannot depend on. */
module TrustEngine {
  import opened Wrappers
  import opened Texts
  import opened Timestamps
  import opened Fixtures
  import opened ClaimStore
  import opened Events
  import opened WarrantGateway
  import opened SupportLoop

  datatype Classification = Ignored | VerifiedSimulation | IntegrityFailure

  /** Evidence names its receipt by id and digest; here it is the receipt. */
  datatype TrustEvidence = TrustEvidence(receipt: OutcomeReceipt, classification: Classification)

  datatype TrustState = Suspended | Earned | Observing | Unproven

  datatype TrustReason =
    MixedTenants | IntegrityFailureNeedsReview | ThreeOrMoreVerified | MoreVerifiedRequired | NoneVerified

  datatype TrustAssessment = TrustAssessment(
    tenant: Option<Text>, state: TrustState, reason: TrustReason,
    evidenceCount: nat, verifiedCount: nat, failureCount: nat, evidence: seq<TrustEvidence>, id: AssessmentId)

  /** The id hashes the receipts' digests in order; here it is the receipts. */
  datatype AssessmentId = AssessmentId(receipts: seq<OutcomeReceipt>)

  predicate IsSupported(r: OutcomeReceipt) { r.version == OutcomeReceiptVersion() }

  /** `_is_verified_simulation` */
  predicate IsVerifiedSimulation(r: OutcomeReceipt) {
    && r.actionState == Tool(Simulated) && !r.externalEffect && !r.persistentWrite
    && r.businessOutcome == NotMeasured() && r.reconciliationState == NotApplicable()
  }

  function Classify(r: OutcomeReceipt): Classification {
    if !IsSupported(r) then Ignored
    else if IsVerifiedSimulation(r) then VerifiedSimulation
    else IntegrityFailure
  }

  function Evidence(receipts: seq<OutcomeReceipt>): (e: seq<TrustEvidence>)
    ensures |e| == |receipts|
  {
    seq(|receipts|, i requires 0 <= i < |receipts| => TrustEvidence(receipts[i], Classify(receipts[i])))
  }

  function Count(receipts: seq<OutcomeReceipt>, c: Classification): nat {
    if receipts == [] then 0
    else Count(receipts[..|receipts| - 1], c) + (if Classify(receipts[|receipts| - 1]) == c then 1 else 0)
  }

  function Tenants(receipts: seq<OutcomeReceipt>): set<Text> {
    set i | 0 <= i < |receipts| && IsSupported(receipts[i]) :: receipts[i].tenant
  }

  ghost function SoleTenant(tenants: set<Text>): Option<Text> {
    if |tenants| == 1 then var t :| t in tenants; Some(t) else None
  }

  function Judge(tenantCount: nat, verified: nat, failures: nat): (TrustState, TrustReason) {
    if tenantCount > 1 then (Suspended, MixedTenants)
    else if failures > 0 then (Suspended, IntegrityFailureNeedsReview)
    else if verified >= 3 then (Earned, ThreeOrMoreVerified)
    else if verified > 0 then (Observing, MoreVerifiedRequired)
    else (Unproven, NoneVerified)
  }

  /** What the assessment of some receipts is. */
  ghost function Assessment(receipts: seq<OutcomeReceipt>): TrustAssessment {
    var verified, failures := Count(receipts, VerifiedSimulation), Count(receipts, IntegrityFailure);
    var (state, reason) := Judge(|Tenants(receipts)|, verified, failures);
    TrustAssessment(SoleTenant(Tenants(receipts)), state, reason, |receipts|, verified, failures, Evidence(receipts),
                    AssessmentId(receipts))
  }

  /** `assess_synthetic_trust` */
  method AssessSyntheticTrust(receipts: seq<OutcomeReceipt>) returns (assessment: TrustAssessment)
    ensures assessment == Assessment(receipts)
  {
    hide IsSupported, IsVerifiedSimulation, Count, Tenants, Judge;
    var evidence: seq<TrustEvidence> := [];
    var tenants: set<Text> := {};
    assert Tenants(receipts[..0]) == {} by { NoTenants(); }
    for i := 0 to |receipts|
      invariant evidence == Evidence(receipts[..i])
      invariant tenants == Tenants(receipts[..i])
    {
      hide SoleTenant, Assessment;
      var receipt := receipts[i];
      assert receipts[..i + 1] == receipts[..i] + [receipt];
      TenantsStep(receipts[..i], receipt);
      if !IsSupported(receipt) {
        evidence := evidence + [TrustEvidence(receipt, Ignored)];
      } else {
        tenants := tenants + {receipt.tenant};
        if IsVerifiedSimulation(receipt) {
          evidence := evidence + [TrustEvidence(receipt, VerifiedSimulation)];
        } else {
          evidence := evidence + [TrustEvidence(receipt, IntegrityFailure)];
        }
      }
    }
    assert receipts[..|receipts|] == receipts;
    var verified := CountEvidence(evidence, VerifiedSimulation, receipts);
    var failures := CountEvidence(evidence, IntegrityFailure, receipts);
    var (state, reason) := Judge(|tenants|, verified, failures);
    var tenant := None;
    if |tenants| == 1 {
      var t :| t in tenants;
      Singleton(tenants, t, SoleTenant(tenants).value);
      tenant := Some(t);
    }
    assessment := TrustAssessment(
      tenant, state, reason, |evidence|, verified, failures, evidence, AssessmentId(receipts));
  }

  /** `sum(item.classification == c for item in evidence)` */
  method CountEvidence(
    evidence: seq<TrustEvidence>, c: Classification, ghost receipts: seq<OutcomeReceipt>
  ) returns (n: nat)
    requires evidence == Evidence(receipts)
    ensures n == Count(receipts, c)
  {
    n := 0;
    for i := 0 to |evidence|
      invariant n == Count(receipts[..i], c)
    {
      assert receipts[..i + 1][..i] == receipts[..i];
      if evidence[i].classification == c { n := n + 1; }
    }
    assert receipts[..|evidence|] == receipts;
  }

  lemma Singleton(s: set<Text>, t: Text, u: Text)
    requires |s| == 1 && t in s && u in s
    ensures t == u
  {
    assert |s - {t}| == 0;
  }

  lemma NoTenants()
    ensures Tenants([]) == {}
  {
  }

  lemma TenantsStep(receipts: seq<OutcomeReceipt>, r: OutcomeReceipt)
    ensures Tenants(receipts + [r]) == Tenants(receipts) + (if IsSupported(r) then {r.tenant} else {})
  {
    hide IsSupported;
    var all := receipts + [r];
    forall t | t in Tenants(all) ensures t in Tenants(receipts) + (if IsSupported(r) then {r.tenant} else {}) {
      var i :| 0 <= i < |all| && IsSupported(all[i]) && all[i].tenant == t;
      if i < |receipts| { assert receipts[i].tenant == t; }
    }
    forall t | t in Tenants(receipts) + (if IsSupported(r) then {r.tenant} else {}) ensures t in Tenants(all) {
      if t in Tenants(receipts) {
        var i :| 0 <= i < |receipts| && IsSupported(receipts[i]) && receipts[i].tenant == t;
        assert all[i].tenant == t;
      } else {
        assert all[|receipts|].tenant == t;
      }
    }
  }

  // ---------------------------------------------------------------- order does not matter

  lemma {:induction false} CountAppend(a: seq<OutcomeReceipt>, b: seq<OutcomeReceipt>, c: Classification)
    ensures Count(a + b, c) == Count(a, c) + Count(b, c)
  {
    hide Classify;
    if b == [] {
      assert a + b == a;
    } else {
      var n := |b| - 1;
      assert (a + b)[..|a + b| - 1] == a + b[..n];
      CountAppend(a, b[..n], c);
    }
  }

  lemma RemoveOne(a: seq<OutcomeReceipt>, b: seq<OutcomeReceipt>, x: OutcomeReceipt,
                  rest: seq<OutcomeReceipt>, left: seq<OutcomeReceipt>, right: seq<OutcomeReceipt>)
    requires multiset(a) == multiset(b) && a == [x] + rest && b == left + [x] + right
    ensures multiset(rest) == multiset(left + right)
  {
    assert multiset(rest) == multiset(a) - multiset{x};
    assert multiset(left + right) == multiset(b) - multiset{x};
  }

  lemma {:induction false} CountPermuted(a: seq<OutcomeReceipt>, b: seq<OutcomeReceipt>, c: Classification)
    requires multiset(a) == multiset(b)
    ensures Count(a, c) == Count(b, c)
    decreases |a|
  {
    hide Classify, Count;
    if a == [] {
      assert b == [] by { assert |multiset(a)| == |multiset(b)|; }
    } else {
      var x, rest := a[0], a[1..];
      assert a == [x] + rest;
      assert x in multiset(b);
      var k :| 0 <= k < |b| && b[k] == x;
      var left, right := b[..k], b[k + 1..];
      assert b == left + [x] + right;
      RemoveOne(a, b, x, rest, left, right);
      CountPermuted(rest, left + right, c);
      CountAppend([x], rest, c);
      CountAppend(left, right, c);
      CountAppend(left + [x], right, c);
      CountAppend(left, [x], c);
    }
  }

  lemma TenantsPermuted(a: seq<OutcomeReceipt>, b: seq<OutcomeReceipt>)
    requires multiset(a) == multiset(b)
    ensures Tenants(a) <= Tenants(b)
  {
    hide IsSupported;
    forall t | t in Tenants(a) ensures t in Tenants(b) {
      var i :| 0 <= i < |a| && IsSupported(a[i]) && a[i].tenant == t;
      assert a[i] in multiset(b);
      var k :| 0 <= k < |b| && b[k] == a[i];
    }
  }

  /** The verdict, its reason, the counts and the tenant do not depend on the order of the receipts. */
  lemma AssessmentIgnoresOrder(a: seq<OutcomeReceipt>, b: seq<OutcomeReceipt>)
    requires multiset(a) == multiset(b)
    ensures Assessment(b) == Assessment(a).(evidence := Evidence(b), id := AssessmentId(b))
  {
    hide Count, Tenants, Judge, Evidence;
    CountPermuted(a, b, VerifiedSimulation);
    CountPermuted(a, b, IntegrityFailure);
    TenantsPermuted(a, b);
    TenantsPermuted(b, a);
    assert Tenants(a) == Tenants(b);
    assert |multiset(a)| == |a| && |multiset(b)| == |b|;
  }

  // ---------------------------------------------------------------- unsupported receipts

  function Supported(receipts: seq<OutcomeReceipt>): seq<OutcomeReceipt> {
    if receipts == [] then []
    else
      var n := |receipts| - 1;
      Supported(receipts[..n]) + (if IsSupported(receipts[n]) then [receipts[n]] else [])
  }

  lemma CountOne(r: OutcomeReceipt, c: Classification)
    ensures Count([r], c) == if Classify(r) == c then 1 else 0
  {
    hide Classify;
    assert [r][..0] == [];
    assert Count([r][..0], c) == 0;
  }

  lemma {:induction false} SupportedCount(receipts: seq<OutcomeReceipt>, c: Classification)
    requires c != Ignored
    ensures Count(Supported(receipts), c) == Count(receipts, c)
  {
    hide IsSupported, IsVerifiedSimulation;
    if receipts == [] {
      assert Supported(receipts) == receipts;
    } else {
      var n := |receipts| - 1;
      SupportedCount(receipts[..n], c);
      CountOne(receipts[n], c);
      CountAppend(Supported(receipts[..n]), [receipts[n]], c);
      CountAppend(Supported(receipts[..n]), [], c);
    }
  }

  lemma {:induction false} SupportedSize(receipts: seq<OutcomeReceipt>)
    ensures |Supported(receipts)| + Count(receipts, Ignored) == |receipts|
    ensures Tenants(Supported(receipts)) == Tenants(receipts)
  {
    hide IsSupported, IsVerifiedSimulation, Tenants;
    if receipts == [] {
      assert Supported(receipts) == receipts;
    } else {
      var n := |receipts| - 1;
      SupportedSize(receipts[..n]);
      assert receipts == receipts[..n] + [receipts[n]];
      TenantsStep(receipts[..n], receipts[n]);
      TenantsStep(Supported(receipts[..n]), receipts[n]);
      assert Supported(receipts[..n]) + [] == Supported(receipts[..n]);
    }
  }

  /** Dropping receipts of an unsupported version changes only the evidence and its count. */
  lemma UnsupportedReceiptsAreInert(receipts: seq<OutcomeReceipt>)
    ensures Assessment(Supported(receipts)) ==
            Assessment(receipts).(evidence := Evidence(Supported(receipts)), evidenceCount := |Supported(receipts)|,
                                  id := AssessmentId(Supported(receipts)))
    ensures |Supported(receipts)| + Count(receipts, Ignored) == |receipts|
  {
    hide Count, Tenants, Judge, Evidence, Supported;
    SupportedSize(receipts);
    SupportedCount(receipts, VerifiedSimulation);
    SupportedCount(receipts, IntegrityFailure);
  }

  // ---------------------------------------------------------------- counts and verdicts

  lemma {:induction false} CountsPartition(receipts: seq<OutcomeReceipt>)
    ensures Count(receipts, VerifiedSimulation) + Count(receipts, IntegrityFailure) + Count(receipts, Ignored)
            == |receipts|
  {
    hide Classify;
    if receipts != [] { CountsPartition(receipts[..|receipts| - 1]); }
  }

  lemma {:induction false} VerifiedNamesTenant(receipts: seq<OutcomeReceipt>)
    ensures Count(receipts, VerifiedSimulation) > 0 ==> Tenants(receipts) != {}
  {
    hide IsSupported, Tenants, IsVerifiedSimulation;
    if receipts != [] {
      var n := |receipts| - 1;
      VerifiedNamesTenant(receipts[..n]);
      assert receipts == receipts[..n] + [receipts[n]];
      TenantsStep(receipts[..n], receipts[n]);
    }
  }

  /** A receipt of the supported version. */
  predicate Current(r: OutcomeReceipt) { r.version == Lit("vice-ceo-demo-outcome-receipt-v1") }

  /** A supported receipt that claims a simulation and no effect. */
  predicate Verified(r: OutcomeReceipt) {
    && Current(r) && r.actionState == Tool(Simulated) && !r.externalEffect && !r.persistentWrite
    && r.businessOutcome == Lit("not_measured_synthetic_only")
    && r.reconciliationState == Lit("not_applicable_no_external_effect")
  }

  predicate Failing(r: OutcomeReceipt) { Current(r) && !Verified(r) }

  lemma ClassifyExactly(r: OutcomeReceipt)
    ensures IsSupported(r) <==> Current(r)
    ensures Classify(r) == VerifiedSimulation <==> Verified(r)
    ensures Classify(r) == IntegrityFailure <==> Failing(r)
  {
    hide Lit;
  }

  function VerifiedAt(receipts: seq<OutcomeReceipt>): set<nat> {
    set i: nat | i < |receipts| && Verified(receipts[i])
  }

  function FailingAt(receipts: seq<OutcomeReceipt>): set<nat> {
    set i: nat | i < |receipts| && Failing(receipts[i])
  }

  function ClassAt(receipts: seq<OutcomeReceipt>, c: Classification): set<nat> {
    set i: nat | i < |receipts| && Classify(receipts[i]) == c
  }

  lemma {:induction false} CountIsSize(receipts: seq<OutcomeReceipt>, c: Classification)
    ensures Count(receipts, c) == |ClassAt(receipts, c)|
  {
    hide Classify, ClassAt;
    if receipts == [] {
      NoneAt(receipts, c);
    } else {
      var n, prior := |receipts| - 1, receipts[..|receipts| - 1];
      CountIsSize(prior, c);
      ClassUnroll(receipts, c);
    }
  }

  lemma NoneAt(receipts: seq<OutcomeReceipt>, c: Classification)
    requires receipts == []
    ensures ClassAt(receipts, c) == {}
  {
  }

  lemma ClassUnroll(receipts: seq<OutcomeReceipt>, c: Classification)
    requires receipts != []
    ensures var n := |receipts| - 1;
            var before := ClassAt(receipts[..n], c);
            n !in before && ClassAt(receipts, c) == if Classify(receipts[n]) == c then before + {n} else before
  {
    hide Classify;
  }

  lemma CountsAreSizes(receipts: seq<OutcomeReceipt>)
    ensures Count(receipts, VerifiedSimulation) == |VerifiedAt(receipts)|
    ensures Count(receipts, IntegrityFailure) == |FailingAt(receipts)|
  {
    hide Classify, Verified, Failing, Count;
    CountIsSize(receipts, VerifiedSimulation);
    CountIsSize(receipts, IntegrityFailure);
    forall i: nat | i < |receipts|
      ensures Classify(receipts[i]) == VerifiedSimulation <==> Verified(receipts[i])
      ensures Classify(receipts[i]) == IntegrityFailure <==> Failing(receipts[i])
    {
      ClassifyExactly(receipts[i]);
    }
    assert ClassAt(receipts, VerifiedSimulation) == VerifiedAt(receipts);
    assert ClassAt(receipts, IntegrityFailure) == FailingAt(receipts);
  }

  /** Two supported receipts are for different tenants. */
  ghost predicate Mixed(receipts: seq<OutcomeReceipt>) {
    exists i, j | 0 <= i < j < |receipts| ::
      Current(receipts[i]) && Current(receipts[j]) && receipts[i].tenant != receipts[j].tenant
  }

  lemma MixedIff(receipts: seq<OutcomeReceipt>)
    ensures |Tenants(receipts)| > 1 <==> Mixed(receipts)
  {
    hide Current, IsSupported;
    forall i | 0 <= i < |receipts| ensures IsSupported(receipts[i]) <==> Current(receipts[i]) {
      ClassifyExactly(receipts[i]);
    }
    var tenants := Tenants(receipts);
    if |tenants| > 1 {
      var t :| t in tenants;
      var u :| u in tenants - {t} by { assert |tenants - {t}| == |tenants| - 1; }
      var i :| 0 <= i < |receipts| && IsSupported(receipts[i]) && receipts[i].tenant == t;
      var j :| 0 <= j < |receipts| && IsSupported(receipts[j]) && receipts[j].tenant == u;
      assert i < j || j < i;
    }
    if Mixed(receipts) {
      var i, j :| 0 <= i < j < |receipts| && Current(receipts[i]) && Current(receipts[j])
                  && receipts[i].tenant != receipts[j].tenant;
      SubsetSize({receipts[i].tenant, receipts[j].tenant}, tenants);
    }
  }

  /** The verdict some receipts deserve: the first condition that holds decides. */
  ghost predicate Deserves(receipts: seq<OutcomeReceipt>, state: TrustState, reason: TrustReason) {
    var verified, failing := |VerifiedAt(receipts)|, FailingAt(receipts) != {};
    && (reason == MixedTenants <==> Mixed(receipts))
    && (reason == IntegrityFailureNeedsReview <==> !Mixed(receipts) && failing)
    && (reason == ThreeOrMoreVerified <==> !Mixed(receipts) && !failing && verified >= 3)
    && (reason == MoreVerifiedRequired <==> !Mixed(receipts) && !failing && 1 <= verified <= 2)
    && (reason == NoneVerified <==> !Mixed(receipts) && !failing && verified == 0)
    && (state == Suspended <==> Mixed(receipts) || failing)
    && (state == Earned <==> !Mixed(receipts) && !failing && verified >= 3)
    && (state == Observing <==> !Mixed(receipts) && !failing && 1 <= verified <= 2)
    && (state == Unproven <==> !Mixed(receipts) && !failing && verified == 0)
  }

  /**
   Every verdict and reason by what the receipts say: mixed tenants, then any failing receipt, suspend;
   otherwise three verified receipts earn trust, one or two are observed, none is unproven. The counts
   are the numbers of such receipts.
   */
  lemma VerdictExactly(receipts: seq<OutcomeReceipt>)
    ensures var a := Assessment(receipts);
            && Deserves(receipts, a.state, a.reason) && a.evidenceCount == |receipts|
            && a.verifiedCount == |VerifiedAt(receipts)| && a.failureCount == |FailingAt(receipts)|
            && |a.evidence| == |receipts|
            && (forall i | 0 <= i < |receipts| ::
                  && a.evidence[i].receipt == receipts[i]
                  && (a.evidence[i].classification == VerifiedSimulation <==> Verified(receipts[i]))
                  && (a.evidence[i].classification == IntegrityFailure <==> Failing(receipts[i])))
  {
    hide Count, Tenants, VerifiedAt, FailingAt, Mixed, Verified, Failing, Classify;
    CountsAreSizes(receipts);
    MixedIff(receipts);
    EmptyIff(FailingAt(receipts));
    forall i | 0 <= i < |receipts|
      ensures Classify(receipts[i]) == VerifiedSimulation <==> Verified(receipts[i])
      ensures Classify(receipts[i]) == IntegrityFailure <==> Failing(receipts[i])
    {
      ClassifyExactly(receipts[i]);
    }
  }

  lemma EmptyIff(s: set<nat>)
    ensures |s| == 0 <==> s == {}
  {
  }

  /** The assessment names a tenant exactly when all supported receipts, at least one, are for it. */
  lemma TenantExactly(receipts: seq<OutcomeReceipt>, t: Text)
    ensures Assessment(receipts).tenant == Some(t) <==>
            && (exists i :: 0 <= i < |receipts| && Current(receipts[i]))
            && forall i | 0 <= i < |receipts| && Current(receipts[i]) :: receipts[i].tenant == t
  {
    hide Count, Evidence, Judge, Current, IsSupported;
    forall i | 0 <= i < |receipts| ensures IsSupported(receipts[i]) <==> Current(receipts[i]) {
      ClassifyExactly(receipts[i]);
    }
    var tenants := Tenants(receipts);
    if Assessment(receipts).tenant == Some(t) {
      forall i | 0 <= i < |receipts| && Current(receipts[i]) ensures receipts[i].tenant == t {
        Singleton(tenants, t, receipts[i].tenant);
      }
    }
    if (exists i :: 0 <= i < |receipts| && Current(receipts[i]))
       && forall i | 0 <= i < |receipts| && Current(receipts[i]) :: receipts[i].tenant == t {
      var i :| 0 <= i < |receipts| && Current(receipts[i]);
      assert receipts[i].tenant in tenants;
      assert tenants == {t};
    }
  }

  /** Trust is earned exactly by one tenant with no failure and at least three verified receipts. */
  lemma EarnedIff(receipts: seq<OutcomeReceipt>)
    ensures Assessment(receipts).state == Earned <==>
            |Tenants(receipts)| == 1 && Count(receipts, IntegrityFailure) == 0
              && Count(receipts, VerifiedSimulation) >= 3
  {
    hide Count, Tenants, Evidence;
    VerifiedNamesTenant(receipts);
    if Tenants(receipts) == {} { assert |Tenants(receipts)| == 0; } else { assert |Tenants(receipts)| > 0; }
  }

  /** More receipts never lift a suspension. */
  lemma SuspensionPersists(receipts: seq<OutcomeReceipt>, more: seq<OutcomeReceipt>)
    requires Assessment(receipts).state == Suspended
    ensures Assessment(receipts + more).state == Suspended
  {
    hide Count, Evidence, IsSupported;
    CountAppend(receipts, more, IntegrityFailure);
    var all := receipts + more;
    assert Tenants(receipts) <= Tenants(all) by {
      forall t | t in Tenants(receipts) ensures t in Tenants(all) {
        var i :| 0 <= i < |receipts| && IsSupported(receipts[i]) && receipts[i].tenant == t;
        assert all[i].tenant == t;
      }
    }
    SubsetSize(Tenants(receipts), Tenants(all));
  }

  lemma SubsetSize(a: set<Text>, b: set<Text>)
    requires a <= b
    ensures |a| <= |b|
  {
    assert b == a + (b - a);
  }

  // ---------------------------------------------------------------- the receipts of a run of the support loop

  function ReceiptOf(outcome: LoopOutcome): Option<OutcomeReceipt> {
    match outcome
    case Ok(r) => r.receipt
    case Err(_) => None
  }

  lemma CompletedReceipt(config: Config, input: Input, attempt: Attempt, id: Option<Text>)
    requires input.event.caseId in config.cases
    ensures var outcome := Completed(config, input, attempt, id);
            && IsAttempt(outcome) && ReceiptOf(outcome).Some?
            && Classify(ReceiptOf(outcome).value)
               == (if IsSimulated(outcome) then VerifiedSimulation else IntegrityFailure)
            && ReceiptOf(outcome).value.tenant == config.cases[input.event.caseId].tenant
            && IsSupported(ReceiptOf(outcome).value)
  {
    hide RunId, SourceDigest, FixtureDigest, EvaluatePolicy, Handoff, Format;
  }

  /** A result that follows a won claim is the completion of some attempt. */
  lemma ContinuedReceipt(config: Config, input: Input, warrants: Records) returns (attempt: Attempt, id: Option<Text>)
    requires input.event.caseId in config.cases
    ensures var outcome := Continue(config, input, warrants).0;
            outcome.Ok? ==> outcome == Completed(config, input, attempt, id)
  {
    hide Execute, Completed, Encodable, UseFor, IssueFor;
    attempt, id := Attempt(Refused(Deny), WarrantExpired, None), None;
    match IssueFor(config, input)
    case Err(_) =>
    case Ok(issued) =>
      if !issued.verdict.Allow? || issued.warrant.None? {
        attempt := Attempt(Refused(issued.verdict), issued.reason, None);
      } else {
        id := Some(issued.warrant.value.warrantId);
        var executed := Execute(config, UseFor(input, issued.warrant.value), warrants).0;
        if executed.Ok? { attempt := executed.value; }
      }
  }

  /** An outcome carries a receipt exactly when it is an attempted result, verified exactly when it is simulated. */
  lemma StepReceipt(config: Config, st: LoopState, input: Input)
    ensures var outcome := Step(config, st, input).0;
            && (ReceiptOf(outcome).Some? <==> IsAttempt(outcome))
            && (IsSimulated(outcome) ==> IsAttempt(outcome))
            && (match ReceiptOf(outcome)
                case None => true
                case Some(r) =>
                  && Classify(r) == (if IsSimulated(outcome) then VerifiedSimulation else IntegrityFailure)
                  && IsSupported(r)
                  && input.event.caseId in config.cases && r.tenant == config.cases[input.event.caseId].tenant)
  {
    hide Continue, Completed, ScopedKey, SyntheticKey, Classify, IsSupported, RunId;
    if input.event.caseId in config.cases {
      var attempt, id := ContinuedReceipt(config, input, st.warrants);
      CompletedReceipt(config, input, attempt, id);
    }
  }

  /** The receipts of a run, in order. */
  function RunReceipts(config: Config, inputs: seq<Input>): seq<OutcomeReceipt> {
    if inputs == [] then []
    else
      var n := |inputs| - 1;
      RunReceipts(config, inputs[..n])
        + (match ReceiptOf(SupportLoop.OutcomeAt(config, inputs, n)) case None => [] case Some(r) => [r])
  }

  function AttemptTenant(config: Config, input: Input): Option<Text> {
    if input.event.caseId in config.cases then Some(config.cases[input.event.caseId].tenant) else None
  }

  lemma AttemptsUnroll(config: Config, inputs: seq<Input>)
    requires inputs != []
    ensures var n, prior := |inputs| - 1, inputs[..|inputs| - 1];
            && n !in Attempts(config, prior)
            && Attempts(config, inputs) ==
               Attempts(config, prior) + (if IsAttempt(SupportLoop.OutcomeAt(config, inputs, n)) then {n} else {})
  {
    hide Step, IsAttempt;
    var n, prior := |inputs| - 1, inputs[..|inputs| - 1];
    forall i: nat | i < n ensures SupportLoop.OutcomeAt(config, inputs, i) == SupportLoop.OutcomeAt(config, prior, i) {
      assert inputs[..i] == prior[..i];
    }
  }

  /** The counts over a run's receipts are the counts of its results. */
  lemma {:induction false} RunCounts(config: Config, inputs: seq<Input>)
    ensures Count(RunReceipts(config, inputs), VerifiedSimulation) == |Simulations(config, inputs)|
    ensures |RunReceipts(config, inputs)| == |Attempts(config, inputs)|
    ensures Count(RunReceipts(config, inputs), Ignored) == 0
    ensures Simulations(config, inputs) <= Attempts(config, inputs)
  {
    hide Step, IsSimulated, IsAttempt, Classify, ReceiptOf, Claimings, Count, RunReceipts;
    ReceiptsUnroll(config, inputs);
    if inputs == [] {
      assert Simulations(config, inputs) == {} && Attempts(config, inputs) == {};
      NothingCounted();
    } else {
      var n, prior := |inputs| - 1, inputs[..|inputs| - 1];
      RunCounts(config, prior);
      RunUnroll(config, inputs);
      AttemptsUnroll(config, inputs);
      StepReceipt(config, SupportLoop.After(config, prior), inputs[n]);
      match ReceiptOf(SupportLoop.OutcomeAt(config, inputs, n))
      case None =>
      case Some(r) => CountSnoc(RunReceipts(config, prior), r);
    }
  }

  lemma NothingCounted()
    ensures forall c :: Count([], c) == 0
  {
  }

  lemma CountSnoc(receipts: seq<OutcomeReceipt>, r: OutcomeReceipt)
    ensures forall c :: Count(receipts + [r], c) == Count(receipts, c) + (if Classify(r) == c then 1 else 0)
  {
    hide Classify;
    assert (receipts + [r])[..|receipts|] == receipts;
  }

  lemma ReceiptsUnroll(config: Config, inputs: seq<Input>)
    ensures if inputs == [] then RunReceipts(config, inputs) == []
            else
              var n := |inputs| - 1;
              var prior := RunReceipts(config, inputs[..n]);
              RunReceipts(config, inputs) ==
                match ReceiptOf(SupportLoop.OutcomeAt(config, inputs, n)) case None => prior case Some(r) => prior + [r]
  {
    hide Step, ReceiptOf;
    if inputs != [] {
      var prior := RunReceipts(config, inputs[..|inputs| - 1]);
      assert prior + [] == prior;
    }
  }

  /** The tenants of a run's receipts are those of the cases its attempted calls were about. */
  lemma {:induction false} RunTenants(config: Config, inputs: seq<Input>, t: Text)
    ensures t in Tenants(RunReceipts(config, inputs)) <==>
              exists i: nat :: i in Attempts(config, inputs) && AttemptTenant(config, inputs[i]) == Some(t)
  {
    hide Step, IsSimulated, IsAttempt, Classify, ReceiptOf, IsSupported;
    if inputs == [] {
      NoTenants();
      assert RunReceipts(config, inputs) == [];
    } else {
      var n, prior := |inputs| - 1, inputs[..|inputs| - 1];
      RunTenants(config, prior, t);
      AttemptsUnroll(config, inputs);
      StepReceipt(config, SupportLoop.After(config, prior), inputs[n]);
      var receipts := RunReceipts(config, prior);
      match ReceiptOf(SupportLoop.OutcomeAt(config, inputs, n))
      case None => assert receipts + [] == receipts;
      case Some(r) => TenantsStep(receipts, r);
      assert forall i: nat :: i in Attempts(config, prior) ==> i < n && prior[i] == inputs[i];
    }
  }

  /** Over any run, each attempted result's receipt is verified exactly when the result is simulated. */
  lemma LoopReceiptVerifiedIff(config: Config, inputs: seq<Input>, i: nat)
    requires i in Attempts(config, inputs)
    ensures match ReceiptOf(SupportLoop.OutcomeAt(config, inputs, i))
            case Some(r) => Classify(r)
              == (if i in Simulations(config, inputs) then VerifiedSimulation else IntegrityFailure)
            case None => false
  {
    hide Step, IsSimulated, Classify, ReceiptOf;
    StepReceipt(config, SupportLoop.After(config, inputs[..i]), inputs[i]);
  }

  /** All attempted calls of the run are for one tenant. */
  ghost predicate OneTenant(config: Config, inputs: seq<Input>) {
    forall i, j | i in Attempts(config, inputs) && j in Attempts(config, inputs) ::
      AttemptTenant(config, inputs[i]) == AttemptTenant(config, inputs[j])
  }

  /**
   A run of the support loop is suspended exactly when some attempted result is not simulated or two
   are for different tenants, and earns trust exactly when all its attempted results are simulated, at
   least three, and for one tenant.
   */
  lemma RunTrustIff(config: Config, inputs: seq<Input>)
    ensures var state := Assessment(RunReceipts(config, inputs)).state;
            && (state == Suspended <==>
                  !(Attempts(config, inputs) <= Simulations(config, inputs)) || !OneTenant(config, inputs))
            && (state == Earned <==>
                  && Attempts(config, inputs) <= Simulations(config, inputs)
                  && |Attempts(config, inputs)| >= 3 && OneTenant(config, inputs))
  {
    hide Count, Evidence, RunReceipts, Attempts, Simulations, Tenants;
    var receipts := RunReceipts(config, inputs);
    RunCounts(config, inputs);
    CountsPartition(receipts);
    SubsetEquality(Simulations(config, inputs), Attempts(config, inputs));
    OneTenantIff(config, inputs);
    EarnedIff(receipts);
    VerifiedNamesTenant(receipts);
    if Tenants(receipts) == {} { assert |Tenants(receipts)| == 0; }
  }

  lemma AttemptsNameTenants(config: Config, inputs: seq<Input>, i: nat)
    requires i in Attempts(config, inputs)
    ensures AttemptTenant(config, inputs[i]).Some?
  {
    hide Step, IsSimulated, Classify, ReceiptOf;
    StepReceipt(config, SupportLoop.After(config, inputs[..i]), inputs[i]);
  }

  lemma OneTenantIff(config: Config, inputs: seq<Input>)
    ensures OneTenant(config, inputs) <==> |Tenants(RunReceipts(config, inputs))| <= 1
  {
    hide Step, Tenants, RunReceipts, AttemptTenant;
    var tenants := Tenants(RunReceipts(config, inputs));
    if |tenants| <= 1 {
      forall i, j | i in Attempts(config, inputs) && j in Attempts(config, inputs)
        ensures AttemptTenant(config, inputs[i]) == AttemptTenant(config, inputs[j])
      {
        AttemptsNameTenants(config, inputs, i);
        AttemptsNameTenants(config, inputs, j);
        var t, u := AttemptTenant(config, inputs[i]).value, AttemptTenant(config, inputs[j]).value;
        RunTenants(config, inputs, t);
        RunTenants(config, inputs, u);
        assert |tenants| == 1 by { assert |tenants - {t}| == |tenants| - 1; }
        Singleton(tenants, t, u);
      }
    } else if OneTenant(config, inputs) {
      var t :| t in tenants;
      var u :| u in tenants - {t} by { assert |tenants - {t}| == |tenants| - 1; }
      RunTenants(config, inputs, t);
      RunTenants(config, inputs, u);
      assert false;
    }
  }
}
