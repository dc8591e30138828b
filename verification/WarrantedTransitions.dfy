/**
 Which case tables let every consumed warrant run its tool. The scope check compares digests of
 printed arguments, and a split surrogate pair prints as the character it encodes, so a warrant can
 be consumed with another spelling of its transition, which the tool refuses unless it is listed too.
 */
module WarrantedTransitions {
  import opened Wrappers
  import opened Texts
  import opened Timestamps
  import opened Json
  import opened Fixtures
  import opened Events
  import opened ClaimStore
  import opened WarrantGateway
  import opened SupportLoop

  predicate RunsIfConsumed(config: Config, i: Issuance, u: Use, records: Records) {
    IssuedFor(config, i, u.warrant) && Consumes(config, u, records) ==> RunsSimulated(config, u, records)
  }

  /** Every consumption of every issued warrant runs as "simulated". */
  ghost predicate AlwaysRuns(cases: Cases) {
    forall config: Config, i: Issuance, u: Use, records: Records | config.cases == cases ::
      RunsIfConsumed(config, i, u, records)
  }

  predicate ListedSpelling(cases: Cases, c: Text, t: Text, d: Text, s: Text) {
    c in cases && d in cases && t in cases[c].allowedTransitions && SameSpelling(cases, c, t, d, s) ==>
      s in cases[d].allowedTransitions
  }

  /** Every spelling of a listed transition is listed, for every spelling of its case of the same tenant. */
  ghost predicate SpellingsListed(cases: Cases) {
    forall c: Text, t: Text, d: Text, s: Text :: ListedSpelling(cases, c, t, d, s)
  }

  lemma ListedSpellingsRun(config: Config, i: Issuance, u: Use, records: Records)
    requires SpellingsListed(config.cases)
    ensures RunsIfConsumed(config, i, u, records)
  {
    hide IssuedFor, Consumes, RunsSimulated, SameSpelling;
    if IssuedFor(config, i, u.warrant) && Consumes(config, u, records) {
      ConsumedRunsIff(config, i, u, records);
      assert ListedSpelling(config.cases, i.event.caseId, i.transition, u.event.caseId, u.transition);
    }
  }

  /** The checks before the claim cannot tell two spellings of a case and a transition apart. */
  lemma SpellingPasses(config: Config, u: Use, d: Text, s: Text)
    requires u.event.caseId in config.cases && d in config.cases
    requires SameSpelling(config.cases, u.event.caseId, u.transition, d, s)
    ensures Precheck(config, u.(event := u.event.(caseId := d), transition := s)) == Precheck(config, u)
  {
    hide Parse, SignatureIsValid, AsciiText, SyntheticKey, ArgumentsDigest, Lit, Joined, Strip;
    ArgumentsDigestsEqualIff(u.event.caseId, u.transition, d, s);
    SyntheticKeysEqualIff(u.event, u.event.(caseId := d));
  }

  function SomeEvent(caseId: Text): SyntheticEvent {
    SyntheticEvent(Lit("event"), SupportEventType(), DemoSource(), caseId, Format(0), EventSchemaVersion())
  }

  function SomeIssuance(cases: Cases, c: Text, t: Text): Issuance {
    Issuance(SomeEvent(c), Lit("run"), EvaluatePolicy(cases, SomeEvent(c)), t, Controls(false, {}), 0)
  }

  /** With the switches open, a known case and a listed transition, a warrant is issued. */
  lemma IssueSucceeds(config: Config, c: Text, t: Text) returns (w: ActionWarrant)
    requires c in config.cases && t in config.cases[c].allowedTransitions
    ensures IssuedFor(config, SomeIssuance(config.cases, c, t), w)
    ensures w.tenant == config.cases[c].tenant
    ensures exists seed :: w.warrantId == Lit("warrant_") + Sha256Hex(seed)
  {
    hide SimulatedTicketCapability, SimulatedTicketTool, PolicyVersion, UnsignedPayload, SyntheticKey, SomeEvent;
    hide ArgumentsDigest, Format, Body, Lit, Sha256Hex;
    var i := SomeIssuance(config.cases, c, t);
    EventCase(c);
    w := Issue(config, i.event, i.runId, i.decision, t, i.controls, 0).value.warrant.value;
  }

  lemma IssuedPasses(config: Config, i: Issuance, w: ActionWarrant, u: Use)
    requires IssuedFor(config, i, w) && i.controls.Allows(SimulatedTicketCapability())
    requires u == Use(w, i.event, i.runId, i.transition, i.controls, i.issuedAt)
    ensures Precheck(config, u) == Ok(WarrantResult(Allow, WarrantConsumed, Some(w)))
  {
    hide Issue, Precheck, SimulatedTicketCapability;
    ExpiryIsExact(config, i.event, i.runId, i.decision, i.transition, i.controls, i.issuedAt, u);
  }

  /** An unused warrant that passes the checks is consumed, and the tool answers for the presented spelling. */
  lemma UnusedRuns(config: Config, u: Use)
    requires Precheck(config, u) == Ok(WarrantResult(Allow, WarrantConsumed, Some(u.warrant))) && UseKey(u).Ok?
    ensures Consumes(config, u, map[])
    ensures var status := PrepareTransition(config.cases, u.event.caseId, u.transition);
            Execute(config, u, map[]).0 == Ok(Attempt(Tool(status), WarrantedSimulationOnly, Some(u.warrant.warrantId)))
  {
    hide Precheck, Strip, WarrantClaimKind;
  }

  lemma IssuedKey(u: Use, seed: Text)
    requires Strip(u.warrant.tenant) != [] && u.warrant.warrantId == Lit("warrant_") + Sha256Hex(seed)
    ensures UseKey(u).Ok?
  {
    hide Strip;
    KindShape();
    WarrantIdShape(seed);
  }

  /** A warrant is consumed under a spelling that is not listed, and the tool refuses to run. */
  lemma UnlistedSpellingIsRefused(cases: Cases, c: Text, t: Text, d: Text, s: Text)
    returns (config: Config, i: Issuance, u: Use)
    requires !ListedSpelling(cases, c, t, d, s)
    ensures config.cases == cases && i.transition == t && u.transition == s && IssuedFor(config, i, u.warrant)
            && Consumes(config, u, map[])
    ensures Execute(config, u, map[]).0
            == Ok(Attempt(Tool(ToolStatus.TransitionNotAllowed), WarrantedSimulationOnly, Some(u.warrant.warrantId)))
  {
    hide IssuedFor, Precheck, Consumes, Execute, UseKey, Joined, SomeEvent, Strip, Lit, Sha256Hex, EvaluatePolicy,
         SimulatedTicketCapability;
    config := Config(Lit("key"), cases, _ => None);
    i := SomeIssuance(cases, c, t);
    var w := IssueSucceeds(config, c, t);
    var issued := Use(w, i.event, i.runId, t, i.controls, 0);
    IssuedPasses(config, i, w, issued);
    EventCase(c);
    SpellingPasses(config, issued, d, s);
    u := issued.(event := i.event.(caseId := d), transition := s);
    var seed :| w.warrantId == Lit("warrant_") + Sha256Hex(seed);
    IssuedKey(u, seed);
    UnusedRuns(config, u);
  }

  lemma EventCase(c: Text)
    ensures SomeEvent(c).caseId == c
  {
    hide Format, Lit;
  }

  /** Consumed warrants always run exactly for the tables that list every spelling of what they list. */
  lemma AlwaysRunsIff(cases: Cases)
    ensures AlwaysRuns(cases) <==> SpellingsListed(cases)
  {
    hide RunsIfConsumed, ListedSpelling;
    if SpellingsListed(cases) {
      forall config: Config, i: Issuance, u: Use, records: Records | config.cases == cases
        ensures RunsIfConsumed(config, i, u, records)
      {
        ListedSpellingsRun(config, i, u, records);
      }
    } else {
      var c: Text, t: Text, d: Text, s: Text :| !ListedSpelling(cases, c, t, d, s);
      var config, i, u := UnlistedSpellingIsRefused(cases, c, t, d, s);
      RefusedIsNoRun(config, i, u);
    }
  }

  lemma RefusedIsNoRun(config: Config, i: Issuance, u: Use)
    requires IssuedFor(config, i, u.warrant) && Consumes(config, u, map[])
    requires Execute(config, u, map[]).0
             == Ok(Attempt(Tool(ToolStatus.TransitionNotAllowed), WarrantedSimulationOnly, Some(u.warrant.warrantId)))
    ensures !RunsIfConsumed(config, i, u, map[])
  {
    hide IssuedFor, Consumes, Execute;
  }

  /** Basic tables, the shipped one among them, list every spelling: there is only one of each. */
  lemma BasicTablesListSpellings(cases: Cases)
    requires BasicTable(cases)
    ensures SpellingsListed(cases)
  {
    hide Basic, Joined, Strip;
    forall c: Text, t: Text, d: Text, s: Text ensures ListedSpelling(cases, c, t, d, s) {
      if c in cases && d in cases && t in cases[c].allowedTransitions && SameSpelling(cases, c, t, d, s) {
        BasicHasOneSpelling(c, d);
        BasicHasOneSpelling(t, s);
      }
    }
  }

  /** The shipped program's gateway runs every warrant that is consumed, for what it was issued for. */
  lemma ShippedWarrantsRun(config: Config, i: Issuance, u: Use, records: Records)
    requires config.cases == ShippedCases()
    ensures AlwaysRuns(ShippedCases())
    ensures IssuedFor(config, i, u.warrant) && Consumes(config, u, records) ==>
              RunsSimulated(config, u, records) && u.event.caseId == i.event.caseId && u.transition == i.transition
  {
    hide *;
    ShippedTableIsBasic();
    BasicTablesListSpellings(ShippedCases());
    AlwaysRunsIff(ShippedCases());
    if IssuedFor(config, i, u.warrant) && Consumes(config, u, records) {
      IssuedExecutesSimulated(config, i, u, records);
    }
  }

  /** A table that lists U+1F600, which the program does not ship, refuses its two surrogates after consuming. */
  lemma SplitTransitionIsConsumedUnrun() returns (config: Config, i: Issuance, u: Use)
    ensures i.transition == Smile() && u.transition == SplitSmile()
    ensures IssuedFor(config, i, u.warrant) && Consumes(config, u, map[])
    ensures Execute(config, u, map[]).0
            == Ok(Attempt(Tool(ToolStatus.TransitionNotAllowed), WarrantedSimulationOnly, Some(u.warrant.warrantId)))
  {
    hide IssuedFor, Consumes, Execute, Joined, Strip, Smile, SplitSmile;
    var c, tenant := Lit("case"), Lit("tenant");
    var cases: Cases := map[c := SyntheticCase(tenant, [Smile()], [], [], [])];
    SmilesJoinAlike();
    StripFixed(tenant);
    assert SplitSmile() !in cases[c].allowedTransitions;
    config, i, u := UnlistedSpellingIsRefused(cases, c, Smile(), c, SplitSmile());
  }
}
