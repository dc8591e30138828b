/**
 One source whose content goes from a to b, back to a, and to b again, with an owner decision in
 between: the decided item comes back undecided. The same contents give an open item on which two
 overlapping decisions are both recorded.
 */
module ReturningChange {
  import opened Wrappers
  import opened Texts
  import opened Timestamps
  import opened Json
  import opened Encoding
  import opened Envelopes
  import opened RegistryEvents
  import opened PageEvidence
  import opened RegistryModel
  import opened RegistryWatch
  import opened RegistryHistory
  import opened WatchWorkers
  import opened WatchQueue
  import opened SerialWorkers

  function SourceId(): Text { Lit("registry") }

  function TheSource(): RegistrySource {
    RegistrySource(SourceId(), Lit("Registry"), Lit("https://registry"), Lit("state"), Lit("owner"), Lit("daily"),
      Lit("focus"))
  }

  function TheSetup(): Setup { Setup(map[SourceId() := TheSource()], _ => None) }

  function CaptureOf(content: Text): SourceCapture {
    SourceCapture(SourceId(), TheSource().canonicalUrl, Lit("v"), Format(0), content, Lit("n"))
  }

  function SnapshotOf(content: Text): Snapshot {
    Snapshot(SourceId(), TheSource().canonicalUrl, Lit("v"), Format(0), Sha256Hex(content), Utf8Length(content),
      Lit("n"),
             SegmentHashes(content))
  }

  /** The source shows this content, the brief is the deterministic one, and no delivery is configured. */
  function Showing(content: Text): World {
    World(_ => Some(CaptureOf(content)), ch => DeterministicBrief(ch), _ => Rejected, 0, 0)
  }

  function Call(id: Text, content: Text): Op { Watched(SomeWatch(id), Showing(content)) }

  function Acknowledging(id: Text): Op { Decided(id, Lit("acknowledge"), 0) }

  function ItemId(a: Text, b: Text): Text {
    CandidateId(BriefId(SourceId(), Sha256Hex(a), Sha256Hex(b)), Sha256Hex(b))
  }

  lemma SetupFacts()
    ensures WellKeyed(TheSetup().sources) && SourceId() in TheSetup().sources
    ensures TheSetup().sources[SourceId()] == TheSource() && TheSource().sourceId == SourceId()
  {
    hide Lit;
  }

  lemma EventFacts(id: Text)
    requires Sound(id)
    ensures ValidateEvent(TheSetup().sources, TheSetup().lenient, SomeWatch(id)) == Ok(TheSource())
    ensures SomeWatch(id).sourceId == SourceId()
  {
    hide NormalizeTimestamp, Format, Strip, Lit, TheSource;
    NormalizeFormat(TheSetup().lenient, 0);
    StripFixed(id);
  }

  lemma Observed(content: Text)
    requires Encodable(content)
    ensures ValidatedSnapshot(TheSetup().lenient, TheSource(), CaptureOf(content)) == Ok(SnapshotOf(content))
    ensures Observe(TheSetup().lenient, TheSource(), Showing(content))
            == Ok(Evidence(CaptureOf(content), SnapshotOf(content)))
  {
    hide NormalizeTimestamp, Format, Lit, SegmentHashes, Encodable, Utf8Length;
    NormalizeFormat(TheSetup().lenient, 0);
  }

  lemma KeysDiffer(id: Text, other: Text)
    requires Basic(id) && id != other
    ensures WatchKey(SomeWatch(id)) != WatchKey(SomeWatch(other))
  {
    hide WatchKey, Joined, Lit, Format, Basic;
    WatchKeysEqualIff(SomeWatch(id), SomeWatch(other));
    if Joined(other) == Joined(id) { BasicHasOneSpelling(id, other); }
  }

  predicate Fresh(h: History, id: Text) { First(TheSetup(), h, WatchKey(SomeWatch(id))) == None }

  lemma FreshAfter(h: History, op: Op, id: Text)
    requires Fresh(h, id) && !Asks(TheSetup(), op, WatchKey(SomeWatch(id)))
    ensures Fresh(h + [op], id)
  {
    hide Asks, WatchKey, TheSetup, First, SomeWatch;
    FirstSkips(TheSetup(), h, op, WatchKey(SomeWatch(id)));
  }

  lemma FirstSkips(setup: Setup, h: History, op: Op, key: Text)
    requires First(setup, h, key) == None && !Asks(setup, op, key)
    ensures First(setup, h + [op], key) == None
  {
    hide Asks;
    assert (h + [op])[..|h|] == h;
  }

  lemma CallAsksOnlyItsKey(id: Text, content: Text, other: Text)
    requires Basic(id) && id != other
    ensures !Asks(TheSetup(), Call(id, content), WatchKey(SomeWatch(other)))
  {
    hide WatchKey, ValidateEvent, SomeWatch, TheSetup, Showing, Basic;
    KeysDiffer(id, other);
  }

  lemma DecisionAsksNothing(id: Text, other: Text)
    ensures !Asks(TheSetup(), Acknowledging(id), WatchKey(SomeWatch(other)))
  {
    hide WatchKey, ValidateEvent, TheSetup;
  }

  /** The first call with an id makes its content the last validated one. */
  lemma CallValidates(h: History, id: Text, content: Text)
    requires Fresh(h, id) && Sound(id) && Encodable(content)
    ensures LastValidated(TheSetup(), h + [Call(id, content)], SourceId()) == Some(SnapshotOf(content))
  {
    hide WatchKey, ValidateEvent, Observe, SnapshotOf, CaptureOf, Showing, TheSetup, TheSource, SourceId, SomeWatch,
         Sound, Encodable;
    var g := h + [Call(id, content)];
    assert g[..|h|] == h && g[|h|] == Call(id, content);
    SetupFacts();
    EventFacts(id);
    Observed(content);
    CallAsks(id, content);
  }

  lemma CallAsks(id: Text, content: Text)
    requires Sound(id)
    ensures Asks(TheSetup(), Call(id, content), WatchKey(SomeWatch(id)))
  {
    hide WatchKey, ValidateEvent, SomeWatch, TheSetup, Showing, TheSource, Sound;
    EventFacts(id);
  }

  lemma DecisionValidatesNothing(h: History, id: Text)
    ensures LastValidated(TheSetup(), h + [Acknowledging(id)], SourceId()) == LastValidated(TheSetup(), h, SourceId())
  {
    hide TheSetup, SourceId, First;
    var g := h + [Acknowledging(id)];
    assert g[..|h|] == h && g[|h|] == Acknowledging(id);
  }

  /** The change from a to b is briefed from its evidence, and its ids can be hashed. */
  lemma ChangeIsBriefed(a: Text, b: Text)
    requires Encodable(a) && Encodable(b)
    ensures var change := ChangeOf(TheSource(), SnapshotOf(a), SnapshotOf(b), CaptureOf(b));
            BriefOf(Showing(b), change).Some? && FromEvidence(change, BriefOf(Showing(b), change).value)
  {
    hide AdvanceSummary, ReviewAction, SegmentHashes, Utf8Length, ChangedExcerpt, ChangedSegments, BriefSeedText,
         Encodable, Format;
    LitEncodable("registry");
    LitEncodable("registry_brief_");
    SeedEncodableIff(SourceId(), a, b);
    ExcerptEncodable(SegmentHashes(a), b);
    DigestIsEncodable(BriefSeedText(SourceId(), Sha256Hex(a), Sha256Hex(b)));
    DigestIsEncodable(b);
  }

  lemma DigestIsEncodable(t: Text)
    ensures Encodable(Sha256Hex(t)) && Encodable(Lit("registry_brief_") + Sha256Hex(t))
  {
    LitEncodable("registry_brief_");
  }

  lemma ContentsClassify(a: Text, b: Text)
    ensures Classify(Some(SnapshotOf(a)), SnapshotOf(b)) == (if a == b then Unchanged else Changed)
  {
    hide SegmentHashes, Utf8Length, Format, Lit;
    assert Sha256Hex(a)[0] == Hex(Sha256(a)) && Sha256Hex(b)[0] == Hex(Sha256(b));
  }

  predicate AwaitsReview(candidates: map<Text, ActionCandidate>, id: Text) {
    id in candidates && candidates[id].status == AwaitingOwnerReview && candidates[id].ownerDecision == Unresolved
  }

  predicate IsAcknowledged(candidates: map<Text, ActionCandidate>, id: Text) {
    id in candidates && candidates[id].status == OwnerAcknowledged && candidates[id].ownerDecision == Acknowledge
  }

  function Queue(h: History): map<Text, ActionCandidate> { After(TheSetup(), h).candidates }

  /** A first call that finds b after a opens the item of that change and touches no other. */
  lemma ChangeOpens(h: History, id: Text, a: Text, b: Text)
    requires Fresh(h, id) && Sound(id) && Encodable(a) && Encodable(b) && a != b
    requires LastValidated(TheSetup(), h, SourceId()) == Some(SnapshotOf(a))
    ensures AwaitsReview(Queue(h + [Call(id, b)]), ItemId(a, b))
    ensures forall other | other in Queue(h) && other != ItemId(a, b) ::
              other in Queue(h + [Call(id, b)]) && Queue(h + [Call(id, b)])[other] == Queue(h)[other]
    ensures forall other | other != ItemId(a, b) && IsAcknowledged(Queue(h), other) ::
              IsAcknowledged(Queue(h + [Call(id, b)]), other)
  {
    hide WatchKey, ValidateEvent, Observe, Showing, TheSetup, TheSource, SourceId, SomeWatch, Sound, Encodable, After,
         BriefOf, ChangeOf, Classify, CandidateId, BriefId, FromEvidence, LastValidated, First, SnapshotOf, CaptureOf;
    var g := h + [Call(id, b)];
    assert g[..|h|] == h && g[|h|] == Call(id, b);
    SetupFacts();
    EventFacts(id);
    Observed(b);
    ContentsClassify(a, b);
    ChangeIsBriefed(a, b);
    ReturningChangeReopens(TheSetup(), g, Evidence(CaptureOf(b), SnapshotOf(b)), SnapshotOf(a));
    Digests(a);
    Digests(b);
  }

  lemma Digests(a: Text)
    ensures SnapshotOf(a).evidenceDigest == Sha256Hex(a)
  {
    hide SegmentHashes, Utf8Length, Format, Lit, Sha256Hex;
  }

  lemma OwnerAcknowledges(h: History, id: Text)
    requires AwaitsReview(Queue(h), id)
    ensures IsAcknowledged(Queue(h + [Acknowledging(id)]), id)
  {
    hide NormalizeTimestamp, Format, Lit, TheSetup, Process;
    var g := h + [Acknowledging(id)];
    assert g[..|h|] == h;
    NormalizeFormat(TheSetup().lenient, 0);
    DecisionsRead();
  }

  function Changing(a: Text, b: Text): History {
    [Call(Lit("1"), a), Call(Lit("2"), b)]
  }

  function Reviewed(a: Text, b: Text): History {
    Changing(a, b) + [Acknowledging(ItemId(a, b))]
  }

  lemma IdsDiffer()
    ensures Basic(Lit("1")) && Basic(Lit("2")) && Basic(Lit("3")) && Basic(Lit("4"))
    ensures Sound(Lit("1")) && Sound(Lit("2")) && Sound(Lit("3")) && Sound(Lit("4"))
    ensures Lit("1") != Lit("2") && Lit("1") != Lit("3") && Lit("1") != Lit("4")
    ensures Lit("2") != Lit("3") && Lit("2") != Lit("4") && Lit("3") != Lit("4")
  {
    LitIsBasic("1");
    LitIsBasic("2");
    LitIsBasic("3");
    LitIsBasic("4");
    assert Lit("1")[0] == Ch('1' as int) && Lit("2")[0] == Ch('2' as int);
    assert Lit("3")[0] == Ch('3' as int) && Lit("4")[0] == Ch('4' as int);
  }

  lemma ChangingIs(a: Text, b: Text)
    ensures Changing(a, b) == [] + [Call(Lit("1"), a)] + [Call(Lit("2"), b)]
    ensures Reviewed(a, b) == Changing(a, b) + [Acknowledging(ItemId(a, b))]
  {
    hide Call, Lit, ItemId;
  }

  lemma NoneAsked()
    ensures forall id :: Fresh([], id)
  {
    hide WatchKey, TheSetup, SomeWatch;
  }

  /** After a and then b, both calls are spent, b is the last content, and the item of the change is open. */
  lemma ChangingOpens(a: Text, b: Text)
    requires Encodable(a) && Encodable(b) && a != b
    ensures AwaitsReview(Queue(Changing(a, b)), ItemId(a, b))
    ensures LastValidated(TheSetup(), Changing(a, b), SourceId()) == Some(SnapshotOf(b))
    ensures Fresh(Changing(a, b), Lit("3")) && Fresh(Changing(a, b), Lit("4"))
  {
    hide *;
    IdsDiffer();
    NoneAsked();
    var h0: History, x, y := [], Call(Lit("1"), a), Call(Lit("2"), b);
    var h1 := h0 + [x];
    ChangingIs(a, b);
    CallAsksOnlyItsKey(Lit("1"), a, Lit("2"));
    CallAsksOnlyItsKey(Lit("1"), a, Lit("3"));
    CallAsksOnlyItsKey(Lit("1"), a, Lit("4"));
    CallAsksOnlyItsKey(Lit("2"), b, Lit("3"));
    CallAsksOnlyItsKey(Lit("2"), b, Lit("4"));
    FreshAfter(h0, x, Lit("2"));
    FreshAfter(h0, x, Lit("3"));
    FreshAfter(h0, x, Lit("4"));
    FreshAfter(h1, y, Lit("3"));
    FreshAfter(h1, y, Lit("4"));
    CallValidates(h0, Lit("1"), a);
    CallValidates(h1, Lit("2"), b);
    ChangeOpens(h1, Lit("2"), a, b);
  }

  /**
   Content a, then b: the item is open. The owner acknowledges it. Content a again: it stays
   acknowledged. Content b again: the same item is open and undecided.
   */
  lemma DecidedItemComesBack(a: Text, b: Text)
    requires Encodable(a) && Encodable(b) && a != b
    ensures var back := Reviewed(a, b) + [Call(Lit("3"), a)];
            && AwaitsReview(Queue(Changing(a, b)), ItemId(a, b))
            && IsAcknowledged(Queue(Reviewed(a, b)), ItemId(a, b))
            && IsAcknowledged(Queue(back), ItemId(a, b))
            && AwaitsReview(Queue(back + [Call(Lit("4"), b)]), ItemId(a, b))
  {
    hide *;
    IdsDiffer();
    ChangingOpens(a, b);
    ChangingIs(a, b);
    var item, h := ItemId(a, b), Changing(a, b);
    OwnerAcknowledges(h, item);
    DecisionAsksNothing(item, Lit("3"));
    DecisionAsksNothing(item, Lit("4"));
    FreshAfter(h, Acknowledging(item), Lit("3"));
    FreshAfter(h, Acknowledging(item), Lit("4"));
    DecisionValidatesNothing(h, item);
    var reviewed := Reviewed(a, b);
    ChangeOpens(reviewed, Lit("3"), b, a);
    CallValidates(reviewed, Lit("3"), a);
    CallAsksOnlyItsKey(Lit("3"), a, Lit("4"));
    FreshAfter(reviewed, Call(Lit("3"), a), Lit("4"));
    OtherItem(a, b);
    ChangeOpens(reviewed + [Call(Lit("3"), a)], Lit("4"), a, b);
  }

  lemma OtherItem(a: Text, b: Text)
    requires a != b
    ensures ItemId(a, b) != ItemId(b, a)
  {
    hide SourceId;
    CandidateIdsEqualIff(SourceId(), a, b, SourceId(), b, a);
  }

  // ---------------------------------------------------------------- overlapping decisions on that item

  function Watchers(a: Text, b: Text): seq<Job> {
    [Job(SomeWatch(Lit("1")), Showing(a)), Job(SomeWatch(Lit("2")), Showing(b))]
  }

  /**
   Two workers run in order and detect the change; then two overlapping decisions on its item are both
   recorded, with no detection in between, and the second overwrites the first.
   */
  lemma BothDecisionsAreRecorded(a: Text, b: Text, now: Instant)
    requires Encodable(a) && Encodable(b) && a != b
    ensures SecondOverwrites(TheSetup(), Watchers(a, b), Serial(2), ItemId(a, b), now)
  {
    hide *;
    ChangingOpens(a, b);
    SerialQueue(a, b);
    AwaitingIsOpen(TheSetup(), Watchers(a, b), Serial(2), ItemId(a, b));
    OverlappingDecisions(TheSetup(), Watchers(a, b), Serial(2), ItemId(a, b), now);
  }

  lemma SerialQueue(a: Text, b: Text)
    ensures Run(TheSetup(), Watchers(a, b), Serial(2)).store.candidates == Queue(Changing(a, b))
  {
    hide Run, TheSetup, Showing, SomeWatch, After, Serial, Lit;
    var jobs := Watchers(a, b);
    SerialIsHistory(TheSetup(), jobs, 2);
    assert jobs[..2] == jobs;
    assert HistoryOf(jobs) == Changing(a, b);
  }

  lemma AwaitingIsOpen(setup: Setup, jobs: seq<Job>, schedule: seq<Action>, id: Text)
    requires AwaitsReview(Run(setup, jobs, schedule).store.candidates, id)
    ensures PhaseOf(Run(setup, jobs, schedule).log, id) == Open
  {
    hide Run, PhaseOf, ReadWhenOpen, HeldFact;
    QueueFollowsLog(setup, jobs, schedule, id);
  }
}
