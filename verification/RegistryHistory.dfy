/** Whole histories of watch calls and owner decisions, handled one after another. */
module RegistryHistory {
  import opened Wrappers
  import opened Texts
  import opened Timestamps
  import opened Json
  import opened RegistryEvents
  import opened PageEvidence
  import opened RegistryModel
  import opened RegistryWatch

  datatype Op = Watched(event: WatchEvent, world: World) | Decided(candidateId: Text, decision: Text, now: Instant)

  type History = seq<Op>

  function Apply(setup: Setup, st: StoreState, op: Op): StoreState {
    match op
    case Watched(e, w) => Process(setup, st, e, w).1
    case Decided(id, decision, now) => ResolveAction(setup.lenient, st, id, decision, now).1
  }

  function After(setup: Setup, h: History): StoreState {
    if h == [] then EmptyStore() else Apply(setup, After(setup, h[..|h| - 1]), h[|h| - 1])
  }

  predicate EndsWatched(h: History) { h != [] && h[|h| - 1].Watched? }

  /** The engine's answer to the last call of a history. */
  function LastOutcome(setup: Setup, h: History): Outcome
    requires EndsWatched(h)
  {
    var n := |h| - 1;
    Process(setup, After(setup, h[..n]), h[n].event, h[n].world).0
  }

  /** The answer, when the last operation is a call. */
  function Answer(setup: Setup, h: History): Option<Outcome> {
    if EndsWatched(h) then Some(LastOutcome(setup, h)) else None
  }

  // ---------------------------------------------------------------- reference definitions, from the history alone

  predicate Asks(setup: Setup, op: Op, key: Text): (r: bool)
    ensures r ==> op.Watched?
  {
    op.Watched? && ValidateEvent(setup.sources, setup.lenient, op.event).Ok? && WatchKey(op.event) == key
  }

  /** The first accepted call with this idempotency key. */
  function First(setup: Setup, h: History, key: Text): (r: Option<nat>)
    ensures r.Some? ==> r.value < |h| && h[r.value].Watched?
  {
    hide Asks;
    if h == [] then None
    else
      var n := |h| - 1;
      var earlier := First(setup, h[..n], key);
      if earlier.Some? then earlier else if Asks(setup, h[n], key) then Some(n) else None
  }

  lemma {:induction false} FirstAsks(setup: Setup, h: History, key: Text)
    ensures First(setup, h, key).Some? ==> Asks(setup, h[First(setup, h, key).value], key)
    ensures forall j | 0 <= j < (if First(setup, h, key).Some? then First(setup, h, key).value else |h|) ::
            !Asks(setup, h[j], key)
  {
    hide Asks;
    if h != [] {
      var n := |h| - 1;
      FirstAsks(setup, h[..n], key);
      assert forall j | 0 <= j < n :: h[j] == h[..n][j];
    }
  }

  /**
   The evidence of the last call, when it is the first with its key, is for `sourceId`, and fetches a
   valid capture.
   */
  function FreshEvidence(setup: Setup, h: History, sourceId: Text): Option<Snapshot>
    requires h != []
  {
    var n := |h| - 1;
    if h[n].Watched? && h[n].event.sourceId == sourceId && First(setup, h, WatchKey(h[n].event)) == Some(n)
      && sourceId in setup.sources then
      match Observe(setup.lenient, setup.sources[sourceId], h[n].world)
      case Ok(seen) => Some(seen.snapshot)
      case Err(_) => None
    else None
  }

  function LastValidated(setup: Setup, h: History, sourceId: Text): Option<Snapshot> {
    if h == [] then None
    else if FreshEvidence(setup, h, sourceId).Some? then FreshEvidence(setup, h, sourceId)
    else LastValidated(setup, h[..|h| - 1], sourceId)
  }

  /** A pure classifier: what a first call answers, given the evidence before it. */
  function Verdict(setup: Setup, source: RegistrySource, prior: Option<Snapshot>, e: WatchEvent, w: World): Outcome {
    match Observe(setup.lenient, source, w)
    case Err(x) => Err(x)
    case Ok(seen) => Conclude(e, source, prior, seen, w).0
  }

  /** The answer to the last call, without any store. */
  function Expected(setup: Setup, h: History): Outcome
    requires EndsWatched(h)
    decreases |h|
  {
    hide ValidateEvent, WatchKey, Format, Verdict, LastValidated;
    var n := |h| - 1;
    var e, w := h[n].event, h[n].world;
    match ValidateEvent(setup.sources, setup.lenient, e)
    case Err(x) => Err(x)
    case Ok(source) =>
      match First(setup, h[..n], WatchKey(e))
      case None => Verdict(setup, source, LastValidated(setup, h[..n], e.sourceId), e, w)
      case Some(i) =>
        match Expected(setup, h[..i + 1])
        case Ok(run) => Ok(run)
        case Err(_) => Ok(DuplicateRun(e, RunIdOf(WatchKey(e)), Format(w.startedAt)))
  }

  /** The run the first call with this key completed. */
  function CompletedRun(setup: Setup, h: History, key: Text): Option<WatchRun> {
    match First(setup, h, key)
    case None => None
    case Some(i) => match Expected(setup, h[..i + 1]) case Ok(run) => Some(run) case Err(_) => None
  }

  // ---------------------------------------------------------------- the engine meets them

  predicate MirrorsSource(setup: Setup, st: StoreState, h: History, sourceId: Text) {
    Lookup(st.snapshots, sourceId) == LastValidated(setup, h, sourceId)
  }

  predicate MirrorsKey(setup: Setup, st: StoreState, h: History, key: Text) {
    && Lookup(st.claims, WatchScope(key)) == (if First(setup, h, key).Some? then Some(RunIdOf(key)) else None)
    && Lookup(st.runs, RunIdOf(key)) == CompletedRun(setup, h, key)
  }

  lemma CompletedFirst(setup: Setup, h: History)
    requires EndsWatched(h)
    ensures var n := |h| - 1;
            var e := h[n].event;
            ValidateEvent(setup.sources, setup.lenient, e).Ok? && First(setup, h[..n], WatchKey(e)).Some? ==>
              Expected(setup, h) ==
                match CompletedRun(setup, h[..n], WatchKey(e))
                case Some(run) => Ok(run)
                case None => Ok(DuplicateRun(e, RunIdOf(WatchKey(e)), Format(h[n].world.startedAt)))
  {
    hide WatchKey, RunIdOf, Format, DuplicateRun, ValidateEvent, First, LastValidated, Verdict;
    var n := |h| - 1;
    var f := First(setup, h[..n], WatchKey(h[n].event));
    if f.Some? { assert h[..n][..f.value + 1] == h[..f.value + 1]; }
  }

  /** The outcome of the last call follows from what the store before it mirrors. */
  lemma OutcomeFromMirror(setup: Setup, h: History)
    requires EndsWatched(h) && WellKeyed(setup.sources)
    requires var n := |h| - 1;
             && MirrorsSource(setup, After(setup, h[..n]), h[..n], h[n].event.sourceId)
             && MirrorsKey(setup, After(setup, h[..n]), h[..n], WatchKey(h[n].event))
    ensures LastOutcome(setup, h) == Expected(setup, h)
  {
    hide After, WatchKey, RunIdOf, WatchScope, Observe, Conclude, Format, LastValidated, First, DuplicateRun, SaveRun,
         SaveCandidate, ValidateEvent, CompletedRun;
    CompletedFirst(setup, h);
    ValidatedSource(setup, h[|h| - 1].event);
  }

  lemma ValidatedSource(setup: Setup, e: WatchEvent)
    requires WellKeyed(setup.sources)
    ensures match ValidateEvent(setup.sources, setup.lenient, e)
            case Ok(source) => e.sourceId in setup.sources && source == setup.sources[e.sourceId]
              && source.sourceId == e.sourceId
            case Err(_) => true
  {
    hide NormalizeTimestamp, Strip, Lit;
  }

  /** What a call does to the store, when its event is accepted. */
  lemma ClaimedStep(setup: Setup, st: StoreState, e: WatchEvent, w: World)
    requires WellKeyed(setup.sources) && ValidateEvent(setup.sources, setup.lenient, e).Ok?
    ensures e.sourceId in setup.sources && setup.sources[e.sourceId].sourceId == e.sourceId
    ensures var source := setup.sources[e.sourceId];
            var after := Process(setup, st, e, w).1;
            if WatchScope(WatchKey(e)) in st.claims then after == st
            else
              && after.claims == st.claims[WatchScope(WatchKey(e)) := RunIdOf(WatchKey(e))]
              && (match Observe(setup.lenient, source, w)
                  case Err(_) => after.snapshots == st.snapshots && after.runs == st.runs
                    && after.candidates == st.candidates
                  case Ok(seen) =>
                    && seen.snapshot.sourceId == e.sourceId
                    && after.snapshots == st.snapshots[e.sourceId := seen.snapshot]
                    && after.runs == SaveRun(st.runs, Process(setup, st, e, w).0)
                    && after.candidates == SaveCandidate(
                       st.candidates, Conclude(e, source, Lookup(st.snapshots, e.sourceId), seen, w).1))
  {
    hide WatchKey, RunIdOf, WatchScope, Conclude, Format, NormalizeTimestamp, Strip, Lit, ValidatedSnapshot;
    ValidatedSource(setup, e);
  }

  lemma ScopesDiffer(k: Text, l: Text)
    ensures WatchScope(k) == WatchScope(l) <==> k == l
  {
  }

  lemma RefusedStep(setup: Setup, st: StoreState, e: WatchEvent, w: World)
    requires ValidateEvent(setup.sources, setup.lenient, e).Err?
    ensures Process(setup, st, e, w).1 == st
  {
    hide ValidateEvent;
  }

  lemma SnapshotStep(setup: Setup, h: History, sourceId: Text)
    requires EndsWatched(h) && WellKeyed(setup.sources)
    requires var n := |h| - 1;
             && MirrorsSource(setup, After(setup, h[..n]), h[..n], sourceId)
             && MirrorsKey(setup, After(setup, h[..n]), h[..n], WatchKey(h[n].event))
    ensures MirrorsSource(setup, After(setup, h), h, sourceId)
  {
    hide WatchKey, Conclude, WatchScope, RunIdOf, Observe, ValidateEvent, SaveRun, SaveCandidate, CompletedRun, Process;
    var n := |h| - 1;
    var e, w := h[n].event, h[n].world;
    var st := After(setup, h[..n]);
    if ValidateEvent(setup.sources, setup.lenient, e).Ok? {
      ClaimedStep(setup, st, e, w);
    } else {
      RefusedStep(setup, st, e, w);
    }
  }

  lemma ConcludedRunId(setup: Setup, st: StoreState, e: WatchEvent, w: World)
    ensures match ValidateEvent(setup.sources, setup.lenient, e)
            case Err(_) => true
            case Ok(_) =>
              WatchScope(WatchKey(e)) !in st.claims && Process(setup, st, e, w).0.Ok? ==>
                Process(setup, st, e, w).0.value.runId == RunIdOf(WatchKey(e))
  {
    hide WatchKey, WatchScope, RunIdOf, ValidateEvent, Observe, Format, BriefOf, Classify, CandidateFor,
         RecordedReceipt, ChangeOf, StatusAfter;
  }

  lemma KeyStep(setup: Setup, h: History, key: Text)
    requires EndsWatched(h) && WellKeyed(setup.sources)
    requires var n := |h| - 1;
             && MirrorsKey(setup, After(setup, h[..n]), h[..n], key)
             && MirrorsKey(setup, After(setup, h[..n]), h[..n], WatchKey(h[n].event))
             && LastOutcome(setup, h) == Expected(setup, h)
    ensures MirrorsKey(setup, After(setup, h), h, key)
  {
    hide WatchKey, Conclude, WatchScope, RunIdOf, Observe, ValidateEvent, Process, Expected;
    var n := |h| - 1;
    var e, w := h[n].event, h[n].world;
    var st := After(setup, h[..n]);
    var l := WatchKey(e);
    ScopesDiffer(key, l);
    RunIdInjective(key, l);
    SameCompletion(setup, h, key);
    if ValidateEvent(setup.sources, setup.lenient, e).Ok? {
      ClaimedStep(setup, st, e, w);
      ConcludedRunId(setup, st, e, w);
      if First(setup, h[..n], l).None? {
        ObservedOrFailed(setup, st, e, w);
        assert h[..n + 1] == h;
      }
    } else {
      RefusedStep(setup, st, e, w);
    }
  }

  lemma ObservedOrFailed(setup: Setup, st: StoreState, e: WatchEvent, w: World)
    requires WellKeyed(setup.sources) && ValidateEvent(setup.sources, setup.lenient, e).Ok?
    ensures e.sourceId in setup.sources
    ensures WatchScope(WatchKey(e)) !in st.claims && Observe(setup.lenient, setup.sources[e.sourceId], w).Err? ==>
            Process(setup, st, e, w).0.Err?
  {
    hide WatchKey, WatchScope, ValidateEvent, Conclude, Observe;
    ValidatedSource(setup, e);
  }

  /** A key asked for before the last call completed then. */
  lemma SameCompletion(setup: Setup, h: History, key: Text)
    requires h != []
    ensures First(setup, h[..|h| - 1], key).Some? ==>
            CompletedRun(setup, h, key) == CompletedRun(setup, h[..|h| - 1], key)
  {
    hide Asks, Expected;
    var n := |h| - 1;
    var f := First(setup, h[..n], key);
    if f.Some? {
      assert h[..n][..f.value + 1] == h[..f.value + 1];
    }
  }

  lemma DecidedStep(setup: Setup, h: History, key: Text, sourceId: Text)
    requires h != [] && h[|h| - 1].Decided?
    ensures var n := |h| - 1;
            && MirrorsSource(setup, After(setup, h[..n]), h[..n], sourceId) ==>
               MirrorsSource(setup, After(setup, h), h, sourceId)
    ensures var n := |h| - 1;
            && MirrorsKey(setup, After(setup, h[..n]), h[..n], key) ==> MirrorsKey(setup, After(setup, h), h, key)
  {
    hide WatchKey, WatchScope, RunIdOf, Expected, ResolvedCandidate, ValidateEvent, Observe;
    SameCompletion(setup, h, key);
  }

  /** After any history the store holds, for every source and key, what the history alone says. */
  lemma {:induction false} StoreMirrors(setup: Setup, h: History, key: Text, sourceId: Text)
    requires WellKeyed(setup.sources)
    ensures MirrorsSource(setup, After(setup, h), h, sourceId)
    ensures MirrorsKey(setup, After(setup, h), h, key)
  {
    hide Apply, WatchKey, WatchScope, RunIdOf, FreshEvidence, Asks, Expected, LastOutcome;
    if h != [] {
      var n := |h| - 1;
      StoreMirrors(setup, h[..n], key, sourceId);
      if h[n].Watched? {
        var e := h[n].event;
        StoreMirrors(setup, h[..n], WatchKey(e), e.sourceId);
        OutcomeFromMirror(setup, h);
        SnapshotStep(setup, h, sourceId);
        KeyStep(setup, h, key);
      } else {
        DecidedStep(setup, h, key, sourceId);
      }
    }
  }

  /**
   Serial refinement: in every history of watch calls and owner decisions, with any fetcher,
   generator, delivery and clock, the answer to each call is the one the history alone determines.
   */
  lemma EngineRefines(setup: Setup, h: History)
    requires EndsWatched(h) && WellKeyed(setup.sources)
    ensures LastOutcome(setup, h) == Expected(setup, h)
  {
    hide After, MirrorsSource, MirrorsKey, WatchKey, LastOutcome, Expected;
    var n := |h| - 1;
    StoreMirrors(setup, h[..n], WatchKey(h[n].event), h[n].event.sourceId);
    OutcomeFromMirror(setup, h);
  }

  /** A completed first call reports how its capture compares with the last validated one of its source. */
  lemma CompletedRunsAreClassified(setup: Setup, h: History)
    requires EndsWatched(h) && WellKeyed(setup.sources)
    ensures var n := |h| - 1;
            var e, w := h[n].event, h[n].world;
            match ValidateEvent(setup.sources, setup.lenient, e)
            case Err(x) => LastOutcome(setup, h) == Err(x)
            case Ok(source) =>
              match (First(setup, h[..n], WatchKey(e)), Observe(setup.lenient, source, w))
              case (None, Err(x)) => LastOutcome(setup, h) == Err(x)
              case (None, Ok(seen)) =>
                (match LastOutcome(setup, h)
                 case Err(x) => (x == GeneratorFailed || x == DeliveryCrashed)
                                && Classify(LastValidated(setup, h[..n], e.sourceId), seen.snapshot) == Changed
                 case Ok(run) =>
                   && run.snapshot == Some(seen.snapshot) && FiledFor(run, e, w.startedAt, w.completedAt)
                   && ReportsClassification(run, Classify(LastValidated(setup, h[..n], e.sourceId), seen.snapshot)))
              case (Some(_), _) => LastOutcome(setup, h).Ok?
  {
    hide LastOutcome, ValidateEvent, Observe, WatchKey, RunIdOf, First, LastValidated, Format, Conclude, Classify,
         ReportsClassification, FiledFor;
    EngineRefines(setup, h);
    var n := |h| - 1;
    var e, w := h[n].event, h[n].world;
    match ValidateEvent(setup.sources, setup.lenient, e)
    case Err(_) =>
    case Ok(source) =>
      match Observe(setup.lenient, source, w)
      case Err(_) =>
      case Ok(seen) => ConclusionIsClassified(e, source, LastValidated(setup, h[..n], e.sourceId), seen, w);
  }

  lemma ConclusionIsClassified(e: WatchEvent, source: RegistrySource, prior: Option<Snapshot>, seen: Evidence, w: World)
    ensures match Conclude(e, source, prior, seen, w).0
            case Err(x) => (x == GeneratorFailed || x == DeliveryCrashed) && Classify(prior, seen.snapshot) == Changed
            case Ok(run) =>
              && run.snapshot == Some(seen.snapshot) && FiledFor(run, e, w.startedAt, w.completedAt)
              && ReportsClassification(run, Classify(prior, seen.snapshot))
  {
    hide WatchKey, RunIdOf, Format, BriefOf, CandidateFor, RecordedReceipt, ChangeOf, HasPrefix;
  }

  /**
   The first accepted call with a key decides every later one: a completed run is answered again,
   and a failed first call leaves the event spent.
   */
  lemma LaterCallsAreDuplicates(setup: Setup, h: History, i: nat, e: WatchEvent, w: World)
    requires EndsWatched(h) && WellKeyed(setup.sources) && h[|h| - 1] == Watched(e, w)
    requires i < |h| - 1 && ValidateEvent(setup.sources, setup.lenient, e).Ok?
    requires First(setup, h, WatchKey(e)) == Some(i)
    ensures Answer(setup, h) ==
              match Answer(setup, h[..i + 1])
              case None => None
              case Some(Ok(run)) => Some(Ok(run))
              case Some(Err(_)) => Some(Ok(DuplicateRun(e, RunIdOf(WatchKey(e)), Format(w.startedAt))))
    ensures EndsWatched(h[..i + 1]) && After(setup, h) == After(setup, h[..|h| - 1])
  {
    hide LastOutcome, ValidateEvent, Asks, WatchKey, RunIdOf, Format, LastValidated, WatchScope, DuplicateRun, Verdict,
         Conclude, Observe, CompletedRun;
    EngineRefines(setup, h);
    EngineRefines(setup, h[..i + 1]);
    var n := |h| - 1;
    StoreMirrors(setup, h[..n], WatchKey(e), e.sourceId);
    ClaimedStep(setup, After(setup, h[..n]), e, w);
  }

  /** A generator failure advances the snapshot and leaves runs and queue as they were. */
  lemma GeneratorFailureAdvances(setup: Setup, h: History, seen: Evidence)
    requires EndsWatched(h) && WellKeyed(setup.sources)
    requires LastOutcome(setup, h) == Err(GeneratorFailed)
    requires var op := h[|h| - 1];
             op.event.sourceId in setup.sources
             && Observe(setup.lenient, setup.sources[op.event.sourceId], op.world) == Ok(seen)
    ensures var before, after := After(setup, h[..|h| - 1]), After(setup, h);
            && after.runs == before.runs && after.candidates == before.candidates
            && after.snapshots == before.snapshots[h[|h| - 1].event.sourceId := seen.snapshot]
            && after.claims != before.claims
  {
    hide Observe, ValidateEvent, WatchKey, RunIdOf, Format, WatchScope, After, LastOutcome;
    var n := |h| - 1;
    var st := After(setup, h[..n]);
    var e := h[n].event;
    AfterWatched(setup, h);
    FailedStep(setup, st, e, h[n].world);
    ClaimedStep(setup, st, e, h[n].world);
    NoCandidateOnFailure(e, setup.sources[e.sourceId], Lookup(st.snapshots, e.sourceId), seen, h[n].world);
    ConcludesAs(setup, st, e, h[n].world, seen);
  }

  lemma AfterWatched(setup: Setup, h: History)
    requires EndsWatched(h)
    ensures var n := |h| - 1;
            (LastOutcome(setup, h), After(setup, h)) == Process(setup, After(setup, h[..n]), h[n].event, h[n].world)
  {
    hide Process;
  }

  lemma FailedStep(setup: Setup, st: StoreState, e: WatchEvent, w: World)
    ensures Process(setup, st, e, w).0 == Err(GeneratorFailed) ==>
              ValidateEvent(setup.sources, setup.lenient, e).Ok? && WatchScope(WatchKey(e)) !in st.claims
  {
    hide WatchKey, WatchScope, Watch, NormalizeTimestamp, Strip, Lit, Replay;
  }

  lemma ConcludesAs(setup: Setup, st: StoreState, e: WatchEvent, w: World, seen: Evidence)
    requires WellKeyed(setup.sources) && ValidateEvent(setup.sources, setup.lenient, e).Ok?
             && e.sourceId in setup.sources
    requires WatchScope(WatchKey(e)) !in st.claims && Observe(setup.lenient, setup.sources[e.sourceId], w) == Ok(seen)
    ensures Process(setup, st, e, w).0
            == Conclude(e, setup.sources[e.sourceId], Lookup(st.snapshots, e.sourceId), seen, w).0
  {
    hide ValidateEvent, WatchKey, WatchScope, RunIdOf, Observe, Conclude;
    ValidatedSource(setup, e);
  }

  lemma NoCandidateOnFailure(e: WatchEvent, source: RegistrySource, prior: Option<Snapshot>, seen: Evidence, w: World)
    ensures Conclude(e, source, prior, seen, w).0 == Err(GeneratorFailed) ==>
            Conclude(e, source, prior, seen, w).1 == None
  {
    hide WatchKey, RunIdOf, Format, BriefOf, CandidateFor, RecordedReceipt, ChangeOf;
  }

  // ---------------------------------------------------------------- sources do not affect each other

  /** The part of a history about one source. */
  function Project(h: History, sourceId: Text): History {
    if h == [] then []
    else
      var last := h[|h| - 1];
      Project(h[..|h| - 1], sourceId) + (if last.Watched? && last.event.sourceId == sourceId then [last] else [])
  }

  predicate AgreeOnSource(a: StoreState, b: StoreState, sourceId: Text) {
    Lookup(a.snapshots, sourceId) == Lookup(b.snapshots, sourceId)
  }

  predicate AgreeOnKey(a: StoreState, b: StoreState, key: Text) {
    && Lookup(a.claims, WatchScope(key)) == Lookup(b.claims, WatchScope(key))
    && Lookup(a.runs, RunIdOf(key)) == Lookup(b.runs, RunIdOf(key))
  }

  predicate OwnRun(st: StoreState, key: Text) {
    WatchScope(key) in st.claims ==> st.claims[WatchScope(key)] == RunIdOf(key)
  }

  predicate IdsJoinApart(sources: Sources) {
    forall a, b | a in sources && b in sources && Joined(a) == Joined(b) :: a == b
  }

  lemma KeysOfSourcesDiffer(sources: Sources, e: WatchEvent, f: WatchEvent)
    requires IdsJoinApart(sources) && e.sourceId in sources && f.sourceId in sources
    ensures WatchKey(e) == WatchKey(f) ==> e.sourceId == f.sourceId
  {
    hide WatchKey, Joined;
    WatchKeysEqualIff(e, f);
  }

  /** A call on another source, or an owner decision, leaves this source and this key alone. */
  lemma OtherStep(setup: Setup, st: StoreState, op: Op, e: WatchEvent)
    requires WellKeyed(setup.sources) && IdsJoinApart(setup.sources) && e.sourceId in setup.sources
    requires op.Watched? ==> op.event.sourceId != e.sourceId
    ensures AgreeOnSource(Apply(setup, st, op), st, e.sourceId) && AgreeOnKey(Apply(setup, st, op), st, WatchKey(e))
  {
    hide ValidateEvent, WatchKey, WatchScope, RunIdOf, Observe, Conclude, ResolvedCandidate, Format, Process,
         SaveCandidate;
    if op.Watched? {
      if ValidateEvent(setup.sources, setup.lenient, op.event).Ok? {
        ClaimedStep(setup, st, op.event, op.world);
        ConcludedRunId(setup, st, op.event, op.world);
        KeysOfSourcesDiffer(setup.sources, e, op.event);
        ScopesDiffer(WatchKey(e), WatchKey(op.event));
        RunIdInjective(WatchKey(e), WatchKey(op.event));
      } else {
        RefusedStep(setup, st, op.event, op.world);
      }
    }
  }

  /** The same call on stores that agree on its source and key answers the same and keeps agreement. */
  lemma SameStep(setup: Setup, a: StoreState, b: StoreState, op: Op, key: Text)
    requires WellKeyed(setup.sources) && op.Watched?
    requires OwnRun(a, WatchKey(op.event)) && OwnRun(b, WatchKey(op.event))
    requires AgreeOnSource(a, b, op.event.sourceId) && AgreeOnKey(a, b, WatchKey(op.event)) && AgreeOnKey(a, b, key)
    ensures Process(setup, a, op.event, op.world).0 == Process(setup, b, op.event, op.world).0
    ensures AgreeOnSource(Apply(setup, a, op), Apply(setup, b, op), op.event.sourceId)
    ensures AgreeOnKey(Apply(setup, a, op), Apply(setup, b, op), key)
  {
    hide ValidateEvent, WatchKey, WatchScope, RunIdOf, Observe, Conclude, Process, SaveCandidate;
    SameAnswer(setup, a, b, op);
    var e, w := op.event, op.world;
    if ValidateEvent(setup.sources, setup.lenient, e).Ok? {
      ClaimedStep(setup, a, e, w);
      ClaimedStep(setup, b, e, w);
      ConcludedRunId(setup, a, e, w);
      ScopesDiffer(key, WatchKey(e));
      RunIdInjective(key, WatchKey(e));
    } else {
      RefusedStep(setup, a, e, w);
      RefusedStep(setup, b, e, w);
    }
  }

  lemma SameAnswer(setup: Setup, a: StoreState, b: StoreState, op: Op)
    requires WellKeyed(setup.sources) && op.Watched?
    requires OwnRun(a, WatchKey(op.event)) && OwnRun(b, WatchKey(op.event))
    requires AgreeOnSource(a, b, op.event.sourceId) && AgreeOnKey(a, b, WatchKey(op.event))
    ensures Process(setup, a, op.event, op.world).0 == Process(setup, b, op.event, op.world).0
  {
    hide ValidateEvent, WatchKey, WatchScope, RunIdOf, Observe, Conclude, DuplicateRun, Format, SaveCandidate, SaveRun;
    ValidatedSource(setup, op.event);
  }

  /** History h with only one source's calls leaves the same snapshot, claims and runs for that source. */
  lemma {:induction false} ProjectionAgrees(setup: Setup, h: History, e: WatchEvent)
    requires WellKeyed(setup.sources) && IdsJoinApart(setup.sources) && e.sourceId in setup.sources
    ensures var a, b := After(setup, h), After(setup, Project(h, e.sourceId));
            AgreeOnSource(a, b, e.sourceId) && AgreeOnKey(a, b, WatchKey(e))
  {
    hide Apply, WatchKey, WatchScope, RunIdOf, Lookup, IdsJoinApart;
    if h != [] {
      var n := |h| - 1;
      var op, p := h[n], Project(h[..n], e.sourceId);
      ProjectionAgrees(setup, h[..n], e);
      if op.Watched? && op.event.sourceId == e.sourceId {
        ProjectionAgrees(setup, h[..n], op.event);
        OwnRuns(setup, h[..n], WatchKey(op.event));
        OwnRuns(setup, p, WatchKey(op.event));
        SameStep(setup, After(setup, h[..n]), After(setup, p), op, WatchKey(e));
        assert (p + [op])[..|p|] == p;
      } else {
        OtherStep(setup, After(setup, h[..n]), op, e);
        assert p + [] == p;
      }
    }
  }

  lemma OwnRuns(setup: Setup, h: History, key: Text)
    requires WellKeyed(setup.sources)
    ensures OwnRun(After(setup, h), key)
  {
    hide After, WatchScope, RunIdOf, First, CompletedRun, LastValidated;
    StoreMirrors(setup, h, key, []);
  }

  /** The last call of h answers as it would if the other sources' calls had never been made. */
  predicate Independent(setup: Setup, h: History) {
    EndsWatched(h) && h[|h| - 1].event.sourceId in setup.sources ==>
      var p := Project(h, h[|h| - 1].event.sourceId);
      EndsWatched(p) && LastOutcome(setup, h) == LastOutcome(setup, p)
  }

  lemma ApartIsIndependent(setup: Setup, h: History)
    requires WellKeyed(setup.sources) && IdsJoinApart(setup.sources)
    ensures Independent(setup, h)
  {
    hide Process, WatchKey, After, IdsJoinApart;
    if EndsWatched(h) && h[|h| - 1].event.sourceId in setup.sources {
      var n := |h| - 1;
      var op := h[n];
      var p := Project(h[..n], op.event.sourceId);
      ProjectionAgrees(setup, h[..n], op.event);
      OwnRuns(setup, h[..n], WatchKey(op.event));
      OwnRuns(setup, p, WatchKey(op.event));
      SameStep(setup, After(setup, h[..n]), After(setup, p), op, WatchKey(op.event));
      assert (p + [op])[..|p|] == p;
    }
  }

  function DeadWorld(): World { World(_ => None, _ => None, _ => Crashed, 0, 0) }

  function ScheduledEvent(sourceId: Text): WatchEvent {
    WatchEvent(Lit("e"), sourceId, Format(0), WatchEventType(), WatchSource(), WatchSchemaVersion())
  }

  lemma ScheduledIsValid(setup: Setup, id: Text)
    requires id in setup.sources
    ensures ValidateEvent(setup.sources, setup.lenient, ScheduledEvent(id)) == Ok(setup.sources[id])
  {
    hide NormalizeTimestamp, Format, Strip, WatchEventType, WatchSource, WatchSchemaVersion;
    NormalizeFormat(setup.lenient, 0);
    StripFixed(Lit("e"));
  }

  lemma FirstDead(setup: Setup, st: StoreState, id: Text)
    requires id in setup.sources
    ensures var e := ScheduledEvent(id);
            var scope := WatchScope(WatchKey(e));
            var (outcome, after) := Process(setup, st, e, DeadWorld());
            if scope in st.claims then outcome.Ok? else outcome == Err(FetchFailed) && scope in after.claims
  {
    hide ValidateEvent, WatchKey, WatchScope, RunIdOf, ScheduledEvent, Replay;
    ScheduledIsValid(setup, id);
  }

  /** Registered ids that join alike share event keys, so a call on one spends the other's event. */
  lemma JoinedIdsInterfere(setup: Setup, a: Text, b: Text)
    requires a in setup.sources && b in setup.sources && Joined(a) == Joined(b) && a != b
    ensures !Independent(setup, [Watched(ScheduledEvent(a), DeadWorld()), Watched(ScheduledEvent(b), DeadWorld())])
  {
    hide Process, WatchKey, WatchScope, Joined, Lit, Format;
    var x, y := Watched(ScheduledEvent(a), DeadWorld()), Watched(ScheduledEvent(b), DeadWorld());
    assert [x, y][..1] == [x] && [x][..0] == [] && [y][..0] == [];
    assert Project([x], b) == [];
    assert Project([x, y], b) == [y];
    WatchKeysEqualIff(x.event, y.event);
    FirstDead(setup, EmptyStore(), a);
    FirstDead(setup, After(setup, [x]), b);
    FirstDead(setup, EmptyStore(), b);
  }

  lemma JoinedPair(sources: Sources) returns (a: Text, b: Text)
    requires !IdsJoinApart(sources)
    ensures a in sources && b in sources && Joined(a) == Joined(b) && a != b
  {
    hide Joined;
    a, b :| a in sources && b in sources && Joined(a) == Joined(b) && a != b;
  }

  /** Sources never affect each other's outcomes exactly when no two registered ids join alike. */
  lemma IndependentIff(setup: Setup)
    requires WellKeyed(setup.sources)
    ensures (forall h: History :: Independent(setup, h)) <==> IdsJoinApart(setup.sources)
  {
    hide *;
    if IdsJoinApart(setup.sources) {
      forall h: History ensures Independent(setup, h) { ApartIsIndependent(setup, h); }
    } else {
      var a, b := JoinedPair(setup.sources);
      JoinedIdsInterfere(setup, a, b);
    }
  }

  // ---------------------------------------------------------------- a change that comes back

  /**
   Queue items are keyed by their change. When a first call sees the same change again, it puts a
   fresh undecided item over the earlier one, whatever the owner had decided about it.
   */
  lemma ReturningChangeReopens(setup: Setup, h: History, seen: Evidence, prior: Snapshot)
    requires EndsWatched(h) && WellKeyed(setup.sources)
    requires var op := h[|h| - 1];
             && ValidateEvent(setup.sources, setup.lenient, op.event).Ok?
             && First(setup, h[..|h| - 1], WatchKey(op.event)) == None
             && op.event.sourceId in setup.sources
             && Observe(setup.lenient, setup.sources[op.event.sourceId], op.world) == Ok(seen)
    requires var op := h[|h| - 1];
             && LastValidated(setup, h[..|h| - 1], op.event.sourceId) == Some(prior)
             && Classify(Some(prior), seen.snapshot) == Changed
    requires var op := h[|h| - 1];
             var change := ChangeOf(setup.sources[op.event.sourceId], prior, seen.snapshot, seen.capture);
             BriefOf(op.world, change).Some? && FromEvidence(change, BriefOf(op.world, change).value)
    ensures var op := h[|h| - 1];
            var id := CandidateId(BriefId(op.event.sourceId, prior.evidenceDigest, seen.snapshot.evidenceDigest),
              seen.snapshot.evidenceDigest);
            var before, after := After(setup, h[..|h| - 1]).candidates, After(setup, h).candidates;
            && id in after && after[id].status == AwaitingOwnerReview && after[id].ownerDecision == Unresolved
            && after[id].createdAt == Format(op.world.startedAt)
            && after.Keys == before.Keys + {id}
               && (forall other | other in before && other != id :: after[other] == before[other])
  {
    hide After, ValidateEvent, WatchKey, WatchScope, RunIdOf, First, Observe, Format, Process, BriefId, CandidateId,
         ChangeOf, LastValidated, CompletedRun, BriefOf;
    var n := |h| - 1;
    var op := h[n];
    var st := After(setup, h[..n]);
    StoreMirrors(setup, h[..n], WatchKey(op.event), op.event.sourceId);
    ClaimedStep(setup, st, op.event, op.world);
    AfterWatched(setup, h);
    ChangeNamesSource(setup.sources[op.event.sourceId], prior, seen);
  }

  lemma ChangeNamesSource(source: RegistrySource, prior: Snapshot, seen: Evidence)
    ensures var ch := ChangeOf(source, prior, seen.snapshot, seen.capture);
            ch.source == source && ch.prior == prior && ch.current == seen.snapshot
  {
  }

  // ---------------------------------------------------------------- token streams that only differ in what is ignored

  /**
   When the last validated capture of a source and the one fetched now are the visible text of token
   that differ only by balanced ignored blocks, the first call with a key answers `no_change`,
   whatever source versions and capture times came with them.
   */
  lemma SplicedStreamsReportNoChange(
    setup: Setup, h: History, e: WatchEvent, w: World, source: RegistrySource, tokens: seq<Token>, xs: seq<Splice>,
    ys: seq<Splice>,
    earlier: SourceCapture, prior: Snapshot, seen: Evidence)
    requires EndsWatched(h) && WellKeyed(setup.sources) && h[|h| - 1] == Watched(e, w)
    requires ValidateEvent(setup.sources, setup.lenient, e) == Ok(source)
    requires First(setup, h[..|h| - 1], WatchKey(e)) == None
             && LastValidated(setup, h[..|h| - 1], e.sourceId) == Some(prior)
    requires ValidatedSnapshot(setup.lenient, source, earlier) == Ok(prior)
             && Observe(setup.lenient, source, w) == Ok(seen)
    requires SpliceFits(tokens, xs) && HtmlContent(SpliceAll(tokens, xs)) == Some(earlier.content)
    requires SpliceFits(tokens, ys) && HtmlContent(SpliceAll(tokens, ys)) == Some(seen.capture.content)
    requires earlier.normalizationVersion == seen.capture.normalizationVersion
    ensures match Answer(setup, h)
            case Some(Ok(run)) => run.status == NoChange && run.reason == HashUnchanged && run.brief.None?
            case _ => false
  {
    hide LastOutcome, ValidateEvent, WatchKey, RunIdOf, First, LastValidated, SpliceFits, SpliceAll, HtmlContent,
         ValidatedSnapshot, Classify;
    CompletedRunsAreClassified(setup, h);
    SplicedStreamsAreUnchanged(setup.lenient, source, tokens, xs, ys, earlier, seen.capture);
  }

  // ---------------------------------------------------------------- the guard over whole histories

  function GuardedWorld(w: World, allowed: Text -> bool, inner: Generator): World {
    w.(generate := (ch: RegistryChange) => Guarded(allowed, inner, ch))
  }

  function GuardedOp(op: Op, allowed: Text -> bool, inner: Generator): Op {
    match op
    case Watched(e, w) => Watched(e, GuardedWorld(w, allowed, inner))
    case Decided(_, _, _) => op
  }

  /** The same history with every call's generator guarded, around the given inner generator. */
  function WithGuard(h: History, allowed: Text -> bool, inner: Generator): History {
    hide GuardedOp;
    if h == [] then []
    else WithGuard(h[..|h| - 1], allowed, inner) + [GuardedOp(h[|h| - 1], allowed, inner)]
  }

  ghost predicate AgreeWhenAllowed(allowed: Text -> bool, inner: Generator, other: Generator) {
    forall ch: RegistryChange | allowed(ch.excerpt) :: inner(ch) == other(ch)
  }

  lemma SameBrief(w: World, allowed: Text -> bool, inner: Generator, other: Generator, ch: RegistryChange)
    requires AgreeWhenAllowed(allowed, inner, other)
    ensures BriefOf(GuardedWorld(w, allowed, inner), ch) == BriefOf(GuardedWorld(w, allowed, other), ch)
  {
    hide Encodable, DeterministicBrief, SafetySummary, SafetyAction, Lit;
    GuardShieldsInner(allowed, inner, other, ch);
  }

  lemma GuardedAnswers(lenient: Lenient, source: RegistrySource, w: World, allowed: Text -> bool, inner: Generator)
    ensures var g := GuardedWorld(w, allowed, inner);
            && g.startedAt == w.startedAt && g.completedAt == w.completedAt && g.deliver == w.deliver
            && Observe(lenient, source, g) == Observe(lenient, source, w)
  {
    hide ValidatedSnapshot, Guarded;
  }

  lemma SameConclusion(
    lenient: Lenient, e: WatchEvent, source: RegistrySource, prior: Option<Snapshot>, seen: Evidence, w: World,
    allowed: Text -> bool, inner: Generator, other: Generator)
    requires AgreeWhenAllowed(allowed, inner, other)
    ensures Conclude(e, source, prior, seen, GuardedWorld(w, allowed, inner))
         == Conclude(e, source, prior, seen, GuardedWorld(w, allowed, other))
  {
    hide BriefOf, ChangeOf, CandidateFor, Format, RecordedReceipt, PlainRun, BriefRun, AgreeWhenAllowed, GuardedWorld,
         Observe;
    GuardedAnswers(lenient, source, w, allowed, inner);
    GuardedAnswers(lenient, source, w, allowed, other);
    if Classify(prior, seen.snapshot) == Changed {
      SameBrief(w, allowed, inner, other, ChangeOf(source, prior.value, seen.snapshot, seen.capture));
    }
  }

  lemma SameWatch(
    lenient: Lenient, st: StoreState, e: WatchEvent, source: RegistrySource, w: World,
    allowed: Text -> bool, inner: Generator, other: Generator)
    requires AgreeWhenAllowed(allowed, inner, other)
    ensures Watch(lenient, st, e, source, GuardedWorld(w, allowed, inner))
            == Watch(lenient, st, e, source, GuardedWorld(w, allowed, other))
  {
    hide Conclude, SaveRun, SaveCandidate, AgreeWhenAllowed, GuardedWorld, Observe;
    GuardedAnswers(lenient, source, w, allowed, inner);
    GuardedAnswers(lenient, source, w, allowed, other);
    if Observe(lenient, source, w).Ok? {
      SameConclusion(lenient, e, source, Lookup(st.snapshots, source.sourceId), Observe(lenient, source, w).value, w,
        allowed, inner, other);
    }
  }

  lemma SameProcess(
    setup: Setup, st: StoreState, e: WatchEvent, w: World, allowed: Text -> bool, inner: Generator, other: Generator)
    requires AgreeWhenAllowed(allowed, inner, other)
    ensures Process(setup, st, e, GuardedWorld(w, allowed, inner))
            == Process(setup, st, e, GuardedWorld(w, allowed, other))
  {
    hide ValidateEvent, WatchKey, WatchScope, RunIdOf, Watch, GuardedWorld, Observe, Format, AgreeWhenAllowed,
         DuplicateRun;
    if ValidateEvent(setup.sources, setup.lenient, e).Ok? {
      var source := ValidateEvent(setup.sources, setup.lenient, e).value;
      GuardedAnswers(setup.lenient, source, w, allowed, inner);
      GuardedAnswers(setup.lenient, source, w, allowed, other);
      var key := WatchKey(e);
      SameWatch(setup.lenient, st.(claims := st.claims[WatchScope(key) := RunIdOf(key)]), e, source, w, allowed, inner,
        other);
    }
  }

  lemma AppendedOp(setup: Setup, h: History, op: Op)
    ensures After(setup, h + [op]) == Apply(setup, After(setup, h), op)
    ensures Answer(setup, h + [op]) == if op.Watched? then Some(Process(setup, After(setup, h), op.event, op.world).0)
            else None
  {
    hide Process, ResolveAction;
    assert (h + [op])[..|h|] == h;
  }

  lemma GuardedStep(setup: Setup, st: StoreState, op: Op, allowed: Text -> bool, inner: Generator, other: Generator)
    requires AgreeWhenAllowed(allowed, inner, other)
    ensures Apply(setup, st, GuardedOp(op, allowed, inner)) == Apply(setup, st, GuardedOp(op, allowed, other))
    ensures match op
            case Watched(e, w) =>
              Process(setup, st, e, GuardedWorld(w, allowed, inner))
                == Process(setup, st, e, GuardedWorld(w, allowed, other))
            case Decided(_, _, _) => true
    ensures GuardedOp(op, allowed, inner).Watched? == op.Watched? == GuardedOp(op, allowed, other).Watched?
  {
    hide Process, ResolveAction, AgreeWhenAllowed, GuardedWorld;
    if op.Watched? { SameProcess(setup, st, op.event, op.world, allowed, inner, other); }
  }

  /**
   Under the guard nothing the engine ever stores or answers depends on what the inner generator
   would make of an excerpt the gate blocked.
   */
  lemma {:induction false} BlockedExcerptsAreInert(
    setup: Setup, h: History, allowed: Text -> bool, inner: Generator, other: Generator)
    requires AgreeWhenAllowed(allowed, inner, other)
    ensures After(setup, WithGuard(h, allowed, inner)) == After(setup, WithGuard(h, allowed, other))
    ensures Answer(setup, WithGuard(h, allowed, inner)) == Answer(setup, WithGuard(h, allowed, other))
  {
    hide Process, Apply, After, Answer, AgreeWhenAllowed, GuardedWorld;
    if h != [] {
      var n := |h| - 1;
      BlockedExcerptsAreInert(setup, h[..n], allowed, inner, other);
      var a, b := WithGuard(h[..n], allowed, inner), WithGuard(h[..n], allowed, other);
      AppendedOp(setup, a, GuardedOp(h[n], allowed, inner));
      AppendedOp(setup, b, GuardedOp(h[n], allowed, other));
      GuardedStep(setup, After(setup, a), h[n], allowed, inner, other);
    }
  }
}
