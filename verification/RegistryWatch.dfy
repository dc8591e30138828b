/**
 The Registry Change Watch engine and its in-memory store.

 `Process` and `ResolveAction` say what one call does to the store, in the order the engine
 writes: the claim is spent before the fetch, and the snapshot is saved before the generator
 runs. Over whole histories of calls, `EngineRefines` states the outcome of every call from the
 history alone, and `IndependentIff` says exactly when sources do not affect each other.
 */
module RegistryWatch {
  import opened Wrappers
  import opened Texts
  import opened Timestamps
  import opened RegistryEvents
  import opened ClaimStore
  import opened RegistryModel

  datatype StoreState = StoreState(
    claims: Records, snapshots: map<Text, Snapshot>, runs: map<Text, WatchRun>, candidates: map<Text, ActionCandidate>)

  function EmptyStore(): StoreState { StoreState(map[], map[], map[], map[]) }

  /** What the collaborators and the clock answer during one call. */
  datatype World = World(
    fetch: RegistrySource -> Option<SourceCapture>, generate: Generator, deliver: ImpactBrief -> DeliveryOutcome,
    startedAt: Instant, completedAt: Instant)

  datatype Setup = Setup(sources: Sources, lenient: Lenient)

  /** The engine's table is built from the sources' own ids. */
  predicate WellKeyed(sources: Sources) {
    forall id | id in sources :: sources[id].sourceId == id
  }

  type Outcome = Result<WatchRun, WatchError>

  function Lookup<K, V>(m: map<K, V>, k: K): Option<V> {
    if k in m then Some(m[k]) else None
  }

  // ---------------------------------------------------------------- one call

  datatype Evidence = Evidence(capture: SourceCapture, snapshot: Snapshot)

  /** Fetch and validate. */
  function Observe(lenient: Lenient, source: RegistrySource, w: World): Result<Evidence, WatchError> {
    match w.fetch(source)
    case None => Err(FetchFailed)
    case Some(capture) =>
      match ValidatedSnapshot(lenient, source, capture)
      case Err(x) => Err(x)
      case Ok(snapshot) => Ok(Evidence(capture, snapshot))
  }

  /** The brief, when the generator answers and the candidate id can be computed from it. */
  function BriefOf(w: World, change: RegistryChange): Option<ImpactBrief> {
    match w.generate(change)
    case None => None
    case Some(brief) => if Encodable(brief.briefId) && Encodable(brief.evidenceDigest) then Some(brief) else None
  }

  /** A duplicate answers with the stored run, or with an unsaved marker. */
  function Replay(runs: map<Text, WatchRun>, e: WatchEvent, recordId: Text, w: World): WatchRun {
    if recordId in runs then runs[recordId] else DuplicateRun(e, recordId, Format(w.startedAt))
  }

  /** The last part of a call that has compared its evidence: the outcome and the queued candidate. */
  function Conclude(
    e: WatchEvent, source: RegistrySource, prior: Option<Snapshot>, seen: Evidence, w: World
  ): (Outcome, Option<ActionCandidate>) {
    hide Format, PlainRun, BriefRun, ChangeOf, CandidateFor, BriefOf, WatchKey, RecordedReceipt;
    var started, completed := Format(w.startedAt), Format(w.completedAt);
    match Classify(prior, seen.snapshot)
    case Baseline(reason) => (Ok(PlainRun(e, BaselineCaptured, reason, started, completed, seen.snapshot)), None)
    case Unchanged => (Ok(PlainRun(e, NoChange, HashUnchanged, started, completed, seen.snapshot)), None)
    case Changed =>
      match BriefOf(w, ChangeOf(source, prior.value, seen.snapshot, seen.capture))
      case None => (Err(GeneratorFailed), None)
      case Some(brief) =>
        var candidate := CandidateFor(brief, source, started);
        var delivery := w.deliver(brief);
        if delivery.Crashed? then (Err(DeliveryCrashed), Some(candidate))
        else (Ok(BriefRun(e, brief, RecordedReceipt(delivery), candidate, started, completed, seen.snapshot)),
          Some(candidate))
  }

  function SaveCandidate(
    candidates: map<Text, ActionCandidate>, c: Option<ActionCandidate>
  ): map<Text, ActionCandidate> {
    match c
    case None => candidates
    case Some(candidate) => candidates[candidate.candidateId := candidate]
  }

  function SaveRun(runs: map<Text, WatchRun>, outcome: Outcome): map<Text, WatchRun> {
    match outcome
    case Err(_) => runs
    case Ok(run) => runs[run.runId := run]
  }

  /** A call whose event was claimed. */
  function Watch(
    lenient: Lenient, st: StoreState, e: WatchEvent, source: RegistrySource, w: World
  ): (Outcome, StoreState) {
    match Observe(lenient, source, w)
    case Err(x) => (Err(x), st)
    case Ok(seen) =>
      var end := Conclude(e, source, Lookup(st.snapshots, source.sourceId), seen, w);
      (end.0, StoreState(st.claims, st.snapshots[seen.snapshot.sourceId := seen.snapshot], SaveRun(st.runs, end.0),
                         SaveCandidate(st.candidates, end.1)))
  }

  /** `process` */
  function Process(setup: Setup, st: StoreState, e: WatchEvent, w: World): (Outcome, StoreState) {
    match ValidateEvent(setup.sources, setup.lenient, e)
    case Err(x) => (Err(x), st)
    case Ok(source) =>
      var key := WatchKey(e);
      var scope := WatchScope(key);
      if scope in st.claims then (Ok(Replay(st.runs, e, st.claims[scope], w)), st)
      else Watch(setup.lenient, st.(claims := st.claims[scope := RunIdOf(key)]), e, source, w)
  }

  /** `resolve_owner_action` */
  function ResolveAction(
    lenient: Lenient, st: StoreState, candidateId: Text, decision: Text, now: Instant
  ): (Result<ActionCandidate, ResolveError>, StoreState) {
    if candidateId !in st.candidates then (Err(CandidateNotFound), st)
    else
      match ResolvedCandidate(lenient, st.candidates[candidateId], decision, Format(now))
      case Err(x) => (Err(x), st)
      case Ok(c) => (Ok(c), st.(candidates := st.candidates[candidateId := c]))
  }

  // ---------------------------------------------------------------- the classes

  class InMemoryRegistryWatchStore {
    const claims: InMemoryClaimStore
    var snapshots: map<Text, Snapshot>
    var runs: map<Text, WatchRun>
    var candidates: map<Text, ActionCandidate>

    constructor ()
      ensures fresh(claims) && Contents() == EmptyStore()
    {
      claims := new InMemoryClaimStore();
      snapshots, runs, candidates := map[], map[], map[];
    }

    function Contents(): StoreState
      reads this, claims
    {
      StoreState(claims.records, snapshots, runs, candidates)
    }

    method ClaimEvent(e: WatchEvent, runId: Text) returns (claim: ClaimResult)
      modifies claims
      ensures (claim, claims.records) == Claim(old(claims.records), WatchScope(WatchKey(e)), runId)
    {
      WatchScopeIsValid(e);
      var answer := claims.ClaimOnce(WatchSource(), WatchClaimKind(), WatchKey(e), runId);
      claim := answer.value;
    }

    method SaveSnapshot(s: Snapshot)
      modifies this`snapshots
      ensures snapshots == old(snapshots)[s.sourceId := s]
    {
      snapshots := snapshots[s.sourceId := s];
    }

    method SaveWatchRun(run: WatchRun)
      modifies this`runs
      ensures runs == old(runs)[run.runId := run]
    {
      runs := runs[run.runId := run];
    }

    method SaveActionCandidate(c: ActionCandidate)
      modifies this`candidates
      ensures candidates == old(candidates)[c.candidateId := c]
    {
      candidates := candidates[c.candidateId := c];
    }

    method ResolveActionCandidate(lenient: Lenient, candidateId: Text, decision: Text, now: Instant)
      returns (answer: Result<ActionCandidate, ResolveError>)
      modifies this`candidates
      ensures (answer, Contents()) == ResolveAction(lenient, old(Contents()), candidateId, decision, now)
    {
      if candidateId !in candidates {
        return Err(CandidateNotFound);
      }
      answer := ResolvedCandidate(lenient, candidates[candidateId], decision, Format(now));
      if answer.Ok? {
        candidates := candidates[candidateId := answer.value];
      }
    }
  }

  class RegistryWatchEngine {
    const setup: Setup
    const store: InMemoryRegistryWatchStore

    constructor (setup: Setup, store: InMemoryRegistryWatchStore)
      ensures this.setup == setup && this.store == store
    {
      this.setup := setup;
      this.store := store;
    }

    method ProcessEvent(e: WatchEvent, w: World) returns (outcome: Outcome)
      modifies store, store.claims
      ensures (outcome, store.Contents()) == Process(setup, old(store.Contents()), e, w)
    {
      hide ValidateEvent, WatchKey, ValidatedSnapshot, ChangeOf, CandidateFor, PlainRun, BriefRun, RecordedReceipt,
           RunIdOf, Format, WatchScope, DuplicateRun, Encodable;
      var validated := ValidateEvent(setup.sources, setup.lenient, e);
      if validated.Err? {
        return Err(validated.error);
      }
      var source := validated.value;
      var runId := RunIdOf(WatchKey(e));
      var claim := store.ClaimEvent(e, runId);
      if !claim.claimed {
        var existing := Lookup(store.runs, claim.recordId);
        match existing {
          case Some(run) => return Ok(run);
          case None => return Ok(DuplicateRun(e, claim.recordId, Format(w.startedAt)));
        }
      }
      var started := Format(w.startedAt);
      var fetched := w.fetch(source);
      if fetched.None? {
        return Err(FetchFailed);
      }
      var checked := ValidatedSnapshot(setup.lenient, source, fetched.value);
      if checked.Err? {
        return Err(checked.error);
      }
      var snapshot := checked.value;
      var prior := Lookup(store.snapshots, source.sourceId);
      store.SaveSnapshot(snapshot);
      var run: WatchRun;
      match Classify(prior, snapshot) {
        case Baseline(reason) =>
          run := PlainRun(e, BaselineCaptured, reason, started, Format(w.completedAt), snapshot);
        case Unchanged =>
          run := PlainRun(e, NoChange, HashUnchanged, started, Format(w.completedAt), snapshot);
        case Changed =>
          var brief := BriefOf(w, ChangeOf(source, prior.value, snapshot, fetched.value));
          if brief.None? {
            return Err(GeneratorFailed);
          }
          var candidate := CandidateFor(brief.value, source, started);
          store.SaveActionCandidate(candidate);
          var delivery := w.deliver(brief.value);
          if delivery.Crashed? {
            return Err(DeliveryCrashed);
          }
          run := BriefRun(e, brief.value, RecordedReceipt(delivery), candidate, started, Format(w.completedAt),
            snapshot);
      }
      store.SaveWatchRun(run);
      outcome := Ok(run);
    }
  }
}
