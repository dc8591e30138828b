/**
 Any number of watch workers over one shared store, interleaved step by step with each other and
 with owner decisions. Within `process` only the claim is atomic: every other read, write and
 collaborator call is a step of its own. An owner decision is either one step, as in the Firestore
 store's transaction, or a read and a later write, as in the in-memory store when threads share it.
 A process that handles several events one after another counts as several workers.
 */
module WatchWorkers {
  import opened Wrappers
  import opened Texts
  import opened Timestamps
  import opened RegistryEvents
  import opened RegistryModel
  import opened RegistryWatch

  datatype Job = Job(event: WatchEvent, world: World)

  /** Where a worker is in `process`, with the values it holds there. */
  datatype Worker =
    | Idle
    | Refused(error: WatchError)
    | Lost(recordId: Text)
    | Answered(run: WatchRun)
    | Won
    | Unobserved(error: WatchError)
    | Seen(seen: Evidence)
    | Compared(seen: Evidence, prior: Option<Snapshot>)
    | Stored(seen: Evidence, prior: Option<Snapshot>)
    | Briefed(seen: Evidence, prior: Option<Snapshot>, brief: ImpactBrief)
    | Queued(seen: Evidence, prior: Option<Snapshot>, brief: ImpactBrief)
    | Ready(seen: Evidence, prior: Option<Snapshot>, run: WatchRun)
    | Finished(seen: Evidence, prior: Option<Snapshot>, run: WatchRun)
    | Failed(seen: Evidence, prior: Option<Snapshot>, error: WatchError)

  /** What a worker does outside itself. */
  datatype Effect =
    | Fetched
    | SavedSnapshot(snapshot: Snapshot)
    | Generated(change: RegistryChange)
    | QueuedItem(candidate: ActionCandidate)
    | Attempted(brief: ImpactBrief)
    | SavedRun(run: WatchRun)

  datatype Move = Move(worker: Worker, store: StoreState, effect: Option<Effect>)

  /** The next step of a worker whose event is valid. */
  function Active(lenient: Lenient, source: RegistrySource, job: Job, w: Worker, st: StoreState): Move {
    var e, world := job.event, job.world;
    match w
    case Idle =>
      var scope := WatchScope(WatchKey(e));
      if scope in st.claims then Move(Lost(st.claims[scope]), st, None)
      else Move(Won, st.(claims := st.claims[scope := RunIdOf(WatchKey(e))]), None)
    case Lost(recordId) => Move(Answered(Replay(st.runs, e, recordId, world)), st, None)
    case Won =>
      (match Observe(lenient, source, world)
       case Err(x) => Move(Unobserved(x), st, Some(Fetched))
       case Ok(seen) => Move(Seen(seen), st, Some(Fetched)))
    case Seen(seen) => Move(Compared(seen, Lookup(st.snapshots, source.sourceId)), st, None)
    case Compared(seen, prior) =>
      Move(Stored(seen, prior), st.(snapshots := st.snapshots[seen.snapshot.sourceId := seen.snapshot]),
        Some(SavedSnapshot(seen.snapshot)))
    case Stored(seen, prior) =>
      (match Classify(prior, seen.snapshot)
       case Baseline(reason) =>
         Move(Ready(seen, prior, PlainRun(
           e, BaselineCaptured, reason, Format(world.startedAt), Format(world.completedAt), seen.snapshot)), st, None)
       case Unchanged =>
         Move(Ready(seen, prior, PlainRun(
           e, NoChange, HashUnchanged, Format(world.startedAt), Format(world.completedAt), seen.snapshot)), st, None)
       case Changed =>
         var change := ChangeOf(source, prior.value, seen.snapshot, seen.capture);
         match BriefOf(world, change)
         case None => Move(Failed(seen, prior, GeneratorFailed), st, Some(Generated(change)))
         case Some(brief) => Move(Briefed(seen, prior, brief), st, Some(Generated(change))))
    case Briefed(seen, prior, brief) =>
      var candidate := CandidateFor(brief, source, Format(world.startedAt));
      Move(Queued(seen, prior, brief), st.(candidates := SaveCandidate(st.candidates, Some(candidate))),
        Some(QueuedItem(candidate)))
    case Queued(seen, prior, brief) =>
      var delivery := world.deliver(brief);
      if delivery.Crashed? then Move(Failed(seen, prior, DeliveryCrashed), st, Some(Attempted(brief)))
      else
        var run := BriefRun(e, brief, RecordedReceipt(delivery), CandidateFor(brief, source, Format(world.startedAt)),
                            Format(world.startedAt), Format(world.completedAt), seen.snapshot);
        Move(Ready(seen, prior, run), st, Some(Attempted(brief)))
    case Ready(seen, prior, run) =>
      Move(Finished(seen, prior, run), st.(runs := st.runs[run.runId := run]), Some(SavedRun(run)))
    case _ => Move(w, st, None)
  }

  function WorkerStep(setup: Setup, job: Job, w: Worker, st: StoreState): Move {
    match ValidateEvent(setup.sources, setup.lenient, job.event)
    case Err(x) => Move(if w.Idle? then Refused(x) else w, st, None)
    case Ok(source) => Active(setup.lenient, source, job, w, st)
  }

  function OutcomeOf(w: Worker): Option<Outcome> {
    match w
    case Refused(x) => Some(Err(x))
    case Unobserved(x) => Some(Err(x))
    case Failed(_, _, x) => Some(Err(x))
    case Answered(run) => Some(Ok(run))
    case Finished(_, _, run) => Some(Ok(run))
    case _ => None
  }

  /** The worker whose claim succeeded. */
  predicate Winner(w: Worker) { !w.Idle? && !w.Refused? && !w.Lost? && !w.Answered? }

  // ---------------------------------------------------------------- the system

  /** A recorded decision says how long the log was when its item was read. */
  datatype Entry = By(worker: nat, effect: Effect) | Resolved(candidateId: Text, readAt: nat)

  /** A decided item that one call of `resolve` has computed and not yet written. */
  datatype Held = Held(candidateId: Text, candidate: ActionCandidate, readAt: nat)

  datatype System = System(store: StoreState, workers: seq<Worker>, held: map<nat, Held>, log: seq<Entry>)

  /** The last three are owner decisions: in one step, or read in a slot and written from it. */
  datatype Action =
    | Advance(worker: nat)
    | Decide(candidateId: Text, decision: Text, now: Instant)
    | Read(slot: nat, candidateId: Text, decision: Text, now: Instant)
    | Write(slot: nat)

  function Start(jobs: seq<Job>): System { System(EmptyStore(), seq(|jobs|, _ => Idle), map[], []) }

  function Tagged(i: nat, effect: Option<Effect>): seq<Entry> {
    match effect
    case None => []
    case Some(x) => [By(i, x)]
  }

  function Step(setup: Setup, jobs: seq<Job>, s: System, a: Action): (t: System)
    ensures |t.workers| == |s.workers|
  {
    hide WorkerStep, DecisionStep;
    match a
    case Advance(i) =>
      if i < |s.workers| && i < |jobs| then
        var m := WorkerStep(setup, jobs[i], s.workers[i], s.store);
        System(m.store, s.workers[i := m.worker], s.held, s.log + Tagged(i, m.effect))
      else s
    case _ => DecisionStep(setup.lenient, s, a)
  }

  /** Store a decided item and log the decision. */
  function Record(s: System, id: Text, c: ActionCandidate, readAt: nat): System {
    s.(store := s.store.(candidates := s.store.candidates[id := c]), log := s.log + [Resolved(id, readAt)])
  }

  function DecisionStep(lenient: Lenient, s: System, a: Action): (t: System)
    ensures t.workers == s.workers
  {
    hide ResolveAction;
    match a
    case Decide(id, decision, now) =>
      (match ResolveAction(lenient, s.store, id, decision, now).0
       case Err(_) => s
       case Ok(c) => Record(s, id, c, |s.log|))
    case Read(slot, id, decision, now) =>
      (match ResolveAction(lenient, s.store, id, decision, now).0
       case Err(_) => s.(held := s.held - {slot})
       case Ok(c) => s.(held := s.held[slot := Held(id, c, |s.log|)]))
    case Write(slot) =>
      if slot in s.held then
        var h := s.held[slot];
        Record(s, h.candidateId, h.candidate, h.readAt).(held := s.held - {slot})
      else s
    case Advance(_) => s
  }

  /** The state after any schedule. */
  function Run(setup: Setup, jobs: seq<Job>, schedule: seq<Action>): (s: System)
    ensures |s.workers| == |jobs|
  {
    hide Step;
    if schedule == [] then Start(jobs)
    else
      var s := Run(setup, jobs, schedule[..|schedule| - 1]);
      Step(setup, jobs, s, schedule[|schedule| - 1])
  }

  /** A decision touches nothing but the queue, its slot and the end of the log. */
  lemma DecisionTouchesQueue(setup: Setup, jobs: seq<Job>, s: System, a: Action)
    requires !a.Advance?
    ensures var t := Step(setup, jobs, s, a);
            && t.workers == s.workers && t.store == s.store.(candidates := t.store.candidates)
            && (t.log == s.log || exists id, readAt :: t.log == s.log + [Resolved(id, readAt)])
  {
    hide ResolveAction;
  }

  lemma RunAppend(setup: Setup, jobs: seq<Job>, schedule: seq<Action>, a: Action)
    ensures Run(setup, jobs, schedule + [a]) == Step(setup, jobs, Run(setup, jobs, schedule), a)
  {
    hide Step;
    assert (schedule + [a])[..|schedule|] == schedule;
  }

  // ---------------------------------------------------------------- a worker alone is `process`

  function Alone(setup: Setup, job: Job, w: Worker, st: StoreState, steps: nat): Move
    decreases steps
  {
    if steps == 0 then Move(w, st, None)
    else
      var m := WorkerStep(setup, job, w, st);
      Alone(setup, job, m.worker, m.store, steps - 1)
  }

  /** After these steps the worker has ended with this outcome and left this store. */
  predicate EndsAs(setup: Setup, job: Job, w: Worker, st: StoreState, steps: nat, outcome: Outcome, after: StoreState) {
    var m := Alone(setup, job, w, st, steps);
    OutcomeOf(m.worker) == Some(outcome) && m.store == after
  }

  lemma EndsNext(setup: Setup, job: Job, w: Worker, st: StoreState, steps: nat, outcome: Outcome, after: StoreState)
    requires steps > 0
    ensures var m := WorkerStep(setup, job, w, st);
            EndsAs(setup, job, w, st, steps, outcome, after) <==>
              EndsAs(setup, job, m.worker, m.store, steps - 1, outcome, after)
  {
    hide WorkerStep;
  }

  lemma EndedStays(setup: Setup, job: Job, w: Worker, st: StoreState)
    requires OutcomeOf(w).Some?
    ensures WorkerStep(setup, job, w, st) == Move(w, st, None)
  {
    hide ValidateEvent, WatchKey, WatchScope, RunIdOf, Observe, Classify, Replay, BriefOf, ChangeOf, CandidateFor,
         Format, PlainRun, BriefRun, RecordedReceipt, SaveCandidate;
  }

  lemma {:induction false} AloneEnded(setup: Setup, job: Job, w: Worker, st: StoreState, steps: nat, outcome: Outcome)
    requires OutcomeOf(w) == Some(outcome)
    ensures EndsAs(setup, job, w, st, steps, outcome, st)
  {
    hide WorkerStep;
    if steps > 0 {
      EndedStays(setup, job, w, st);
      AloneEnded(setup, job, w, st, steps - 1, outcome);
    }
  }

  lemma ReadyStep(setup: Setup, job: Job, seen: Evidence, prior: Option<Snapshot>, run: WatchRun, st: StoreState)
    requires ValidateEvent(setup.sources, setup.lenient, job.event).Ok?
    ensures WorkerStep(setup, job, Ready(seen, prior, run), st)
            == Move(Finished(seen, prior, run), st.(runs := SaveRun(st.runs, Ok(run))), Some(SavedRun(run)))
  {
    hide ValidateEvent;
  }

  lemma AloneFromReady(
    setup: Setup, job: Job, seen: Evidence, prior: Option<Snapshot>, run: WatchRun, st: StoreState, steps: nat)
    requires ValidateEvent(setup.sources, setup.lenient, job.event).Ok? && steps > 0
    ensures EndsAs(setup, job, Ready(seen, prior, run), st, steps, Ok(run), st.(runs := SaveRun(st.runs, Ok(run))))
  {
    hide WorkerStep, EndsAs, ValidateEvent, SaveRun;
    var after := st.(runs := SaveRun(st.runs, Ok(run)));
    ReadyStep(setup, job, seen, prior, run, st);
    AloneEnded(setup, job, Finished(seen, prior, run), after, steps - 1, Ok(run));
    EndsNext(setup, job, Ready(seen, prior, run), st, steps, Ok(run), after);
  }

  lemma QueuedStep(setup: Setup, job: Job, seen: Evidence, prior: Option<Snapshot>, brief: ImpactBrief,
    source: RegistrySource, st: StoreState)
    requires ValidateEvent(setup.sources, setup.lenient, job.event) == Ok(source)
    requires Classify(prior, seen.snapshot) == Changed
    requires BriefOf(job.world, ChangeOf(source, prior.value, seen.snapshot, seen.capture)) == Some(brief)
    ensures var m := WorkerStep(setup, job, Queued(seen, prior, brief), st);
            var outcome := Conclude(job.event, source, prior, seen, job.world).0;
            m.store == st &&
            match m.worker
            case Failed(s, p, x) => outcome == Err(x)
            case Ready(s, p, run) => s == seen && p == prior && outcome == Ok(run)
            case _ => false
  {
    hide ValidateEvent, BriefOf, ChangeOf, CandidateFor, BriefRun, Format, RecordedReceipt;
  }

  lemma AloneFromQueued(setup: Setup, job: Job, seen: Evidence, prior: Option<Snapshot>, brief: ImpactBrief,
    source: RegistrySource, st: StoreState)
    requires ValidateEvent(setup.sources, setup.lenient, job.event) == Ok(source)
    requires Classify(prior, seen.snapshot) == Changed
    requires BriefOf(job.world, ChangeOf(source, prior.value, seen.snapshot, seen.capture)) == Some(brief)
    ensures var outcome := Conclude(job.event, source, prior, seen, job.world).0;
            EndsAs(setup, job, Queued(seen, prior, brief), st, 2, outcome, st.(runs := SaveRun(st.runs, outcome)))
  {
    hide WorkerStep, EndsAs, ValidateEvent, Classify, BriefOf, ChangeOf, Conclude;
    var outcome := Conclude(job.event, source, prior, seen, job.world).0;
    QueuedStep(setup, job, seen, prior, brief, source, st);
    var m := WorkerStep(setup, job, Queued(seen, prior, brief), st);
    EndsNext(setup, job, Queued(seen, prior, brief), st, 2, outcome, st.(runs := SaveRun(st.runs, outcome)));
    if m.worker.Failed? {
      AloneEnded(setup, job, m.worker, st, 1, outcome);
    } else {
      AloneFromReady(setup, job, seen, prior, m.worker.run, st, 1);
    }
  }

  /** What a worker does next once its snapshot is saved. */
  lemma StoredStep(
    setup: Setup, job: Job, seen: Evidence, prior: Option<Snapshot>, source: RegistrySource, st: StoreState)
    requires ValidateEvent(setup.sources, setup.lenient, job.event) == Ok(source)
    ensures var m := WorkerStep(setup, job, Stored(seen, prior), st);
            var end := Conclude(job.event, source, prior, seen, job.world);
            m.store == st &&
            match m.worker
            case Failed(_, _, x) => end == (Err(x), None)
            case Ready(s, p, run) => s == seen && p == prior && end == (Ok(run), None)
            case Briefed(s, p, brief) =>
              && s == seen && p == prior && Classify(prior, seen.snapshot) == Changed && prior.Some?
              && BriefOf(job.world, ChangeOf(source, prior.value, seen.snapshot, seen.capture)) == Some(brief)
              && end.1 == Some(CandidateFor(brief, source, Format(job.world.startedAt)))
            case _ => false
  {
    hide ValidateEvent, BriefOf, ChangeOf, CandidateFor, BriefRun, PlainRun, Format, RecordedReceipt;
  }

  lemma BriefedStep(setup: Setup, job: Job, seen: Evidence, prior: Option<Snapshot>, brief: ImpactBrief,
    source: RegistrySource, st: StoreState)
    requires ValidateEvent(setup.sources, setup.lenient, job.event) == Ok(source)
    ensures var m := WorkerStep(setup, job, Briefed(seen, prior, brief), st);
            m.worker == Queued(seen, prior, brief)
            && m.store == st.(candidates := SaveCandidate(
               st.candidates, Some(CandidateFor(brief, source, Format(job.world.startedAt)))))
  {
    hide ValidateEvent, CandidateFor, Format, SaveCandidate;
  }

  lemma AloneFromStored(
    setup: Setup, job: Job, seen: Evidence, prior: Option<Snapshot>, source: RegistrySource, st: StoreState)
    requires ValidateEvent(setup.sources, setup.lenient, job.event) == Ok(source)
    ensures var end := Conclude(job.event, source, prior, seen, job.world);
            EndsAs(setup, job, Stored(seen, prior), st, 4, end.0,
                   st.(runs := SaveRun(st.runs, end.0), candidates := SaveCandidate(st.candidates, end.1)))
  {
    hide WorkerStep, EndsAs, ValidateEvent, BriefOf, ChangeOf, CandidateFor, Conclude, Format, SaveCandidate, SaveRun,
         Classify;
    var end := Conclude(job.event, source, prior, seen, job.world);
    var after := st.(runs := SaveRun(st.runs, end.0), candidates := SaveCandidate(st.candidates, end.1));
    StoredStep(setup, job, seen, prior, source, st);
    NothingSaved(st, end.0);
    var m := WorkerStep(setup, job, Stored(seen, prior), st);
    EndsNext(setup, job, Stored(seen, prior), st, 4, end.0, after);
    match m.worker
    case Failed(_, _, _) => AloneEnded(setup, job, m.worker, st, 3, end.0);
    case Ready(_, _, run) => AloneFromReady(setup, job, seen, prior, run, st, 3);
    case Briefed(_, _, brief) =>
      BriefedStep(setup, job, seen, prior, brief, source, st);
      EndsNext(setup, job, m.worker, st, 3, end.0, after);
      AloneFromQueued(setup, job, seen, prior, brief, source, st.(candidates := after.candidates));
  }

  lemma NothingSaved(st: StoreState, outcome: Outcome)
    ensures SaveCandidate(st.candidates, None) == st.candidates
    ensures outcome.Err? ==> SaveRun(st.runs, outcome) == st.runs
  {
  }

  /** A worker with a won claim ends as the claimed part of `process`. */
  lemma AloneFromWon(setup: Setup, job: Job, source: RegistrySource, st: StoreState)
    requires ValidateEvent(setup.sources, setup.lenient, job.event) == Ok(source)
    ensures var end := Watch(setup.lenient, st, job.event, source, job.world);
            EndsAs(setup, job, Won, st, 7, end.0, end.1)
  {
    hide EndsAs, ValidateEvent, Observe, Conclude, SaveCandidate, SaveRun;
    var end := Watch(setup.lenient, st, job.event, source, job.world);
    EndsNext(setup, job, Won, st, 7, end.0, end.1);
    match Observe(setup.lenient, source, job.world)
    case Err(x) => AloneEnded(setup, job, Unobserved(x), st, 6, end.0);
    case Ok(seen) =>
      var prior := Lookup(st.snapshots, source.sourceId);
      EndsNext(setup, job, Seen(seen), st, 6, end.0, end.1);
      EndsNext(setup, job, Compared(seen, prior), st, 5, end.0, end.1);
      AloneFromStored(setup, job, seen, prior, source,
        st.(snapshots := st.snapshots[seen.snapshot.sourceId := seen.snapshot]));
  }

  /** Eight undisturbed steps of a worker are one call of `process`. */
  lemma AloneIsProcess(setup: Setup, job: Job, st: StoreState)
    ensures var end := Process(setup, st, job.event, job.world);
            EndsAs(setup, job, Idle, st, 8, end.0, end.1)
  {
    hide EndsAs, ValidateEvent, WatchKey, WatchScope, RunIdOf, Watch, Replay;
    var end := Process(setup, st, job.event, job.world);
    EndsNext(setup, job, Idle, st, 8, end.0, end.1);
    var m := WorkerStep(setup, job, Idle, st);
    match ValidateEvent(setup.sources, setup.lenient, job.event)
    case Err(x) => AloneEnded(setup, job, Refused(x), st, 7, end.0);
    case Ok(source) =>
      if m.worker.Won? {
        AloneFromWon(setup, job, source, m.store);
      } else {
        EndsNext(setup, job, m.worker, st, 7, end.0, end.1);
        AloneEnded(setup, job, Answered(Replay(st.runs, job.event, m.worker.recordId, job.world)), st, 6, end.0);
      }
  }
}
