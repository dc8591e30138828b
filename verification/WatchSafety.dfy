/** What holds in every interleaving of watch workers and owner decisions. */
module WatchSafety {
  import opened Wrappers
  import opened Texts
  import opened Timestamps
  import opened RegistryEvents
  import opened ClaimStore
  import opened RegistryModel
  import opened RegistryWatch
  import opened RegistryHistory
  import opened WatchWorkers

  function KeyOfJob(job: Job): Text { WatchKey(job.event) }

  function ScopeOf(job: Job): ClaimKey { WatchScope(KeyOfJob(job)) }

  predicate Valid(setup: Setup, job: Job) { ValidateEvent(setup.sources, setup.lenient, job.event).Ok? }

  // ---------------------------------------------------------------- one worker

  /** The values a worker holds are the ones its evidence determines. */
  predicate Coherent(lenient: Lenient, source: RegistrySource, job: Job, w: Worker) {
    match w
    case Unobserved(x) => Observe(lenient, source, job.world) == Err(x)
    case Seen(seen) => Observe(lenient, source, job.world) == Ok(seen)
    case Compared(seen, _) => Observe(lenient, source, job.world) == Ok(seen)
    case Stored(seen, _) => Observe(lenient, source, job.world) == Ok(seen)
    case Briefed(seen, prior, brief) =>
      Observe(lenient, source, job.world) == Ok(seen) && BriefedFrom(source, job, seen, prior, brief)
    case Queued(seen, prior, brief) =>
      Observe(lenient, source, job.world) == Ok(seen) && BriefedFrom(source, job, seen, prior, brief)
    case Ready(seen, prior, run) =>
      Observe(lenient, source, job.world) == Ok(seen)
        && Conclude(job.event, source, prior, seen, job.world).0 == Ok(run)
    case Finished(seen, prior, run) =>
      Observe(lenient, source, job.world) == Ok(seen)
        && Conclude(job.event, source, prior, seen, job.world).0 == Ok(run)
    case Failed(seen, prior, x) =>
      Observe(lenient, source, job.world) == Ok(seen) && Conclude(job.event, source, prior, seen, job.world).0 == Err(x)
    case _ => true
  }

  predicate BriefedFrom(source: RegistrySource, job: Job, seen: Evidence, prior: Option<Snapshot>, brief: ImpactBrief) {
    && Classify(prior, seen.snapshot) == Changed
    && BriefOf(job.world, ChangeOf(source, prior.value, seen.snapshot, seen.capture)) == Some(brief)
  }

  /** The effects of a whole claimed call up to saving its run. */
  function Deeds(source: RegistrySource, job: Job, seen: Evidence, prior: Option<Snapshot>): seq<Effect> {
    [Fetched, SavedSnapshot(seen.snapshot)] + (
      if Classify(prior, seen.snapshot) != Changed then []
      else
        var change := ChangeOf(source, prior.value, seen.snapshot, seen.capture);
        match BriefOf(job.world, change)
        case None => [Generated(change)]
        case Some(brief) =>
          [Generated(change), QueuedItem(CandidateFor(brief, source, Format(job.world.startedAt))), Attempted(brief)])
  }

  function FirstOf<T>(xs: seq<T>, n: nat): seq<T> { if n <= |xs| then xs[..n] else xs }

  /** The effects a worker must have had, from where it is. */
  function Trace(source: RegistrySource, job: Job, w: Worker): seq<Effect>
  {
    match w
    case Unobserved(_) => [Fetched]
    case Seen(_) => [Fetched]
    case Compared(_, _) => [Fetched]
    case Stored(seen, _) => [Fetched, SavedSnapshot(seen.snapshot)]
    case Briefed(seen, prior, _) => FirstOf(Deeds(source, job, seen, prior), 3)
    case Queued(seen, prior, _) => FirstOf(Deeds(source, job, seen, prior), 4)
    case Ready(seen, prior, _) => Deeds(source, job, seen, prior)
    case Failed(seen, prior, _) => Deeds(source, job, seen, prior)
    case Finished(seen, prior, run) => Deeds(source, job, seen, prior) + [SavedRun(run)]
    case _ => []
  }

  function AsSeq<T>(x: Option<T>): seq<T> { match x case None => [] case Some(v) => [v] }

  /** Every step keeps the worker coherent and its effects as its place demands. */
  lemma ActiveStep(lenient: Lenient, source: RegistrySource, job: Job, w: Worker, st: StoreState)
    requires Coherent(lenient, source, job, w)
    ensures var m := Active(lenient, source, job, w, st);
            && Coherent(lenient, source, job, m.worker)
            && Trace(source, job, m.worker) == Trace(source, job, w) + AsSeq(m.effect)
  {
    hide WatchKey, WatchScope, RunIdOf, Observe, BriefOf, ChangeOf, CandidateFor, Replay, Format, RecordedReceipt,
         PlainRun, BriefRun, SaveCandidate;
  }

  // ---------------------------------------------------------------- the log

  function EffectsOf(log: seq<Entry>, i: nat): seq<Effect> {
    if log == [] then []
    else
      var last := log[|log| - 1];
      EffectsOf(log[..|log| - 1], i) + (if last.By? && last.worker == i then [last.effect] else [])
  }

  lemma EffectsOfAppend(log: seq<Entry>, entry: Entry, i: nat)
    ensures EffectsOf(log + [entry], i)
            == EffectsOf(log, i) + (if entry.By? && entry.worker == i then [entry.effect] else [])
  {
    assert (log + [entry])[..|log|] == log;
  }

  lemma EffectsOfTagged(log: seq<Entry>, j: nat, effect: Option<Effect>, i: nat)
    ensures EffectsOf(log + Tagged(j, effect), i) == EffectsOf(log, i) + (if j == i then AsSeq(effect) else [])
  {
    hide EffectsOf;
    match effect
    case None => assert log + [] == log;
    case Some(x) => EffectsOfAppend(log, By(j, x), i);
  }

  /** Worker i is coherent and the log holds exactly the effects its place demands. */
  predicate Accounted(setup: Setup, job: Job, w: Worker, effects: seq<Effect>) {
    hide ValidateEvent, Trace, Observe, Conclude, BriefOf, ChangeOf;
    match ValidateEvent(setup.sources, setup.lenient, job.event)
    case Err(x) => (w == Idle || w == Refused(x)) && effects == []
    case Ok(source) => !w.Refused? && Coherent(setup.lenient, source, job, w) && effects == Trace(source, job, w)
  }

  lemma AccountedStep(setup: Setup, job: Job, w: Worker, st: StoreState, effects: seq<Effect>)
    requires Accounted(setup, job, w, effects)
    ensures var m := WorkerStep(setup, job, w, st);
            Accounted(setup, job, m.worker, effects + AsSeq(m.effect))
  {
    hide ValidateEvent, Trace, Coherent, Active;
    match ValidateEvent(setup.sources, setup.lenient, job.event)
    case Err(_) =>
    case Ok(source) =>
      ActiveStep(setup.lenient, source, job, w, st);
      NeverRefused(setup.lenient, source, job, w, st);
  }

  lemma NeverRefused(lenient: Lenient, source: RegistrySource, job: Job, w: Worker, st: StoreState)
    ensures !w.Refused? ==> !Active(lenient, source, job, w, st).worker.Refused?
  {
    hide WatchKey, WatchScope, RunIdOf, Observe, BriefOf, ChangeOf, CandidateFor, Replay, Format, RecordedReceipt,
         PlainRun, BriefRun, SaveCandidate, Classify;
  }

  lemma {:induction false} WorkersAreAccounted(setup: Setup, jobs: seq<Job>, schedule: seq<Action>, i: nat)
    requires i < |jobs|
    ensures var s := Run(setup, jobs, schedule);
            Accounted(setup, jobs[i], s.workers[i], EffectsOf(s.log, i))
  {
    hide WorkerStep, ValidateEvent, EffectsOf, DecisionStep, Tagged, Accounted;
    var n := |schedule|;
    if n == 0 {
      StartsAccounted(setup, jobs[i]);
      assert EffectsOf([], i) == [] by { NoEffects(i); }
    } else {
      WorkersAreAccounted(setup, jobs, schedule[..n - 1], i);
      var s := Run(setup, jobs, schedule[..n - 1]);
      match schedule[n - 1]
      case Advance(j) =>
        if j < |jobs| {
          EffectsOfTagged(s.log, j, WorkerStep(setup, jobs[j], s.workers[j], s.store).effect, i);
          AccountedStep(setup, jobs[i], s.workers[i], s.store, EffectsOf(s.log, i));
          assert EffectsOf(s.log, i) + [] == EffectsOf(s.log, i);
        }
      case _ =>
        DecisionTouchesQueue(setup, jobs, s, schedule[n - 1]);
        DecisionHasNoEffect(setup, jobs, s, schedule[n - 1], i);
    }
  }

  /** A decision is no worker's effect. */
  lemma DecisionHasNoEffect(setup: Setup, jobs: seq<Job>, s: System, a: Action, i: nat)
    requires !a.Advance?
    ensures EffectsOf(Step(setup, jobs, s, a).log, i) == EffectsOf(s.log, i)
  {
    hide Step, EffectsOf;
    DecisionTouchesQueue(setup, jobs, s, a);
    var t := Step(setup, jobs, s, a);
    if t.log != s.log {
      var id, readAt :| t.log == s.log + [Resolved(id, readAt)];
      EffectsOfAppend(s.log, Resolved(id, readAt), i);
    }
  }

  lemma NoEffects(i: nat)
    ensures EffectsOf([], i) == []
  {
  }

  lemma StartsAccounted(setup: Setup, job: Job)
    ensures Accounted(setup, job, Idle, [])
  {
    hide ValidateEvent;
  }

  // ---------------------------------------------------------------- what one step changes

  function RecordOf(w: Worker): Option<Text> {
    match w
    case Lost(recordId) => Some(recordId)
    case _ => None
  }

  predicate Wins(setup: Setup, job: Job, w: Worker, claims: Records) {
    Valid(setup, job) && w.Idle? && ScopeOf(job) !in claims
  }

  /** The claims, and who holds them. */
  lemma ClaimSummary(setup: Setup, job: Job, w: Worker, st: StoreState)
    ensures var m := WorkerStep(setup, job, w, st);
            && (Winner(m.worker) <==> Winner(w) || Wins(setup, job, w, st.claims))
            && m.store.claims == (
               if Wins(setup, job, w, st.claims) then st.claims[ScopeOf(job) := RunIdOf(KeyOfJob(job))] else st.claims)
            && (m.worker.Lost? && !w.Lost? ==> RecordOf(m.worker) == Lookup(st.claims, ScopeOf(job)))
            && (m.worker.Lost? && w.Lost? ==> !Valid(setup, job) && m.worker == w)
            && (m.worker.Idle? ==> w.Idle?)
            && (!Winner(m.worker) ==> m.store == st && m.effect.None?)
  {
    hide ValidateEvent, WatchKey, WatchScope, RunIdOf, Observe, BriefOf, ChangeOf, CandidateFor, Replay, Format,
         RecordedReceipt, PlainRun, BriefRun, SaveCandidate, Classify;
  }

  function RunOf(w: Worker): Option<WatchRun> {
    match w
    case Ready(_, _, run) => Some(run)
    case Finished(_, _, run) => Some(run)
    case _ => None
  }

  function SavedBefore(w: Worker, runs: map<Text, WatchRun>): map<Text, WatchRun> {
    match w
    case Ready(_, _, run) => runs[run.runId := run]
    case _ => runs
  }

  /** The runs, and who saves and answers them. */
  lemma RunSummary(setup: Setup, job: Job, w: Worker, st: StoreState)
    ensures var m := WorkerStep(setup, job, w, st);
            && m.store.runs == (if Valid(setup, job) then SavedBefore(w, st.runs) else st.runs)
            && (m.worker.Finished? <==> w.Finished? || (w.Ready? && Valid(setup, job)))
            && (m.worker.Finished? ==> RunOf(m.worker) == RunOf(w))
            && (w.Finished? ==> m.worker == w)
            && (m.worker.Answered? ==>
                  m.worker == w || (w.Lost? && m.worker == Answered(Replay(st.runs, job.event, w.recordId, job.world))))
  {
    hide ValidateEvent, WatchKey, WatchScope, RunIdOf, Observe, BriefOf, ChangeOf, CandidateFor, Replay, Format,
         RecordedReceipt, PlainRun, BriefRun, SaveCandidate, Classify;
  }

  // ---------------------------------------------------------------- claims

  predicate IsWinner(jobs: seq<Job>, workers: seq<Worker>, i: nat, key: Text) {
    i < |jobs| && i < |workers| && KeyOfJob(jobs[i]) == key && Winner(workers[i])
  }

  ghost predicate HasWinner(jobs: seq<Job>, workers: seq<Worker>, key: Text) {
    exists i: nat :: IsWinner(jobs, workers, i, key)
  }

  /** A worker that has moved has met its claim. */
  predicate Placed(setup: Setup, job: Job, w: Worker, claims: Records) {
    && (Valid(setup, job) && !w.Idle? ==> ScopeOf(job) in claims)
    && (w.Lost? ==> w.recordId == RunIdOf(KeyOfJob(job)))
    && (!Valid(setup, job) ==> !Winner(w) && !w.Lost?)
  }

  /** The key's claim names its run, has exactly one winner, and every worker on the key knows it. */
  ghost predicate ClaimFact(setup: Setup, jobs: seq<Job>, s: System, key: Text) {
    && |s.workers| == |jobs|
    && (WatchScope(key) in s.store.claims ==>
       s.store.claims[WatchScope(key)] == RunIdOf(key) && HasWinner(jobs, s.workers, key))
    && (forall i | 0 <= i < |jobs| && KeyOfJob(jobs[i]) == key :: Placed(setup, jobs[i], s.workers[i], s.store.claims))
    && (forall i: nat, j: nat | IsWinner(jobs, s.workers, i, key) && IsWinner(jobs, s.workers, j, key) :: i == j)
  }

  lemma InvalidStays(setup: Setup, job: Job, w: Worker, st: StoreState)
    requires !Valid(setup, job) && !Winner(w) && !w.Lost?
    ensures var m := WorkerStep(setup, job, w, st); !Winner(m.worker) && !m.worker.Lost?
  {
    hide ValidateEvent;
  }

  lemma PlacedStep(setup: Setup, job: Job, w: Worker, st: StoreState)
    requires Placed(setup, job, w, st.claims)
    requires ScopeOf(job) in st.claims ==> st.claims[ScopeOf(job)] == RunIdOf(KeyOfJob(job))
    ensures var m := WorkerStep(setup, job, w, st); Placed(setup, job, m.worker, m.store.claims)
  {
    hide WorkerStep, Valid, WatchScope, RunIdOf, WatchKey;
    ClaimSummary(setup, job, w, st);
    if !Valid(setup, job) { InvalidStays(setup, job, w, st); }
    else if !w.Idle? { StaysMoved(setup, job, w, st); }
    else { LeavesIdle(setup, job, w, st); }
  }

  lemma StaysMoved(setup: Setup, job: Job, w: Worker, st: StoreState)
    requires !w.Idle?
    ensures !WorkerStep(setup, job, w, st).worker.Idle?
  {
    hide WorkerStep;
    ClaimSummary(setup, job, w, st);
  }

  lemma LeavesIdle(setup: Setup, job: Job, w: Worker, st: StoreState)
    requires w.Idle? && Valid(setup, job)
    ensures ScopeOf(job) in WorkerStep(setup, job, w, st).store.claims
  {
    hide WorkerStep, Valid, WatchScope, RunIdOf, WatchKey;
    ClaimSummary(setup, job, w, st);
  }

  /** One worker's step keeps every key's claim fact. */
  lemma ClaimFactStep(setup: Setup, jobs: seq<Job>, s: System, a: nat, key: Text)
    requires |s.workers| == |jobs| && a < |jobs|
    requires ClaimFact(setup, jobs, s, key) && ClaimFact(setup, jobs, s, KeyOfJob(jobs[a]))
    ensures ClaimFact(setup, jobs, Step(setup, jobs, s, Advance(a)), key)
  {
    hide WorkerStep, Valid, WatchScope, RunIdOf, WatchKey, Winner, Tagged, Placed, HasWinner, KeyOfJob;
    var job, w := jobs[a], s.workers[a];
    var m := WorkerStep(setup, job, w, s.store);
    var t := Step(setup, jobs, s, Advance(a));
    ClaimSummary(setup, job, w, s.store);
    PlacedStep(setup, job, w, s.store);
    WinnersStep(jobs, s.workers, a, m.worker, key);
    ScopesDiffer(key, KeyOfJob(job));
    forall i | 0 <= i < |jobs|
      && KeyOfJob(jobs[i]) == key ensures Placed(setup, jobs[i], t.workers[i], t.store.claims) {
      if i != a { StillPlaced(setup, jobs[i], s.workers[i], s.store.claims, t.store.claims); }
    }
    if KeyOfJob(job) == key && Winner(m.worker) && !Winner(w) {
      NoWinnerYet(setup, jobs, s, key);
    }
    assert t.workers == s.workers[a := m.worker];
    assert WatchScope(key) in t.store.claims ==> t.store.claims[WatchScope(key)] == RunIdOf(key);
    assert WatchScope(key) in t.store.claims ==> HasWinner(jobs, t.workers, key);
    forall i: nat, j: nat | IsWinner(jobs, t.workers, i, key) && IsWinner(jobs, t.workers, j, key) ensures i == j {
      assert Winner(w) && KeyOfJob(job) == key ==> IsWinner(jobs, s.workers, a, key);
      assert IsWinner(jobs, s.workers, i, key) || i == a;
      assert IsWinner(jobs, s.workers, j, key) || j == a;
    }
  }

  lemma StillPlaced(setup: Setup, job: Job, w: Worker, claims: Records, later: Records)
    requires Placed(setup, job, w, claims) && claims.Keys <= later.Keys
    ensures Placed(setup, job, w, later)
  {
    hide Valid, WatchScope, RunIdOf, WatchKey;
  }

  /** How replacing worker a changes who won a key. */
  lemma WinnersStep(jobs: seq<Job>, workers: seq<Worker>, a: nat, w: Worker, key: Text)
    requires |workers| == |jobs| && a < |jobs| && (Winner(workers[a]) ==> Winner(w))
    ensures forall i: nat :: IsWinner(jobs, workers[a := w], i, key) <==>
              IsWinner(jobs, workers, i, key) || (i == a && KeyOfJob(jobs[a]) == key && Winner(w))
    ensures HasWinner(jobs, workers, key) || (KeyOfJob(jobs[a]) == key && Winner(w)) ==>
            HasWinner(jobs, workers[a := w], key)
  {
    hide Winner, KeyOfJob;
    forall i: nat
      ensures IsWinner(jobs, workers[a := w], i, key) <==>
              IsWinner(jobs, workers, i, key) || (i == a && KeyOfJob(jobs[a]) == key && Winner(w))
    {
      if i < |jobs| && i != a { assert workers[a := w][i] == workers[i]; }
    }
    if HasWinner(jobs, workers, key) {
      var i :| IsWinner(jobs, workers, i, key);
      assert IsWinner(jobs, workers[a := w], i, key);
    } else if KeyOfJob(jobs[a]) == key && Winner(w) {
      assert IsWinner(jobs, workers[a := w], a, key);
    }
  }

  lemma NoWinnerYet(setup: Setup, jobs: seq<Job>, s: System, key: Text)
    requires |s.workers| == |jobs| && ClaimFact(setup, jobs, s, key) && WatchScope(key) !in s.store.claims
    ensures forall i: nat :: !IsWinner(jobs, s.workers, i, key)
  {
    hide Valid, WatchScope, RunIdOf, WatchKey;
  }

  lemma {:induction false} ClaimsAreHeld(setup: Setup, jobs: seq<Job>, schedule: seq<Action>, key: Text)
    ensures ClaimFact(setup, jobs, Run(setup, jobs, schedule), key)
  {
    hide WorkerStep, Valid, WatchScope, RunIdOf, KeyOfJob, ClaimFact, DecisionStep;
    var n := |schedule|;
    if n == 0 {
      StartClaims(setup, jobs, key);
    } else {
      ClaimsAreHeld(setup, jobs, schedule[..n - 1], key);
      var s := Run(setup, jobs, schedule[..n - 1]);
      match schedule[n - 1]
      case Advance(a) =>
        if a < |jobs| {
          ClaimsAreHeld(setup, jobs, schedule[..n - 1], KeyOfJob(jobs[a]));
          ClaimFactStep(setup, jobs, s, a, key);
        }
      case _ => DecidedClaims(setup, jobs, s, schedule[n - 1], key);
    }
  }

  lemma StartClaims(setup: Setup, jobs: seq<Job>, key: Text)
    ensures ClaimFact(setup, jobs, Start(jobs), key)
  {
    hide Valid, WatchScope, RunIdOf, KeyOfJob;
  }

  lemma DecidedClaims(setup: Setup, jobs: seq<Job>, s: System, a: Action, key: Text)
    requires !a.Advance? && |s.workers| == |jobs| && ClaimFact(setup, jobs, s, key)
    ensures ClaimFact(setup, jobs, Step(setup, jobs, s, a), key)
  {
    hide Step, Placed, IsWinner, HasWinner, WatchScope, RunIdOf, KeyOfJob;
    DecisionTouchesQueue(setup, jobs, s, a);
  }

  /**
   At most one worker per event ever fetches, generates, queues, delivers or saves: two workers
   with effects in the log hold different idempotency keys.
   */
  lemma OneWorkerPerEvent(setup: Setup, jobs: seq<Job>, schedule: seq<Action>, i: nat, j: nat)
    requires i < |jobs| && j < |jobs| && KeyOfJob(jobs[i]) == KeyOfJob(jobs[j])
    requires var log := Run(setup, jobs, schedule).log; EffectsOf(log, i) != [] && EffectsOf(log, j) != []
    ensures i == j
  {
    hide KeyOfJob, Run, EffectsOf;
    var s := Run(setup, jobs, schedule);
    ClaimsAreHeld(setup, jobs, schedule, KeyOfJob(jobs[i]));
    EffectsShowWinner(setup, jobs, schedule, i);
    EffectsShowWinner(setup, jobs, schedule, j);
    OnlyWinner(setup, jobs, s, i, j);
  }

  lemma OnlyWinner(setup: Setup, jobs: seq<Job>, s: System, i: nat, j: nat)
    requires i < |jobs| && j < |jobs| && |s.workers| == |jobs| && KeyOfJob(jobs[i]) == KeyOfJob(jobs[j])
    requires Winner(s.workers[i]) && Winner(s.workers[j]) && ClaimFact(setup, jobs, s, KeyOfJob(jobs[i]))
    ensures i == j
  {
    hide KeyOfJob, Winner, Placed, WatchScope, RunIdOf;
    assert IsWinner(jobs, s.workers, i, KeyOfJob(jobs[i])) && IsWinner(jobs, s.workers, j, KeyOfJob(jobs[i]));
  }

  lemma EffectsShowWinner(setup: Setup, jobs: seq<Job>, schedule: seq<Action>, i: nat)
    requires i < |jobs|
    ensures var s := Run(setup, jobs, schedule); EffectsOf(s.log, i) != [] ==> Winner(s.workers[i])
  {
    hide Run, EffectsOf, Accounted;
    WorkersAreAccounted(setup, jobs, schedule, i);
    var s := Run(setup, jobs, schedule);
    LosersAreIdle(setup, jobs[i], s.workers[i], EffectsOf(s.log, i));
  }

  lemma LosersAreIdle(setup: Setup, job: Job, w: Worker, effects: seq<Effect>)
    requires Accounted(setup, job, w, effects)
    ensures !Winner(w) ==> effects == []
  {
    hide ValidateEvent, Coherent;
  }

  // ---------------------------------------------------------------- runs and duplicate answers

  predicate FinishedWith(jobs: seq<Job>, workers: seq<Worker>, j: nat, key: Text, run: WatchRun) {
    j < |jobs| && j < |workers| && KeyOfJob(jobs[j]) == key && workers[j].Finished? && workers[j].run == run
  }

  ghost predicate Completed(jobs: seq<Job>, workers: seq<Worker>, key: Text, run: WatchRun) {
    exists j: nat :: FinishedWith(jobs, workers, j, key, run)
  }

  /** A duplicate's answer: the unsaved marker, or the run of the worker that finished the event. */
  ghost predicate DuplicateAnswer(jobs: seq<Job>, workers: seq<Worker>, job: Job, run: WatchRun) {
    || run == DuplicateRun(job.event, RunIdOf(KeyOfJob(job)), Format(job.world.startedAt))
    || Completed(jobs, workers, KeyOfJob(job), run)
  }

  ghost predicate RunFact(setup: Setup, jobs: seq<Job>, s: System, key: Text) {
    && |s.workers| == |jobs|
    && (RunIdOf(key) in s.store.runs ==> Completed(jobs, s.workers, key, s.store.runs[RunIdOf(key)]))
    && (forall j: nat, run: WatchRun | FinishedWith(jobs, s.workers, j, key, run) ::
       Lookup(s.store.runs, RunIdOf(key)) == Some(run))
    && AnswersFact(jobs, s.workers, key)
  }

  ghost predicate AnswersFact(jobs: seq<Job>, workers: seq<Worker>, key: Text) {
    && |workers| == |jobs|
    && (forall i | 0 <= i < |jobs| && KeyOfJob(jobs[i]) == key && workers[i].Answered? ::
          DuplicateAnswer(jobs, workers, jobs[i], workers[i].run))
  }

  lemma ReadyRunId(setup: Setup, job: Job, w: Worker, effects: seq<Effect>)
    requires Accounted(setup, job, w, effects)
    ensures w.Ready? ==> w.run.runId == RunIdOf(KeyOfJob(job))
  {
    hide ValidateEvent, RunIdOf, WatchKey, Observe, Conclude, Trace, Classify, ReportsClassification, Format;
    if w.Ready? {
      var source := ValidateEvent(setup.sources, setup.lenient, job.event).value;
      ConclusionIsClassified(job.event, source, w.prior, w.seen, job.world);
    }
  }

  lemma CompletedStays(setup: Setup, jobs: seq<Job>, s: System, a: nat, key: Text)
    requires |s.workers| == |jobs| && a < |jobs|
    ensures forall run: WatchRun :: Completed(jobs, s.workers, key, run) ==>
              Completed(jobs, Step(setup, jobs, s, Advance(a)).workers, key, run)
  {
    hide WorkerStep, KeyOfJob;
    var t := Step(setup, jobs, s, Advance(a));
    forall run: WatchRun | Completed(jobs, s.workers, key, run) ensures Completed(jobs, t.workers, key, run) {
      var j: nat :| FinishedWith(jobs, s.workers, j, key, run);
      if j == a { RunSummary(setup, jobs[a], s.workers[a], s.store); }
      assert FinishedWith(jobs, t.workers, j, key, run);
    }
  }

  /** How a step changes who finished a key. */
  lemma FinishedStep(setup: Setup, jobs: seq<Job>, s: System, a: nat, key: Text)
    requires |s.workers| == |jobs| && a < |jobs|
    ensures var t := Step(setup, jobs, s, Advance(a));
            forall j: nat, run: WatchRun :: FinishedWith(jobs, t.workers, j, key, run) ==>
              FinishedWith(jobs, s.workers, j, key, run)
              || (j == a && s.workers[a].Ready? && Valid(setup, jobs[a]) && run == s.workers[a].run
                 && KeyOfJob(jobs[a]) == key)
  {
    hide WorkerStep, KeyOfJob, Valid;
    RunSummary(setup, jobs[a], s.workers[a], s.store);
  }

  /** What the step of worker a does to the saved run of a key. */
  lemma RunsStep(setup: Setup, jobs: seq<Job>, s: System, a: nat, key: Text)
    requires |s.workers| == |jobs| && a < |jobs|
    requires s.workers[a].Ready? ==> s.workers[a].run.runId == RunIdOf(KeyOfJob(jobs[a]))
    ensures var t := Step(setup, jobs, s, Advance(a));
            Lookup(t.store.runs, RunIdOf(key)) ==
              if s.workers[a].Ready? && Valid(setup, jobs[a]) && KeyOfJob(jobs[a]) == key then Some(s.workers[a].run)
              else Lookup(s.store.runs, RunIdOf(key))
  {
    hide WorkerStep, KeyOfJob, Valid, RunIdOf;
    RunSummary(setup, jobs[a], s.workers[a], s.store);
    RunIdInjective(key, KeyOfJob(jobs[a]));
  }

  lemma SavesAreCompleted(setup: Setup, jobs: seq<Job>, s: System, a: nat)
    requires |s.workers| == |jobs| && a < |jobs| && s.workers[a].Ready? && Valid(setup, jobs[a])
    ensures Completed(jobs, Step(setup, jobs, s, Advance(a)).workers, KeyOfJob(jobs[a]), s.workers[a].run)
  {
    hide WorkerStep, KeyOfJob, Valid;
    RunSummary(setup, jobs[a], s.workers[a], s.store);
    assert FinishedWith(jobs, Step(setup, jobs, s, Advance(a)).workers, a, KeyOfJob(jobs[a]), s.workers[a].run);
  }

  lemma AnswersStep(setup: Setup, jobs: seq<Job>, s: System, a: nat, key: Text)
    requires |s.workers| == |jobs| && a < |jobs| && RunFact(setup, jobs, s, key)
    requires Placed(setup, jobs[a], s.workers[a], s.store.claims)
    ensures AnswersFact(jobs, Step(setup, jobs, s, Advance(a)).workers, key)
  {
    hide WorkerStep, KeyOfJob, Valid, RunIdOf, Completed, DuplicateRun, WatchScope, Format;
    var t := Step(setup, jobs, s, Advance(a));
    RunSummary(setup, jobs[a], s.workers[a], s.store);
    CompletedStays(setup, jobs, s, a, key);
  }

  lemma RunFactStep(setup: Setup, jobs: seq<Job>, s: System, a: nat, key: Text)
    requires |s.workers| == |jobs| && a < |jobs|
    requires RunFact(setup, jobs, s, key) && ClaimFact(setup, jobs, s, KeyOfJob(jobs[a]))
    requires s.workers[a].Ready? ==> s.workers[a].run.runId == RunIdOf(KeyOfJob(jobs[a]))
    ensures RunFact(setup, jobs, Step(setup, jobs, s, Advance(a)), key)
  {
    hide Step, KeyOfJob, Valid, RunIdOf, Placed, DuplicateAnswer, Completed, WatchScope, Run;
    var t := Step(setup, jobs, s, Advance(a));
    StepKeepsWorkers(setup, jobs, s, a);
    AnswersStep(setup, jobs, s, a, key);
    RunsStep(setup, jobs, s, a, key);
    FinishedStep(setup, jobs, s, a, key);
    CompletedStays(setup, jobs, s, a, key);
    if s.workers[a].Ready? && Valid(setup, jobs[a]) && KeyOfJob(jobs[a]) == key {
      SavesAreCompleted(setup, jobs, s, a);
      forall j: nat, run: WatchRun | FinishedWith(jobs, s.workers, j, key, run) ensures false {
        OnlyWinner(setup, jobs, s, a, j);
      }
    }
  }

  lemma StepKeepsWorkers(setup: Setup, jobs: seq<Job>, s: System, a: nat)
    ensures |Step(setup, jobs, s, Advance(a)).workers| == |s.workers|
  {
    hide WorkerStep;
  }

  lemma {:induction false} RunsAreCompleted(setup: Setup, jobs: seq<Job>, schedule: seq<Action>, key: Text)
    ensures RunFact(setup, jobs, Run(setup, jobs, schedule), key)
  {
    hide WorkerStep, Valid, WatchScope, RunIdOf, KeyOfJob, ClaimFact, RunFact, DecisionStep, Accounted;
    var n := |schedule|;
    if n == 0 {
      StartRuns(setup, jobs, key);
    } else {
      RunsAreCompleted(setup, jobs, schedule[..n - 1], key);
      var s := Run(setup, jobs, schedule[..n - 1]);
      match schedule[n - 1]
      case Advance(a) =>
        if a < |jobs| {
          ClaimsAreHeld(setup, jobs, schedule[..n - 1], KeyOfJob(jobs[a]));
          WorkersAreAccounted(setup, jobs, schedule[..n - 1], a);
          ReadyRunId(setup, jobs[a], s.workers[a], EffectsOf(s.log, a));
          RunFactStep(setup, jobs, s, a, key);
        }
      case _ => DecidedRuns(setup, jobs, s, schedule[n - 1], key);
    }
  }

  lemma StartRuns(setup: Setup, jobs: seq<Job>, key: Text)
    ensures RunFact(setup, jobs, Start(jobs), key)
  {
    hide Valid, RunIdOf, KeyOfJob;
  }

  lemma DecidedRuns(setup: Setup, jobs: seq<Job>, s: System, a: Action, key: Text)
    requires !a.Advance? && |s.workers| == |jobs| && RunFact(setup, jobs, s, key)
    ensures RunFact(setup, jobs, Step(setup, jobs, s, a), key)
  {
    hide Step, RunIdOf, KeyOfJob, FinishedWith, DuplicateAnswer, Completed;
    DecisionTouchesQueue(setup, jobs, s, a);
  }

  ghost predicate AnswersOnly(jobs: seq<Job>, workers: seq<Worker>, job: Job, w: Worker, effects: seq<Effect>) {
    && (!Winner(w) ==> effects == [])
    && (w.Answered? ==> DuplicateAnswer(jobs, workers, job, w.run))
  }

  /**
   Every worker that loses its claim leaves no effect and answers with the stored run of the worker
   that finished the event, or with the duplicate marker.
   */
  lemma LosersAnswerOnly(setup: Setup, jobs: seq<Job>, schedule: seq<Action>, i: nat)
    requires i < |jobs|
    ensures var s := Run(setup, jobs, schedule);
            AnswersOnly(jobs, s.workers, jobs[i], s.workers[i], EffectsOf(s.log, i))
  {
    hide KeyOfJob, RunIdOf, Run, EffectsOf, DuplicateAnswer, Completed;
    EffectsShowWinner(setup, jobs, schedule, i);
    RunsAreCompleted(setup, jobs, schedule, KeyOfJob(jobs[i]));
  }

  // ---------------------------------------------------------------- what a worker's end accounts for

  /** A finished run with a brief stored its candidate, then attempted delivery once, then saved the run. */
  predicate FinishedAccounts(
    source: RegistrySource, job: Job, seen: Evidence, prior: Option<Snapshot>, run: WatchRun, effects: seq<Effect>
  ) {
    hide Classify, ChangeOf, CandidateFor, FiledFor, ReportsClassification, ReportsDelivery;
    && run.snapshot == Some(seen.snapshot) && FiledFor(run, job.event, job.world.startedAt, job.world.completedAt)
    && ReportsClassification(run, Classify(prior, seen.snapshot))
    && (match (run.brief, run.candidate)
        case (None, None) => effects == [Fetched, SavedSnapshot(seen.snapshot), SavedRun(run)]
        case (Some(brief), Some(candidate)) =>
          && prior.Some? && Classify(prior, seen.snapshot) == Changed
          && candidate == CandidateFor(brief, source, run.startedAt) && ReportsDelivery(run, job.world.deliver(brief))
          && effects == [Fetched, SavedSnapshot(seen.snapshot),
             Generated(ChangeOf(source, prior.value, seen.snapshot, seen.capture)),
                         QueuedItem(candidate), Attempted(brief), SavedRun(run)]
        case (_, _) => false)
  }

  /** A generator failure stops before the queue; a delivery crash comes after the one attempt. */
  predicate FailedAccounts(seen: Evidence, prior: Option<Snapshot>, x: WatchError, effects: seq<Effect>) {
    hide Classify;
    && prior.Some? && Classify(prior, seen.snapshot) == Changed
    && |effects| == (if x == GeneratorFailed then 3 else 5)
    && effects[0] == Fetched && effects[1] == SavedSnapshot(seen.snapshot) && effects[2].Generated?
    && (x == GeneratorFailed || (x == DeliveryCrashed && effects[3].QueuedItem? && effects[4].Attempted?))
  }

  /** What the log must hold for a worker that has ended, by how it ended. */
  predicate EndAccounts(setup: Setup, job: Job, w: Worker, effects: seq<Effect>) {
    hide ValidateEvent, Observe, FinishedAccounts, FailedAccounts;
    match ValidateEvent(setup.sources, setup.lenient, job.event)
    case Err(x) => OutcomeOf(w).Some? ==> w == Refused(x) && effects == []
    case Ok(source) =>
      match w
      case Answered(_) => effects == []
      case Unobserved(x) => effects == [Fetched] && Observe(setup.lenient, source, job.world) == Err(x)
      case Finished(seen, prior, run) =>
        Observe(setup.lenient, source, job.world) == Ok(seen)
          && FinishedAccounts(source, job, seen, prior, run, effects)
      case Failed(seen, prior, x) =>
        Observe(setup.lenient, source, job.world) == Ok(seen) && FailedAccounts(seen, prior, x, effects)
      case _ => true
  }

  /** The run of a conclusion, by cases. */
  lemma ConcludedRun(e: WatchEvent, source: RegistrySource, prior: Option<Snapshot>, seen: Evidence, w: World)
    ensures match Conclude(e, source, prior, seen, w).0
            case Err(_) => true
            case Ok(run) =>
              && run.startedAt == Format(w.startedAt)
              && (run.brief.None? ==> run.candidate.None?)
              && (run.brief.Some? ==> run.candidate.Some? && ReportsDelivery(run, w.deliver(run.brief.value)))
  {
    hide WatchKey, RunIdOf, Format, BriefOf, CandidateFor, RecordedReceipt, ChangeOf, HasPrefix, ReportsDelivery;
    if Classify(prior, seen.snapshot) == Changed {
      match BriefOf(w, ChangeOf(source, prior.value, seen.snapshot, seen.capture))
      case None =>
      case Some(brief) =>
        if !w.deliver(brief).Crashed? {
          BriefRunReports(e, brief, w.deliver(brief), CandidateFor(brief, source, Format(w.startedAt)),
            Format(w.startedAt), Format(w.completedAt), seen.snapshot);
        }
    }
  }

  lemma ConcludedParts(e: WatchEvent, source: RegistrySource, prior: Option<Snapshot>, seen: Evidence, w: World)
    ensures match Conclude(e, source, prior, seen, w).0
            case Err(x) =>
              && prior.Some? && Classify(prior, seen.snapshot) == Changed
              && (x == GeneratorFailed || x == DeliveryCrashed)
              && (x == GeneratorFailed <==>
                 BriefOf(w, ChangeOf(source, prior.value, seen.snapshot, seen.capture)).None?)
            case Ok(run) =>
              && run.startedAt == Format(w.startedAt)
              && (prior.Some? || run.brief.None?)
              && (run.brief.Some? <==> Classify(prior, seen.snapshot) == Changed)
              && (match (run.brief, run.candidate)
                  case (None, None) => true
                  case (Some(brief), Some(candidate)) =>
                    && BriefOf(w, ChangeOf(source, prior.value, seen.snapshot, seen.capture)) == Some(brief)
                    && candidate == CandidateFor(brief, source, Format(w.startedAt))
                    && ReportsDelivery(run, w.deliver(brief))
                  case (_, _) => false)
  {
    hide WatchKey, RunIdOf, Format, BriefOf, CandidateFor, RecordedReceipt, ChangeOf, HasPrefix, ReportsDelivery;
    ConcludedRun(e, source, prior, seen, w);
  }

  lemma AccountedEnd(setup: Setup, job: Job, w: Worker, effects: seq<Effect>)
    requires Accounted(setup, job, w, effects)
    ensures EndAccounts(setup, job, w, effects)
  {
    hide ValidateEvent, Observe, BriefOf, ChangeOf, Conclude, CandidateFor, ReportsClassification, RunIdOf, WatchKey,
         Format, Classify;
    match ValidateEvent(setup.sources, setup.lenient, job.event)
    case Err(_) =>
    case Ok(source) =>
      if w.Finished? || w.Failed? {
        ConclusionIsClassified(job.event, source, w.prior, w.seen, job.world);
        ConcludedParts(job.event, source, w.prior, w.seen, job.world);
      }
  }

  /**
   Delivery accounting, in every interleaving: a finished run with a brief stored its candidate,
   then attempted delivery exactly once, then saved the run; baselines, unchanged captures and
   duplicates attempt none. A finished run is the one its own evidence and prior determine.
   */
  lemma DeliveryAccounting(setup: Setup, jobs: seq<Job>, schedule: seq<Action>, i: nat)
    requires i < |jobs|
    ensures var s := Run(setup, jobs, schedule);
            EndAccounts(setup, jobs[i], s.workers[i], EffectsOf(s.log, i))
  {
    hide Run, EffectsOf, Accounted, EndAccounts;
    WorkersAreAccounted(setup, jobs, schedule, i);
    var s := Run(setup, jobs, schedule);
    AccountedEnd(setup, jobs[i], s.workers[i], EffectsOf(s.log, i));
  }

  // ---------------------------------------------------------------- every worker ends

  function Rank(w: Worker): nat {
    match w
    case Idle => 8
    case Won => 7
    case Seen(_) => 6
    case Compared(_, _) => 5
    case Stored(_, _) => 4
    case Briefed(_, _, _) => 3
    case Queued(_, _, _) => 2
    case Ready(_, _, _) => 1
    case Lost(_) => 1
    case _ => 0
  }

  function StepsOf(schedule: seq<Action>, i: nat): nat {
    if schedule == [] then 0
    else StepsOf(schedule[..|schedule| - 1], i) + (if schedule[|schedule| - 1] == Advance(i) then 1 else 0)
  }

  lemma RankStep(setup: Setup, job: Job, w: Worker, st: StoreState, effects: seq<Effect>)
    requires Accounted(setup, job, w, effects)
    ensures var m := WorkerStep(setup, job, w, st); Rank(m.worker) < Rank(w) || (Rank(w) == 0 && m.worker == w)
    ensures OutcomeOf(w).Some? <==> Rank(w) == 0
  {
    hide ValidateEvent, Trace, Coherent, WatchKey, WatchScope, RunIdOf, Observe, BriefOf, ChangeOf, CandidateFor,
         Replay, Format, RecordedReceipt, PlainRun, BriefRun, SaveCandidate, Classify;
  }

  lemma {:induction false} RankFalls(setup: Setup, jobs: seq<Job>, schedule: seq<Action>, i: nat)
    requires i < |jobs|
    ensures var w := Run(setup, jobs, schedule).workers[i];
            Rank(w) == 0 || Rank(w) + StepsOf(schedule, i) <= 8
  {
    hide WorkerStep, Accounted, Rank, DecisionStep, EffectsOf;
    var n := |schedule|;
    if n == 0 {
      assert Rank(Idle) == 8 by { IdleRank(); }
    } else {
      RankFalls(setup, jobs, schedule[..n - 1], i);
      var s := Run(setup, jobs, schedule[..n - 1]);
      WorkersAreAccounted(setup, jobs, schedule[..n - 1], i);
      if !schedule[n - 1].Advance? { DecisionTouchesQueue(setup, jobs, s, schedule[n - 1]); }
      RankStep(setup, jobs[i], s.workers[i], s.store, EffectsOf(s.log, i));
    }
  }

  lemma IdleRank()
    ensures Rank(Idle) == 8
  {
  }

  /**
   A worker given eight steps, however interleaved, has ended; and once a worker with a valid event
   has ended, exactly one worker has won that event.
   */
  lemma EventsAreHandledOnce(setup: Setup, jobs: seq<Job>, schedule: seq<Action>, i: nat)
    requires i < |jobs| && StepsOf(schedule, i) >= 8
    ensures var s := Run(setup, jobs, schedule);
            && OutcomeOf(s.workers[i]).Some?
            && (Valid(setup, jobs[i]) ==>
                  exists j: nat ::
                    && IsWinner(jobs, s.workers, j, KeyOfJob(jobs[i]))
                    && forall k: nat | IsWinner(jobs, s.workers, k, KeyOfJob(jobs[i])) :: k == j)
  {
    hide Run, Accounted, Rank, EffectsOf, KeyOfJob, Valid, WatchScope, RunIdOf, IsWinner;
    RankFalls(setup, jobs, schedule, i);
    var s := Run(setup, jobs, schedule);
    WorkersAreAccounted(setup, jobs, schedule, i);
    RankStep(setup, jobs[i], s.workers[i], s.store, EffectsOf(s.log, i));
    ClaimsAreHeld(setup, jobs, schedule, KeyOfJob(jobs[i]));
    if Valid(setup, jobs[i]) {
      assert Placed(setup, jobs[i], s.workers[i], s.store.claims);
      var j: nat :| IsWinner(jobs, s.workers, j, KeyOfJob(jobs[i]));
    }
  }
}
