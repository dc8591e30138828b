/** Workers that run one after another are a serial history: histories are among the interleavings. */
module SerialWorkers {
  import opened Wrappers
  import opened RegistryWatch
  import opened RegistryHistory
  import opened WatchWorkers

  function Turns(i: nat, n: nat): seq<Action> {
    if n == 0 then [] else [Advance(i)] + Turns(i, n - 1)
  }

  /** The first k workers, eight steps each, in order. */
  function Serial(k: nat): seq<Action> {
    if k == 0 then [] else Serial(k - 1) + Turns(k - 1, 8)
  }

  function HistoryOf(jobs: seq<Job>): History {
    seq(|jobs|, i requires 0 <= i < |jobs| => Watched(jobs[i].event, jobs[i].world))
  }

  lemma {:induction false} TurnsAreAlone(setup: Setup, jobs: seq<Job>, schedule: seq<Action>, i: nat, n: nat)
    requires i < |jobs|
    ensures var s, t := Run(setup, jobs, schedule), Run(setup, jobs, schedule + Turns(i, n));
            var m := Alone(setup, jobs[i], s.workers[i], s.store, n);
            t.store == m.store && t.workers == s.workers[i := m.worker]
    decreases n
  {
    hide WorkerStep, Run, Step, Alone;
    AloneUnroll(setup, jobs[i], Run(setup, jobs, schedule).workers[i], Run(setup, jobs, schedule).store, n);
    if n == 0 {
      assert schedule + [] == schedule;
    } else {
      var next := schedule + [Advance(i)];
      RunAppend(setup, jobs, schedule, Advance(i));
      AdvanceMoves(setup, jobs, Run(setup, jobs, schedule), i);
      assert next + Turns(i, n - 1) == schedule + Turns(i, n);
      TurnsAreAlone(setup, jobs, next, i, n - 1);
    }
  }

  lemma AloneUnroll(setup: Setup, job: Job, w: Worker, st: StoreState, n: nat)
    ensures if n == 0 then Alone(setup, job, w, st, n) == Move(w, st, None)
            else
              var m := WorkerStep(setup, job, w, st);
              Alone(setup, job, w, st, n) == Alone(setup, job, m.worker, m.store, n - 1)
  {
    hide WorkerStep;
  }

  lemma AdvanceMoves(setup: Setup, jobs: seq<Job>, s: System, i: nat)
    requires i < |jobs| == |s.workers|
    ensures var m, t := WorkerStep(setup, jobs[i], s.workers[i], s.store), Step(setup, jobs, s, Advance(i));
            t.store == m.store && t.workers == s.workers[i := m.worker]
  {
    hide WorkerStep;
  }

  /** The store is the history's, the other workers have not started, and the last one answered as the history does. */
  predicate EndsLikeHistory(setup: Setup, jobs: seq<Job>, k: nat, s: System)
    requires k <= |jobs| == |s.workers|
  {
    hide *;
    && s.store == After(setup, HistoryOf(jobs[..k]))
    && (forall i | k <= i < |jobs| :: s.workers[i].Idle?)
    && (k > 0 ==> OutcomeOf(s.workers[k - 1]) == Answer(setup, HistoryOf(jobs[..k])))
  }

  /** After the first k workers ran in order, the store is the one the history of their calls leaves. */
  lemma {:induction false} SerialIsHistory(setup: Setup, jobs: seq<Job>, k: nat)
    requires k <= |jobs|
    ensures EndsLikeHistory(setup, jobs, k, Run(setup, jobs, Serial(k)))
  {
    hide Run, Alone, Process, EndsAs;
    if k == 0 {
      StartIsEmpty(setup, jobs);
    } else {
      SerialIsHistory(setup, jobs, k - 1);
      var s := Run(setup, jobs, Serial(k - 1));
      TurnsAreAlone(setup, jobs, Serial(k - 1), k - 1, 8);
      AloneIsProcess(setup, jobs[k - 1], s.store);
      EndOf(setup, jobs[k - 1], s.store);
      var h := HistoryOf(jobs[..k]);
      assert h[..k - 1] == HistoryOf(jobs[..k - 1]);
    }
  }

  lemma EndOf(setup: Setup, job: Job, st: StoreState)
    ensures var m, end := Alone(setup, job, Idle, st, 8), Process(setup, st, job.event, job.world);
            EndsAs(setup, job, Idle, st, 8, end.0, end.1) ==> OutcomeOf(m.worker) == Some(end.0) && m.store == end.1
  {
    hide Alone, Process, OutcomeOf;
  }

  lemma StartIsEmpty(setup: Setup, jobs: seq<Job>)
    ensures Run(setup, jobs, []) == Start(jobs)
  {
  }
}
