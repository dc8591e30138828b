/** The owner's queue, in every interleaving of watch workers and owner decisions. */
module WatchQueue {
  import opened Wrappers
  import opened Texts
  import opened Timestamps
  import opened RegistryEvents
  import opened Encoding
  import opened PageEvidence
  import opened RegistryModel
  import opened RegistryWatch
  import opened RegistryHistory
  import opened WatchWorkers
  import opened WatchSafety

  // ---------------------------------------------------------------- what the log says about an item

  datatype Phase = Never | Open | Closed

  predicate Queues(x: Entry, id: Text) {
    x.By? && x.effect.QueuedItem? && x.effect.candidate.candidateId == id
  }

  predicate Decides(x: Entry, id: Text) { x.Resolved? && x.candidateId == id }

  function Next(p: Phase, x: Entry, id: Text): Phase {
    if Queues(x, id) then Open else if Decides(x, id) then Closed else p
  }

  /** An item is open from each detection of its change until the next decision on it. */
  function PhaseOf(log: seq<Entry>, id: Text): Phase {
    if log == [] then Never else Next(PhaseOf(log[..|log| - 1], id), log[|log| - 1], id)
  }

  /** The item was open when the log was this long. */
  predicate OpenAt(log: seq<Entry>, n: nat, id: Text): (r: bool)
    ensures r ==> n <= |log|
  {
    n <= |log| && PhaseOf(log[..n], id) == Open
  }

  /** Every decision in the log was computed from a read of the open item. */
  predicate ReadWhenOpen(log: seq<Entry>, id: Text) {
    forall q | 0 <= q < |log| && Decides(log[q], id) :: log[q].readAt <= q && OpenAt(log, log[q].readAt, id)
  }

  lemma PhaseAppend(log: seq<Entry>, x: Entry, id: Text)
    ensures PhaseOf(log + [x], id) == Next(PhaseOf(log, id), x, id)
    ensures forall n: nat | n <= |log| :: OpenAt(log + [x], n, id) == OpenAt(log, n, id)
    ensures OpenAt(log, |log|, id) <==> PhaseOf(log, id) == Open
  {
    assert (log + [x])[..|log|] == log && log[..|log|] == log;
    forall n: nat | n <= |log| ensures OpenAt(log + [x], n, id) == OpenAt(log, n, id) {
      assert (log + [x])[..n] == log[..n];
    }
  }

  lemma ReadsAppend(log: seq<Entry>, x: Entry, id: Text)
    ensures ReadWhenOpen(log + [x], id) <==>
            ReadWhenOpen(log, id) && (Decides(x, id) ==> OpenAt(log, x.readAt, id))
  {
    hide OpenAt, PhaseOf;
    PhaseAppend(log, x, id);
    var l := log + [x];
    assert l[|log|] == x;
    if ReadWhenOpen(l, id) {
      forall q | 0 <= q < |log| && Decides(log[q], id) ensures log[q].readAt <= q && OpenAt(log, log[q].readAt, id) {
        assert l[q] == log[q];
      }
    }
    if ReadWhenOpen(log, id) && (Decides(x, id) ==> OpenAt(log, x.readAt, id)) {
      forall q | 0 <= q < |l| && Decides(l[q], id) ensures l[q].readAt <= q && OpenAt(l, l[q].readAt, id) {
        if q < |log| { assert l[q] == log[q]; }
      }
    }
  }

  /** An item open after a decision was queued again in between. */
  lemma {:induction false} OpenAfterDecision(log: seq<Entry>, id: Text, p: nat) returns (m: nat)
    requires p < |log| && Decides(log[p], id) && PhaseOf(log, id) == Open
    ensures p < m < |log| && Queues(log[m], id)
  {
    var n := |log| - 1;
    if Queues(log[n], id) { m := n; }
    else { m := OpenAfterDecision(log[..n], id, p); }
  }

  // ---------------------------------------------------------------- the queue follows the log

  function Undecided(c: ActionCandidate): ActionCandidate {
    c.(status := AwaitingOwnerReview, requiresOwnerDecision := true, ownerDecision := Unresolved, decidedAt := None)
  }

  /** The stored item is named by its id, its four decision fields agree, and they say its phase. */
  predicate ItemFact(candidates: map<Text, ActionCandidate>, log: seq<Entry>, id: Text) {
    && (id in candidates <==> PhaseOf(log, id) != Never)
    && (id in candidates ==>
          && candidates[id].candidateId == id && ConsistentCandidate(candidates[id])
          && (candidates[id].requiresOwnerDecision <==> PhaseOf(log, id) == Open))
  }

  /** A decided form of the item, computed when the log was this long and the item open. */
  predicate DecidedForm(log: seq<Entry>, id: Text, c: ActionCandidate, readAt: nat) {
    c.candidateId == id && ConsistentCandidate(c) && !c.requiresOwnerDecision && OpenAt(log, readAt, id)
  }

  predicate HeldFact(held: map<nat, Held>, log: seq<Entry>, id: Text) {
    forall slot | slot in held && held[slot].candidateId == id ::
      DecidedForm(log, id, held[slot].candidate, held[slot].readAt)
  }

  lemma HeldAppend(held: map<nat, Held>, log: seq<Entry>, x: Entry, id: Text)
    requires HeldFact(held, log, id)
    ensures HeldFact(held, log + [x], id)
  {
    hide OpenAt, PhaseOf, ConsistentCandidate;
    PhaseAppend(log, x, id);
  }

  predicate QueueFact(s: System, id: Text) {
    ItemFact(s.store.candidates, s.log, id) && ReadWhenOpen(s.log, id) && HeldFact(s.held, s.log, id)
  }

  /** What a worker's step does to the queue. */
  lemma WorkerQueueStep(setup: Setup, job: Job, w: Worker, st: StoreState)
    ensures var m := WorkerStep(setup, job, w, st);
            match m.effect
            case Some(QueuedItem(c)) =>
              m.store.candidates == st.candidates[c.candidateId := c] && ConsistentCandidate(c)
                && c.requiresOwnerDecision && Undecided(c) == c
            case _ => m.store.candidates == st.candidates
  {
    hide ValidateEvent, WatchKey, WatchScope, RunIdOf, Observe, BriefOf, ChangeOf, Replay, Format, RecordedReceipt,
         PlainRun, BriefRun, Classify, CandidateId;
  }

  lemma WorkerKeepsFact(setup: Setup, jobs: seq<Job>, s: System, a: nat, id: Text)
    requires |s.workers| == |jobs| && a < |jobs| && QueueFact(s, id)
    ensures QueueFact(Step(setup, jobs, s, Advance(a)), id)
  {
    hide WorkerStep, PhaseOf, ReadWhenOpen, HeldFact, ConsistentCandidate, Undecided;
    WorkerQueueStep(setup, jobs[a], s.workers[a], s.store);
    var m := WorkerStep(setup, jobs[a], s.workers[a], s.store);
    match m.effect
    case None => assert s.log + [] == s.log;
    case Some(x) =>
      PhaseAppend(s.log, By(a, x), id);
      ReadsAppend(s.log, By(a, x), id);
      HeldAppend(s.held, s.log, By(a, x), id);
  }

  /** Recording a decision computed from an open item keeps every item's fact. */
  lemma RecordKeepsFact(s: System, other: Text, c: ActionCandidate, readAt: nat, id: Text)
    requires QueueFact(s, id) && DecidedForm(s.log, other, c, readAt)
    ensures QueueFact(Record(s, other, c, readAt), id)
  {
    hide PhaseOf, OpenAt, ReadWhenOpen, HeldFact, ConsistentCandidate;
    PhaseAppend(s.log, Resolved(other, readAt), id);
    ReadsAppend(s.log, Resolved(other, readAt), id);
    HeldAppend(s.held, s.log, Resolved(other, readAt), id);
  }

  /**
   A decision succeeds exactly on an open item with one of the two decisions, and changes only that item:
   "acknowledge" leaves it acknowledged, "archive" archived.
   */
  lemma DecisionExact(lenient: Lenient, st: StoreState, id: Text, decision: Text, now: Instant)
    requires id in st.candidates ==> ConsistentCandidate(st.candidates[id])
    ensures var (answer, after) := ResolveAction(lenient, st, id, decision, now);
            && (answer.Ok? <==>
                  && id in st.candidates && st.candidates[id].requiresOwnerDecision
                  && decision in [Lit("acknowledge"), Lit("archive")])
            && (answer == Err(CandidateNotFound) <==> id !in st.candidates)
            && (answer == Err(DecisionInvalid) <==>
                  id in st.candidates && decision !in [Lit("acknowledge"), Lit("archive")])
            && (answer.Err? ==> after == st)
            && (answer.Ok? ==>
                  && ConsistentCandidate(answer.value) && !answer.value.requiresOwnerDecision
                  && answer.value.ownerDecision == (if decision == Lit("acknowledge") then Acknowledge else Archive)
                  && answer.value.status
                     == (if decision == Lit("acknowledge") then OwnerAcknowledged else OwnerArchived)
                  && answer.value.decidedAt == Some(Format(now))
                  && Undecided(answer.value) == Undecided(st.candidates[id])
                  && after == st.(candidates := st.candidates[id := answer.value]))
  {
    hide Format, NormalizeTimestamp, Lit;
    NormalizeFormat(lenient, now);
  }

  /**
   A decision computed from an earlier read and written back later, as the in-memory store would do
   it for threads that share it, is the atomic decision exactly when the item did not change in between.
   */
  lemma SplitDecisionIsAtomicIff(
    lenient: Lenient, read: StoreState, later: StoreState, id: Text, decision: Text, now: Instant, c: ActionCandidate)
    requires ResolveAction(lenient, read, id, decision, now).0 == Ok(c)
    requires ConsistentCandidate(read.candidates[id])
    requires id in later.candidates ==> ConsistentCandidate(later.candidates[id])
    ensures ResolveAction(lenient, later, id, decision, now)
            == (Ok(c), later.(candidates := later.candidates[id := c]))
            <==> id in later.candidates && later.candidates[id] == read.candidates[id]
  {
    hide Format, ReadDecision, ConsistentCandidate, ResolveAction;
    DecisionExact(lenient, read, id, decision, now);
    DecisionExact(lenient, later, id, decision, now);
    if id in later.candidates && later.candidates[id].requiresOwnerDecision {
      UndecidedIsItself(read.candidates[id]);
      UndecidedIsItself(later.candidates[id]);
      SameDecision(lenient, read, later, id, decision, now);
    }
  }

  lemma UndecidedIsItself(c: ActionCandidate)
    requires ConsistentCandidate(c)
    ensures c.requiresOwnerDecision <==> Undecided(c) == c
  {
  }

  lemma SameDecision(lenient: Lenient, a: StoreState, b: StoreState, id: Text, decision: Text, now: Instant)
    ensures id in a.candidates && id in b.candidates && a.candidates[id] == b.candidates[id] ==>
              ResolveAction(lenient, a, id, decision, now).0 == ResolveAction(lenient, b, id, decision, now).0
  {
    hide ResolvedCandidate, Format;
  }

  /** A successful decision read now is a decided form of the open item. */
  lemma DecisionReadsOpen(lenient: Lenient, s: System, other: Text, decision: Text, now: Instant)
    requires QueueFact(s, other)
    ensures match ResolveAction(lenient, s.store, other, decision, now).0
            case Ok(c) => DecidedForm(s.log, other, c, |s.log|)
            case Err(_) => true
  {
    hide ResolveAction, PhaseOf, ConsistentCandidate, Format, ReadDecision;
    DecisionExact(lenient, s.store, other, decision, now);
    SameName(lenient, s.store, other, decision, now);
    assert s.log[..|s.log|] == s.log;
  }

  lemma SameName(lenient: Lenient, st: StoreState, id: Text, decision: Text, now: Instant)
    ensures match ResolveAction(lenient, st, id, decision, now).0
            case Ok(c) => id in st.candidates && c.candidateId == st.candidates[id].candidateId
            case Err(_) => true
  {
    hide Format, NormalizeTimestamp, ReadDecision;
  }

  /** The item a decision step is about. */
  function TargetOf(s: System, a: Action): Option<Text> {
    match a
    case Decide(id, _, _) => Some(id)
    case Read(_, id, _, _) => Some(id)
    case Write(slot) => if slot in s.held then Some(s.held[slot].candidateId) else None
    case Advance(_) => None
  }

  lemma DecisionKeepsFact(lenient: Lenient, s: System, a: Action, id: Text)
    requires QueueFact(s, id)
    requires match TargetOf(s, a) case Some(other) => QueueFact(s, other) case None => true
    ensures QueueFact(DecisionStep(lenient, s, a), id)
  {
    hide ResolveAction, ItemFact, ReadWhenOpen, DecidedForm, Record;
    match a
    case Decide(other, decision, now) =>
      DecisionReadsOpen(lenient, s, other, decision, now);
      var answer := ResolveAction(lenient, s.store, other, decision, now).0;
      if answer.Ok? { RecordKeepsFact(s, other, answer.value, |s.log|, id); }
    case Read(slot, other, decision, now) => DecisionReadsOpen(lenient, s, other, decision, now);
    case Write(slot) =>
      if slot in s.held {
        var h := s.held[slot];
        RecordKeepsFact(s, h.candidateId, h.candidate, h.readAt, id);
        DropKeepsFact(Record(s, h.candidateId, h.candidate, h.readAt), slot, id);
        RecordKeepsHeld(s, h.candidateId, h.candidate, h.readAt);
      }
    case Advance(_) =>
  }

  lemma RecordKeepsHeld(s: System, id: Text, c: ActionCandidate, readAt: nat)
    ensures Record(s, id, c, readAt).held == s.held
  {
  }

  lemma DropKeepsFact(s: System, slot: nat, id: Text)
    requires QueueFact(s, id)
    ensures QueueFact(s.(held := s.held - {slot}), id)
  {
    hide ItemFact, ReadWhenOpen, DecidedForm;
  }

  /**
   Queue invariant, in every interleaving of workers, one-step decisions, and decisions read and
   written apart: an item exists once its change was detected; it needs an owner decision exactly from
   a detection to the next recorded decision, which its four fields say alike; and every recorded
   decision was computed from a read of the open item.
   */
  lemma {:induction false} QueueFollowsLog(setup: Setup, jobs: seq<Job>, schedule: seq<Action>, id: Text)
    ensures QueueFact(Run(setup, jobs, schedule), id)
    decreases |schedule|
  {
    hide WorkerStep, QueueFact, DecisionStep;
    var n := |schedule|;
    if n == 0 {
      NoItems(jobs, id);
    } else {
      QueueFollowsLog(setup, jobs, schedule[..n - 1], id);
      var s := Run(setup, jobs, schedule[..n - 1]);
      match schedule[n - 1]
      case Advance(a) =>
        if a < |jobs| { WorkerKeepsFact(setup, jobs, s, a, id); }
      case _ =>
        match TargetOf(s, schedule[n - 1]) {
          case Some(other) => QueueFollowsLog(setup, jobs, schedule[..n - 1], other);
          case None =>
        }
        DecisionKeepsFact(setup.lenient, s, schedule[n - 1], id);
    }
  }

  lemma NoItems(jobs: seq<Job>, id: Text)
    ensures QueueFact(Start(jobs), id)
  {
  }

  function AwaitingIds(candidates: map<Text, ActionCandidate>): set<Text> {
    set id | id in candidates && candidates[id].requiresOwnerDecision
  }

  function ResolvedIds(candidates: map<Text, ActionCandidate>): set<Text> {
    set id | id in candidates && !candidates[id].requiresOwnerDecision
  }

  /** The owner's counts: open items await a decision, closed ones are resolved, and that is all of them. */
  lemma QueueCounts(setup: Setup, jobs: seq<Job>, schedule: seq<Action>)
    ensures var s := Run(setup, jobs, schedule);
            && |AwaitingIds(s.store.candidates)| + |ResolvedIds(s.store.candidates)| == |s.store.candidates|
            && (forall id :: id in AwaitingIds(s.store.candidates) <==> PhaseOf(s.log, id) == Open)
            && (forall id :: id in ResolvedIds(s.store.candidates) <==> PhaseOf(s.log, id) == Closed)
  {
    hide Run, PhaseOf, ReadWhenOpen, HeldFact;
    var s := Run(setup, jobs, schedule);
    var awaiting, resolved := AwaitingIds(s.store.candidates), ResolvedIds(s.store.candidates);
    forall id: Text
      ensures id in awaiting <==> PhaseOf(s.log, id) == Open
      ensures id in resolved <==> PhaseOf(s.log, id) == Closed
    {
      QueueFollowsLog(setup, jobs, schedule, id);
    }
    assert awaiting !! resolved;
    assert awaiting + resolved == s.store.candidates.Keys;
  }

  // ---------------------------------------------------------------- a call records at most one decision

  predicate IsDecision(x: Entry) { x.Resolved? }

  function Decisions(log: seq<Entry>): nat {
    if log == [] then 0
    else Decisions(log[..|log| - 1]) + if IsDecision(log[|log| - 1]) then 1 else 0
  }

  /** Calls of `resolve`: in one step, or started by their read. */
  function ResolveCalls(schedule: seq<Action>): nat {
    if schedule == [] then 0
    else
      var a := schedule[|schedule| - 1];
      ResolveCalls(schedule[..|schedule| - 1]) + if a.Decide? || a.Read? then 1 else 0
  }

  lemma DecisionsAppend(log: seq<Entry>, x: Entry)
    ensures Decisions(log + [x]) == Decisions(log) + if x.Resolved? then 1 else 0
  {
    assert (log + [x])[..|log|] == log;
  }

  lemma WorkerDecidesNothing(setup: Setup, jobs: seq<Job>, s: System, i: nat)
    requires |s.workers| == |jobs|
    ensures var t := Step(setup, jobs, s, Advance(i)); t.held == s.held && Decisions(t.log) == Decisions(s.log)
  {
    hide WorkerStep, Decisions;
    if i < |jobs| {
      match WorkerStep(setup, jobs[i], s.workers[i], s.store).effect
      case None => assert s.log + [] == s.log;
      case Some(x) => DecisionsAppend(s.log, By(i, x));
    }
  }

  lemma DecisionCountStep(setup: Setup, jobs: seq<Job>, s: System, a: Action)
    requires |s.workers| == |jobs|
    ensures var t := Step(setup, jobs, s, a);
            Decisions(t.log) + |t.held| <= Decisions(s.log) + |s.held| + if a.Decide? || a.Read? then 1 else 0
  {
    hide ResolveAction, Decisions, WorkerStep;
    match a
    case Advance(i) => WorkerDecidesNothing(setup, jobs, s, i);
    case Decide(id, _, _) => DecisionsAppend(s.log, Resolved(id, |s.log|));
    case Read(slot, id, decision, now) =>
      SlotCount(s.held, slot);
      var answer := ResolveAction(setup.lenient, s.store, id, decision, now).0;
      if answer.Ok? { AddedCount(s.held, slot, Held(id, answer.value, |s.log|)); }
    case Write(slot) =>
      SlotCount(s.held, slot);
      if slot in s.held { DecisionsAppend(s.log, Resolved(s.held[slot].candidateId, s.held[slot].readAt)); }
  }

  lemma SlotCount(held: map<nat, Held>, slot: nat)
    ensures |held - {slot}| == |held| - if slot in held then 1 else 0
  {
    assert (held - {slot}).Keys == held.Keys - {slot};
    assert |held.Keys| == |held| && |(held - {slot}).Keys| == |held - {slot}|;
  }

  lemma AddedCount(held: map<nat, Held>, slot: nat, h: Held)
    ensures |held[slot := h]| <= |held| + 1
  {
    assert held[slot := h].Keys == held.Keys + {slot};
    assert |held.Keys| == |held| && |held[slot := h].Keys| == |held[slot := h]|;
  }

  /** In every interleaving the recorded and the pending decisions are at most as many as the calls of `resolve`. */
  lemma {:induction false} CallsRecordOnce(setup: Setup, jobs: seq<Job>, schedule: seq<Action>)
    ensures var s := Run(setup, jobs, schedule); Decisions(s.log) + |s.held| <= ResolveCalls(schedule)
  {
    hide Step, Decisions;
    if schedule == [] {
      assert Decisions([]) == 0 by { NoDecisions(); }
    } else {
      var n := |schedule| - 1;
      CallsRecordOnce(setup, jobs, schedule[..n]);
      DecisionCountStep(setup, jobs, Run(setup, jobs, schedule[..n]), schedule[n]);
    }
  }

  lemma NoDecisions()
    ensures Decisions([]) == 0
  {
  }

  /**
   In every interleaving, of two recorded decisions on an item either its change was detected again
   in between, or the later one was read before the earlier one was recorded.
   */
  lemma DecidedOnceUnlessRedetected(
    setup: Setup, jobs: seq<Job>, schedule: seq<Action>, id: Text, p: nat, q: nat
  ) returns (m: nat)
    requires var log := Run(setup, jobs, schedule).log;
             p < q < |log| && Decides(log[p], id) && Decides(log[q], id)
    ensures var log := Run(setup, jobs, schedule).log;
            log[q].readAt <= p || (p < m < q && Queues(log[m], id))
  {
    hide Run, PhaseOf, Queues, ItemFact, HeldFact;
    QueueFollowsLog(setup, jobs, schedule, id);
    var log := Run(setup, jobs, schedule).log;
    m := 0;
    if log[q].readAt > p { m := OpenAfterDecision(log[..log[q].readAt], id, p); }
  }

  predicate WritesNothing(schedule: seq<Action>) {
    forall k | 0 <= k < |schedule| :: !schedule[k].Write?
  }

  /** A one-step decision is read where it is recorded. */
  lemma {:induction false} OneStepReads(setup: Setup, jobs: seq<Job>, schedule: seq<Action>, q: nat)
    requires WritesNothing(schedule)
    requires q < |Run(setup, jobs, schedule).log| && Run(setup, jobs, schedule).log[q].Resolved?
    ensures Run(setup, jobs, schedule).log[q].readAt == q
  {
    hide WorkerStep, ResolveAction;
    var n := |schedule|;
    if n > 0 {
      var s := Run(setup, jobs, schedule[..n - 1]);
      assert !schedule[n - 1].Write?;
      if q < |s.log| { OneStepReads(setup, jobs, schedule[..n - 1], q); }
    }
  }

  /** When every decision is one step, an item is decided at most once per detection of its change. */
  lemma OneStepDecidesOnce(
    setup: Setup, jobs: seq<Job>, schedule: seq<Action>, id: Text, p: nat, q: nat
  ) returns (m: nat)
    requires WritesNothing(schedule)
    requires var log := Run(setup, jobs, schedule).log;
             p < q < |log| && Decides(log[p], id) && Decides(log[q], id)
    ensures p < m < q && Queues(Run(setup, jobs, schedule).log[m], id)
  {
    hide Run, Queues;
    OneStepReads(setup, jobs, schedule, q);
    m := DecidedOnceUnlessRedetected(setup, jobs, schedule, id, p, q);
  }

  function Overlapping(id: Text, now: Instant): seq<Action> {
    [Read(0, id, Lit("acknowledge"), now), Read(1, id, Lit("archive"), now), Write(0), Write(1)]
  }

  /** After this schedule, two overlapping decisions are both recorded, and the item holds the second. */
  predicate SecondOverwrites(setup: Setup, jobs: seq<Job>, schedule: seq<Action>, id: Text, now: Instant) {
    var s, t := Run(setup, jobs, schedule), Run(setup, jobs, schedule + Overlapping(id, now));
    && t.log == s.log + [Resolved(id, |s.log|), Resolved(id, |s.log|)]
    && id in t.store.candidates && t.store.candidates[id].ownerDecision == Archive
  }

  /**
   Whenever an item is open, two decisions that overlap are both recorded with no detection in
   between, and the second overwrites the first.
   */
  lemma OverlappingDecisions(setup: Setup, jobs: seq<Job>, schedule: seq<Action>, id: Text, now: Instant)
    requires PhaseOf(Run(setup, jobs, schedule).log, id) == Open
    ensures SecondOverwrites(setup, jobs, schedule, id, now)
  {
    hide Run, PhaseOf, ConsistentCandidate, ResolveAction, ReadDecision, Format, Step, Lit;
    var s := Run(setup, jobs, schedule);
    var o := Overlapping(id, now);
    QueueFollowsLog(setup, jobs, schedule, id);
    DecisionExact(setup.lenient, s.store, id, Lit("acknowledge"), now);
    DecisionExact(setup.lenient, s.store, id, Lit("archive"), now);
    DecisionsRead();
    var c, d := ResolveAction(setup.lenient, s.store, id, Lit("acknowledge"), now).0.value,
                ResolveAction(setup.lenient, s.store, id, Lit("archive"), now).0.value;
    var n := |s.log|;
    var s1 := s.(held := s.held[0 := Held(id, c, n)]);
    var s2 := s1.(held := s1.held[1 := Held(id, d, n)]);
    DecisionSteps(setup, jobs, s, o[0]);
    DecisionSteps(setup, jobs, s1, o[1]);
    DecisionSteps(setup, jobs, s2, o[2]);
    var s3 := Step(setup, jobs, s2, o[2]);
    DecisionSteps(setup, jobs, s3, o[3]);
    RunAppend(setup, jobs, schedule, o[0]);
    RunAppend(setup, jobs, schedule + [o[0]], o[1]);
    RunAppend(setup, jobs, schedule + [o[0]] + [o[1]], o[2]);
    RunAppend(setup, jobs, schedule + [o[0]] + [o[1]] + [o[2]], o[3]);
    assert schedule + [o[0]] + [o[1]] + [o[2]] + [o[3]] == schedule + o;
  }

  lemma DecisionsRead()
    ensures ReadDecision(Lit("acknowledge")) == Acknowledge && ReadDecision(Lit("archive")) == Archive
  {
    assert |Lit("acknowledge")| == 11 && |Lit("archive")| == 7;
  }

  lemma DecisionSteps(setup: Setup, jobs: seq<Job>, s: System, a: Action)
    requires !a.Advance?
    ensures Step(setup, jobs, s, a) == DecisionStep(setup.lenient, s, a)
  {
    hide DecisionStep;
  }

  // ---------------------------------------------------------------- where items and snapshots come from

  /** Worker j of the jobs has had this effect. */
  predicate Did(jobs: seq<Job>, log: seq<Entry>, j: nat, x: Effect): (r: bool)
    ensures r ==> j < |jobs|
  {
    j < |jobs| && x in EffectsOf(log, j)
  }

  ghost predicate SavedBy(jobs: seq<Job>, log: seq<Entry>, sourceId: Text, p: Snapshot) {
    exists j: nat :: Did(jobs, log, j, SavedSnapshot(p)) && jobs[j].event.sourceId == sourceId
  }

  ghost predicate QueuedBy(jobs: seq<Job>, log: seq<Entry>, c: ActionCandidate) {
    exists j: nat :: Did(jobs, log, j, QueuedItem(c))
  }

  lemma StepKeepsEffects(setup: Setup, jobs: seq<Job>, s: System, a: Action)
    ensures forall j: nat, x: Effect :: Did(jobs, s.log, j, x) ==> Did(jobs, Step(setup, jobs, s, a).log, j, x)
  {
    hide WorkerStep, DecisionStep, EffectsOf, Tagged;
    forall j: nat, x: Effect | Did(jobs, s.log, j, x) ensures Did(jobs, Step(setup, jobs, s, a).log, j, x) {
      match a
      case Advance(i) =>
        if i < |s.workers| && i < |jobs| {
          EffectsOfTagged(s.log, i, WorkerStep(setup, jobs[i], s.workers[i], s.store).effect, j);
        }
      case _ => DecisionHasNoEffect(setup, jobs, s, a, j);
    }
  }

  lemma SourcesPersist(setup: Setup, jobs: seq<Job>, s: System, a: Action)
    ensures var t := Step(setup, jobs, s, a);
            && (forall sourceId: Text, p: Snapshot :: SavedBy(jobs, s.log, sourceId, p) ==>
               SavedBy(jobs, t.log, sourceId, p))
            && (forall c: ActionCandidate :: QueuedBy(jobs, s.log, c) ==> QueuedBy(jobs, t.log, c))
  {
    hide Step, Did;
    StepKeepsEffects(setup, jobs, s, a);
    var t := Step(setup, jobs, s, a);
    forall sourceId: Text, p: Snapshot | SavedBy(jobs, s.log, sourceId, p) ensures SavedBy(jobs, t.log, sourceId, p) {
      var j: nat :| Did(jobs, s.log, j, SavedSnapshot(p)) && jobs[j].event.sourceId == sourceId;
      assert Did(jobs, t.log, j, SavedSnapshot(p));
    }
    forall c: ActionCandidate | QueuedBy(jobs, s.log, c) ensures QueuedBy(jobs, t.log, c) {
      var j: nat :| Did(jobs, s.log, j, QueuedItem(c));
      assert Did(jobs, t.log, j, QueuedItem(c));
    }
  }

  lemma LoggedEffect(setup: Setup, jobs: seq<Job>, s: System, a: nat)
    requires |s.workers| == |jobs| && a < |jobs|
    ensures match WorkerStep(setup, jobs[a], s.workers[a], s.store).effect
            case Some(x) => Did(jobs, Step(setup, jobs, s, Advance(a)).log, a, x)
            case None => true
  {
    hide WorkerStep, EffectsOf;
    var m := WorkerStep(setup, jobs[a], s.workers[a], s.store);
    EffectsOfTagged(s.log, a, m.effect, a);
  }

  /** The stored item, and every decided form of it still to be written, was queued by a worker. */
  ghost predicate ItemWasQueued(jobs: seq<Job>, s: System, id: Text) {
    && (id in s.store.candidates ==> QueuedBy(jobs, s.log, Undecided(s.store.candidates[id])))
    && (forall slot | slot in s.held && s.held[slot].candidateId == id ::
          QueuedBy(jobs, s.log, Undecided(s.held[slot].candidate)))
  }

  lemma QueuedStep(setup: Setup, jobs: seq<Job>, s: System, a: nat, id: Text)
    requires |s.workers| == |jobs| && a < |jobs| && ItemWasQueued(jobs, s, id)
    ensures ItemWasQueued(jobs, Step(setup, jobs, s, Advance(a)), id)
  {
    hide WorkerStep, Did, Undecided, ConsistentCandidate;
    WorkerQueueStep(setup, jobs[a], s.workers[a], s.store);
    SourcesPersist(setup, jobs, s, Advance(a));
    LoggedEffect(setup, jobs, s, a);
  }

  /** A decided form has the same undecided form as the item it was computed from. */
  lemma DecisionKeepsForm(lenient: Lenient, st: StoreState, id: Text, decision: Text, now: Instant)
    ensures match ResolveAction(lenient, st, id, decision, now).0
            case Ok(c) => id in st.candidates && Undecided(c) == Undecided(st.candidates[id])
            case Err(_) => true
  {
    hide Format, NormalizeTimestamp, ReadDecision;
  }

  lemma DecidedQueued(setup: Setup, jobs: seq<Job>, s: System, a: Action, id: Text)
    requires !a.Advance? && ItemWasQueued(jobs, s, id)
    ensures ItemWasQueued(jobs, Step(setup, jobs, s, a), id)
  {
    hide Step, ResolveAction, QueuedBy, Undecided;
    DecisionSteps(setup, jobs, s, a);
    SourcesPersist(setup, jobs, s, a);
    match a
    case Decide(other, decision, now) => DecisionKeepsForm(setup.lenient, s.store, other, decision, now);
    case Read(_, other, decision, now) => DecisionKeepsForm(setup.lenient, s.store, other, decision, now);
    case Write(_) =>
  }

  lemma {:induction false} ItemsWereQueued(setup: Setup, jobs: seq<Job>, schedule: seq<Action>, id: Text)
    ensures ItemWasQueued(jobs, Run(setup, jobs, schedule), id)
  {
    hide Step, ItemWasQueued;
    var n := |schedule|;
    if n == 0 {
      NothingQueued(jobs, id);
    } else {
      ItemsWereQueued(setup, jobs, schedule[..n - 1], id);
      var s := Run(setup, jobs, schedule[..n - 1]);
      match schedule[n - 1]
      case Advance(a) =>
        if a < |jobs| { QueuedStep(setup, jobs, s, a, id); } else { NoSuchWorker(setup, jobs, s, a); }
      case _ => DecidedQueued(setup, jobs, s, schedule[n - 1], id);
    }
  }

  lemma NothingQueued(jobs: seq<Job>, id: Text)
    ensures ItemWasQueued(jobs, Start(jobs), id)
  {
  }

  lemma NoSuchWorker(setup: Setup, jobs: seq<Job>, s: System, a: nat)
    requires a >= |jobs|
    ensures Step(setup, jobs, s, Advance(a)) == s
  {
  }

  function PriorOf(w: Worker): Option<Snapshot> {
    match w
    case Compared(_, prior) => prior
    case Stored(_, prior) => prior
    case Briefed(_, prior, _) => prior
    case Queued(_, prior, _) => prior
    case Ready(_, prior, _) => prior
    case Finished(_, prior, _) => prior
    case Failed(_, prior, _) => prior
    case _ => None
  }

  /** Stored snapshots, and the priors workers compare with, were saved by workers on the same source. */
  ghost predicate SnapshotFact(jobs: seq<Job>, s: System, sourceId: Text) {
    && |s.workers| == |jobs|
    && (sourceId in s.store.snapshots ==> SavedBy(jobs, s.log, sourceId, s.store.snapshots[sourceId]))
    && (forall i | 0 <= i < |jobs| && jobs[i].event.sourceId == sourceId && PriorOf(s.workers[i]).Some? ::
          SavedBy(jobs, s.log, sourceId, PriorOf(s.workers[i]).value))
  }

  lemma WorkerSnapshotStep(setup: Setup, job: Job, w: Worker, st: StoreState, effects: seq<Effect>)
    requires WellKeyed(setup.sources) && Accounted(setup, job, w, effects)
    ensures var m := WorkerStep(setup, job, w, st);
            && (PriorOf(m.worker) == PriorOf(w)
               || (w.Seen? && PriorOf(m.worker) == Lookup(st.snapshots, job.event.sourceId)))
            && (m.store.snapshots == st.snapshots
                || (exists p ::
                      m.effect == Some(SavedSnapshot(p)) && m.store.snapshots == st.snapshots[job.event.sourceId := p]))
  {
    hide ValidateEvent, Trace, WatchKey, WatchScope, RunIdOf, Observe, BriefOf, ChangeOf, CandidateFor, Replay, Format,
         RecordedReceipt, PlainRun, BriefRun, SaveCandidate, Classify, Conclude;
    ValidatedSource(setup, job.event);
    if ValidateEvent(setup.sources, setup.lenient, job.event).Ok? {
      var source := ValidateEvent(setup.sources, setup.lenient, job.event).value;
      ObservedSource(setup.lenient, source, job.world);
    }
  }

  lemma ObservedSource(lenient: Lenient, source: RegistrySource, w: World)
    ensures match Observe(lenient, source, w)
            case Ok(seen) => seen.snapshot.sourceId == source.sourceId
            case Err(_) => true
  {
    hide ValidatedSnapshot;
  }

  lemma SnapshotFactStep(setup: Setup, jobs: seq<Job>, s: System, a: nat, sourceId: Text)
    requires |s.workers| == |jobs| && a < |jobs| && WellKeyed(setup.sources)
    requires SnapshotFact(jobs, s, sourceId)
    requires Accounted(setup, jobs[a], s.workers[a], EffectsOf(s.log, a))
    ensures SnapshotFact(jobs, Step(setup, jobs, s, Advance(a)), sourceId)
  {
    hide WorkerStep, Did, PriorOf, Accounted, EffectsOf, Tagged;
    WorkerSnapshotStep(setup, jobs[a], s.workers[a], s.store, EffectsOf(s.log, a));
    SourcesPersist(setup, jobs, s, Advance(a));
    LoggedEffect(setup, jobs, s, a);
  }

  lemma {:induction false} SnapshotsWereSaved(setup: Setup, jobs: seq<Job>, schedule: seq<Action>, sourceId: Text)
    requires WellKeyed(setup.sources)
    ensures SnapshotFact(jobs, Run(setup, jobs, schedule), sourceId)
  {
    hide Step, SnapshotFact, Accounted, EffectsOf;
    var n := |schedule|;
    if n == 0 {
      NothingSaved(jobs, sourceId);
    } else {
      SnapshotsWereSaved(setup, jobs, schedule[..n - 1], sourceId);
      var s := Run(setup, jobs, schedule[..n - 1]);
      match schedule[n - 1]
      case Advance(a) =>
        if a < |jobs| {
          WorkersAreAccounted(setup, jobs, schedule[..n - 1], a);
          SnapshotFactStep(setup, jobs, s, a, sourceId);
        } else {
          NoSuchWorker(setup, jobs, s, a);
        }
      case _ => DecidedSnapshots(setup, jobs, s, schedule[n - 1], sourceId);
    }
  }

  lemma NothingSaved(jobs: seq<Job>, sourceId: Text)
    ensures SnapshotFact(jobs, Start(jobs), sourceId)
  {
  }

  lemma DecidedSnapshots(setup: Setup, jobs: seq<Job>, s: System, a: Action, sourceId: Text)
    requires !a.Advance? && |s.workers| == |jobs| && SnapshotFact(jobs, s, sourceId)
    ensures SnapshotFact(jobs, Step(setup, jobs, s, a), sourceId)
  {
    hide Step, SavedBy, PriorOf;
    DecisionTouchesQueue(setup, jobs, s, a);
    SourcesPersist(setup, jobs, s, a);
  }

  // ---------------------------------------------------------------- every item links to a detected change

  /** Job k's evidence and job i's evidence, on one source, differ, and job i's brief of it is this item. */
  predicate Linked(
    setup: Setup, jobs: seq<Job>, k: nat, i: nat, before: Evidence, now: Evidence, item: ActionCandidate
  ) {
    && k < |jobs| && i < |jobs|
    && jobs[k].event.sourceId == jobs[i].event.sourceId
    && (hide Observe, ValidateEvent, ChangeOf, BriefOf, Classify, CandidateFor, Format;
        match ValidateEvent(setup.sources, setup.lenient, jobs[i].event)
        case Err(_) => false
        case Ok(source) =>
          && Observe(setup.lenient, source, jobs[k].world) == Ok(before)
          && Observe(setup.lenient, source, jobs[i].world) == Ok(now)
          && Classify(Some(before.snapshot), now.snapshot) == Changed
          && (match BriefOf(jobs[i].world, ChangeOf(source, before.snapshot, now.snapshot, now.capture))
              case None => false
              case Some(brief) => item == CandidateFor(brief, source, Format(jobs[i].world.startedAt))))
  }

  lemma QueuedEvidence(
    setup: Setup, job: Job, w: Worker, effects: seq<Effect>, item: ActionCandidate
  ) returns (source: RegistrySource, seen: Evidence, prior: Snapshot)
    requires Accounted(setup, job, w, effects) && QueuedItem(item) in effects
    ensures ValidateEvent(setup.sources, setup.lenient, job.event) == Ok(source)
    ensures PriorOf(w) == Some(prior) && Observe(setup.lenient, source, job.world) == Ok(seen)
    ensures Classify(Some(prior), seen.snapshot) == Changed
    ensures match BriefOf(job.world, ChangeOf(source, prior, seen.snapshot, seen.capture))
            case None => false
            case Some(brief) => item == CandidateFor(brief, source, Format(job.world.startedAt))
    ensures SavedSnapshot(seen.snapshot) in effects
  {
    hide ValidateEvent, BriefOf, ChangeOf, Observe, CandidateFor, Conclude, Format;
    source := ValidateEvent(setup.sources, setup.lenient, job.event).value;
    seen := w.seen;
    prior := w.prior.value;
    assert effects[1] == SavedSnapshot(seen.snapshot);
  }

  lemma SavedEvidence(setup: Setup, job: Job, w: Worker, effects: seq<Effect>, p: Snapshot) returns (seen: Evidence)
    requires Accounted(setup, job, w, effects) && SavedSnapshot(p) in effects
    ensures match ValidateEvent(setup.sources, setup.lenient, job.event)
            case Err(_) => false
            case Ok(source) => Observe(setup.lenient, source, job.world) == Ok(seen) && seen.snapshot == p
  {
    hide ValidateEvent, BriefOf, ChangeOf, Observe, CandidateFor, Conclude, Format, Classify;
    seen := w.seen;
  }

  /**
   In every interleaving each queue item, apart from its decision, is the brief of a change between
   two captures of its source: worker k fetched and saved the earlier one, worker i read it back from
   the store, fetched and saved the later one, and queued the item.
   */
  lemma ItemsLinkToChanges(setup: Setup, jobs: seq<Job>, schedule: seq<Action>, id: Text)
    returns (k: nat, i: nat, before: Evidence, now: Evidence)
    requires WellKeyed(setup.sources) && id in Run(setup, jobs, schedule).store.candidates
    ensures var s := Run(setup, jobs, schedule);
            var item := Undecided(s.store.candidates[id]);
            && Linked(setup, jobs, k, i, before, now, item)
            && Did(jobs, s.log, i, QueuedItem(item)) && Did(jobs, s.log, i, SavedSnapshot(now.snapshot))
            && Did(jobs, s.log, k, SavedSnapshot(before.snapshot))
            && PriorOf(s.workers[i]) == Some(before.snapshot)
  {
    hide Run, EffectsOf, Undecided, Accounted, PriorOf, ValidateEvent, Observe, BriefOf, ChangeOf, CandidateFor,
         Format, Classify;
    var s := Run(setup, jobs, schedule);
    var item := Undecided(s.store.candidates[id]);
    ItemsWereQueued(setup, jobs, schedule, id);
    i :| Did(jobs, s.log, i, QueuedItem(item));
    WorkersAreAccounted(setup, jobs, schedule, i);
    var source, seen, prior := QueuedEvidence(setup, jobs[i], s.workers[i], EffectsOf(s.log, i), item);
    var sourceId := jobs[i].event.sourceId;
    SnapshotsWereSaved(setup, jobs, schedule, sourceId);
    k :| Did(jobs, s.log, k, SavedSnapshot(prior)) && jobs[k].event.sourceId == sourceId;
    WorkersAreAccounted(setup, jobs, schedule, k);
    before := SavedEvidence(setup, jobs[k], s.workers[k], EffectsOf(s.log, k), prior);
    now := seen;
    ValidatedSource(setup, jobs[i].event);
    ValidatedSource(setup, jobs[k].event);
  }

  /** The brief of job i for this change took its evidence fields from it, as every shipped generator does. */
  predicate Grounded(setup: Setup, jobs: seq<Job>, i: nat, before: Evidence, now: Evidence) {
    i < |jobs| &&
    match ValidateEvent(setup.sources, setup.lenient, jobs[i].event)
    case Err(_) => false
    case Ok(source) =>
      var change := ChangeOf(source, before.snapshot, now.snapshot, now.capture);
      match BriefOf(jobs[i].world, change)
      case None => false
      case Some(brief) => FromEvidence(change, brief)
  }

  lemma ObservedDigest(lenient: Lenient, source: RegistrySource, w: World)
    ensures match Observe(lenient, source, w)
            case Ok(seen) => seen.snapshot.evidenceDigest == Sha256Hex(seen.capture.content)
            case Err(_) => true
  {
    hide NormalizeTimestamp, Encodable, Utf8Length, SegmentHashes, Sha256Hex;
  }

  lemma LinkedId(setup: Setup, jobs: seq<Job>, k: nat, i: nat, before: Evidence, now: Evidence, item: ActionCandidate)
    requires WellKeyed(setup.sources) && Linked(setup, jobs, k, i, before, now, item)
             && Grounded(setup, jobs, i, before, now)
    ensures var p, c := Sha256Hex(before.capture.content), Sha256Hex(now.capture.content);
            item.candidateId == CandidateId(BriefId(jobs[i].event.sourceId, p, c), c)
  {
    hide ValidateEvent, Observe, BriefOf, Classify, CandidateId, BriefId, ChangedExcerpt, ChangedSegments, Sha256Hex,
         Format;
    var source := ValidateEvent(setup.sources, setup.lenient, jobs[i].event).value;
    ValidatedSource(setup, jobs[i].event);
    ObservedDigest(setup.lenient, source, jobs[k].world);
    ObservedDigest(setup.lenient, source, jobs[i].world);
  }

  /** Two linked items share their id exactly when they are for the same source and the same two contents. */
  lemma ItemIdsNameChanges(
    setup: Setup, jobs: seq<Job>, k: nat, i: nat, before: Evidence, now: Evidence, item: ActionCandidate,
    l: nat, j: nat, earlier: Evidence, later: Evidence, other: ActionCandidate)
    requires WellKeyed(setup.sources) && i < |jobs| && j < |jobs|
    requires Linked(setup, jobs, k, i, before, now, item) && Grounded(setup, jobs, i, before, now)
    requires Linked(setup, jobs, l, j, earlier, later, other) && Grounded(setup, jobs, j, earlier, later)
    ensures item.candidateId == other.candidateId <==>
            && jobs[i].event.sourceId == jobs[j].event.sourceId
            && before.capture.content == earlier.capture.content
            && now.capture.content == later.capture.content
  {
    hide *;
    LinkedId(setup, jobs, k, i, before, now, item);
    LinkedId(setup, jobs, l, j, earlier, later, other);
    CandidateIdsEqualIff(jobs[i].event.sourceId, before.capture.content, now.capture.content,
                         jobs[j].event.sourceId, earlier.capture.content, later.capture.content);
  }
}
