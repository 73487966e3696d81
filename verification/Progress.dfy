/** What happens in time, over whole runs: admission and draining. */
module Progress {
  import opened Sampling
  import opened Batching
  import opened Invariant
  import opened Scheduling
  import opened Order
  import opened Service
  import opened Delivery
  import opened Runs
  import opened Liveness

  // ------------------------------------------------------------------
  // Runs, in pieces
  // ------------------------------------------------------------------

  /** How many ticks of the loop complete in a run. */
  ghost function CompletedTicks(e: Settings, s: Sched, events: seq<Event>): nat
    requires Standing(e) && Healthy(e, s)
  {
    if events == [] then 0
    else
      var front := events[..|events| - 1];
      CompletedTicks(e, s, front) + if Ticks(RunFrom(e, s, front), events[|events| - 1]) then 1 else 0
  }

  lemma RunSnoc(e: Settings, s: Sched, events: seq<Event>, ev: Event)
    requires Standing(e) && Healthy(e, s)
    ensures Callable(e, RunFrom(e, s, events))
    ensures RunFrom(e, s, events + [ev]) == Step(e, RunFrom(e, s, events), ev)
    ensures CompletedTicks(e, s, events + [ev]) ==
            CompletedTicks(e, s, events) + if Ticks(RunFrom(e, s, events), ev) then 1 else 0
  {
    hide Step, Healthy, Callable;
    StepHealthy(e, RunFrom(e, s, events), ev);
    assert (events + [ev])[..|events|] == events;
  }

  lemma {:induction false} RunConcat(e: Settings, s: Sched, a: seq<Event>, b: seq<Event>)
    requires Standing(e) && Healthy(e, s)
    ensures RunFrom(e, s, a + b) == RunFrom(e, RunFrom(e, s, a), b)
    ensures CompletedTicks(e, s, a + b) == CompletedTicks(e, s, a) + CompletedTicks(e, RunFrom(e, s, a), b)
  {
    if b == [] {
      assert a + b == a;
    } else {
      var front, last := b[..|b| - 1], b[|b| - 1];
      assert b == front + [last] && a + b == (a + front) + [last];
      hide RunFrom, CompletedTicks, Healthy;
      RunConcat(e, s, a, front);
      RunSnoc(e, s, a + front, last);
      RunSnoc(e, RunFrom(e, s, a), front, last);
    }
  }

  // ------------------------------------------------------------------
  // Ids
  // ------------------------------------------------------------------

  /** Ids only grow, and a request that is out of the queue never comes back into it. */
  lemma StepQueue(e: Settings, s: Sched, ev: Event, k: Id)
    requires Callable(e, s)
    ensures s.nextId <= Step(e, s, ev).nextId
    ensures !ev.Submit? ==> Step(e, s, ev).nextId == s.nextId
    ensures k < s.nextId && Holds(Step(e, s, ev).queue, k) ==> Holds(s.queue, k)
  {
    hide Encode, Clamp, Admit, Decode, Evict, WellShaped, Prompted, Observe, PublishAll, MarkBatch, MarkAll;
    if ev.Complete? && Enabled(s, ev) {
      CompleteKeeps(e, s, s.phase.done);
    }
    hide CompleteAll;
    WithoutMembersOf(s, ev);
    var s' := Step(e, s, ev);
    if k < s.nextId && Holds(s'.queue, k) {
      var i :| 0 <= i < |s'.queue| && s'.queue[i].id == k;
      assert s'.queue[i] in s.queue;
    }
  }

  lemma WithoutMembersOf(s: Sched, ev: Event)
    ensures forall id, i :: 0 <= i < |Without(s.queue, id)| ==> Without(s.queue, id)[i] in s.queue
  {
    forall id: Id
      ensures forall i :: 0 <= i < |Without(s.queue, id)| ==> Without(s.queue, id)[i] in s.queue
    {
      WithoutMembers(s.queue, id);
    }
  }

  /** Delivering results touches neither queue nor batch, and makes no clients. */
  lemma {:induction false} CompleteKeeps(e: Settings, s: Sched, done: seq<Sequence>)
    ensures var s' := CompleteAll(e, s, done);
            && s'.queue == s.queue && s'.nextId == s.nextId && s'.batch == s.batch
            && s'.clients.Keys == s.clients.Keys
  {
    hide Deliver;
    if done != [] {
      CompleteKeeps(e, s, done[..|done| - 1]);
    }
  }

  lemma {:induction false} RunQueue(e: Settings, s: Sched, events: seq<Event>, k: Id)
    requires Standing(e) && Healthy(e, s) && k < s.nextId
    ensures s.nextId <= RunFrom(e, s, events).nextId
    ensures Holds(RunFrom(e, s, events).queue, k) ==> Holds(s.queue, k)
  {
    hide Healthy, Step, Holds;
    if events != [] {
      var front, last := events[..|events| - 1], events[|events| - 1];
      RunQueue(e, s, front, k);
      StepHealthy(e, RunFrom(e, s, front), last);
      StepQueue(e, RunFrom(e, s, front), last, k);
    }
  }

  /** Nobody overtakes: while `k` is queued, and until something
      is submitted under it, everybody running came before it. */
  lemma QueuedAhead(e: Settings, s: Sched, k: Id)
    requires Healthy(e, s) && (Holds(s.queue, k) || k == s.nextId)
    ensures Ahead(s, k) && k <= s.nextId
    ensures Holds(s.queue, k) ==> k < s.nextId
  {
    hide Healthy, Sound, WorkOk, ClientsOk, Callable;
    var fed := Witness(e, s);
    ElemsAre(s.queue);
    ElemsAre(s.batch.seqs);
    ElemsAre(Newcomers(s));
    ElemsAre(Leaving(s));
  }

  // ------------------------------------------------------------------
  // No starvation
  // ------------------------------------------------------------------

  /** While a request stays queued, whatever is submitted after
      it, every completed tick uses up work that was ahead of it. */
  lemma {:induction false} WaitingIsBounded(e: Settings, s: Sched, events: seq<Event>, k: Id)
    requires Standing(e) && Healthy(e, s) && Holds(s.queue, k)
    ensures Holds(RunFrom(e, s, events).queue, k) ==>
              CompletedTicks(e, s, events) + Work(e, RunFrom(e, s, events), k) <= Work(e, s, k)
  {
    hide Healthy, Step, Holds, Work, LaterOnly;
    if events != [] && Holds(RunFrom(e, s, events).queue, k) {
      var front, last := events[..|events| - 1], events[|events| - 1];
      var mid := RunFrom(e, s, front);
      StepHealthy(e, mid, last);
      QueuedAhead(e, s, k);
      RunQueue(e, s, front, k);
      StepQueue(e, mid, last, k);
      WaitingIsBounded(e, s, front, k);
      QueuedAhead(e, mid, k);
      NobodyLater(e, mid, last, k);
      StepLoad(e, mid, last, k);
    }
  }

  /** No admission starvation: once more ticks have completed than the work that was ahead
      of it, a queued request has been admitted or has left, whatever arrived later. */
  lemma NobodyStarves(e: Settings, s: Sched, events: seq<Event>, k: Id)
    requires Standing(e) && Healthy(e, s) && Holds(s.queue, k)
    ensures Work(e, s, k) < CompletedTicks(e, s, events) ==> !Holds(RunFrom(e, s, events).queue, k)
  {
    WaitingIsBounded(e, s, events, k);
  }

  // ------------------------------------------------------------------
  // Draining
  // ------------------------------------------------------------------

  ghost predicate NoArrivals(events: seq<Event>) {
    forall i :: 0 <= i < |events| ==> !events[i].Submit?
  }

  /** With no new arrivals, the completed ticks and the work that remains never exceed the work there was. */
  lemma {:induction false} DrainBound(e: Settings, s: Sched, events: seq<Event>)
    requires Standing(e) && Healthy(e, s) && NoArrivals(events)
    ensures RunFrom(e, s, events).nextId == s.nextId
    ensures CompletedTicks(e, s, events) + Work(e, RunFrom(e, s, events), s.nextId) <= Work(e, s, s.nextId)
  {
    hide Healthy, Step, Work, LaterOnly;
    if events != [] {
      var front, last := events[..|events| - 1], events[|events| - 1];
      var mid := RunFrom(e, s, front);
      DrainBound(e, s, front);
      StepHealthy(e, mid, last);
      StepQueue(e, mid, last, 0);
      QueuedAhead(e, mid, s.nextId);
      NobodyLater(e, mid, last, s.nextId);
      StepLoad(e, mid, last, s.nextId);
    }
  }

  const TICK: seq<Event> := [Launch, EngineReturns, Publish, EvictReturns, Complete]

  function Rounds(n: nat): seq<Event> {
    if n == 0 then [] else TICK + Rounds(n - 1)
  }

  /** Queue and batch are empty. */
  predicate Idle(s: Sched) {
    s.queue == [] && s.batch.seqs == []
  }

  ghost predicate Goes(e: Settings, s: Sched, ev: Event, s': Sched) {
    Callable(e, s) && Step(e, s, ev) == s'
  }

  lemma LaunchIs(e: Settings, s: Sched, s1: Sched)
    requires Standing(e) && s.phase.Ready? && !Idle(s) && Goes(e, s, Launch, s1)
    ensures s1 == DoLaunch(e, s) && s1.phase.Launched?
  {
    hide WellShaped, Prompted;
  }

  lemma EngineIs(e: Settings, s1: Sched, s2: Sched)
    requires s1.phase.Launched? && Goes(e, s1, EngineReturns, s2)
    ensures WellShaped(e.engine, s1.batch) && Prompted(s1.phase.newcomers) && s2 == DoEngine(e, s1) && s2.phase.Stepped?
  {
    hide WellShaped, Prompted, Admit, Decode;
  }

  lemma PublishIs(e: Settings, s2: Sched, s3: Sched)
    requires s2.phase.Stepped? && Goes(e, s2, Publish, s3)
    ensures s3 == DoPublish(e, s2) && s3.phase.Published?
  {
    hide WellShaped, Prompted, PublishAll, Observe;
  }

  lemma EvictIs(e: Settings, s3: Sched, s4: Sched)
    requires s3.phase.Published? && Goes(e, s3, EvictReturns, s4)
    ensures Callable(e, s3) && s4 == DoEvict(e, s3) && s4.phase.Evicted?
            && s4 == s3.(batch := s4.batch, phase := s4.phase)
  {
    hide WellShaped, Prompted, Evict, Done;
  }

  lemma CompleteIs(e: Settings, s4: Sched, s5: Sched)
    requires s4.phase.Evicted? && Goes(e, s4, Complete, s5)
    ensures s5 == DoComplete(e, s4)
  {
    hide WellShaped, Prompted, CompleteAll;
  }

  lemma TickPhases(e: Settings, s: Sched, s1: Sched, s2: Sched, s3: Sched, s4: Sched, s5: Sched)
    requires Standing(e) && s.phase.Ready? && !Idle(s)
    requires Goes(e, s, Launch, s1) && Goes(e, s1, EngineReturns, s2) && Goes(e, s2, Publish, s3)
    requires Goes(e, s3, EvictReturns, s4) && Goes(e, s4, Complete, s5)
    ensures s5.phase.Ready? && Ticks(s4, Complete)
    ensures !Ticks(s, Launch) && !Ticks(s1, EngineReturns) && !Ticks(s2, Publish) && !Ticks(s3, EvictReturns)
  {
    hide Goes, Idle, DoLaunch, DoEngine, DoPublish, DoEvict, CompleteAll, WellShaped, Prompted, Callable;
    LaunchIs(e, s, s1);
    EngineIs(e, s1, s2);
    PublishIs(e, s2, s3);
    EvictIs(e, s3, s4);
    CompleteIs(e, s4, s5);
  }

  lemma IdlePhases(e: Settings, s: Sched)
    requires s.phase.Ready? && Idle(s) && Callable(e, s)
    ensures Step(e, s, Launch) == s && Step(e, s, EngineReturns) == s && Step(e, s, Publish) == s
    ensures Step(e, s, EvictReturns) == s && Step(e, s, Complete) == s
  {
  }

  /** A tick, step by step. */
  lemma TickSteps(e: Settings, s: Sched) returns (s1: Sched, s2: Sched, s3: Sched, s4: Sched)
    requires Standing(e) && Healthy(e, s)
    ensures Healthy(e, s1) && Healthy(e, s2) && Healthy(e, s3) && Healthy(e, s4)
    ensures Goes(e, s, Launch, s1) && Goes(e, s1, EngineReturns, s2) && Goes(e, s2, Publish, s3)
    ensures Goes(e, s3, EvictReturns, s4) && Goes(e, s4, Complete, RunFrom(e, s, TICK))
    ensures CompletedTicks(e, s, TICK) ==
            (if Ticks(s, Launch) then 1 else 0) + (if Ticks(s1, EngineReturns) then 1 else 0) +
            (if Ticks(s2, Publish) then 1 else 0) + (if Ticks(s3, EvictReturns) then 1 else 0) +
            (if Ticks(s4, Complete) then 1 else 0)
  {
    hide Healthy, Step, Ticks, Callable;
    RunSnoc(e, s, [], Launch);
    RunSnoc(e, s, [Launch], EngineReturns);
    RunSnoc(e, s, [Launch, EngineReturns], Publish);
    RunSnoc(e, s, [Launch, EngineReturns, Publish], EvictReturns);
    RunSnoc(e, s, [Launch, EngineReturns, Publish, EvictReturns], Complete);
    assert [] + [Launch] == [Launch];
    assert [Launch] + [EngineReturns] == [Launch, EngineReturns];
    assert [Launch, EngineReturns] + [Publish] == [Launch, EngineReturns, Publish];
    assert [Launch, EngineReturns, Publish] + [EvictReturns] == [Launch, EngineReturns, Publish, EvictReturns];
    assert [Launch, EngineReturns, Publish, EvictReturns] + [Complete] == TICK;
    assert RunFrom(e, s, []) == s && CompletedTicks(e, s, []) == 0;
    hide RunFrom, CompletedTicks;
    s1 := RunFrom(e, s, [Launch]);
    s2 := RunFrom(e, s, [Launch, EngineReturns]);
    s3 := RunFrom(e, s, [Launch, EngineReturns, Publish]);
    s4 := RunFrom(e, s, [Launch, EngineReturns, Publish, EvictReturns]);
  }

  /** Unless there is nothing to do, the loop completes a tick: every step of it is enabled when its turn comes. */
  lemma TickCompletes(e: Settings, s: Sched)
    requires Standing(e) && Healthy(e, s) && s.phase.Ready?
    ensures RunFrom(e, s, TICK).phase.Ready?
    ensures if Idle(s) then RunFrom(e, s, TICK) == s else CompletedTicks(e, s, TICK) == 1
  {
    hide Healthy, Step, Idle, Ticks, Callable, RunFrom, CompletedTicks;
    var s1, s2, s3, s4 := TickSteps(e, s);
    if Idle(s) {
      IdlePhases(e, s);
    } else {
      TickPhases(e, s, s1, s2, s3, s4, RunFrom(e, s, TICK));
    }
  }

  lemma NoWorkNobody(c: Config, seqs: seq<Sequence>, k: Id)
    requires Total(c, seqs, k) == 0 && forall i :: 0 <= i < |seqs| ==> seqs[i].id < k
    ensures seqs == []
  {
    if seqs != [] {
      TotalSome(c, seqs, k, 0);
    }
  }

  lemma NoWorkIsIdle(e: Settings, s: Sched)
    requires Healthy(e, s) && Work(e, s, s.nextId) == 0
    ensures Idle(s) && s.running == {}
  {
    hide Healthy, Sound, WorkOk, ClientsOk, Callable, Total, Credit;
    var fed := Witness(e, s);
    QueuedAhead(e, s, s.nextId);
    ElemsAre(s.queue);
    NoWorkNobody(e.engine, s.queue, s.nextId);
    NoWorkNobody(e.engine, s.batch.seqs, s.nextId);
    NoWorkNobody(e.engine, Newcomers(s), s.nextId);
    NoWorkNobody(e.engine, Leaving(s), s.nextId);
    hide Ordered, Sized, Ahead, Work;
  }

  /** The scheduler empties: in any run without new arrivals, whatever callers and engine errors do between the steps
      of a tick, as soon as as many ticks have completed as there was work, nobody is queued and nobody is running. */
  lemma Drains(e: Settings, s: Sched, events: seq<Event>)
    requires Standing(e) && Healthy(e, s) && NoArrivals(events)
    ensures Work(e, s, s.nextId) <= CompletedTicks(e, s, events) ==>
              Idle(RunFrom(e, s, events)) && RunFrom(e, s, events).running == {}
  {
    hide Healthy, Step, Work, RunFrom, CompletedTicks, Idle;
    DrainBound(e, s, events);
    if Work(e, s, s.nextId) <= CompletedTicks(e, s, events) {
      NoWorkIsIdle(e, RunFrom(e, s, events));
    }
  }

  /** Ticks that nobody interrupts are enough: after as many of them as there is work, the scheduler is idle. */
  lemma {:induction false} RoundsDrain(e: Settings, s: Sched, n: nat)
    requires Standing(e) && Healthy(e, s) && s.phase.Ready? && Work(e, s, s.nextId) <= n
    ensures Idle(RunFrom(e, s, Rounds(n))) && RunFrom(e, s, Rounds(n)).phase.Ready?
    decreases n
  {
    hide Healthy, Idle, Work, RunFrom, CompletedTicks;
    TickCompletes(e, s);
    DrainBound(e, s, TICK);
    if n == 0 {
      RunNothing(e, s);
    } else {
      RunConcat(e, s, TICK, Rounds(n - 1));
      if Idle(s) {
        IdleStays(e, s, n - 1);
      } else {
        RoundsDrain(e, RunFrom(e, s, TICK), n - 1);
      }
    }
  }

  lemma RunNothing(e: Settings, s: Sched)
    requires Standing(e) && Healthy(e, s)
    ensures RunFrom(e, s, []) == s && CompletedTicks(e, s, []) == 0
  {
    hide Step, Ticks, Healthy;
  }

  lemma {:induction false} IdleStays(e: Settings, s: Sched, n: nat)
    requires Standing(e) && Healthy(e, s) && s.phase.Ready? && Idle(s)
    ensures RunFrom(e, s, Rounds(n)) == s
    decreases n
  {
    hide Healthy, Idle, RunFrom, CompletedTicks;
    RunNothing(e, s);
    if n > 0 {
      TickCompletes(e, s);
      RunConcat(e, s, TICK, Rounds(n - 1));
      IdleStays(e, s, n - 1);
    }
  }
}
