/** How long a request takes from any moment on: the work of everybody up to it, and the ticks that only
    admit requests that came later. Those can go on for ever, because a tick either admits or decodes. */
module Turnaround {
  import opened Options
  import opened Transformer
  import opened Sampling
  import opened Batching
  import opened Invariant
  import opened Generation
  import opened Scheduling
  import opened Order
  import opened Service
  import opened Delivery
  import opened Runs
  import opened History
  import opened Liveness
  import opened Progress
  import opened Lone

  // ------------------------------------------------------------------
  // An upper bound
  // ------------------------------------------------------------------

  /** Accepted, and neither answered nor given up. */
  predicate Live(s: Sched, k: Id) {
    k in s.clients && k !in s.left
  }

  /** An engine call that only admits requests submitted after `k`. */
  ghost predicate PassesOver(s: Sched, ev: Event, k: Id) {
    ev.EngineReturns? && Newcomers(s) != [] && forall i :: 0 <= i < |Newcomers(s)| ==> k < Newcomers(s)[i].id
  }

  ghost function TimesPassedOver(e: Settings, s: Sched, events: seq<Event>, k: Id): nat
    requires Standing(e) && Healthy(e, s)
  {
    if events == [] then 0
    else
      var front := events[..|events| - 1];
      TimesPassedOver(e, s, front, k) + if PassesOver(RunFrom(e, s, front), events[|events| - 1], k) then 1 else 0
  }

  /** Where a live request is. */
  lemma LiveIsSomewhere(e: Settings, s: Sched, k: Id)
    requires PlacesOk(e, PlacesOf(s)) && Live(s, k)
    ensures Holds(s.queue, k) || Holds(Newcomers(s), k) || Holds(s.batch.seqs, k) || Holds(Leaving(s), k)
  {
    ElemsAre(s.queue);
    ElemsAre(Newcomers(s));
    ElemsAre(s.batch.seqs);
    ElemsAre(Leaving(s));
    hide Ordered, Sized, Holds, Elems, Ids;
  }

  lemma HeldWeighs(e: Settings, seqs: seq<Sequence>, k: Id)
    ensures Holds(seqs, k) ==> 1 <= Total(e.engine, seqs, k + 1)
  {
    if Holds(seqs, k) {
      var i :| 0 <= i < |seqs| && seqs[i].id == k;
      TotalSome(e.engine, seqs, k + 1, i);
    }
  }

  /** A live request has at least its own departure ahead of it. */
  lemma LiveHasWork(e: Settings, s: Sched, k: Id)
    requires Healthy(e, s) && Live(s, k)
    ensures 1 <= Work(e, s, k + 1) && k < s.nextId
  {
    hide Healthy, Sound, WorkOk, ClientsOk, Callable, Total, Credit, Holds;
    var fed := Witness(e, s);
    LiveIsSomewhere(e, s, k);
    HeldWeighs(e, s.queue, k);
    HeldWeighs(e, Newcomers(s), k);
    HeldWeighs(e, s.batch.seqs, k);
    HeldWeighs(e, Leaving(s), k);
    assert k in PlacesOf(s).clients;
    hide Ordered, Sized;
  }

  /** A live request that is passed over is a row of the batch. */
  lemma PassedIsRunning(e: Settings, s: Sched, ev: Event, k: Id)
    requires Healthy(e, s) && Live(s, k) && PassesOver(s, ev, k)
    ensures Holds(s.batch.seqs, k) && |s.batch.seqs| + |Newcomers(s)| <= e.maxBatch && Quiet(s.phase)
  {
    hide Healthy, Sound, WorkOk, ClientsOk, Callable;
    var fed := Witness(e, s);
    LiveIsSomewhere(e, s, k);
    ElemsAre(s.queue);
    ElemsAre(Newcomers(s));
    assert Newcomers(s)[0].id in Elems(Ids(Newcomers(s)));
    assert Holds(s.queue, k) ==> k in Elems(Ids(s.queue));
    hide Elems, Ids, Rising;
  }

  /** While a request is live, an engine call in which nobody up
      to it takes part is an admission that passes over it. */
  lemma LaterIsPassing(e: Settings, s: Sched, ev: Event, k: Id)
    requires Healthy(e, s) && Live(s, k) && LaterOnly(s, ev, k + 1)
    ensures PassesOver(s, ev, k)
  {
    hide Healthy, Sound, WorkOk, ClientsOk, Callable;
    var fed := Witness(e, s);
    assert Taking(s) != [] && k < Taking(s)[0].id;
    LiveIsSomewhere(e, s, k);
    ElemsAre(s.queue);
    ElemsAre(s.batch.seqs);
  }

  /** While a request is live, whatever else arrives, each completed tick uses up
      some of the work up to it, unless it only admitted requests that came later. */
  lemma {:induction false} TurnaroundIsBounded(e: Settings, s: Sched, events: seq<Event>, k: Id)
    requires Standing(e) && Healthy(e, s) && k in s.clients
    ensures k !in RunFrom(e, s, events).left ==>
              CompletedTicks(e, s, events) + Work(e, RunFrom(e, s, events), k + 1) <=
              Work(e, s, k + 1) + TimesPassedOver(e, s, events, k)
  {
    hide Healthy, Step, Work, LaterOnly, PassesOver, Callable;
    if events != [] && k !in RunFrom(e, s, events).left {
      var front, last := events[..|events| - 1], events[|events| - 1];
      var mid := RunFrom(e, s, front);
      StepHealthy(e, mid, last);
      DeliveredOnce(e, s, front);
      StepOnward(e, mid, last);
      hide Forward;
      TurnaroundIsBounded(e, s, front, k);
      LiveHasWork(e, mid, k);
      StepLoad(e, mid, last, k + 1);
      if LaterOnly(mid, last, k + 1) {
        LaterIsPassing(e, mid, last, k);
      }
    }
  }

  /** A request has left as soon as as many ticks have completed as there was work
      up to it, not counting those that only admitted requests that came later. */
  lemma LeavesInTime(e: Settings, s: Sched, events: seq<Event>, k: Id)
    requires Standing(e) && Healthy(e, s) && k in s.clients
    ensures Work(e, s, k + 1) + TimesPassedOver(e, s, events, k) <= CompletedTicks(e, s, events) ==>
              k in RunFrom(e, s, events).left
  {
    hide Healthy, Work, RunFrom, CompletedTicks, TimesPassedOver;
    TurnaroundIsBounded(e, s, events, k);
    DeliveredOnce(e, s, events);
    if k !in RunFrom(e, s, events).left {
      LiveHasWork(e, RunFrom(e, s, events), k);
    }
  }

  // ------------------------------------------------------------------
  // A request that is passed over for ever
  // ------------------------------------------------------------------

  /** A request for one token, and a tick. */
  function Gust(ids: seq<Token>, params: Params): seq<Event> {
    [Submit(ids, params.(maxTokens := 1), false)] + TICK
  }

  function Storm(ids: seq<Token>, params: Params, n: nat): seq<Event> {
    if n == 0 then [] else Gust(ids, params) + Storm(ids, params, n - 1)
  }

  /** Between ticks, nobody is queued, there is room in the batch, and nobody in it is finished. */
  ghost predicate Exposed(e: Settings, s: Sched) {
    && s.phase.Ready? && s.queue == [] && 1 <= |s.batch.seqs| < e.maxBatch
    && forall i :: 0 <= i < |s.batch.seqs| ==> !s.batch.seqs[i].Finished()
  }

  lemma GustArrives(e: Settings, s: Sched, ids: seq<Token>, params: Params) returns (q: Sequence)
    requires Standing(e) && Exposed(e, s) && 1 <= e.maxQueue && Callable(e, s)
    ensures var s' := Step(e, s, Submit(ids, params.(maxTokens := 1), false));
            s'.queue == [q] && s'.batch == s.batch && s'.phase == s.phase
    ensures Fresh(q) && Admissible(e.engine, q) && q.reason.None? && Budget(e.engine, q) <= 1
  {
    EncodeLeavesRoom(e.engine, ids);
    hide Encode, WellShaped, Prompted;
    q := Sequence(s.nextId, Encode(e.engine, ids), Clamp(params.(maxTokens := 1), e.engine.maxNewTokens), [], None);
  }

  /** A newcomer with a budget of one token is finished by its prefill. */
  lemma GustFinishes(c: Config, q: Sequence)
    requires Fresh(q) && Admissible(c, q) && q.reason.None? && Budget(c, q) <= 1
    ensures Prompted([q]) && |Prefill(c, [q]).seqs| == 1 && Prefill(c, [q]).seqs[0].Finished()
  {
    PrefillOk(c, [q]);
    PrefillSteps(c, [q]);
    hide Prefill;
    SingleStep(Prefill(c, [q]).seqs, q);
    var q' := Prefill(c, [q]).seqs[0];
    assert RowAt(c, Prefill(c, [q]), Prompts([q]), 0);
    assert Lawful(c, q');
    hide Lawful, BatchOk, RowAt;
    StoppingRules(c, q');
  }

  /** The newcomer goes through the batch and leaves it as it was. */
  lemma GustPasses(e: Settings, s: Sched, s1: Sched, q: Sequence)
    requires Standing(e) && Healthy(e, s1) && Exposed(e, s)
    requires Fresh(q) && Admissible(e.engine, q) && q.reason.None? && Budget(e.engine, q) <= 1
    requires s1.phase == Launched([q]) && s1.batch == s.batch && Callable(e, s1)
    ensures WellShaped(e.engine, Admit(e.engine, s.batch, [q]))
    ensures Evict(e.engine, Admit(e.engine, s.batch, [q])) == s.batch
  {
    hide Healthy, Sound, WorkOk, ClientsOk, PlacesOk, BatchOk, Admit, Evict, Prefill, WellShaped, Callable;
    var fed := Witness(e, s1);
    BatchOfWork(e, s1, fed);
    GustFinishes(e.engine, q);
    AdmitThenEvict(e.engine, s.batch, fed, [q]);
  }

  lemma GustLaunches(e: Settings, s: Sched, q: Sequence)
    requires s.queue == [q] && 1 <= |s.batch.seqs| < e.maxBatch
    ensures DoLaunch(e, s).phase == Launched([q]) && DoLaunch(e, s).queue == [] && DoLaunch(e, s).batch == s.batch
  {
    assert s.queue[..1] == [q] && s.queue[1..] == [];
  }

  /** One gust of the storm: a completed tick, and the same batch. */
  lemma GustBlows(e: Settings, s: Sched, ids: seq<Token>, params: Params)
    requires Standing(e) && Healthy(e, s) && Exposed(e, s) && 1 <= e.maxQueue
    ensures var s' := RunFrom(e, s, Gust(ids, params));
            s'.phase.Ready? && s'.queue == [] && s'.batch == s.batch && CompletedTicks(e, s, Gust(ids, params)) == 1
  {
    hide Healthy, RunFrom, CompletedTicks, Step, WellShaped, Prompted, Admit, Evict, Done, PublishAll, Observe, Fresh,
         Budget, Admissible, CompleteAll;
    var arrival := Submit(ids, params.(maxTokens := 1), false);
    RunNothing(e, s);
    RunSnoc(e, s, [], arrival);
    assert [] + [arrival] == [arrival];
    var s0 := RunFrom(e, s, [arrival]);
    var q := GustArrives(e, s, ids, params);
    RunConcat(e, s, [arrival], TICK);
    TickCompletes(e, s0);
    var s1, s2, s3, s4 := TickSteps(e, s0);
    LaunchIs(e, s0, s1);
    GustLaunches(e, s0, q);
    EngineIs(e, s1, s2);
    PublishIs(e, s2, s3);
    EvictIs(e, s3, s4);
    CompleteIs(e, s4, RunFrom(e, s0, TICK));
    GustPasses(e, s, s1, q);
    CompleteKeeps(e, s4, Leaving(s4));
  }

  /** One arrival for one token per tick holds up everybody in the batch, for
      as long as it lasts: the ticks complete, and the batch stays as it was. */
  lemma {:induction false} StormHoldsUp(e: Settings, s: Sched, ids: seq<Token>, params: Params, n: nat)
    requires Standing(e) && Healthy(e, s) && Exposed(e, s) && 1 <= e.maxQueue
    ensures RunFrom(e, s, Storm(ids, params, n)).batch == s.batch && RunFrom(e, s, Storm(ids, params, n)).phase.Ready?
    ensures CompletedTicks(e, s, Storm(ids, params, n)) == n
    decreases n
  {
    hide Healthy, RunFrom, CompletedTicks, Gust;
    if n == 0 {
      RunNothing(e, s);
    } else {
      GustBlows(e, s, ids, params);
      RunConcat(e, s, Gust(ids, params), Storm(ids, params, n - 1));
      StormHoldsUp(e, RunFrom(e, s, Gust(ids, params)), ids, params, n - 1);
    }
  }

  // ------------------------------------------------------------------
  // Exactly when requests leave in time
  // ------------------------------------------------------------------

  /** However the run continues after `events`, request `k` has left once `n` ticks have completed. */
  ghost predicate LeavesWithin(e: Settings, events: seq<Event>, k: Id, n: nat)
    requires Standing(e)
  {
    forall more :: n <= CompletedTicks(e, Run(e, events), more) ==> k in RunFrom(e, Run(e, events), more).left
  }

  /** At every moment of every run, every accepted request leaves
      within as many completed ticks as there is work up to it. */
  ghost predicate Timely(e: Settings)
    requires Standing(e)
  {
    forall events, k :: k in Run(e, events).clients ==> LeavesWithin(e, events, k, Work(e, Run(e, events), k + 1))
  }

  /** At every moment of every run, there is some bound on the
      completed ticks after which an accepted request has left. */
  ghost predicate Bounded(e: Settings)
    requires Standing(e)
  {
    forall events, k :: k in Run(e, events).clients ==> exists n: nat :: LeavesWithin(e, events, k, n)
  }

  function WithModel(e: Settings, m: Model): Settings {
    e.(engine := e.engine.(model := m))
  }

  /** Nobody can be passed over: one request runs at a time, or every request is for one token, or none is accepted. */
  predicate NoPassing(e: Settings) {
    e.maxBatch == 1 || e.engine.maxContext == 2 || e.engine.maxNewTokens == 1 || e.maxQueue == 0
  }

  /** What every accepted request is: one that the queue had room for, clamped to the setting. */
  ghost predicate Clamped(e: Settings, s: Sched) {
    forall id :: id in s.clients ==>
      1 <= e.maxQueue && s.clients[id].request.params.maxTokens <= e.engine.maxNewTokens
  }

  lemma {:induction false} PublishKeeps(e: Settings, running: set<Id>, clients: map<Id, Client>, seqs: seq<Sequence>)
    ensures PublishAll(e, running, clients, seqs).Keys == clients.Keys
  {
    hide PublishOne;
    if seqs != [] {
      PublishKeeps(e, running, clients, seqs[..|seqs| - 1]);
    }
  }

  lemma CallerAccepts(e: Settings, s: Sched, ev: Event)
    requires Callable(e, s) && (ev.Submit? || ev.Timeout? || ev.CallerGone? || ev.StreamGone?)
    ensures forall id :: id in Step(e, s, ev).clients && id !in s.clients ==>
              |s.queue| < e.maxQueue && ev.Submit? &&
              Step(e, s, ev).clients[id].request.params == Clamp(ev.params, e.engine.maxNewTokens)
  {
    hide Encode, Clamp, WellShaped, Prompted, Abandon;
    if ev.Timeout? && ev.id in s.clients {
      AbandonParts(s.(clients := s.clients[ev.id := Cancel(s.clients[ev.id])]), ev.id);
    } else if ev.StreamGone? {
      AbandonParts(s, ev.id);
    }
  }

  /** Only submitting makes new clients. */
  lemma StepAccepts(e: Settings, s: Sched, ev: Event)
    requires Callable(e, s)
    ensures forall id :: id in Step(e, s, ev).clients && id !in s.clients ==>
              |s.queue| < e.maxQueue && ev.Submit? &&
              Step(e, s, ev).clients[id].request.params == Clamp(ev.params, e.engine.maxNewTokens)
  {
    hide Clamp, DoSubmit, DoGone, Abandon, WellShaped, Prompted, Admit, Decode, Evict, Observe, PublishAll,
         CompleteAll, Fail, Cancel;
    if ev.Submit? || ev.Timeout? || ev.CallerGone? || ev.StreamGone? {
      CallerAccepts(e, s, ev);
    } else {
      PublishKeeps(e, s.running, s.clients, s.batch.seqs);
      CompleteKeeps(e, s, Leaving(s));
    }
  }

  lemma {:induction false} RunClamped(e: Settings, s: Sched, events: seq<Event>)
    requires Standing(e) && Healthy(e, s) && Clamped(e, s)
    ensures Clamped(e, RunFrom(e, s, events))
  {
    hide Healthy, Step, Callable;
    if events != [] {
      var front, last := events[..|events| - 1], events[|events| - 1];
      RunClamped(e, s, front);
      StepOnward(e, RunFrom(e, s, front), last);
      StepAccepts(e, RunFrom(e, s, front), last);
    }
  }

  /** A row of the batch, before an engine call, has a token already and another to come. */
  lemma RowHasTwo(e: Settings, s: Sched, i: nat)
    requires Standing(e) && Healthy(e, s) && Clamped(e, s) && Quiet(s.phase) && i < |s.batch.seqs|
    ensures 3 <= e.engine.maxContext && 2 <= e.engine.maxNewTokens && 1 <= e.maxQueue
  {
    hide Healthy, Sound, PlacesOk, Callable, LeftAllOk;
    var fed := Witness(e, s);
    BatchSizes(e.engine, s.batch, fed);
    hide BatchOk;
    var q := s.batch.seqs[i];
    assert Steady(e, s.batch, fed, i) && Admissible(e.engine, q);
    assert Tracked(e, s.clients[q.id], q, false);
  }

  lemma NeverPassed(e: Settings, s: Sched, ev: Event, k: Id)
    requires Standing(e) && Healthy(e, s) && Clamped(e, s) && Live(s, k) && NoPassing(e)
    ensures !PassesOver(s, ev, k)
  {
    hide Healthy;
    if PassesOver(s, ev, k) {
      PassedIsRunning(e, s, ev, k);
      RowHasTwo(e, s, 0);
      assert false;
    }
  }

  lemma {:induction false} NeverPassedOver(e: Settings, s: Sched, events: seq<Event>, k: Id)
    requires Standing(e) && Healthy(e, s) && Clamped(e, s) && NoPassing(e) && k in s.clients
    ensures k !in RunFrom(e, s, events).left ==> TimesPassedOver(e, s, events, k) == 0
  {
    hide Healthy, Step, PassesOver, Callable, Clamped, NoPassing;
    if events != [] && k !in RunFrom(e, s, events).left {
      var front, last := events[..|events| - 1], events[|events| - 1];
      var mid := RunFrom(e, s, front);
      DeliveredOnce(e, s, front);
      StepOnward(e, mid, last);
      hide Forward;
      NeverPassedOver(e, s, front, k);
      RunClamped(e, s, front);
      NeverPassed(e, mid, last, k);
    }
  }

  lemma NoPassingIsTimely(e: Settings, events: seq<Event>, k: Id)
    requires Standing(e) && NoPassing(e)
    ensures k in Run(e, events).clients ==> LeavesWithin(e, events, k, Work(e, Run(e, events), k + 1))
  {
    hide Healthy, Work, RunFrom, CompletedTicks, TimesPassedOver, NoPassing;
    InitialHealthy(e);
    assert Clamped(e, INITIAL);
    hide Clamped;
    RunClamped(e, INITIAL, events);
    var s := Run(e, events);
    forall more | k in s.clients && Work(e, s, k + 1) <= CompletedTicks(e, s, more)
      ensures k in RunFrom(e, s, more).left
    {
      LeavesInTime(e, s, more, k);
      if k !in RunFrom(e, s, more).left {
        NeverPassedOver(e, s, more, k);
      }
    }
  }

  // ------------------------------------------------------------------
  // The run that shows it
  // ------------------------------------------------------------------

  const FEW: Params := Params(2, 0.0, 0, 1.0)

  /** A request for two tokens, one of which it has after its first tick. */
  const HELD: seq<Event> := [Start, Submit([0], FEW, false)] + TICK

  function Tireless(e: Settings): Settings {
    e.(engine := Endless(e.engine))
  }

  lemma TirelessKeeps(e: Settings)
    ensures Tireless(e) == WithModel(e, Tireless(e).engine.model)
            && Tireless(e).engine.model.layers == e.engine.model.layers
  {
    EndlessKeeps(e.engine);
  }

  /** Under weights that never stop it, the request for two tokens generates two. */
  lemma TwoTokens(e: Settings)
    requires Standing(e) && 3 <= e.engine.maxContext && 2 <= e.engine.maxNewTokens
    ensures Standing(Tireless(e))
    ensures var r := FirstRequest(Tireless(e), [0], FEW);
            r.prompt != [] && |Solo(Tireless(e).engine, r).output| == 2
  {
    hide Endless, Solo, Lawful;
    EndlessKeeps(e.engine);
    TirelessKeeps(e);
    var t := Tireless(e);
    var r := FirstRequest(t, [0], FEW);
    FirstId(t, [0], FEW);
    FewRequest(t);
    hide FirstRequest;
    EndlessRun(e.engine, r);
    SoloIsLawful(t.engine, r);
    StoppingRules(t.engine, Solo(t.engine, r));
  }

  lemma FewRequest(e: Settings)
    requires 3 <= e.engine.maxContext && 2 <= e.engine.maxNewTokens
    ensures var r := FirstRequest(e, [0], FEW);
            |r.prompt| == 1 && r.params.maxTokens == 2 && r.params.temperature == 0.0
  {
  }

  lemma HeldRuns(e: Settings)
    requires Standing(e) && 3 <= e.engine.maxContext && 2 <= e.engine.maxNewTokens && 1 <= e.maxQueue
    ensures Standing(Tireless(e))
    ensures Alone(Run(Tireless(e), HELD), FirstRequest(Tireless(e), [0], FEW), 1)
  {
    hide Healthy, RunFrom, CompletedTicks, Queued, Alone, Over, FirstRequest, Tireless, Solo;
    TwoTokens(e);
    TirelessKeeps(e);
    var t := Tireless(e);
    var r := FirstRequest(t, [0], FEW);
    var ready := [Start, Submit([0], FEW, false)];
    InitialHealthy(t);
    QueuedFirst(t, [0], FEW, false);
    TickOfLone(t, RunFrom(t, INITIAL, ready), r, 0);
    RunConcat(t, INITIAL, ready, TICK);
    AloneIsShort(t, Run(t, HELD), r, 1);
  }

  /** Between ticks, a row of the batch has been accepted and has not left. */
  lemma RowIsLive(e: Settings, s: Sched, i: nat)
    requires Healthy(e, s) && i < |s.batch.seqs|
    ensures Live(s, s.batch.seqs[i].id)
  {
    hide Healthy, Sound, WorkOk, ClientsOk, Callable;
    var fed := Witness(e, s);
    ElemsAre(s.batch.seqs);
    hide Ordered, Sized;
  }

  /** Where requests can be passed over, nothing bounds how long that request is in the batch. */
  lemma HeldUp(e: Settings, n: nat)
    requires Standing(e) && !NoPassing(e)
    ensures Standing(Tireless(e)) && 1 in Run(Tireless(e), HELD).clients && !LeavesWithin(Tireless(e), HELD, 1, n)
  {
    hide Healthy, RunFrom, CompletedTicks;
    HeldRuns(e);
    TirelessKeeps(e);
    var t := Tireless(e);
    hide Tireless;
    var s := Run(t, HELD);
    var more := Storm([0], FEW, n);
    StormHoldsUp(t, s, [0], FEW, n);
    RowIsLive(t, s, 0);
    RowIsLive(t, RunFrom(t, s, more), 0);
  }

  lemma HeldUpUnbounded(e: Settings)
    requires Standing(e) && !NoPassing(e)
    ensures Standing(Tireless(e)) && !Bounded(Tireless(e))
  {
    hide Run, LeavesWithin, NoPassing, Tireless;
    HeldUp(e, 0);
    forall n: nat
      ensures !LeavesWithin(Tireless(e), HELD, 1, n)
    {
      HeldUp(e, n);
    }
  }

  /** The scheduler's timing, exactly: whatever the weights, every accepted request leaves within as many
      completed ticks as there is work up to it if and only if nobody can be passed over; and where
      somebody can, there is no bound at all. */
  lemma TimelyExactly(e: Settings)
    requires Standing(e)
    ensures (forall m: Model :: 0 < m.layers ==> Timely(WithModel(e, m))) <==> NoPassing(e)
    ensures (forall m: Model :: 0 < m.layers ==> Bounded(WithModel(e, m))) <==> NoPassing(e)
  {
    hide Run, LeavesWithin, Work;
    if NoPassing(e) {
      forall m: Model | 0 < m.layers
        ensures Timely(WithModel(e, m)) && Bounded(WithModel(e, m))
      {
        var e' := WithModel(e, m);
        forall events: seq<Event>, k: Id | k in Run(e', events).clients
          ensures LeavesWithin(e', events, k, Work(e', Run(e', events), k + 1))
        {
          NoPassingIsTimely(e', events, k);
        }
      }
    } else {
      HeldUpUnbounded(e);
      TirelessKeeps(e);
    }
  }
}
