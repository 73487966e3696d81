/** Whole runs of the scheduler: whatever callers do between its steps, and whichever engine calls raise. */
module Runs {
  import opened Options
  import opened Masks
  import opened Transformer
  import opened Sampling
  import opened Batching
  import opened Invariant
  import opened Generation
  import opened Scheduling
  import opened Order
  import opened Service
  import opened Delivery

  /** An engine call is never idle: it admits somebody or decodes somebody. */
  predicate Busy(s: Sched) {
    s.phase.Launched? && s.phase.newcomers == [] ==> s.batch.seqs != []
  }

  /** The invariant of every reachable state; `fed` lists the tokens fed to each row of the batch. */
  ghost predicate Sound(e: Settings, s: Sched, fed: seq<seq<Token>>) {
    PlacesOk(e, PlacesOf(s)) && WorkOk(e, s, fed) && ClientsOk(e, s) && Busy(s)
  }

  ghost predicate Healthy(e: Settings, s: Sched) {
    exists fed :: Sound(e, s, fed)
  }

  lemma WorkOfSound(e: Settings, s: Sched, fed: seq<seq<Token>>)
    requires Sound(e, s, fed)
    ensures WorkOk(e, s, fed) && PlacesOk(e, PlacesOf(s)) && ClientsOk(e, s) && Busy(s)
  {
  }

  /** A healthy state satisfies every part of the invariant, for some `fed`. */
  lemma Witness(e: Settings, s: Sched) returns (fed: seq<seq<Token>>)
    requires Healthy(e, s)
    ensures Sound(e, s, fed) && Callable(e, s)
    ensures WorkOk(e, s, fed) && PlacesOk(e, PlacesOf(s)) && ClientsOk(e, s) && Busy(s)
  {
    hide Sound, WorkOk, PlacesOk, ClientsOk, Callable;
    fed :| Sound(e, s, fed);
    WorkOfSound(e, s, fed);
    WorkIsCallable(e, s, fed);
  }

  // ------------------------------------------------------------------
  // One step
  // ------------------------------------------------------------------

  lemma CallerBusy(e: Settings, s: Sched, ev: Event)
    requires Busy(s) && Callable(e, s)
    requires ev.Submit? || ev.Timeout? || ev.CallerGone? || ev.StreamGone?
    ensures Busy(Step(e, s, ev))
  {
    hide Encode, Clamp, Without, Holds;
  }

  lemma CallerStep(e: Settings, s: Sched, fed: seq<seq<Token>>, ev: Event)
    requires Standing(e) && Sound(e, s, fed) && Callable(e, s)
    requires ev.Submit? || ev.Timeout? || ev.CallerGone? || ev.StreamGone?
    ensures Sound(e, Step(e, s, ev), fed)
  {
    CallerBusy(e, s, ev);
    hide PlacesOk, WorkOk, ClientsOk, DoSubmit, DoGone, Abandon, Callable;
    match ev
    case Submit(ids, params, streaming) =>
      SubmitPlaces(e, s, ids, params, streaming);
      SubmitWork(e, s, fed, ids, params, streaming);
      SubmitClients(e, s, ids, params, streaming);
    case Timeout(id) =>
      GonePlaces(e, s, id, true);
      GoneWork(e, s, fed, id, true);
      GoneClients(e, s, fed, id, true);
    case CallerGone(id) =>
      GonePlaces(e, s, id, false);
      GoneWork(e, s, fed, id, false);
      GoneClients(e, s, fed, id, false);
    case StreamGone(id) =>
      if id in s.clients && s.clients[id].streaming {
        AbandonPlaces(e, s, id);
        AbandonWork(e, s, fed, id);
        AbandonClients(e, s, fed, id);
      }
  }

  lemma EngineStep(e: Settings, s: Sched, fed: seq<seq<Token>>) returns (fed': seq<seq<Token>>)
    requires Standing(e) && Sound(e, s, fed) && s.phase.Launched?
    ensures Callable(e, s) && Sound(e, DoEngine(e, s), fed')
  {
    hide PlacesOk, ClientsOk, WorkOk, Admit, Decode, BatchOk, WellShaped, Advanced;
    fed' := EngineWork(e, s, fed);
    var s' := DoEngine(e, s);
    EngineClients(e, s, s');
    EnginePlaces(e, PlacesOf(s));
    AdvancedIds(s'.batch.seqs, s.batch.seqs, Newcomers(s));
    assert PlacesOf(s') == PlacesOf(s).(batch := Ids(s.batch.seqs) + Ids(Newcomers(s)), newcomers := []);
  }

  lemma AdvancedIds(after: seq<Sequence>, rows: seq<Sequence>, ns: seq<Sequence>)
    requires Advanced(after, rows, ns)
    ensures Ids(after) == Ids(rows) + Ids(ns)
  {
    forall i | 0 <= i < |after|
      ensures Ids(after)[i] == (Ids(rows) + Ids(ns))[i]
    {
      if ns == [] {
        assert OneStep(after[i], rows[i]);
      } else if i < |rows| {
        assert after[i] == after[..|rows|][i];
      } else {
        assert OneStep(after[|rows|..][i - |rows|], ns[i - |rows|]);
      }
    }
  }

  lemma EvictStep(e: Settings, s: Sched, fed: seq<seq<Token>>) returns (fed': seq<seq<Token>>)
    requires Standing(e) && Sound(e, s, fed) && s.phase.Published?
    ensures Callable(e, s) && Sound(e, DoEvict(e, s), fed')
  {
    hide PlacesOk, ClientsOk, BatchOk, WellShaped, RowsWhere, Steady, Waiting, Entering, Departing, AllAdmissible,
         Evict;
    fed' := EvictWork(e, s, fed);
    EvictOk(e.engine, s.batch, fed);
    RowsSplit(s.batch.seqs);
    var keep, gone := RowsWhere(s.batch.seqs, false), RowsWhere(s.batch.seqs, true);
    EvictPlaces(e, PlacesOf(s), keep, gone);
    hide Splits;
    var s' := DoEvict(e, s);
    assert Ids(s'.batch.seqs) == Select(Ids(s.batch.seqs), keep);
    assert Ids(Leaving(s')) == Select(Ids(s.batch.seqs), gone);
    EvictClients(e, s, s');
    assert PlacesOf(s') == PlacesOf(s).(batch := Ids(s'.batch.seqs), leaving := Ids(Leaving(s')));
  }

  lemma FailStep(e: Settings, s: Sched, fed: seq<seq<Token>>)
    requires Sound(e, s, fed)
    ensures Sound(e, DoFail(s), []) && Sound(e, DoStop(s), [])
  {
    hide PlacesOk, ClientsOk, WorkOk, DoFail, DoStop;
    FailPlaces(e, s);
    FailClients(e, s);
    FailWork(e, s, fed);
    StopPlaces(e, s);
    StopClients(e, s);
  }

  lemma FailWork(e: Settings, s: Sched, fed: seq<seq<Token>>)
    requires WorkOk(e, s, fed)
    ensures WorkOk(e, DoFail(s), []) && WorkOk(e, DoStop(s), []) && Busy(DoFail(s)) && Busy(DoStop(s))
  {
    assert BatchOk(e.engine, EMPTY, []);
    hide BatchOk, Waiting, Entering, Departing;
  }

  /** Every step, of the loop or of a caller, keeps the invariant. */
  lemma StepSound(e: Settings, s: Sched, fed: seq<seq<Token>>, ev: Event) returns (fed': seq<seq<Token>>)
    requires Standing(e) && Sound(e, s, fed)
    ensures Callable(e, s) && Sound(e, Step(e, s, ev), fed')
  {
    hide PlacesOk, ClientsOk, WorkOk, Callable, DoEngine, DoEvict, DoFail, DoStop, PublishAll, Observe, CompleteAll;
    WorkIsCallable(e, s, fed);
    fed' := fed;
    if Enabled(s, ev) {
      match ev
      case Launch =>
        LaunchPlaces(e, s);
        LaunchWork(e, s, fed);
        LaunchClients(e, s);
      case EngineReturns =>
        fed' := EngineStep(e, s, fed);
      case Publish =>
        PublishSame(e, s, fed);
        PublishClients(e, s);
      case EvictReturns =>
        fed' := EvictStep(e, s, fed);
      case Complete =>
        CompletePlaces(e, s);
        CompleteWork(e, s, fed);
        CompleteClients(e, s, fed);
      case EngineRaises =>
        FailStep(e, s, fed);
        fed' := [];
      case Shutdown =>
        FailStep(e, s, fed);
        fed' := [];
      case Start =>
        StartSame(e, s, fed);
      case _ =>
        CallerStep(e, s, fed, ev);
    }
  }

  lemma PublishSame(e: Settings, s: Sched, fed: seq<seq<Token>>)
    requires Sound(e, s, fed) && s.phase.Stepped?
    ensures PlacesOk(e, PlacesOf(DoPublish(e, s))) && WorkOk(e, DoPublish(e, s), fed)
  {
    ElemsAre(s.batch.seqs);
    PublishEach(e, s.running, s.clients, s.batch.seqs);
    hide BatchOk, PublishAll, ClientsOk, Waiting, AllAdmissible, Observe;
    assert PlacesOf(DoPublish(e, s)) == PlacesOf(s);
  }

  lemma StartSame(e: Settings, s: Sched, fed: seq<seq<Token>>)
    requires Sound(e, s, fed) && s.phase.Halted?
    ensures Sound(e, s.(phase := Ready), fed)
  {
    hide BatchOk, AllSteady, AllAdmissible, Waiting, Tracked, LeftOk;
    assert PlacesOf(s.(phase := Ready)) == PlacesOf(s);
  }

  lemma StepHealthy(e: Settings, s: Sched, ev: Event)
    requires Standing(e) && Healthy(e, s)
    ensures Callable(e, s) && Healthy(e, Step(e, s, ev))
  {
    hide Sound, Step, Callable, WorkOk, PlacesOk, ClientsOk;
    var fed := Witness(e, s);
    var fed' := StepSound(e, s, fed, ev);
  }

  // ------------------------------------------------------------------
  // Runs
  // ------------------------------------------------------------------

  lemma InitialHealthy(e: Settings)
    ensures Healthy(e, INITIAL)
  {
    assert Sound(e, INITIAL, []);
  }

  /** The state after `events`, from `s`. An event that is not enabled leaves the state alone. */
  ghost function RunFrom(e: Settings, s: Sched, events: seq<Event>): (s': Sched)
    requires Standing(e) && Healthy(e, s)
    ensures Healthy(e, s')
  {
    if events == [] then s
    else
      var before := RunFrom(e, s, events[..|events| - 1]);
      StepHealthy(e, before, events[|events| - 1]);
      Step(e, before, events[|events| - 1])
  }

  /** The state a fresh scheduler is in after `events`. */
  ghost function Run(e: Settings, events: seq<Event>): (s: Sched)
    requires Standing(e)
    ensures Healthy(e, s)
  {
    InitialHealthy(e);
    RunFrom(e, INITIAL, events)
  }

  // ------------------------------------------------------------------
  // What holds in every reachable state
  // ------------------------------------------------------------------

  /** First come, first served, and nothing lost: the ids of the rows, of those being admitted and of the queue are
      strictly increasing; every accepted request is in exactly one of queue, `running` and left; at the boundaries
      of a tick `running` holds exactly the ids in the batch; neither batch nor queue outgrows its limit. */
  lemma FifoAndConservation(e: Settings, events: seq<Event>)
    requires Standing(e)
    ensures var s := Run(e, events);
            && Rising(Ids(s.batch.seqs) + Ids(Newcomers(s)) + Ids(s.queue))
            && s.clients.Keys == Elems(Ids(s.queue)) + s.running + s.left.Keys
            && Elems(Ids(s.queue)) !! s.running && s.left.Keys !! (Elems(Ids(s.queue)) + s.running)
            && (s.phase.Ready? ==> s.running == Elems(Ids(s.batch.seqs)))
            && |s.batch.seqs| + |Newcomers(s)| <= e.maxBatch && |s.queue| <= e.maxQueue
  {
    hide Run, Healthy, Sound, WorkOk, ClientsOk, Callable, Before, Under;
    var s := Run(e, events);
    var fed := Witness(e, s);
    NobodyOvertakes(e, PlacesOf(s));
  }

  /** `q` is one of the scheduler's sequences, wherever it is. */
  ghost predicate Inside(s: Sched, q: Sequence) {
    q in s.queue || q in Newcomers(s) || q in s.batch.seqs || q in Leaving(s)
  }

  lemma InsideLawful(e: Settings, s: Sched, fed: seq<seq<Token>>, q: Sequence)
    requires WorkOk(e, s, fed) && Inside(s, q)
    ensures Admissible(e.engine, q) && Lawful(e.engine, q)
  {
    hide Lawful;
    if q in s.batch.seqs {
      var i :| 0 <= i < |s.batch.seqs| && s.batch.seqs[i] == q;
      assert RowAt(e.engine, s.batch, fed, i) && Admissible(e.engine, s.batch.seqs[i]);
    } else if q in Leaving(s) {
      var i :| 0 <= i < |Leaving(s)| && Leaving(s)[i] == q;
      assert Departing(e, Leaving(s)[i]);
    } else {
      hide BatchOk;
      assert q in s.queue ==> Waiting(e, q);
      assert q in Newcomers(s) ==> Entering(e, q);
      NothingYet(e, q);
    }
  }

  lemma NothingYet(e: Settings, q: Sequence)
    requires q.prompt != [] && q.output == [] && (q.reason.None? || q.reason == Some(Abandoned))
    ensures Lawful(e.engine, q)
  {
  }

  /** Where the rules stop a sequence. */
  ghost predicate StopsByRule(c: Config, q: Sequence) {
    && |q.output| <= Budget(c, q) && (Ruled(q) ==> 1 <= |q.output|)
    && (q.reason == Some(Length) <==> |q.output| == Budget(c, q) && c.eos !in q.output)
    && (q.reason == Some(Stop) ==> q.output != [] && q.output[|q.output| - 1] == c.eos)
    && forall i :: 0 <= i < |q.output| && q.output[i] == c.eos ==> i == |q.output| - 1 && q.reason == Some(Stop)
  }

  lemma LawfulStops(c: Config, q: Sequence)
    requires Admissible(c, q) && Lawful(c, q)
    ensures StopsByRule(c, q)
  {
    hide Stream, Budget, Open;
    StoppingRules(c, q);
  }

  /** Batching is invisible to the callers of the scheduler: at every moment of every run, whatever joins
      and leaves the batch, a sequence has generated a prefix of what it would generate alone, and
      exactly that once a rule has stopped it; and it stops where the rules say. */
  lemma SchedulingIsInvisible(e: Settings, events: seq<Event>, q: Sequence)
    requires Standing(e)
    ensures Inside(Run(e, events), q) ==> q.prompt != [] && MatchesSolo(e.engine, q) && StopsByRule(e.engine, q)
  {
    hide MatchesSolo, Lawful, Run, Inside, StopsByRule, Healthy, Sound, WorkOk, PlacesOk, ClientsOk, Callable;
    var s := Run(e, events);
    var fed := Witness(e, s);
    if Inside(s, q) {
      InsideLawful(e, s, fed, q);
      LawfulMatchesSolo(e.engine, q);
      LawfulStops(e.engine, q);
    }
  }

  /** What a completed request's caller has, in terms of the request as submitted and its solo generation. */
  ghost predicate Answered(e: Settings, c: Client, q: Sequence)
    requires c.request.prompt != []
  {
    var solo := Solo(e.engine, c.request);
    && q.id == c.request.id && q.output <= solo.output
    && (q.reason != Some(Abandoned) ==> q.output == solo.output)
    && (q.reason != Some(Abandoned) ==> c.future == Settled(ResultOf(e, solo)) || (!c.streaming && c.future.Cancelled?))
    && (c.streaming ==> Ended(c.stream) && Joined(c.stream) == Received(e.decode, q.output))
  }

  ghost predicate HasCompleted(s: Sched, id: Id) {
    id in s.left && s.left[id].Completed?
  }

  /** Every completed request is answered with its solo generation, whatever ran beside it. */
  lemma AnswersAreSolo(e: Settings, events: seq<Event>, id: Id)
    requires Standing(e)
    ensures var s := Run(e, events);
            HasCompleted(s, id) ==>
              id in s.clients && s.clients[id].request.prompt != [] && Answered(e, s.clients[id], s.left[id].final)
  {
    hide Lawful, Run, Solo, Healthy, Sound, WorkOk, PlacesOk, ClientsOk, Callable;
    var s := Run(e, events);
    var fed := Witness(e, s);
    if HasCompleted(s, id) {
      LeftHas(e, s, id);
      LawfulMatchesSolo(e.engine, s.left[id].final);
      SoloIsLawful(e.engine, s.clients[id].request);
    }
  }

  /** A completed stream whose text only ever grew has received exactly the text of its result. */
  lemma StreamsReassemble(e: Settings, events: seq<Event>, id: Id)
    requires Standing(e)
    ensures var s := Run(e, events);
            HasCompleted(s, id) && id in s.clients && s.clients[id].streaming
              && Grows(e.decode, s.left[id].final.output) ==>
              var c := s.clients[id]; c.future.Settled? && Ended(c.stream) && Joined(c.stream) == c.future.result.text
  {
    hide Run, Grows, Healthy, Sound, WorkOk, PlacesOk, ClientsOk, Callable;
    var s := Run(e, events);
    var fed := Witness(e, s);
    if HasCompleted(s, id) && Grows(e.decode, s.left[id].final.output) {
      LeftHas(e, s, id);
      GrowingReassembles(e.decode, s.left[id].final.output);
    }
  }

  lemma LeftHas(e: Settings, s: Sched, id: Id)
    requires ClientsOk(e, s) && id in s.left
    ensures id in s.clients && LeftOk(e, s.clients[id], s.left[id])
  {
    hide LeftOk, AllTracked;
  }

  /** Whose future is what: a result exactly for requests that completed before their caller cancelled,
      an error exactly for those in flight when a step raised, and a sentinel exactly for streams that
      completed or failed, after all their text. */
  lemma DeliveredExactly(e: Settings, events: seq<Event>, id: Id)
    requires Standing(e)
    requires id in Run(e, events).clients
    ensures var s := Run(e, events); var c := s.clients[id];
            && (c.future.Settled? <==> id in s.left && s.left[id].Completed? && !c.future.Cancelled?)
            && (c.future.Failed? <==> id in s.left && s.left[id].StepFailed? && !c.future.Cancelled?)
            && (Ended(c.stream) <==> c.streaming && id in s.left && (s.left[id].Completed? || s.left[id].StepFailed?))
            && (!Ended(c.stream) ==> NoEnd(c.stream))
            && (c.future.Pending? ==> id !in s.left || (c.streaming && s.left[id].Withdrawn?))
  {
    hide Run, Lawful, Healthy, Sound, WorkOk, PlacesOk, ClientsOk, Callable;
    var s := Run(e, events);
    var fed := Witness(e, s);
    if id in s.left {
      LeftHas(e, s, id);
    } else {
      var q, lag := LiveTracked(e, s, id);
      assert !Ended(s.clients[id].stream);
    }
  }

  /** A request that has not left is tracked by one of the scheduler's sequences. */
  lemma LiveTracked(e: Settings, s: Sched, id: Id) returns (q: Sequence, lag: bool)
    requires PlacesOk(e, PlacesOf(s)) && ClientsOk(e, s) && id in s.clients && id !in s.left
    ensures Tracked(e, s.clients[id], q, lag)
  {
    hide LiveOk, LeftOk, Ordered, Sized;
    if id in s.running {
      lag := true;
      q := RunningTracked(e, s, id);
    } else {
      ElemsAre(s.queue);
      var i :| 0 <= i < |s.queue| && s.queue[i].id == id;
      q, lag := s.queue[i], false;
    }
  }
}
