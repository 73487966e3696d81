/** What never changes again, and the positions the model is ever given. */
module History {
  import opened Transformer
  import opened Sampling
  import opened Batching
  import opened Invariant
  import opened Generation
  import opened Scheduling
  import opened Order
  import opened Service
  import opened Delivery
  import opened Runs

  // ------------------------------------------------------------------
  // Exactly once
  // ------------------------------------------------------------------

  /** A client only ever moves forward: its future is settled at
      most once, its stream only grows, and not past the sentinel. */
  ghost predicate Forward(c: Client, c': Client) {
    && c'.request == c.request && c'.streaming == c.streaming
    && (!c.future.Pending? ==> c'.future == c.future)
    && c.stream <= c'.stream
    && (Ended(c.stream) ==> c'.stream == c.stream)
  }

  /** Clients move forward, and whoever has left stays as they left. */
  ghost predicate Onward(s: Sched, s': Sched) {
    && (forall id :: id in s.clients ==> id in s'.clients && Forward(s.clients[id], s'.clients[id]))
    && (forall id :: id in s.left ==> id in s'.left && s'.left[id] == s.left[id])
  }

  lemma OnwardTwice(s: Sched, s1: Sched, s2: Sched)
    requires Onward(s, s1) && Onward(s1, s2)
    ensures Onward(s, s2)
  {
    hide Forward;
    forall id | id in s.clients
      ensures id in s2.clients && Forward(s.clients[id], s2.clients[id])
    {
      assert Forward(s.clients[id], s1.clients[id]) && Forward(s1.clients[id], s2.clients[id]);
      ForwardTwice(s.clients[id], s1.clients[id], s2.clients[id]);
    }
  }

  lemma ForwardTwice(c: Client, c1: Client, c2: Client)
    requires Forward(c, c1) && Forward(c1, c2)
    ensures Forward(c, c2)
  {
  }

  lemma SameForward(c: Client)
    ensures Forward(c, c) && Forward(c, Cancel(c))
  {
  }

  lemma RunningForward(e: Settings, s: Sched, id: Id, any: Sequence)
    requires ClientsOk(e, s) && PlacesOk(e, PlacesOf(s)) && id in s.running
    ensures id in s.clients
    ensures var c := s.clients[id];
            Forward(c, PublishOne(e, c, any)) && Forward(c, Deliver(e, c, any)) && Forward(c, Fail(c))
  {
    var q := RunningTracked(e, s, id);
  }

  lemma PublishOnward(e: Settings, s: Sched)
    requires ClientsOk(e, s) && PlacesOk(e, PlacesOf(s)) && s.phase.Stepped?
    ensures Onward(s, DoPublish(e, s))
  {
    PublishEach(e, s.running, s.clients, s.batch.seqs);
    ElemsAre(s.batch.seqs);
    hide ClientsOk, Ordered, Sized, Forward, PublishAll, Observe, PublishOne, Rising;
    var after := DoPublish(e, s).clients;
    forall id | id in s.clients
      ensures id in after && Forward(s.clients[id], after[id])
    {
      if id in Elems(Ids(s.batch.seqs)) {
        var i :| 0 <= i < |s.batch.seqs| && s.batch.seqs[i].id == id;
        assert PublishedOne(e, s.clients, s.batch.seqs[i], after);
        RunningForward(e, s, id, s.batch.seqs[i]);
      } else {
        SameForward(s.clients[id]);
      }
    }
  }

  lemma CompleteOnward(e: Settings, s: Sched)
    requires ClientsOk(e, s) && PlacesOk(e, PlacesOf(s)) && s.phase.Evicted?
    ensures Onward(s, DoComplete(e, s))
  {
    var done := Leaving(s);
    var mid := CompleteAll(e, s, done);
    CompleteEach(e, s, done);
    ElemsAre(done);
    hide ClientsOk, Ordered, Sized, Forward, CompleteAll, Deliver, Rising;
    forall id | id in s.clients
      ensures id in mid.clients && Forward(s.clients[id], mid.clients[id])
    {
      if id in Elems(Ids(done)) {
        var i :| 0 <= i < |done| && done[i].id == id;
        assert DeliveredOne(e, s, done[i], mid);
        RunningForward(e, s, id, done[i]);
      } else {
        SameForward(s.clients[id]);
      }
    }
  }

  lemma FailOnward(e: Settings, s: Sched)
    requires ClientsOk(e, s) && PlacesOk(e, PlacesOf(s))
    ensures Onward(s, DoFail(s))
  {
    hide ClientsOk, Ordered, Sized, Forward, Fail;
    forall id | id in s.clients
      ensures id in DoFail(s).clients && Forward(s.clients[id], DoFail(s).clients[id])
    {
      if id in s.running {
        RunningForward(e, s, id, s.clients[id].request);
      } else {
        SameForward(s.clients[id]);
      }
    }
  }

  lemma StopOnward(e: Settings, s: Sched)
    requires PlacesOk(e, PlacesOf(s))
    ensures Onward(s, DoStop(s))
  {
    hide Ordered, Sized, Forward, Cancel;
    ElemsAre(s.queue);
    forall id | id in s.clients
      ensures Forward(s.clients[id], DoStop(s).clients[id])
    {
      SameForward(s.clients[id]);
    }
  }

  /** Abandoning touches no future and no stream, and changes the fate of nobody who has left. */
  lemma AbandonOnward(e: Settings, s: Sched, id: Id)
    requires PlacesOk(e, PlacesOf(s))
    ensures Onward(s, Abandon(s, id))
  {
    hide Ordered, Sized, Abandon, Holds, Without, Elems, Ids, MarkIf, MarkBatch, Forward;
    AbandonParts(s, id);
    HoldsElems(s.queue, id);
    forall c: Client
      ensures Forward(c, c)
    {
      SameForward(c);
    }
  }

  lemma GoneOnward(e: Settings, s: Sched, id: Id, abandon: bool)
    requires PlacesOk(e, PlacesOf(s))
    ensures Onward(s, DoGone(s, id, abandon))
  {
    if id in s.clients && !s.clients[id].streaming && s.clients[id].future.Pending? {
      var s1 := s.(clients := s.clients[id := Cancel(s.clients[id])]);
      assert PlacesOf(s1) == PlacesOf(s);
      assert Onward(s, s1);
      hide PlacesOk, Onward;
      AbandonOnward(e, s1, id);
      OnwardTwice(s, s1, Abandon(s1, id));
    }
  }

  lemma SubmitOnward(e: Settings, s: Sched, ids: seq<Token>, params: Params, streaming: bool)
    requires PlacesOk(e, PlacesOf(s))
    ensures Onward(s, DoSubmit(e, s, ids, params, streaming))
  {
    hide Ordered, Sized, Encode, Clamp;
    assert s.nextId !in s.clients;
  }

  lemma CallerOnward(e: Settings, s: Sched, ev: Event)
    requires PlacesOk(e, PlacesOf(s)) && Callable(e, s)
    requires ev.Submit? || ev.Timeout? || ev.CallerGone? || ev.StreamGone?
    ensures Onward(s, Step(e, s, ev))
  {
    OnwardSelf(s);
    hide PlacesOk, DoGone, DoSubmit, Abandon, Onward, Callable;
    match ev
    case Submit(ids, params, streaming) =>
      SubmitOnward(e, s, ids, params, streaming);
    case Timeout(id) =>
      GoneOnward(e, s, id, true);
    case CallerGone(id) =>
      GoneOnward(e, s, id, false);
    case StreamGone(id) =>
      AbandonOnward(e, s, id);
  }

  /** No step unsettles a future, writes behind a sentinel, or changes the fate of a request that has left. */
  lemma StepOnward(e: Settings, s: Sched, ev: Event)
    requires Standing(e) && Healthy(e, s)
    ensures Callable(e, s) && Onward(s, Step(e, s, ev))
  {
    hide Healthy;
    var fed := Witness(e, s);
    hide PlacesOk, ClientsOk, WorkOk, Sound, DoPublish, DoComplete, DoFail, DoStop, WellShaped, Prompted;
    if ev.Submit? || ev.Timeout? || ev.CallerGone? || ev.StreamGone? {
      hide Onward, Step;
      CallerOnward(e, s, ev);
    } else if Enabled(s, ev) {
      match ev
      case Publish =>
        PublishOnward(e, s);
      case Complete =>
        CompleteOnward(e, s);
      case EngineRaises =>
        FailOnward(e, s);
      case Shutdown =>
        StopOnward(e, s);
      case _ =>
        hide DoEngine, DoEvict, DoLaunch;
        LoopOnward(e, s, ev);
    } else {
      OnwardSelf(s);
    }
  }

  /** The steps that move sequences about but deliver nothing. */
  lemma LoopOnward(e: Settings, s: Sched, ev: Event)
    requires Callable(e, s) && (ev.Launch? || ev.EngineReturns? || ev.EvictReturns? || ev.Start?)
    ensures Onward(s, Step(e, s, ev))
  {
    hide Admit, Decode, Evict, WellShaped, Prompted;
  }

  /** Exactly-once delivery over whole runs: however a run continues, a settled future keeps its value, a
      stream keeps all it has received and gets nothing after its sentinel, and who has left never comes back. */
  lemma {:induction false} DeliveredOnce(e: Settings, s: Sched, events: seq<Event>)
    requires Standing(e) && Healthy(e, s)
    ensures Onward(s, RunFrom(e, s, events))
  {
    hide Onward, Healthy, Step;
    if events == [] {
      OnwardSelf(s);
    } else {
      var n := |events| - 1;
      var before := RunFrom(e, s, events[..n]);
      DeliveredOnce(e, s, events[..n]);
      StepOnward(e, before, events[n]);
      OnwardTwice(s, before, Step(e, before, events[n]));
    }
  }

  lemma OnwardSelf(s: Sched)
    ensures Onward(s, s)
  {
  }

  // ------------------------------------------------------------------
  // Positions
  // ------------------------------------------------------------------

  lemma NewcomerPlaced(e: Settings, s: Sched, fed: seq<seq<Token>>, i: nat)
    requires WorkOk(e, s, fed) && i < |Newcomers(s)| && Prompted(Newcomers(s))
    ensures PromptPlaced(PromptLanes(e.engine, Newcomers(s))[i].row, Newcomers(s)[i].prompt)
    ensures |Newcomers(s)[i].prompt| < e.engine.maxContext
  {
    hide BatchOk, PromptPlaced, PromptLanes;
    assert Entering(e, Newcomers(s)[i]);
    PromptTokens(e.engine, Newcomers(s), i);
  }

  lemma RowPlaced(e: Settings, s: Sched, fed: seq<seq<Token>>, i: nat)
    requires WorkOk(e, s, fed) && Quiet(s.phase) && i < |s.batch.seqs| && WellShaped(e.engine, s.batch)
    ensures var q := s.batch.seqs[i];
            && NextLanes(e.engine, s.batch)[i].row.positions == [|q.prompt| + |q.output| - 1]
            && |q.prompt| + |q.output| - 1 < e.engine.maxContext - 1
  {
    BatchSizes(e.engine, s.batch, fed);
    hide BatchOk, WellShaped, NextLanes, Open, Aligned;
    assert Steady(e, s.batch, fed, i);
    DecodePositions(e.engine, s.batch, fed, i);
  }

  lemma LaunchedPositions(e: Settings, s: Sched, fed: seq<seq<Token>>)
    requires WorkOk(e, s, fed) && s.phase.Launched? && Callable(e, s)
    ensures PositionsOk(e.engine, s.batch, Newcomers(s))
  {
    hide WorkOk, WellShaped, Prompted, PromptLanes, NextLanes, PromptPlaced;
    forall i | 0 <= i < |Newcomers(s)|
      ensures PromptPlaced(PromptLanes(e.engine, Newcomers(s))[i].row, Newcomers(s)[i].prompt)
      ensures |Newcomers(s)[i].prompt| < e.engine.maxContext
    {
      NewcomerPlaced(e, s, fed, i);
    }
    forall i | 0 <= i < |s.batch.seqs|
      ensures NextLanes(e.engine, s.batch)[i].row.positions == [|s.batch.seqs[i].prompt| + |s.batch.seqs[i].output| - 1]
      ensures |s.batch.seqs[i].prompt| + |s.batch.seqs[i].output| - 1 < e.engine.maxContext - 1
    {
      RowPlaced(e, s, fed, i);
    }
  }

  /** In every run, whenever an engine call is about to run, its positions are right and below the context window. */
  lemma PositionsBelowContext(e: Settings, events: seq<Event>)
    requires Standing(e)
    ensures var s := Run(e, events); s.phase.Launched? ==> PositionsOk(e.engine, s.batch, Newcomers(s))
  {
    hide PositionsOk, Run, Callable, Healthy, Sound, WorkOk, PlacesOk, ClientsOk;
    var s := Run(e, events);
    var fed := Witness(e, s);
    if s.phase.Launched? {
      LaunchedPositions(e, s, fed);
    }
  }
}
