/** The end of a sequence: once finished it is frozen, and it takes part in at most one further engine step. */
module Closing {
  import opened Masks
  import opened Transformer
  import opened Sampling
  import opened Batching
  import opened Invariant
  import opened Scheduling
  import opened Order
  import opened Service
  import opened Delivery
  import opened Runs

  /** Whoever has `q`'s id is `q`. */
  ghost predicate Only(seqs: seq<Sequence>, q: Sequence) {
    forall i :: 0 <= i < |seqs| && seqs[i].id == q.id ==> seqs[i] == q
  }

  /** `q` is finished and past the queue, and every trace of it in the scheduler is `q` exactly. */
  ghost predicate Closed(s: Sched, q: Sequence) {
    && q.Finished() && q.id < s.nextId && !Holds(s.queue, q.id)
    && Only(s.batch.seqs, q) && Only(Newcomers(s), q) && Only(Leaving(s), q)
    && (q.id in s.left && s.left[q.id].Completed? ==> s.left[q.id].final == q)
  }

  /** Is the sequence with this id part of the engine call that runs now? */
  predicate TakesPart(s: Sched, ev: Event, id: Id) {
    ev.EngineReturns? && Enabled(s, ev)
      && if Newcomers(s) != [] then Holds(Newcomers(s), id) else Holds(s.batch.seqs, id)
  }

  /** How many more engine steps a finished sequence may be part of: one until it is next evicted. */
  function Remaining(s: Sched, id: Id): nat {
    if (Holds(s.batch.seqs, id) || Holds(Newcomers(s), id)) && Quiet(s.phase) then 1 else 0
  }

  // ------------------------------------------------------------------
  // One step
  // ------------------------------------------------------------------

  lemma OnlyMarked(seqs: seq<Sequence>, q: Sequence, id: Id)
    requires Only(seqs, q) && q.Finished()
    ensures Only(MarkAll(seqs, id), q) && (Holds(MarkAll(seqs, id), q.id) ==> Holds(seqs, q.id))
  {
    forall i | 0 <= i < |seqs| && MarkAll(seqs, id)[i].id == q.id
      ensures MarkAll(seqs, id)[i] == q && Holds(seqs, q.id)
    {
      assert seqs[i].id == q.id;
    }
  }

  lemma WithoutHolds(seqs: seq<Sequence>, id: Id, other: Id)
    ensures Holds(Without(seqs, id), other) ==> Holds(seqs, other)
  {
    WithoutMembers(seqs, id);
    if Holds(Without(seqs, id), other) {
      var i :| 0 <= i < |Without(seqs, id)| && Without(seqs, id)[i].id == other;
      assert Without(seqs, id)[i] in seqs;
    }
  }

  lemma AbandonClosed(s: Sched, id: Id, q: Sequence)
    requires Closed(s, q)
    ensures Closed(Abandon(s, id), q) && Remaining(Abandon(s, id), q.id) <= Remaining(s, q.id)
  {
    OnlyMarked(s.batch.seqs, q, id);
    OnlyMarked(Newcomers(s), q, id);
    OnlyMarked(Leaving(s), q, id);
    WithoutHolds(s.queue, id, q.id);
    hide Only, Holds;
    var s' := Abandon(s, id);
    assert Newcomers(s') == Newcomers(s) || Newcomers(s') == MarkAll(Newcomers(s), id);
    assert Leaving(s') == Leaving(s) || Leaving(s') == MarkAll(Leaving(s), id);
  }

  lemma GoneClosed(s: Sched, id: Id, abandon: bool, q: Sequence)
    requires Closed(s, q)
    ensures Closed(DoGone(s, id, abandon), q) && Remaining(DoGone(s, id, abandon), q.id) <= Remaining(s, q.id)
  {
    if id in s.clients {
      var s1 := s.(clients := s.clients[id := Cancel(s.clients[id])]);
      assert Newcomers(s1) == Newcomers(s) && Leaving(s1) == Leaving(s);
      assert Closed(s1, q) && Remaining(s1, q.id) == Remaining(s, q.id);
      hide Closed, Remaining, Abandon;
      AbandonClosed(s1, id, q);
    }
  }

  lemma OnlySteps(before: seq<Sequence>, after: seq<Sequence>, q: Sequence)
    requires OneStepEach(after, before) && Only(before, q) && q.Finished()
    ensures Only(after, q)
  {
    forall i | 0 <= i < |after| && after[i].id == q.id
      ensures after[i] == q
    {
      assert OneStep(after[i], before[i]);
    }
  }

  lemma OnlyJoin(a: seq<Sequence>, b: seq<Sequence>, q: Sequence)
    requires Only(a, q) && Only(b, q)
    ensures Only(a + b, q)
  {
  }

  lemma AdvancedOnly(after: seq<Sequence>, rows: seq<Sequence>, ns: seq<Sequence>, q: Sequence)
    requires Advanced(after, rows, ns) && Only(rows, q) && Only(ns, q) && q.Finished()
    ensures Only(after, q)
  {
    hide OneStepEach, Only;
    if ns == [] {
      OnlySteps(rows, after, q);
    } else {
      OnlySteps(ns, after[|rows|..], q);
      OnlyJoin(after[..|rows|], after[|rows|..], q);
      assert after == after[..|rows|] + after[|rows|..];
    }
  }

  lemma EngineClosed(e: Settings, s: Sched, fed: seq<seq<Token>>, q: Sequence)
    requires Standing(e) && Sound(e, s, fed) && s.phase.Launched? && Closed(s, q)
    ensures Callable(e, s) && Closed(DoEngine(e, s), q) && Remaining(DoEngine(e, s), q.id) == 0
  {
    assert Only([], q) && !Holds([], q.id);
    hide Sound, WorkOk, PlacesOk, ClientsOk, Advanced, Admit, Decode, Only, Holds, WellShaped, Prompted;
    WorkOfSound(e, s, fed);
    var fed' := EngineWork(e, s, fed);
    var s' := DoEngine(e, s);
    AdvancedOnly(s'.batch.seqs, s.batch.seqs, Newcomers(s), q);
  }

  lemma SplitOnly(seqs: seq<Sequence>, q: Sequence)
    requires Only(seqs, q) && q.Finished()
    ensures !Holds(Select(seqs, RowsWhere(seqs, false)), q.id)
    ensures Only(Select(seqs, RowsWhere(seqs, false)), q) && Only(Select(seqs, RowsWhere(seqs, true)), q)
  {
    var keep, gone := RowsWhere(seqs, false), RowsWhere(seqs, true);
    hide RowsWhere;
    forall i | 0 <= i < |keep|
      ensures Select(seqs, keep)[i].id != q.id
    {
      assert Select(seqs, keep)[i] == seqs[keep[i]];
    }
    forall i | 0 <= i < |gone| && Select(seqs, gone)[i].id == q.id
      ensures Select(seqs, gone)[i] == q
    {
      assert Select(seqs, gone)[i] == seqs[gone[i]];
    }
  }

  /** Eviction removes every finished row. */
  lemma EvictClosed(e: Settings, s: Sched, fed: seq<seq<Token>>, q: Sequence)
    requires Sound(e, s, fed) && s.phase.Published? && Closed(s, q)
    ensures Callable(e, s) && Closed(DoEvict(e, s), q) && Remaining(DoEvict(e, s), q.id) == 0
  {
    assert Only([], q) && !Holds([], q.id);
    hide Sound, WorkOk, PlacesOk, ClientsOk, Evict, BatchOk, WellShaped, RowsWhere, Only, Holds, Prompted;
    WorkOfSound(e, s, fed);
    WorkIsCallable(e, s, fed);
    BatchOfWork(e, s, fed);
    EvictOk(e.engine, s.batch, fed);
    SplitOnly(s.batch.seqs, q);
  }

  lemma CompleteClosed(e: Settings, s: Sched, fed: seq<seq<Token>>, q: Sequence)
    requires Sound(e, s, fed) && s.phase.Evicted? && Closed(s, q)
    ensures Closed(DoComplete(e, s), q) && Remaining(DoComplete(e, s), q.id) <= Remaining(s, q.id)
  {
    assert Only([], q) && !Holds([], q.id);
    hide Sound, WorkOk, ClientsOk, Deliver;
    WorkOfSound(e, s, fed);
    var done, mid := Leaving(s), CompleteAll(e, s, Leaving(s));
    CompleteEach(e, s, done);
    hide PlacesOk, CompleteAll;
    CompletedFinal(e, s, done, mid, q);
    SameButDelivered(e, s, done, mid);
    hide DeliveredTo, Only, Holds;
  }

  lemma CompletedFinal(e: Settings, s: Sched, done: seq<Sequence>, mid: Sched, q: Sequence)
    requires DeliveredTo(e, s, done, mid) && Only(done, q)
    requires q.id in s.left && s.left[q.id].Completed? ==> s.left[q.id].final == q
    ensures q.id in mid.left && mid.left[q.id].Completed? ==> mid.left[q.id].final == q
    ensures mid.nextId == s.nextId
  {
    ElemsAre(done);
    if q.id in Elems(Ids(done)) {
      var i :| 0 <= i < |done| && done[i].id == q.id;
      assert DeliveredOne(e, s, done[i], mid);
    }
  }

  lemma SubmitClosed(e: Settings, s: Sched, ids: seq<Token>, params: Params, streaming: bool, q: Sequence)
    requires Closed(s, q)
    ensures var s' := DoSubmit(e, s, ids, params, streaming); Closed(s', q) && Remaining(s', q.id) == Remaining(s, q.id)
  {
    hide Encode, Clamp;
    var s' := DoSubmit(e, s, ids, params, streaming);
    assert Newcomers(s') == Newcomers(s) && Leaving(s') == Leaving(s);
  }

  lemma LaunchClosed(e: Settings, s: Sched, q: Sequence)
    requires Closed(s, q) && s.phase.Ready?
    ensures Closed(DoLaunch(e, s), q) && Remaining(DoLaunch(e, s), q.id) <= Remaining(s, q.id)
  {
    var n := Admissions(e, s);
    assert forall i :: 0 <= i < |s.queue| ==> s.queue[i].id != q.id;
    assert !Holds(s.queue[..n], q.id) && !Holds(s.queue[n..], q.id);
  }

  lemma QuietClosed(e: Settings, s: Sched, q: Sequence)
    requires Closed(s, q)
    ensures Closed(DoFail(s), q) && Remaining(DoFail(s), q.id) == 0
    ensures Closed(DoStop(s), q) && Remaining(DoStop(s), q.id) == 0
    ensures s.phase.Stepped? ==> Closed(DoPublish(e, s), q) && Remaining(DoPublish(e, s), q.id) == 0
    ensures s.phase.Halted? ==>
            Closed(s.(phase := Ready), q) && Remaining(s.(phase := Ready), q.id) == Remaining(s, q.id)
  {
    hide PublishAll, Observe;
  }

  lemma CallerClosed(e: Settings, s: Sched, ev: Event, q: Sequence)
    requires Callable(e, s) && Closed(s, q) && (ev.Submit? || ev.Timeout? || ev.CallerGone? || ev.StreamGone?)
    ensures Closed(Step(e, s, ev), q) && Remaining(Step(e, s, ev), q.id) <= Remaining(s, q.id)
  {
    hide Closed, Remaining, Callable, DoSubmit, DoGone, Abandon;
    match ev
    case Submit(ids, params, streaming) =>
      SubmitClosed(e, s, ids, params, streaming, q);
    case Timeout(id) =>
      GoneClosed(s, id, true, q);
    case CallerGone(id) =>
      GoneClosed(s, id, false, q);
    case StreamGone(id) =>
      AbandonClosed(s, id, q);
  }

  lemma TakingPart(s: Sched, ev: Event, id: Id)
    requires TakesPart(s, ev, id)
    ensures ev.EngineReturns? && Enabled(s, ev) && Remaining(s, id) == 1
  {
  }

  /** A finished sequence stays as it is, and each engine step that it is part of is its last. */
  lemma StepClosed(e: Settings, s: Sched, ev: Event, q: Sequence)
    requires Standing(e) && Healthy(e, s) && Closed(s, q)
    ensures Callable(e, s) && Closed(Step(e, s, ev), q)
    ensures Remaining(Step(e, s, ev), q.id) + (if TakesPart(s, ev, q.id) then 1 else 0) <= Remaining(s, q.id)
  {
    hide Healthy, Sound, WorkOk, PlacesOk, ClientsOk, Closed, Callable, TakesPart, Remaining;
    var fed := Witness(e, s);
    if TakesPart(s, ev, q.id) {
      TakingPart(s, ev, q.id);
    }
    if ev.Submit? || ev.Timeout? || ev.CallerGone? || ev.StreamGone? {
      hide Step;
      CallerClosed(e, s, ev, q);
    } else if Enabled(s, ev) {
      hide DoLaunch, DoPublish, DoFail, DoStop, DoEvict, DoEngine, DoComplete;
      match ev
      case Launch =>
        LaunchClosed(e, s, q);
      case EngineReturns =>
        EngineClosed(e, s, fed, q);
      case EvictReturns =>
        EvictClosed(e, s, fed, q);
      case Complete =>
        CompleteClosed(e, s, fed, q);
      case _ =>
        QuietClosed(e, s, q);
    }
  }

  // ------------------------------------------------------------------
  // Runs
  // ------------------------------------------------------------------

  /** In how many engine steps of a run the sequence with this id takes part. */
  ghost function StepsTaken(e: Settings, s: Sched, events: seq<Event>, id: Id): nat
    requires Standing(e) && Healthy(e, s)
  {
    if events == [] then 0
    else
      var front := events[..|events| - 1];
      StepsTaken(e, s, front, id) + if TakesPart(RunFrom(e, s, front), events[|events| - 1], id) then 1 else 0
  }

  lemma {:induction false} ClosedStays(e: Settings, s: Sched, events: seq<Event>, q: Sequence)
    requires Standing(e) && Healthy(e, s) && Closed(s, q)
    ensures Closed(RunFrom(e, s, events), q)
    ensures StepsTaken(e, s, events, q.id) + Remaining(RunFrom(e, s, events), q.id) <= Remaining(s, q.id)
  {
    hide Healthy, Step, Closed, TakesPart, Remaining;
    if events != [] {
      var front := events[..|events| - 1];
      ClosedStays(e, s, front, q);
      StepClosed(e, RunFrom(e, s, front), events[|events| - 1], q);
    }
  }

  /** A finished sequence that the scheduler holds is closed: its id occurs once. */
  lemma FinishedIsClosed(e: Settings, s: Sched, q: Sequence)
    requires Healthy(e, s) && Inside(s, q) && q.Finished()
    ensures Closed(s, q)
  {
    hide Healthy, Sound, Callable;
    var fed := Witness(e, s);
    hide BatchOk, ClientsOk, Sized, Entering, Departing, AllAdmissible, AllSteady;
    assert q !in s.queue by {
      assert q in s.queue ==> Waiting(e, q);
    }
    hide WorkOk, Waiting;
    ElemsAre(s.queue);
    ElemsAre(s.batch.seqs);
    ElemsAre(Newcomers(s));
    ElemsAre(Leaving(s));
    hide Elems;
    OnlyHere(s.batch.seqs, q);
    OnlyHere(Newcomers(s), q);
    OnlyHere(Leaving(s), q);
    HoldsElems(s.queue, q.id);
  }

  lemma OnlyHere(seqs: seq<Sequence>, q: Sequence)
    requires Rising(Ids(seqs)) && (q in seqs || q.id !in Elems(Ids(seqs)))
    ensures Only(seqs, q)
    ensures q in seqs ==> q.id in Elems(Ids(seqs))
  {
    ElemsAre(seqs);
    forall i | 0 <= i < |seqs| && seqs[i].id == q.id
      ensures seqs[i] == q
    {
      var j :| 0 <= j < |seqs| && seqs[j] == q;
      assert Ids(seqs)[i] == Ids(seqs)[j];
      assert !(i < j) && !(j < i);
    }
  }

  /** Once finished, by a rule or because its caller has gone, a sequence's output and reason never change
      again, it takes part in at most one further engine step, and what is delivered is what it was. */
  lemma FinishedIsFinal(e: Settings, s: Sched, events: seq<Event>, q: Sequence)
    requires Standing(e) && Healthy(e, s) && Inside(s, q) && q.Finished()
    ensures StepsTaken(e, s, events, q.id) <= 1
    ensures var s' := RunFrom(e, s, events);
            && (forall q' :: Inside(s', q') && q'.id == q.id ==> q' == q)
            && (q.id in s'.left && s'.left[q.id].Completed? ==> s'.left[q.id].final == q)
  {
    hide Healthy, RunFrom;
    FinishedIsClosed(e, s, q);
    ClosedStays(e, s, events, q);
    var s' := RunFrom(e, s, events);
    forall q' | Inside(s', q') && q'.id == q.id
      ensures q' == q
    {
      ClosedFinds(s', q, q');
    }
  }

  lemma ClosedFinds(s: Sched, q: Sequence, q': Sequence)
    requires Closed(s, q) && Inside(s, q') && q'.id == q.id
    ensures q' == q
  {
  }

  /** The sequences of an abandoned request: one still queued is gone at once, one in flight is finished. */
  lemma AbandonedIsFinished(s: Sched, id: Id, q: Sequence)
    requires Inside(Abandon(s, id), q) && q.id == id && id in s.running
    requires q !in Abandon(s, id).queue
    ensures q.Finished()
  {
    var s' := Abandon(s, id);
    if q in s'.batch.seqs {
      var i :| 0 <= i < |s'.batch.seqs| && s'.batch.seqs[i] == q;
    } else if q in Newcomers(s') {
      var i :| 0 <= i < |Newcomers(s')| && Newcomers(s')[i] == q;
    } else {
      var i :| 0 <= i < |Leaving(s')| && Leaving(s')[i] == q;
    }
  }
}
