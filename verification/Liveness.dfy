/** Work: the remaining budgets of everybody up to a request, which no step adds to
    and which completed ticks use up, unless they only admit requests that came later. */
module Liveness {
  import opened Masks
  import opened Transformer
  import opened Sampling
  import opened Batching
  import opened Invariant
  import opened Generation
  import opened Scheduling
  import opened Order
  import opened Service
  import opened Delivery
  import opened Runs

  // ------------------------------------------------------------------
  // The measure
  // ------------------------------------------------------------------

  /** The tokens a sequence may still generate, and one for taking it out. */
  function Weight(c: Config, q: Sequence): (w: nat)
    ensures 1 <= w
  {
    1 + Max(0, Budget(c, q) - |q.output|)
  }

  /** The weights of the sequences submitted before `k`. */
  function Total(c: Config, seqs: seq<Sequence>, k: Id): nat {
    if seqs == [] then 0
    else
      var q := seqs[|seqs| - 1];
      Total(c, seqs[..|seqs| - 1], k) + if q.id < k then Weight(c, q) else 0
  }

  /** Somebody who came before `k` is finished. */
  ghost predicate SomeDone(seqs: seq<Sequence>, k: Id) {
    exists i :: 0 <= i < |seqs| && seqs[i].id < k && seqs[i].Finished()
  }

  /** A tick in progress in which nobody before `k` is finished
      has done its share, and owes one unit until it completes. */
  ghost function Credit(s: Sched, k: Id): nat {
    match s.phase
    case Stepped(_) => if SomeDone(s.batch.seqs, k) then 0 else 1
    case Published => if SomeDone(s.batch.seqs, k) then 0 else 1
    case Evicted(done) => if SomeDone(done, k) then 0 else 1
    case _ => 0
  }

  /** The work ahead of a request submitted as `k`: remaining budgets of everybody who came before it. */
  ghost function Work(e: Settings, s: Sched, k: Id): nat {
    Total(e.engine, s.queue, k) + Total(e.engine, Newcomers(s), k) + Total(e.engine, s.batch.seqs, k)
    + Total(e.engine, Leaving(s), k) + Credit(s, k)
  }

  /** Everybody running came before `k`. */
  ghost predicate Ahead(s: Sched, k: Id) {
    && (forall i :: 0 <= i < |s.batch.seqs| ==> s.batch.seqs[i].id < k)
    && (forall i :: 0 <= i < |Newcomers(s)| ==> Newcomers(s)[i].id < k)
    && (forall i :: 0 <= i < |Leaving(s)| ==> Leaving(s)[i].id < k)
  }

  /** Whose turn an engine call is: the newcomers', or every row's. */
  function Taking(s: Sched): seq<Sequence> {
    if Newcomers(s) != [] then Newcomers(s) else s.batch.seqs
  }

  /** An engine call in which nobody takes part who came before `k`. */
  ghost predicate LaterOnly(s: Sched, ev: Event, k: Id) {
    ev.EngineReturns? && Enabled(s, ev) && forall i :: 0 <= i < |Taking(s)| ==> k <= Taking(s)[i].id
  }

  // ------------------------------------------------------------------
  // Sums
  // ------------------------------------------------------------------

  lemma {:induction false} TotalConcat(c: Config, a: seq<Sequence>, b: seq<Sequence>, k: Id)
    ensures Total(c, a + b, k) == Total(c, a, k) + Total(c, b, k)
  {
    if b == [] {
      assert a + b == a;
    } else {
      var n := |b| - 1;
      assert (a + b)[..|a| + n] == a + b[..n];
      TotalConcat(c, a, b[..n], k);
    }
  }

  lemma {:induction false} TotalSome(c: Config, seqs: seq<Sequence>, k: Id, i: nat)
    requires i < |seqs| && seqs[i].id < k
    ensures 1 <= Total(c, seqs, k)
  {
    if i < |seqs| - 1 {
      TotalSome(c, seqs[..|seqs| - 1], k, i);
    }
  }

  /** No id changed and no sequence heavier: no more in all. */
  lemma {:induction false} TotalPointwise(c: Config, a: seq<Sequence>, b: seq<Sequence>, k: Id)
    requires |a| == |b|
    requires forall i :: 0 <= i < |a| ==> b[i].id == a[i].id && Weight(c, b[i]) <= Weight(c, a[i])
    ensures Total(c, b, k) <= Total(c, a, k)
  {
    if a != [] {
      TotalPointwise(c, a[..|a| - 1], b[..|a| - 1], k);
    }
  }

  /** And less if somebody before `k` is lighter. */
  lemma {:induction false} TotalDrops(c: Config, a: seq<Sequence>, b: seq<Sequence>, k: Id, i: nat)
    requires |a| == |b| && i < |a| && a[i].id < k && Weight(c, b[i]) < Weight(c, a[i])
    requires forall i :: 0 <= i < |a| ==> b[i].id == a[i].id && Weight(c, b[i]) <= Weight(c, a[i])
    ensures Total(c, b, k) < Total(c, a, k)
  {
    hide Weight;
    var n := |a| - 1;
    if i < n {
      TotalDrops(c, a[..n], b[..n], k, i);
    } else {
      TotalPointwise(c, a[..n], b[..n], k);
    }
  }

  function Share(c: Config, q: Sequence, k: Id): nat {
    if q.id < k then Weight(c, q) else 0
  }

  lemma TotalSnoc(c: Config, a: seq<Sequence>, q: Sequence, k: Id)
    ensures Total(c, a + [q], k) == Total(c, a, k) + Share(c, q, k)
    ensures a + [] == a
  {
    assert (a + [q])[..|a|] == a;
  }

  lemma {:induction false} TotalSplit(c: Config, seqs: seq<Sequence>, k: Id)
    ensures Total(c, Select(seqs, RowsWhere(seqs, false)), k) + Total(c, Select(seqs, RowsWhere(seqs, true)), k)
            == Total(c, seqs, k)
  {
    hide Select, RowsWhere, Share, Total;
    if seqs == [] {
      TotalNone(c, k);
    } else {
      var front, last := seqs[..|seqs| - 1], seqs[|seqs| - 1];
      TotalSplit(c, front, k);
      SelectLast(seqs, false);
      SelectLast(seqs, true);
      assert seqs == front + [last];
      TotalSnoc(c, front, last, k);
      TotalSnoc(c, Select(front, RowsWhere(front, false)), last, k);
      TotalSnoc(c, Select(front, RowsWhere(front, true)), last, k);
    }
  }

  lemma TotalNone(c: Config, k: Id)
    ensures Total(c, [], k) == 0
    ensures Total(c, Select([], RowsWhere([], false)), k) + Total(c, Select([], RowsWhere([], true)), k) ==
            Total(c, [], k)
  {
  }

  lemma SelectLast(seqs: seq<Sequence>, finished: bool)
    requires seqs != []
    ensures var n := |seqs| - 1;
            Select(seqs, RowsWhere(seqs, finished)) ==
            Select(seqs[..n], RowsWhere(seqs[..n], finished)) + if seqs[n].Finished() == finished then [seqs[n]] else []
  {
  }

  lemma {:induction false} TotalWithout(c: Config, seqs: seq<Sequence>, id: Id, k: Id)
    ensures Total(c, Without(seqs, id), k) <= Total(c, seqs, k)
  {
    if seqs != [] {
      assert seqs == [seqs[0]] + seqs[1..];
      TotalConcat(c, [seqs[0]], seqs[1..], k);
      if seqs[0].id != id {
        TotalWithout(c, seqs[1..], id, k);
        TotalConcat(c, [seqs[0]], Without(seqs[1..], id), k);
      }
    }
  }

  lemma TotalMarked(c: Config, seqs: seq<Sequence>, id: Id, k: Id)
    ensures Total(c, MarkAll(seqs, id), k) <= Total(c, seqs, k)
  {
    TotalPointwise(c, seqs, MarkAll(seqs, id), k);
  }

  // ------------------------------------------------------------------
  // One step
  // ------------------------------------------------------------------

  lemma SubmitLoad(e: Settings, s: Sched, ids: seq<Token>, params: Params, streaming: bool, k: Id)
    requires k <= s.nextId
    ensures Work(e, DoSubmit(e, s, ids, params, streaming), k) == Work(e, s, k)
  {
    hide Encode, Clamp, Total, Weight, SomeDone;
    var s' := DoSubmit(e, s, ids, params, streaming);
    if |s.queue| < e.maxQueue {
      TotalSnoc(e.engine, s.queue, s'.queue[|s.queue|], k);
    }
    assert Newcomers(s') == Newcomers(s) && Leaving(s') == Leaving(s);
  }

  lemma AbandonLoad(e: Settings, s: Sched, id: Id, k: Id)
    ensures Work(e, Abandon(s, id), k) <= Work(e, s, k)
  {
    var c, s' := e.engine, Abandon(s, id);
    TotalWithout(c, s.queue, id, k);
    TotalMarked(c, s.batch.seqs, id, k);
    TotalMarked(c, Newcomers(s), id, k);
    TotalMarked(c, Leaving(s), id, k);
    MarkedDone(s.batch.seqs, id, k);
    MarkedDone(Leaving(s), id, k);
    hide Total, SomeDone;
    assert Newcomers(s') == Newcomers(s) || Newcomers(s') == MarkAll(Newcomers(s), id);
    assert Leaving(s') == Leaving(s) || Leaving(s') == MarkAll(Leaving(s), id);
  }

  /** Marking only adds finished sequences. */
  lemma MarkedDone(seqs: seq<Sequence>, id: Id, k: Id)
    ensures SomeDone(seqs, k) ==> SomeDone(MarkAll(seqs, id), k)
  {
    if SomeDone(seqs, k) {
      var i :| 0 <= i < |seqs| && seqs[i].id < k && seqs[i].Finished();
      assert MarkAll(seqs, id)[i] == seqs[i];
    }
  }

  lemma LaunchLoad(e: Settings, s: Sched, k: Id)
    requires s.phase.Ready?
    ensures Work(e, DoLaunch(e, s), k) == Work(e, s, k)
  {
    var n := Admissions(e, s);
    assert s.queue == s.queue[..n] + s.queue[n..];
    TotalConcat(e.engine, s.queue[..n], s.queue[n..], k);
  }

  /** A sequence about to step, if unfinished, has budget left. */
  ghost predicate Hungry(c: Config, q: Sequence) {
    |q.output| < Budget(c, q)
  }

  ghost predicate AllHungry(c: Config, seqs: seq<Sequence>) {
    forall i :: 0 <= i < |seqs| ==> Hungry(c, seqs[i])
  }

  /** One step of every sequence: no more weight, and less if somebody
      before `k` takes part and nobody before `k` is finished afterwards. */
  lemma StepEachLoad(c: Config, before: seq<Sequence>, after: seq<Sequence>, k: Id)
    requires OneStepEach(after, before) && AllHungry(c, before)
    ensures Total(c, after, k) <= Total(c, before, k)
    ensures (exists i :: 0 <= i < |before| && before[i].id < k) && !SomeDone(after, k) ==>
              Total(c, after, k) < Total(c, before, k)
  {
    forall i | 0 <= i < |before|
      ensures |after| == |before| && after[i].id == before[i].id && Weight(c, after[i]) <= Weight(c, before[i])
      ensures !after[i].Finished() ==> Weight(c, after[i]) < Weight(c, before[i])
    {
      assert OneStep(after[i], before[i]) && Hungry(c, before[i]);
    }
    hide Hungry, Weight, OneStep;
    TotalPointwise(c, before, after, k);
    if exists i :: 0 <= i < |before| && before[i].id < k && !after[i].Finished() {
      var i :| 0 <= i < |before| && before[i].id < k && !after[i].Finished();
      TotalDrops(c, before, after, k, i);
    }
  }

  lemma SteadyHungry(e: Settings, s: Sched, fed: seq<seq<Token>>)
    requires WorkOk(e, s, fed) && Quiet(s.phase)
    ensures AllHungry(e.engine, s.batch.seqs) && AllHungry(e.engine, Newcomers(s))
  {
    BatchSizes(e.engine, s.batch, fed);
    hide BatchOk;
    forall i | 0 <= i < |s.batch.seqs|
      ensures Hungry(e.engine, s.batch.seqs[i])
    {
      assert Steady(e, s.batch, fed, i);
    }
    forall i | 0 <= i < |Newcomers(s)|
      ensures Hungry(e.engine, Newcomers(s)[i])
    {
      assert Entering(e, Newcomers(s)[i]);
    }
  }

  lemma AdvancedTail(after: seq<Sequence>, rows: seq<Sequence>, ns: seq<Sequence>) returns (tail: seq<Sequence>)
    requires Advanced(after, rows, ns) && ns != []
    ensures after == rows + tail && OneStepEach(tail, ns)
  {
    tail := after[|rows|..];
    hide OneStepEach;
    assert after == after[..|rows|] + tail;
  }

  /** Somebody finished in a part is finished in the whole. */
  lemma SomeDonePart(rows: seq<Sequence>, tail: seq<Sequence>, k: Id)
    ensures SomeDone(tail, k) ==> SomeDone(rows + tail, k)
  {
    if SomeDone(tail, k) {
      var i :| 0 <= i < |tail| && tail[i].id < k && tail[i].Finished();
      assert (rows + tail)[|rows| + i] == tail[i];
    }
  }

  /** An engine call: no more weight, and less if somebody before
      `k` takes part and nobody before `k` is finished afterwards. */
  lemma AdvancedLoad(c: Config, after: seq<Sequence>, rows: seq<Sequence>, ns: seq<Sequence>, k: Id)
    requires Advanced(after, rows, ns) && AllHungry(c, rows) && AllHungry(c, ns)
    ensures Total(c, after, k) <= Total(c, rows, k) + Total(c, ns, k)
    ensures var taking := if ns != [] then ns else rows;
            (exists i :: 0 <= i < |taking| && taking[i].id < k) && !SomeDone(after, k) ==>
              Total(c, after, k) < Total(c, rows, k) + Total(c, ns, k)
  {
    hide OneStepEach, AllHungry, Total, SomeDone;
    TotalNone(c, k);
    if ns == [] {
      StepEachLoad(c, rows, after, k);
    } else {
      var tail := AdvancedTail(after, rows, ns);
      hide Advanced;
      StepEachLoad(c, ns, tail, k);
      SomeDonePart(rows, tail, k);
      TotalConcat(c, rows, tail, k);
    }
  }

  lemma EngineLoad(e: Settings, s: Sched, s': Sched, k: Id)
    requires s.phase.Launched? && s'.phase.Stepped? && s' == s.(batch := s'.batch, phase := s'.phase)
    requires Advanced(s'.batch.seqs, s.batch.seqs, Newcomers(s))
    requires AllHungry(e.engine, s.batch.seqs) && AllHungry(e.engine, Newcomers(s))
    ensures Work(e, s', k) <= Work(e, s, k) + if LaterOnly(s, EngineReturns, k) then 1 else 0
  {
    hide Advanced, AllHungry, SomeDone, Weight, Total;
    AdvancedLoad(e.engine, s'.batch.seqs, s.batch.seqs, Newcomers(s), k);
    TotalNone(e.engine, k);
    if !LaterOnly(s, EngineReturns, k) {
      var i :| 0 <= i < |Taking(s)| && Taking(s)[i].id < k;
    }
  }

  /** Eviction takes out exactly the finished rows. */
  lemma DoneRows(seqs: seq<Sequence>, k: Id)
    ensures SomeDone(seqs, k) <==> SomeDone(Select(seqs, RowsWhere(seqs, true)), k)
  {
    var gone := RowsWhere(seqs, true);
    if SomeDone(seqs, k) {
      var i :| 0 <= i < |seqs| && seqs[i].id < k && seqs[i].Finished();
      RowsWhereComplete(seqs, true, i);
      var j :| 0 <= j < |gone| && gone[j] == i;
      assert Select(seqs, gone)[j] == seqs[i];
    }
    if SomeDone(Select(seqs, gone), k) {
      var j :| 0 <= j < |gone| && Select(seqs, gone)[j].id < k && Select(seqs, gone)[j].Finished();
      assert Select(seqs, gone)[j] == seqs[gone[j]];
    }
  }

  lemma EvictLoad(e: Settings, s: Sched, s': Sched, k: Id)
    requires s.phase.Published? && s'.phase == Evicted(Done(s.batch)) && s' == s.(batch := s'.batch, phase := s'.phase)
    requires s'.batch.seqs == Select(s.batch.seqs, RowsWhere(s.batch.seqs, false))
    ensures Work(e, s', k) == Work(e, s, k)
  {
    hide RowsWhere, Weight, SomeDone, Select;
    TotalSplit(e.engine, s.batch.seqs, k);
    DoneRows(s.batch.seqs, k);
  }

  /** Completing a tick uses up one unit of work: somebody before `k` leaves, or the credit is paid back. */
  lemma CompleteLoad(e: Settings, s: Sched, k: Id)
    requires PlacesOk(e, PlacesOf(s)) && s.phase.Evicted?
    ensures Work(e, DoComplete(e, s), k) < Work(e, s, k)
  {
    hide PlacesOk, CompleteAll, DeliveredTo, Weight;
    var done, mid := Leaving(s), CompleteAll(e, s, Leaving(s));
    CompleteHere(e, s);
    SameButDelivered(e, s, done, mid);
    if SomeDone(done, k) {
      var i :| 0 <= i < |done| && done[i].id < k && done[i].Finished();
      TotalSome(e.engine, done, k, i);
    }
  }

  lemma CompleteHere(e: Settings, s: Sched)
    requires PlacesOk(e, PlacesOf(s)) && s.phase.Evicted?
    ensures DeliveredTo(e, s, Leaving(s), CompleteAll(e, s, Leaving(s)))
  {
    CompleteEach(e, s, Leaving(s));
  }

  /** The last step of a tick. */
  predicate Ticks(s: Sched, ev: Event) {
    ev.Complete? && Enabled(s, ev)
  }

  lemma CallerLoad(e: Settings, s: Sched, ev: Event, k: Id)
    requires Callable(e, s) && k <= s.nextId && (ev.Submit? || ev.Timeout? || ev.CallerGone? || ev.StreamGone?)
    ensures Work(e, Step(e, s, ev), k) <= Work(e, s, k)
  {
    hide Work, DoSubmit, DoGone, Abandon, Callable;
    match ev
    case Submit(ids, params, streaming) =>
      SubmitLoad(e, s, ids, params, streaming, k);
    case Timeout(id) =>
      GoneLoad(e, s, id, true, k);
    case CallerGone(id) =>
      GoneLoad(e, s, id, false, k);
    case StreamGone(id) =>
      AbandonLoad(e, s, id, k);
  }

  /** No step adds to the work up to `k`, and each completed tick
      does some of it, unless nobody before `k` takes part. */
  lemma StepLoad(e: Settings, s: Sched, ev: Event, k: Id)
    requires Standing(e) && Healthy(e, s) && k <= s.nextId
    ensures Callable(e, s)
    ensures Work(e, Step(e, s, ev), k) + (if Ticks(s, ev) then 1 else 0) <=
            Work(e, s, k) + if LaterOnly(s, ev, k) then 1 else 0
  {
    hide Healthy, Sound, WorkOk, PlacesOk, ClientsOk, Callable, Work, LaterOnly;
    var fed := Witness(e, s);
    if ev.Submit? || ev.Timeout? || ev.CallerGone? || ev.StreamGone? {
      hide Step;
      CallerLoad(e, s, ev, k);
    } else if Enabled(s, ev) {
      hide DoLaunch, DoPublish, DoFail, DoStop, DoEvict, DoEngine, DoComplete;
      match ev
      case Launch =>
        LaunchLoad(e, s, k);
      case EngineReturns =>
        EngineStepLoad(e, s, fed, k);
      case EvictReturns =>
        EvictStepLoad(e, s, fed, k);
      case Complete =>
        CompleteLoad(e, s, k);
      case _ =>
        QuietLoad(e, s, k);
    }
  }

  /** While everybody running came before `k`, every engine call is for somebody who did. */
  lemma NobodyLater(e: Settings, s: Sched, ev: Event, k: Id)
    requires Healthy(e, s) && Ahead(s, k)
    ensures !LaterOnly(s, ev, k)
  {
    hide Healthy, Sound, WorkOk, PlacesOk, ClientsOk, Callable;
    var fed := Witness(e, s);
    if ev.EngineReturns? && s.phase.Launched? {
      assert Taking(s)[0].id < k;
    }
  }

  lemma GoneLoad(e: Settings, s: Sched, id: Id, abandon: bool, k: Id)
    ensures Work(e, DoGone(s, id, abandon), k) <= Work(e, s, k)
  {
    if id in s.clients {
      var s1 := s.(clients := s.clients[id := Cancel(s.clients[id])]);
      AbandonLoad(e, s1, id, k);
      hide Total, Abandon;
      assert Newcomers(s1) == Newcomers(s) && Leaving(s1) == Leaving(s);
    }
  }

  lemma QuietLoad(e: Settings, s: Sched, k: Id)
    ensures s.phase.Stepped? ==> Work(e, DoPublish(e, s), k) == Work(e, s, k)
    ensures s.phase.Halted? ==> Work(e, s.(phase := Ready), k) == Work(e, s, k)
    ensures Work(e, DoFail(s), k) <= Work(e, s, k) && Work(e, DoStop(s), k) <= Work(e, s, k)
  {
    assert Total(e.engine, [], k) == 0;
    hide Total, PublishAll, Observe, SomeDone;
  }

  lemma EngineStepLoad(e: Settings, s: Sched, fed: seq<seq<Token>>, k: Id)
    requires Standing(e) && Sound(e, s, fed) && s.phase.Launched?
    ensures Callable(e, s)
    ensures Work(e, DoEngine(e, s), k) <= Work(e, s, k) + if LaterOnly(s, EngineReturns, k) then 1 else 0
  {
    hide Sound, WorkOk, PlacesOk, ClientsOk, Advanced, Work, Admit, Decode, AllHungry, LaterOnly;
    WorkOfSound(e, s, fed);
    var fed' := EngineWork(e, s, fed);
    SteadyHungry(e, s, fed);
    EngineLoad(e, s, DoEngine(e, s), k);
  }

  lemma EvictStepLoad(e: Settings, s: Sched, fed: seq<seq<Token>>, k: Id)
    requires Sound(e, s, fed) && s.phase.Published?
    ensures Callable(e, s) && Work(e, DoEvict(e, s), k) <= Work(e, s, k)
  {
    hide Sound, WorkOk, PlacesOk, ClientsOk, Work, Evict, BatchOk, WellShaped, Done, RowsWhere, Prompted;
    WorkOfSound(e, s, fed);
    WorkIsCallable(e, s, fed);
    BatchOfWork(e, s, fed);
    EvictOk(e.engine, s.batch, fed);
    EvictLoad(e, s, DoEvict(e, s), k);
  }
}
