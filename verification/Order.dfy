/** First come, first served: the order of requests through the scheduler, and where each request is. */
module Order {
  import opened Masks
  import opened Transformer
  import opened Sampling
  import opened Batching
  import opened Invariant
  import opened Scheduling

  function Ids(seqs: seq<Sequence>): (ids: seq<Id>)
    ensures |ids| == |seqs|
  {
    seq(|seqs|, i requires 0 <= i < |seqs| => seqs[i].id)
  }

  ghost predicate Rising(ids: seq<Id>) {
    forall i, j :: 0 <= i < j < |ids| ==> ids[i] < ids[j]
  }

  function Elems(ids: seq<Id>): set<Id> {
    set i | 0 <= i < |ids| :: ids[i]
  }

  ghost predicate Before(a: set<Id>, b: set<Id>) {
    forall x, y :: x in a && y in b ==> x < y
  }

  ghost predicate Under(a: set<Id>, bound: Id) {
    forall x :: x in a ==> x < bound
  }

  /** Where requests are, by id. */
  datatype Places = Places(
    batch: seq<Id>, newcomers: seq<Id>, leaving: seq<Id>, queue: seq<Id>,
    running: set<Id>, clients: set<Id>, left: set<Id>, nextId: Id)

  function PlacesOf(s: Sched): Places {
    Places(Ids(s.batch.seqs), Ids(Newcomers(s)), Ids(Leaving(s)), Ids(s.queue),
           s.running, s.clients.Keys, s.left.Keys, s.nextId)
  }

  /** Ids rise through the batch, then the newcomers, then the queue; those on their way out were ahead of the queue. */
  ghost predicate Ordered(p: Places) {
    var (b, n, l, q) := (Elems(p.batch), Elems(p.newcomers), Elems(p.leaving), Elems(p.queue));
    && Rising(p.batch) && Rising(p.newcomers) && Rising(p.leaving) && Rising(p.queue)
    && Before(b, n) && Before(b, q) && Before(n, q) && Before(l, q) && l !! b && l !! n
    && Under(b + n + l + q, p.nextId)
  }

  /** Conservation: every accepted request is in exactly one of queue, running and left, and `running` holds exactly the
      requests whose sequences are in the batch, about to enter it, or on their way out. */
  ghost predicate Accounted(p: Places) {
    && p.running == Elems(p.batch) + Elems(p.newcomers) + Elems(p.leaving)
    && p.clients == Elems(p.queue) + p.running + p.left
    && Elems(p.queue) !! p.running
    && p.left !! (Elems(p.queue) + p.running)
    && Under(p.clients, p.nextId)
  }

  ghost predicate Sized(e: Settings, p: Places) {
    |p.batch| + |p.newcomers| + |p.leaving| <= e.maxBatch && |p.queue| <= e.maxQueue
  }

  ghost predicate PlacesOk(e: Settings, p: Places) {
    Ordered(p) && Accounted(p) && Sized(e, p)
  }

  /** FIFO: the ids of the rows in the batch, then of those being
      admitted, then of the queue, are strictly increasing. */
  lemma NobodyOvertakes(e: Settings, p: Places)
    requires PlacesOk(e, p)
    ensures Rising(p.batch + p.newcomers + p.queue)
  {
    var line := p.batch + p.newcomers + p.queue;
    forall i, j | 0 <= i < j < |line|
      ensures line[i] < line[j]
    {
      assert forall k :: 0 <= k < |p.batch| ==> p.batch[k] in Elems(p.batch);
      assert forall k :: 0 <= k < |p.newcomers| ==> p.newcomers[k] in Elems(p.newcomers);
      assert forall k :: 0 <= k < |p.queue| ==> p.queue[k] in Elems(p.queue);
    }
  }

  // ------------------------------------------------------------------
  // Lists of ids
  // ------------------------------------------------------------------

  lemma ElemsAre(seqs: seq<Sequence>)
    ensures IdSet(seqs) == Elems(Ids(seqs))
    ensures forall i :: 0 <= i < |seqs| ==> seqs[i].id in Elems(Ids(seqs))
    ensures forall x :: x in Elems(Ids(seqs)) ==> Holds(seqs, x)
  {
    forall i | 0 <= i < |seqs|
      ensures seqs[i].id in Elems(Ids(seqs))
    {
      assert Ids(seqs)[i] == seqs[i].id;
    }
    forall x | x in Elems(Ids(seqs))
      ensures Holds(seqs, x) && x in IdSet(seqs)
    {
      var i :| 0 <= i < |Ids(seqs)| && Ids(seqs)[i] == x;
      assert seqs[i].id == x;
    }
  }

  lemma ElemsConcat(a: seq<Id>, b: seq<Id>)
    ensures Elems(a + b) == Elems(a) + Elems(b)
  {
    forall x
      ensures x in Elems(a + b) <==> x in Elems(a) + Elems(b)
    {
      if x in Elems(a) {
        var i :| 0 <= i < |a| && a[i] == x;
        assert (a + b)[i] == x;
      }
      if x in Elems(b) {
        var i :| 0 <= i < |b| && b[i] == x;
        assert (a + b)[|a| + i] == x;
      }
    }
  }

  lemma ElemsFew(x: Id)
    ensures Elems([]) == {} && Elems([x]) == {x}
  {
    assert [x][0] in Elems([x]);
  }

  lemma RisingJoin(a: seq<Id>, b: seq<Id>)
    requires Rising(a) && Rising(b) && Before(Elems(a), Elems(b))
    ensures Rising(a + b) && Elems(a + b) == Elems(a) + Elems(b)
  {
    ElemsConcat(a, b);
    forall i, j | 0 <= i < |a| && 0 <= j < |b|
      ensures a[i] < b[j]
    {
      assert a[i] in Elems(a) && b[j] in Elems(b);
    }
  }

  lemma RisingSplit(a: seq<Id>, b: seq<Id>)
    requires Rising(a + b)
    ensures Rising(a) && Rising(b) && Before(Elems(a), Elems(b))
    ensures Elems(a + b) == Elems(a) + Elems(b) && Elems(a) !! Elems(b)
  {
    ElemsConcat(a, b);
    var ab := a + b;
    assert forall i :: 0 <= i < |a| ==> a[i] == ab[i];
    assert forall j :: 0 <= j < |b| ==> b[j] == ab[|a| + j];
  }

  /** Without one element the rest keeps its order. */
  lemma {:induction false} WithoutIds(seqs: seq<Sequence>, id: Id)
    requires Holds(seqs, id) && Rising(Ids(seqs))
    ensures Rising(Ids(Without(seqs, id)))
    ensures Elems(Ids(Without(seqs, id))) == Elems(Ids(seqs)) - {id}
    ensures |Without(seqs, id)| + 1 == |seqs|
  {
    var head, tail := [seqs[0].id], Ids(seqs[1..]);
    assert Ids(seqs) == head + tail;
    RisingSplit(head, tail);
    ElemsFew(seqs[0].id);
    if seqs[0].id != id {
      var k :| 0 <= k < |seqs| && seqs[k].id == id;
      assert seqs[1..][k - 1].id == id;
      WithoutIds(seqs[1..], id);
      var rest := Ids(Without(seqs[1..], id));
      assert Ids(Without(seqs, id)) == head + rest;
      RisingJoin(head, rest);
    }
  }

  lemma RisingSelect(ids: seq<Id>, rows: seq<nat>)
    requires Rising(ids) && Ascending(rows, |ids|)
    ensures Rising(Select(ids, rows)) && Elems(Select(ids, rows)) <= Elems(ids)
  {
    forall i | 0 <= i < |rows|
      ensures Select(ids, rows)[i] in Elems(ids)
    {
      assert Select(ids, rows)[i] == ids[rows[i]];
    }
  }

  /** `keep` and `gone` together list every row below `n` exactly once. */
  ghost predicate Splits(keep: seq<nat>, gone: seq<nat>, n: nat) {
    && Ascending(keep, n) && Ascending(gone, n) && |keep| + |gone| == n
    && forall i :: 0 <= i < n ==> (i in keep <==> i !in gone)
  }

  /** A rising list split into two parts: disjoint, and nothing lost. */
  lemma SplitElems(ids: seq<Id>, keep: seq<nat>, gone: seq<nat>)
    requires Rising(ids) && Splits(keep, gone, |ids|)
    ensures Elems(Select(ids, keep)) !! Elems(Select(ids, gone))
    ensures Elems(Select(ids, keep)) + Elems(Select(ids, gone)) == Elems(ids)
  {
    var a, b := Select(ids, keep), Select(ids, gone);
    forall i | 0 <= i < |ids|
      ensures ids[i] in Elems(a) + Elems(b)
    {
      if i in keep {
        var k :| 0 <= k < |keep| && keep[k] == i;
        assert a[k] in Elems(a);
      } else {
        var k :| 0 <= k < |gone| && gone[k] == i;
        assert b[k] in Elems(b);
      }
    }
    RisingSelect(ids, keep);
    RisingSelect(ids, gone);
    forall i, j | 0 <= i < |keep| && 0 <= j < |gone|
      ensures a[i] != b[j]
    {
      assert keep[i] in keep && gone[j] in gone;
      assert keep[i] < gone[j] || gone[j] < keep[i];
    }
  }

  lemma {:induction false} RowsSplit(seqs: seq<Sequence>)
    ensures Splits(RowsWhere(seqs, false), RowsWhere(seqs, true), |seqs|)
  {
    if seqs != [] {
      RowsSplit(seqs[..|seqs| - 1]);
      forall i | 0 <= i < |seqs|
        ensures i in RowsWhere(seqs, false) <==> i !in RowsWhere(seqs, true)
      {
        RowsWhereComplete(seqs, seqs[i].Finished(), i);
      }
    }
  }

  // ------------------------------------------------------------------
  // Each step keeps order, membership and sizes
  // ------------------------------------------------------------------

  /** The newest request joins the queue, behind everybody. */
  lemma JoinPlaces(e: Settings, p: Places)
    requires PlacesOk(e, p) && |p.queue| < e.maxQueue
    ensures PlacesOk(e, p.(queue := p.queue + [p.nextId], clients := p.clients + {p.nextId}, nextId := p.nextId + 1))
  {
    ElemsFew(p.nextId);
    RisingJoin(p.queue, [p.nextId]);
    hide Elems, Rising;
  }

  lemma SubmitPlaces(e: Settings, s: Sched, ids: seq<Token>, params: Params, streaming: bool)
    requires PlacesOk(e, PlacesOf(s))
    ensures PlacesOk(e, PlacesOf(DoSubmit(e, s, ids, params, streaming)))
  {
    hide Encode, Clamp;
    var p, p' := PlacesOf(s), PlacesOf(DoSubmit(e, s, ids, params, streaming));
    if |s.queue| < e.maxQueue {
      assert p' == p.(queue := p.queue + [p.nextId], clients := p.clients + {p.nextId}, nextId := p.nextId + 1);
      hide PlacesOk;
      JoinPlaces(e, p);
    } else {
      assert p' == p.(nextId := p.nextId + 1);
    }
  }

  lemma WithdrawPlaces(e: Settings, p: Places, id: Id, rest: seq<Id>)
    requires PlacesOk(e, p) && id in Elems(p.queue)
    requires Rising(rest) && Elems(rest) == Elems(p.queue) - {id} && |rest| <= |p.queue|
    ensures PlacesOk(e, p.(queue := rest, left := p.left + {id}))
  {
  }

  /** Only the queue and those who have left change when a request is abandoned. */
  lemma AbandonMoves(s: Sched, id: Id)
    ensures var p := PlacesOf(s);
            PlacesOf(Abandon(s, id)) ==
              if Holds(s.queue, id) then p.(queue := Ids(Without(s.queue, id)), left := p.left + {id}) else p
  {
    assert Ids(MarkAll(s.batch.seqs, id)) == Ids(s.batch.seqs);
    assert Ids(MarkAll(Newcomers(s), id)) == Ids(Newcomers(s));
    assert Ids(MarkAll(Leaving(s), id)) == Ids(Leaving(s));
    hide Ids, MarkAll, Without, Holds;
  }

  lemma HoldsElems(seqs: seq<Sequence>, id: Id)
    ensures Holds(seqs, id) <==> id in Elems(Ids(seqs))
  {
    ElemsAre(seqs);
  }

  lemma AbandonPlaces(e: Settings, s: Sched, id: Id)
    requires PlacesOk(e, PlacesOf(s))
    ensures PlacesOk(e, PlacesOf(Abandon(s, id)))
    ensures var (p, p') := (PlacesOf(s), PlacesOf(Abandon(s, id)));
            && p' == p.(queue := p'.queue, left := p'.left)
            && Elems(p'.queue) == Elems(p.queue) - {id}
            && p'.left == p.left + if id in Elems(p.queue) then {id} else {}
  {
    HoldsElems(s.queue, id);
    AbandonMoves(s, id);
    hide Abandon, Holds, Without, Ids, Elems, Rising, Before, Under;
    if Holds(s.queue, id) {
      WithoutIds(s.queue, id);
      WithdrawPlaces(e, PlacesOf(s), id, Ids(Without(s.queue, id)));
    }
  }

  lemma GonePlaces(e: Settings, s: Sched, id: Id, abandon: bool)
    requires PlacesOk(e, PlacesOf(s))
    ensures PlacesOk(e, PlacesOf(DoGone(s, id, abandon)))
  {
    if id in s.clients {
      var s1 := s.(clients := s.clients[id := Cancel(s.clients[id])]);
      assert PlacesOf(s1) == PlacesOf(s);
      AbandonPlaces(e, s1, id);
    }
  }

  lemma LaunchPlaces(e: Settings, s: Sched)
    requires PlacesOk(e, PlacesOf(s)) && s.phase.Ready?
    ensures PlacesOk(e, PlacesOf(DoLaunch(e, s)))
  {
    var n := Admissions(e, s);
    if n > 0 {
      var a, b := Ids(s.queue[..n]), Ids(s.queue[n..]);
      assert Ids(s.queue) == a + b;
      ElemsAre(s.queue[..n]);
      RisingSplit(a, b);
    }
  }

  lemma EnginePlaces(e: Settings, p: Places)
    requires PlacesOk(e, p) && p.leaving == []
    ensures PlacesOk(e, p.(batch := p.batch + p.newcomers, newcomers := []))
  {
    RisingJoin(p.batch, p.newcomers);
  }

  lemma EvictPlaces(e: Settings, p: Places, keep: seq<nat>, gone: seq<nat>)
    requires PlacesOk(e, p) && p.newcomers == [] == p.leaving && Splits(keep, gone, |p.batch|)
    ensures PlacesOk(e, p.(batch := Select(p.batch, keep), leaving := Select(p.batch, gone)))
  {
    RisingSelect(p.batch, keep);
    RisingSelect(p.batch, gone);
    SplitElems(p.batch, keep, gone);
  }

  /** After a failed step everybody in flight has left, and the queue is as it was. */
  lemma FailPlaces(e: Settings, s: Sched)
    requires PlacesOk(e, PlacesOf(s))
    ensures PlacesOk(e, PlacesOf(DoFail(s)))
    ensures var p := PlacesOf(s);
            PlacesOf(DoFail(s)) ==
              p.(batch := [], newcomers := [], leaving := [], running := {}, left := p.left + p.running)
  {
    hide DoFail, PlacesOf, Elems;
    FailMoves(s);
    ElemsFew(0);
  }

  lemma FailMoves(s: Sched)
    ensures var p := PlacesOf(s);
            PlacesOf(DoFail(s)) ==
              p.(batch := [], newcomers := [], leaving := [], running := {}, left := p.left + p.running)
  {
    assert PlacesOf(DoFail(s)).left == s.left.Keys + s.running;
  }

  /** After shutdown everybody queued or in flight has left. */
  lemma StopPlaces(e: Settings, s: Sched)
    requires PlacesOk(e, PlacesOf(s))
    ensures PlacesOk(e, PlacesOf(DoStop(s)))
    ensures var p := PlacesOf(s);
            PlacesOf(DoStop(s)) == p.(
              batch := [], newcomers := [], leaving := [], queue := [], running := {},
              left := p.left + p.running + Elems(p.queue))
  {
    hide DoStop, PlacesOf, Elems;
    StopMoves(s);
    ElemsFew(0);
  }

  lemma StopMoves(s: Sched)
    ensures var p := PlacesOf(s);
            PlacesOf(DoStop(s)) == p.(
              batch := [], newcomers := [], leaving := [], queue := [], running := {},
              left := p.left + p.running + Elems(p.queue))
  {
    ElemsAre(s.queue);
    hide Elems, IdSet;
    assert PlacesOf(DoStop(s)).left == s.left.Keys + s.running + IdSet(s.queue);
  }

  // ------------------------------------------------------------------
  // Completion
  // ------------------------------------------------------------------

  /** From `s` to `s'` each of `done` was delivered exactly once and nobody else was touched. */
  ghost predicate DeliveredTo(e: Settings, s: Sched, done: seq<Sequence>, s': Sched) {
    && s' == s.(
         running := s.running - Elems(Ids(done)), clients := s'.clients, left := s'.left, counters := s'.counters)
    && s'.clients.Keys == s.clients.Keys && s'.left.Keys == s.left.Keys + Elems(Ids(done))
    && (forall i :: 0 <= i < |done| ==> DeliveredOne(e, s, done[i], s'))
    && (forall id :: id in s.clients && id !in Elems(Ids(done)) ==> s'.clients[id] == s.clients[id])
    && (forall id :: id in s.left && id !in Elems(Ids(done)) ==> s'.left[id] == s.left[id])
  }

  ghost predicate DeliveredOne(e: Settings, s: Sched, q: Sequence, s': Sched) {
    && q.id in s.clients && q.id in s'.clients && q.id in s'.left
    && s'.clients[q.id] == Deliver(e, s.clients[q.id], q)
    && s'.left[q.id] == Completed(q)
  }

  /** Completing a list of distinct running requests delivers each of them exactly once and touches nobody else. */
  lemma {:induction false} CompleteEach(e: Settings, s: Sched, done: seq<Sequence>)
    requires Rising(Ids(done)) && Elems(Ids(done)) <= s.running && s.running <= s.clients.Keys
    ensures DeliveredTo(e, s, done, CompleteAll(e, s, done))
  {
    hide Deliver, CompleteOne;
    if done != [] {
      var n := |done| - 1;
      var front, q := done[..n], done[n];
      assert done == front + [q] && Ids(done) == Ids(front) + [q.id];
      hide DeliveredTo, Ids, Elems, Rising, Before;
      RisingSplit(Ids(front), [q.id]);
      ElemsFew(q.id);
      CompleteEach(e, s, front);
      CompleteNext(e, s, front, q, CompleteAll(e, s, front));
    }
  }

  lemma CompleteNext(e: Settings, s: Sched, front: seq<Sequence>, q: Sequence, mid: Sched)
    requires DeliveredTo(e, s, front, mid) && s.running <= s.clients.Keys
    requires q.id in s.running && q.id !in Elems(Ids(front))
    requires Elems(Ids(front + [q])) == Elems(Ids(front)) + {q.id}
    ensures DeliveredTo(e, s, front + [q], CompleteOne(e, mid, q))
  {
    hide Deliver, Elems, Ids;
    ElemsAre(front);
    DeliveredHere(e, s, front, q, mid);
    var s' := CompleteOne(e, mid, q);
    hide DeliveredOne;
    forall i | 0 <= i < |front + [q]|
      ensures DeliveredOne(e, s, (front + [q])[i], s')
    {
      if i < |front| {
        DeliveredStill(e, s, front[i], mid, q);
      }
    }
  }

  lemma DeliveredHere(e: Settings, s: Sched, front: seq<Sequence>, q: Sequence, mid: Sched)
    requires DeliveredTo(e, s, front, mid) && s.running <= s.clients.Keys
    requires q.id in s.running && q.id !in Elems(Ids(front))
    ensures q.id in mid.running && q.id in mid.clients
    ensures DeliveredOne(e, s, q, CompleteOne(e, mid, q))
  {
    hide Deliver, Elems, Ids;
  }

  lemma DeliveredStill(e: Settings, s: Sched, p: Sequence, mid: Sched, q: Sequence)
    requires DeliveredOne(e, s, p, mid) && p.id != q.id
    ensures DeliveredOne(e, s, p, CompleteOne(e, mid, q))
  {
    hide Deliver;
  }

  lemma CompletePlaces(e: Settings, s: Sched)
    requires PlacesOk(e, PlacesOf(s)) && s.phase.Evicted?
    ensures PlacesOk(e, PlacesOf(DoComplete(e, s)))
  {
    var p := PlacesOf(s);
    CompleteEach(e, s, s.phase.done);
    assert PlacesOf(DoComplete(e, s)) ==
      p.(leaving := [], running := p.running - Elems(p.leaving), left := p.left + Elems(p.leaving));
  }
}
