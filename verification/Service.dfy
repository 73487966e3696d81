/** What the scheduler's sequences are worth at every moment:
    the batch invariant, lifted to the loop and its callers. */
module Service {
  import opened Options
  import opened Transformer
  import opened Sampling
  import opened Batching
  import opened Invariant
  import opened Generation
  import opened Scheduling
  import opened Order

  /** What the deployment must provide. */
  ghost predicate Standing(e: Settings) {
    0 < e.engine.model.layers && 2 <= e.engine.maxContext && 1 <= e.engine.maxNewTokens && 1 <= e.maxBatch
  }

  /** A queued request: nothing generated, nobody gone. */
  ghost predicate Waiting(e: Settings, q: Sequence) {
    Admissible(e.engine, q) && q.output == [] && q.reason.None?
  }

  /** Being admitted: nothing generated yet, perhaps already abandoned. */
  ghost predicate Entering(e: Settings, q: Sequence) {
    Admissible(e.engine, q) && Fresh(q)
  }

  ghost predicate Departing(e: Settings, q: Sequence) {
    Admissible(e.engine, q) && Lawful(e.engine, q) && q.Finished()
  }

  /** Between steps of the loop no row has been stopped by a rule:
      its last token is pending and its budget is not used up. */
  ghost predicate Steady(e: Settings, b: Batch, fed: seq<seq<Token>>, i: nat)
    requires i < |b.seqs| == |b.next| == |fed|
  {
    var q := b.seqs[i];
    Aligned(q, b.next[i], fed[i]) && Open(e.engine, q.params, q.prompt, q.output)
  }

  predicate Quiet(p: Phase) {
    !p.Stepped? && !p.Published?
  }

  ghost predicate AllSteady(e: Settings, b: Batch, fed: seq<seq<Token>>)
    requires |b.seqs| == |b.next| == |fed|
  {
    forall i :: 0 <= i < |b.seqs| ==> Steady(e, b, fed, i)
  }

  ghost predicate AllAdmissible(e: Settings, seqs: seq<Sequence>) {
    forall i :: 0 <= i < |seqs| ==> Admissible(e.engine, seqs[i])
  }

  ghost predicate WorkOk(e: Settings, s: Sched, fed: seq<seq<Token>>) {
    && BatchOk(e.engine, s.batch, fed)
    && AllAdmissible(e, s.batch.seqs)
    && (forall i :: 0 <= i < |s.queue| ==> Waiting(e, s.queue[i]))
    && (forall i :: 0 <= i < |Newcomers(s)| ==> Entering(e, Newcomers(s)[i]))
    && (forall i :: 0 <= i < |Leaving(s)| ==> Departing(e, Leaving(s)[i]))
    && (Quiet(s.phase) ==> AllSteady(e, s.batch, fed))
  }

  lemma WorkIsCallable(e: Settings, s: Sched, fed: seq<seq<Token>>)
    requires WorkOk(e, s, fed)
    ensures Callable(e, s)
  {
    hide Lawful, RowAt;
    forall i | 0 <= i < |Newcomers(s)|
      ensures Newcomers(s)[i].prompt != []
    {
      assert Entering(e, Newcomers(s)[i]);
    }
  }

  lemma BatchOfWork(e: Settings, s: Sched, fed: seq<seq<Token>>)
    requires WorkOk(e, s, fed)
    ensures BatchOk(e.engine, s.batch, fed)
  {
  }

  lemma SubmitWork(e: Settings, s: Sched, fed: seq<seq<Token>>, ids: seq<Token>, params: Params, streaming: bool)
    requires Standing(e) && WorkOk(e, s, fed)
    ensures WorkOk(e, DoSubmit(e, s, ids, params, streaming), fed)
  {
    hide RowAt, Lawful, Aligned, Open, Encode, Clamp;
    EncodeLeavesRoom(e.engine, ids);
    ClampHonours(params, e.engine.maxNewTokens);
    var s' := DoSubmit(e, s, ids, params, streaming);
    assert Newcomers(s') == Newcomers(s) && Leaving(s') == Leaving(s);
    forall i | 0 <= i < |s'.queue|
      ensures Waiting(e, s'.queue[i])
    {
      if i < |s.queue| {
        assert s'.queue[i] == s.queue[i];
      }
    }
  }

  lemma {:induction false} WithoutMembers(seqs: seq<Sequence>, id: Id)
    ensures forall i :: 0 <= i < |Without(seqs, id)| ==> Without(seqs, id)[i] in seqs
  {
    if seqs != [] && seqs[0].id != id {
      WithoutMembers(seqs[1..], id);
      var rest := Without(seqs, id);
      forall i | 0 <= i < |rest|
        ensures rest[i] in seqs
      {
        if i > 0 {
          assert rest[i] == Without(seqs[1..], id)[i - 1];
        }
      }
    }
  }

  lemma MarkKeeps(e: Settings, q: Sequence, id: Id)
    ensures Entering(e, q) ==> Entering(e, MarkOne(q, id))
    ensures Departing(e, q) ==> Departing(e, MarkOne(q, id))
    ensures Admissible(e.engine, q) ==> Admissible(e.engine, MarkOne(q, id))
  {
    hide Lawful;
  }

  lemma AbandonBatch(e: Settings, b: Batch, fed: seq<seq<Token>>, id: Id)
    requires BatchOk(e.engine, b, fed) && AllAdmissible(e, b.seqs)
    ensures BatchOk(e.engine, MarkBatch(b, id), fed) && AllAdmissible(e, MarkBatch(b, id).seqs)
    ensures |fed| == |b.seqs| == |b.next|
    ensures AllSteady(e, b, fed) ==> AllSteady(e, MarkBatch(b, id), fed)
  {
    BatchSizes(e.engine, b, fed);
    MarkOk(e.engine, b, fed, id);
    hide BatchOk, Steady, Admissible;
    forall i | 0 <= i < |b.seqs|
      ensures Admissible(e.engine, MarkBatch(b, id).seqs[i])
      ensures Steady(e, b, fed, i) ==> Steady(e, MarkBatch(b, id), fed, i)
    {
      MarkKeeps(e, b.seqs[i], id);
    }
  }

  lemma AbandonWork(e: Settings, s: Sched, fed: seq<seq<Token>>, id: Id)
    requires WorkOk(e, s, fed)
    ensures WorkOk(e, Abandon(s, id), fed)
  {
    hide BatchOk, WellShaped, AllAdmissible, AllSteady, Waiting, Entering, Departing, Abandon, MarkBatch, Without,
         Holds;
    AbandonParts(s, id);
    WithoutMembers(s.queue, id);
    AbandonBatch(e, s.batch, fed, id);
    forall i | 0 <= i < |Newcomers(s)|
      ensures Entering(e, MarkOne(Newcomers(s)[i], id))
    {
      MarkKeeps(e, Newcomers(s)[i], id);
    }
    forall i | 0 <= i < |Leaving(s)|
      ensures Departing(e, MarkOne(Leaving(s)[i], id))
    {
      MarkKeeps(e, Leaving(s)[i], id);
    }
    hide MarkOne;
  }

  lemma GoneWork(e: Settings, s: Sched, fed: seq<seq<Token>>, id: Id, abandon: bool)
    requires WorkOk(e, s, fed)
    ensures WorkOk(e, DoGone(s, id, abandon), fed)
  {
    hide RowAt, Abandon, Admissible, Fresh, Lawful, Steady;
    if id in s.clients {
      var s1 := s.(clients := s.clients[id := Cancel(s.clients[id])]);
      assert Newcomers(s1) == Newcomers(s) && Leaving(s1) == Leaving(s);
      AbandonWork(e, s1, fed, id);
    }
  }

  lemma LaunchWork(e: Settings, s: Sched, fed: seq<seq<Token>>)
    requires WorkOk(e, s, fed) && s.phase.Ready?
    ensures WorkOk(e, DoLaunch(e, s), fed)
  {
    hide BatchOk, Lawful, Aligned, Open, Steady;
    var n := Admissions(e, s);
    forall i | 0 <= i < n
      ensures Entering(e, s.queue[i])
    {
      assert Waiting(e, s.queue[i]);
    }
  }

  /** One engine call for one sequence: the same request, and one more token unless it was finished. */
  ghost predicate OneStep(after: Sequence, before: Sequence) {
    && SameRequest(after, before)
    && (before.Finished() ==> after == before)
    && (!before.Finished() ==>
          |after.output| == |before.output| + 1 && after.output[..|before.output|] == before.output &&
          after.reason != Some(Abandoned))
  }

  ghost predicate OneStepEach(after: seq<Sequence>, before: seq<Sequence>) {
    |after| == |before| && forall i :: 0 <= i < |after| ==> OneStep(after[i], before[i])
  }

  lemma PrefillSteps(c: Config, seqs: seq<Sequence>)
    requires Prompted(seqs)
    ensures OneStepEach(Prefill(c, seqs).seqs, seqs)
  {
    hide ForwardCache, ForwardLogits, SampleEach;
  }

  lemma DecodeSteps(c: Config, b: Batch)
    requires WellShaped(c, b)
    ensures OneStepEach(Decode(c, b).seqs, b.seqs)
  {
    hide ForwardCache, ForwardLogits, SampleEach, NextLanes;
  }

  /** One engine call for the whole batch: an admission steps the
      newcomers and leaves the rows alone, a decode steps every row. */
  ghost predicate Advanced(after: seq<Sequence>, rows: seq<Sequence>, ns: seq<Sequence>) {
    if ns == [] then OneStepEach(after, rows)
    else |after| == |rows| + |ns| && after[..|rows|] == rows && OneStepEach(after[|rows|..], ns)
  }

  /** An engine call keeps the batch invariant and, row by row, the requests. */
  lemma EngineBatch(c: Config, b: Batch, fed: seq<seq<Token>>, ns: seq<Sequence>) returns (fed': seq<seq<Token>>)
    requires 0 < c.model.layers && BatchOk(c, b, fed)
    requires forall i :: 0 <= i < |ns| ==> Fresh(ns[i])
    ensures Prompted(ns) && WellShaped(c, b)
    ensures ns != [] ==> BatchOk(c, Admit(c, b, ns), fed') && Advanced(Admit(c, b, ns).seqs, b.seqs, ns)
    ensures ns == [] ==> BatchOk(c, Decode(c, b), fed') && Advanced(Decode(c, b).seqs, b.seqs, ns)
  {
    BatchSizes(c, b, fed);
    hide BatchOk, WellShaped, Admit, Decode, Prefill, Fresh;
    if ns != [] {
      AdmitOk(c, b, fed, ns);
      PrefillSteps(c, ns);
      assert Admit(c, b, ns).seqs[|b.seqs|..] == Prefill(c, ns).seqs;
      fed' := FedAfterAdmit(fed, ns);
    } else {
      DecodeOk(c, b, fed);
      DecodeSteps(c, b);
      fed' := FedAfter(b, fed);
    }
  }

  lemma EngineWork(e: Settings, s: Sched, fed: seq<seq<Token>>) returns (fed': seq<seq<Token>>)
    requires Standing(e) && WorkOk(e, s, fed) && s.phase.Launched?
    ensures Callable(e, s) && WorkOk(e, DoEngine(e, s), fed')
    ensures Advanced(DoEngine(e, s).batch.seqs, s.batch.seqs, Newcomers(s))
  {
    hide BatchOk, WellShaped, Prompted, Admit, Decode, Advanced, Admissible, Fresh, AllAdmissible, AllSteady, Waiting;
    WorkIsCallable(e, s, fed);
    fed' := EngineBatch(e.engine, s.batch, fed, Newcomers(s));
    hide Entering, Departing;
    SameAdmissible(e, DoEngine(e, s).batch.seqs, s.batch.seqs, Newcomers(s));
  }

  lemma SameAdmissible(e: Settings, after: seq<Sequence>, rows: seq<Sequence>, ns: seq<Sequence>)
    requires Advanced(after, rows, ns) && AllAdmissible(e, rows) && AllAdmissible(e, ns)
    ensures AllAdmissible(e, after)
  {
    forall i | 0 <= i < |after|
      ensures Admissible(e.engine, after[i])
    {
      if ns == [] {
        assert OneStep(after[i], rows[i]);
      } else if i >= |rows| {
        assert OneStep(after[|rows|..][i - |rows|], ns[i - |rows|]);
      }
    }
  }

  lemma EvictWork(e: Settings, s: Sched, fed: seq<seq<Token>>) returns (fed': seq<seq<Token>>)
    requires WorkOk(e, s, fed) && s.phase.Published?
    ensures Callable(e, s) && WorkOk(e, DoEvict(e, s), fed')
    ensures forall i :: 0 <= i < |DoEvict(e, s).batch.seqs| ==> !DoEvict(e, s).batch.seqs[i].Finished()
  {
    WorkIsCallable(e, s, fed);
    EvictOk(e.engine, s.batch, fed);
    fed' := FedAfterEvict(s.batch, fed);
    var b, b' := s.batch, Evict(e.engine, s.batch);
    var keep, gone := RowsWhere(b.seqs, false), RowsWhere(b.seqs, true);
    BatchSizes(e.engine, b', fed');
    forall i | 0 <= i < |b'.seqs|
      ensures Steady(e, b', fed', i) && Admissible(e.engine, b'.seqs[i])
    {
      EvictedSteady(e, b', fed', i);
      assert b'.seqs[i] == b.seqs[keep[i]];
    }
    forall i | 0 <= i < |gone|
      ensures Departing(e, Done(b)[i])
    {
      assert RowAt(e.engine, b, fed, gone[i]);
    }
    hide BatchOk, WellShaped, Evict, RowsWhere, Departing, Steady;
  }

  /** A row that eviction left behind is unfinished, hence steady. */
  lemma EvictedSteady(e: Settings, b: Batch, fed: seq<seq<Token>>, i: nat)
    requires BatchOk(e.engine, b, fed) && i < |b.seqs| && !b.seqs[i].Finished()
    ensures Steady(e, b, fed, i)
  {
    assert RowAt(e.engine, b, fed, i);
  }

  lemma CompleteWork(e: Settings, s: Sched, fed: seq<seq<Token>>)
    requires WorkOk(e, s, fed) && PlacesOk(e, PlacesOf(s)) && s.phase.Evicted?
    ensures WorkOk(e, DoComplete(e, s), fed)
  {
    hide BatchOk, WellShaped, Lawful, Steady, Deliver;
    CompleteEach(e, s, s.phase.done);
  }
}
