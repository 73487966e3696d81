/** What callers get: streams that reassemble, futures settled once, sentinels sent once. */
module Delivery {
  import opened Masks
  import opened Transformer
  import opened Sampling
  import opened Batching
  import opened Invariant
  import opened Generation
  import opened Scheduling
  import opened Order
  import opened Service

  type Decoder = seq<Token> -> string

  /** The text of a stream, sentinel aside. */
  function Joined(stream: seq<Chunk>): string {
    if stream == [] then ""
    else
      var last := stream[|stream| - 1];
      Joined(stream[..|stream| - 1]) + if last.Text? then last.text else ""
  }

  ghost predicate NoEnd(stream: seq<Chunk>) {
    forall i :: 0 <= i < |stream| ==> stream[i].Text?
  }

  /** Exactly one sentinel, after all the text. */
  ghost predicate Ended(stream: seq<Chunk>) {
    stream != [] && stream[|stream| - 1].End? && NoEnd(stream[..|stream| - 1])
  }

  function LastText(d: Decoder, output: seq<Token>): string {
    if output == [] then "" else d(output)
  }

  /** What has been published once the tokens of `output` have come one at a time. */
  function Sent(d: Decoder, output: seq<Token>): string {
    if output == [] then ""
    else
      var before := output[..|output| - 1];
      Sent(d, before) + Drop(d(output), |LastText(d, before)|)
  }

  /** What a completed stream has received in all. */
  function Received(d: Decoder, output: seq<Token>): string {
    Sent(d, output) + Drop(d(output), |LastText(d, output)|)
  }

  // ------------------------------------------------------------------
  // When do the chunks add up to the text?
  // ------------------------------------------------------------------

  /** Token by token, the text of this output only ever grew. */
  ghost predicate Grows(d: Decoder, output: seq<Token>) {
    forall k :: 1 <= k < |output| ==> d(output[..k]) <= d(output[..k + 1])
  }

  /** One more token only ever extends the text, whatever the output. */
  ghost predicate Extends(d: Decoder) {
    forall output: seq<Token> :: Grows(d, output)
  }

  lemma GrowsPrefix(d: Decoder, output: seq<Token>, n: nat)
    requires Grows(d, output) && n <= |output|
    ensures Grows(d, output[..n])
  {
    var front := output[..n];
    forall k | 1 <= k < |front|
      ensures d(front[..k]) <= d(front[..k + 1])
    {
      assert front[..k] == output[..k] && front[..k + 1] == output[..k + 1];
    }
  }

  lemma {:induction false} GrowingReassembles(d: Decoder, output: seq<Token>)
    requires Grows(d, output)
    ensures Sent(d, output) == LastText(d, output) && Received(d, output) == d(output)
  {
    if output != [] {
      var n := |output| - 1;
      GrowsPrefix(d, output, n);
      GrowingReassembles(d, output[..n]);
      assert output[..n + 1] == output;
      if n > 0 {
        assert d(output[..n]) <= d(output[..n + 1]);
      }
    }
  }

  /** Whenever it ended, the stream of this output would have received its text so far. */
  ghost predicate Reassembles(d: Decoder, output: seq<Token>) {
    forall n :: 0 <= n <= |output| ==> Received(d, output[..n]) == d(output[..n])
  }

  /** The stream of an output reassembles into its text at every point exactly when its text only ever grew. */
  lemma ReassemblyNeedsGrowth(d: Decoder, output: seq<Token>)
    ensures Reassembles(d, output) <==> Grows(d, output)
  {
    if Grows(d, output) {
      forall n | 0 <= n <= |output|
        ensures Received(d, output[..n]) == d(output[..n])
      {
        GrowsPrefix(d, output, n);
        GrowingReassembles(d, output[..n]);
      }
    }
    if Reassembles(d, output) {
      forall k | 1 <= k < |output|
        ensures d(output[..k]) <= d(output[..k + 1])
      {
        TwoPoints(d, output[..k], output[..k + 1]);
      }
    }
  }

  lemma TwoPoints(d: Decoder, less: seq<Token>, more: seq<Token>)
    requires less != [] && |more| == |less| + 1 && more[..|less|] == less
    requires Received(d, less) == d(less) && Received(d, more) == d(more)
    ensures d(less) <= d(more)
  {
    assert Drop(d(less), |d(less)|) == "" && Drop(d(more), |d(more)|) == "";
    assert Sent(d, less) + "" == Sent(d, less) && Sent(d, more) + "" == Sent(d, more);
    assert d(more) == d(less) + Drop(d(more), |d(less)|);
  }

  /** Streams reassemble into the final text, whatever is generated,
      exactly when the decoder only ever extends its text. */
  lemma ReassemblyNeedsExtension(d: Decoder)
    ensures (forall output: seq<Token> :: Received(d, output) == d(output)) <==> Extends(d)
  {
    forall output: seq<Token>
      ensures Reassembles(d, output) <==> Grows(d, output)
    {
      ReassemblyNeedsGrowth(d, output);
    }
    if Extends(d) {
      forall output: seq<Token>
        ensures Received(d, output) == d(output)
      {
        GrowingReassembles(d, output);
      }
    }
    if forall output: seq<Token> :: Received(d, output) == d(output) {
      forall output: seq<Token>
        ensures Grows(d, output)
      {
        assert Reassembles(d, output);
      }
    }
  }

  /** A decoder that shows U+FFFD for an incomplete UTF-8 sequence replaces text it has already shown:
      here tokens 226, 130 and 172 are the three bytes of the euro sign (section 3 of RFC 3629), and its
      stream ends in the wrong text. */
  lemma PartialCharacterBreaksStream(d: Decoder)
    requires d([226]) == "\U{FFFD}" && d([226, 130]) == "\U{FFFD}" && d([226, 130, 172]) == "\U{20AC}"
    ensures !Extends(d)
    ensures Received(d, [226, 130, 172]) == "\U{FFFD}" != d([226, 130, 172])
  {
    var one, two, three := [226], [226, 130], [226, 130, 172];
    assert three == two + [172] && three[..2] == two && two[..1] == one && one[..0] == [];
    assert Sent(d, one) == Sent(d, []) + Drop(d(one), 0);
    assert Sent(d, two) == Sent(d, one) + Drop(d(two), |d(one)|);
    assert Sent(d, three) == Sent(d, two) + Drop(d(three), |d(two)|);
    assert three[..2 + 1] == three && d(two)[0] != d(three)[0];
    assert !Grows(d, three);
  }

  // ------------------------------------------------------------------
  // Clients
  // ------------------------------------------------------------------

  /** The stream has published exactly the tokens `shown`; a blocking request has no stream. */
  ghost predicate Shown(e: Settings, c: Client, shown: seq<Token>) {
    if c.streaming then
      && c.published == |shown| && c.publishedText == LastText(e.decode, shown)
      && NoEnd(c.stream) && Joined(c.stream) == Sent(e.decode, shown)
    else c.stream == []
  }

  /** A live request: not settled, though a blocking caller may have cancelled. */
  ghost predicate LiveOk(e: Settings, c: Client, q: Sequence, shown: seq<Token>) {
    && c.request == Original(q) && Shown(e, c, shown)
    && (c.future.Pending? || (!c.streaming && c.future.Cancelled?))
  }

  /** Right after an engine call the last token may not have been published yet. */
  ghost predicate Tracked(e: Settings, c: Client, q: Sequence, lag: bool) {
    || LiveOk(e, c, q, q.output)
    || (lag && q.output != [] && LiveOk(e, c, q, q.output[..|q.output| - 1]))
  }

  ghost predicate AllTracked(e: Settings, clients: map<Id, Client>, seqs: seq<Sequence>, lag: bool) {
    forall i :: 0 <= i < |seqs| ==> seqs[i].id in clients && Tracked(e, clients[seqs[i].id], seqs[i], lag)
  }

  /** What a departed request's caller has: a completed one its result, after all its text and one
      sentinel; a failed one an error and one sentinel; a withdrawn or shut-down one no sentinel at all. */
  ghost predicate LeftOk(e: Settings, c: Client, fate: Departure) {
    match fate
    case Completed(q) =>
      && Departing(e, q) && c.request == Original(q)
      && (c.future == Settled(ResultOf(e, q)) || (!c.streaming && c.future.Cancelled?))
      && (if c.streaming then Ended(c.stream) && Joined(c.stream) == Received(e.decode, q.output) else c.stream == [])
    case StepFailed =>
      && (c.future.Failed? || (!c.streaming && c.future.Cancelled?))
      && (if c.streaming then Ended(c.stream) else c.stream == [])
    case Withdrawn =>
      && (if c.streaming then c.future.Pending? else c.future.Cancelled?) && NoEnd(c.stream) && Joined(c.stream) == ""
    case ShutDown =>
      c.future.Cancelled? && NoEnd(c.stream)
  }

  ghost predicate LeftAllOk(e: Settings, clients: map<Id, Client>, left: map<Id, Departure>) {
    forall id :: id in left ==> id in clients && LeftOk(e, clients[id], left[id])
  }

  ghost predicate ClientsOk(e: Settings, s: Sched) {
    && AllTracked(e, s.clients, s.queue, false)
    && AllTracked(e, s.clients, Newcomers(s), false)
    && AllTracked(e, s.clients, Leaving(s), false)
    && AllTracked(e, s.clients, s.batch.seqs, s.phase.Stepped?)
    && LeftAllOk(e, s.clients, s.left)
  }

  // ------------------------------------------------------------------
  // Frames
  // ------------------------------------------------------------------

  /** Clients of other ids do not matter to a list of sequences. */
  lemma TrackedFrame(e: Settings, clients: map<Id, Client>, clients': map<Id, Client>, seqs: seq<Sequence>, lag: bool)
    requires AllTracked(e, clients, seqs, lag)
    requires forall id :: id in clients && id in Elems(Ids(seqs)) ==> id in clients' && clients'[id] == clients[id]
    ensures AllTracked(e, clients', seqs, lag)
  {
    hide Tracked;
    ElemsAre(seqs);
  }

  lemma SubmitClients(e: Settings, s: Sched, ids: seq<Token>, params: Params, streaming: bool)
    requires ClientsOk(e, s) && PlacesOk(e, PlacesOf(s))
    ensures ClientsOk(e, DoSubmit(e, s, ids, params, streaming))
  {
    hide Tracked, LeftOk, Encode, Clamp;
    var s' := DoSubmit(e, s, ids, params, streaming);
    if |s.queue| < e.maxQueue {
      assert s.nextId !in s.clients;
      TrackedFrame(e, s.clients, s'.clients, s.queue, false);
      TrackedFrame(e, s.clients, s'.clients, Newcomers(s), false);
      TrackedFrame(e, s.clients, s'.clients, Leaving(s), false);
      TrackedFrame(e, s.clients, s'.clients, s.batch.seqs, s.phase.Stepped?);
      var q := s'.queue[|s.queue|];
      NewClient(e, s'.clients[s.nextId], q);
      assert Newcomers(s') == Newcomers(s) && Leaving(s') == Leaving(s);
    }
  }

  lemma NewClient(e: Settings, c: Client, q: Sequence)
    requires c == Client(q, c.streaming, Pending, [], 0, "") && q.output == [] && q.reason.None?
    ensures Tracked(e, c, q, false)
  {
  }

  lemma MarkTracked(e: Settings, clients: map<Id, Client>, seqs: seq<Sequence>, lag: bool, id: Id)
    requires AllTracked(e, clients, seqs, lag)
    ensures AllTracked(e, clients, MarkAll(seqs, id), lag)
  {
    hide Shown;
    var seqs' := MarkAll(seqs, id);
    forall i | 0 <= i < |seqs'|
      ensures seqs'[i].id in clients && Tracked(e, clients[seqs'[i].id], seqs'[i], lag)
    {
      assert seqs'[i].output == seqs[i].output && Original(seqs'[i]) == Original(seqs[i]);
    }
  }

  lemma SubTracked(e: Settings, clients: map<Id, Client>, seqs: seq<Sequence>, part: seq<Sequence>, lag: bool)
    requires AllTracked(e, clients, seqs, lag)
    requires forall i :: 0 <= i < |part| ==> part[i] in seqs
    ensures AllTracked(e, clients, part, lag)
  {
    hide Tracked;
  }

  /** A queued request has been shown nothing, so withdrawing it leaves an empty stream without a sentinel. */
  lemma WithdrawClient(e: Settings, c: Client, q: Sequence)
    requires Tracked(e, c, q, false) && q.output == [] && (c.streaming || c.future.Cancelled?)
    ensures LeftOk(e, c, Withdrawn)
  {
  }

  lemma AbandonClients(e: Settings, s: Sched, fed: seq<seq<Token>>, id: Id)
    requires ClientsOk(e, s) && PlacesOk(e, PlacesOf(s)) && WorkOk(e, s, fed)
    requires id in s.clients ==> s.clients[id].streaming || s.clients[id].future.Cancelled?
    ensures ClientsOk(e, Abandon(s, id))
  {
    hide AllTracked, LeftOk, BatchOk, PlacesOk, Abandon, Without, MarkAll, Newcomers, Leaving, Waiting, AllAdmissible,
         AllSteady;
    AbandonParts(s, id);
    MarkTracked(e, s.clients, s.batch.seqs, s.phase.Stepped?, id);
    MarkTracked(e, s.clients, Newcomers(s), false, id);
    MarkTracked(e, s.clients, Leaving(s), false, id);
    WithoutMembers(s.queue, id);
    if Holds(s.queue, id) {
      SubTracked(e, s.clients, s.queue, Without(s.queue, id), false);
      QueuedLeaves(e, s.clients, s.queue, id);
    }
    hide Holds;
  }

  lemma QueuedLeaves(e: Settings, clients: map<Id, Client>, queue: seq<Sequence>, id: Id)
    requires AllTracked(e, clients, queue, false) && Holds(queue, id)
    requires forall i :: 0 <= i < |queue| ==> Waiting(e, queue[i])
    requires id in clients ==> clients[id].streaming || clients[id].future.Cancelled?
    ensures id in clients && LeftOk(e, clients[id], Withdrawn)
  {
    hide Tracked, LeftOk;
    var k :| 0 <= k < |queue| && queue[k].id == id;
    assert Waiting(e, queue[k]);
    WithdrawClient(e, clients[id], queue[k]);
  }

  lemma CancelTracked(e: Settings, c: Client, q: Sequence, lag: bool)
    requires Tracked(e, c, q, lag) && !c.streaming
    ensures Tracked(e, Cancel(c), q, lag)
  {
  }

  lemma GoneClients(e: Settings, s: Sched, fed: seq<seq<Token>>, id: Id, abandon: bool)
    requires ClientsOk(e, s) && PlacesOk(e, PlacesOf(s)) && WorkOk(e, s, fed)
    ensures ClientsOk(e, DoGone(s, id, abandon))
  {
    hide PlacesOk, WorkOk, ClientsOk, Abandon, Cancel;
    if id in s.clients && !s.clients[id].streaming && s.clients[id].future.Pending? {
      var s1 := s.(clients := s.clients[id := Cancel(s.clients[id])]);
      CancelClients(e, s, id);
      CancelSame(e, s, fed, id);
      AbandonClients(e, s1, fed, id);
    }
  }

  lemma CancelSame(e: Settings, s: Sched, fed: seq<seq<Token>>, id: Id)
    requires id in s.clients
    ensures var s1 := s.(clients := s.clients[id := Cancel(s.clients[id])]);
            && PlacesOf(s1) == PlacesOf(s) && (WorkOk(e, s, fed) ==> WorkOk(e, s1, fed))
            && !s1.clients[id].future.Pending? && (s.clients[id].future.Pending? ==> s1.clients[id].future.Cancelled?)
  {
    hide BatchOk, AllAdmissible, AllSteady, Waiting, Entering, Departing;
    var s1 := s.(clients := s.clients[id := Cancel(s.clients[id])]);
    assert Newcomers(s1) == Newcomers(s) && Leaving(s1) == Leaving(s);
  }

  /** A blocking caller with a pending future has not left, and cancelling keeps its request tracked. */
  lemma CancelClients(e: Settings, s: Sched, id: Id)
    requires ClientsOk(e, s) && id in s.clients && !s.clients[id].streaming && s.clients[id].future.Pending?
    ensures ClientsOk(e, s.(clients := s.clients[id := Cancel(s.clients[id])]))
  {
    assert id !in s.left by {
      assert id in s.left ==> LeftOk(e, s.clients[id], s.left[id]);
    }
    hide AllTracked, LeftOk, Cancel, Tracked;
    CancelAll(e, s.clients, id, s.queue, false);
    CancelAll(e, s.clients, id, Newcomers(s), false);
    CancelAll(e, s.clients, id, Leaving(s), false);
    CancelAll(e, s.clients, id, s.batch.seqs, s.phase.Stepped?);
  }

  lemma CancelAll(e: Settings, clients: map<Id, Client>, id: Id, seqs: seq<Sequence>, lag: bool)
    requires AllTracked(e, clients, seqs, lag) && id in clients && !clients[id].streaming
    ensures AllTracked(e, clients[id := Cancel(clients[id])], seqs, lag)
  {
    hide Tracked;
    forall i | 0 <= i < |seqs| && seqs[i].id == id
      ensures Tracked(e, Cancel(clients[id]), seqs[i], lag)
    {
      CancelTracked(e, clients[id], seqs[i], lag);
    }
  }

  lemma LaunchClients(e: Settings, s: Sched)
    requires ClientsOk(e, s) && s.phase.Ready?
    ensures ClientsOk(e, DoLaunch(e, s))
  {
    hide Tracked, LeftOk;
  }

  /** Stepping a tracked row leaves it tracked, its new token perhaps unpublished. */
  lemma StepTracked(e: Settings, clients: map<Id, Client>, before: seq<Sequence>, after: seq<Sequence>)
    requires AllTracked(e, clients, before, false) && OneStepEach(after, before)
    ensures AllTracked(e, clients, after, true)
  {
    hide Shown;
    forall i | 0 <= i < |after|
      ensures after[i].id in clients && Tracked(e, clients[after[i].id], after[i], true)
    {
      assert OneStep(after[i], before[i]);
      if !before[i].Finished() {
        assert after[i].output[..|after[i].output| - 1] == before[i].output;
      }
    }
  }

  lemma LagTracked(e: Settings, clients: map<Id, Client>, seqs: seq<Sequence>)
    requires AllTracked(e, clients, seqs, false)
    ensures AllTracked(e, clients, seqs, true)
  {
    hide LiveOk;
  }

  lemma EngineClients(e: Settings, s: Sched, s': Sched)
    requires ClientsOk(e, s) && s.phase.Launched? && s'.phase.Stepped?
    requires s' == s.(batch := s'.batch, phase := s'.phase)
    requires Advanced(s'.batch.seqs, s.batch.seqs, Newcomers(s))
    ensures ClientsOk(e, s')
  {
    hide Tracked, LeftOk, OneStep;
    var after, rows, ns := s'.batch.seqs, s.batch.seqs, Newcomers(s);
    if ns == [] {
      StepTracked(e, s.clients, rows, after);
    } else {
      LagTracked(e, s.clients, rows);
      StepTracked(e, s.clients, ns, after[|rows|..]);
      assert after == after[..|rows|] + after[|rows|..];
      TrackedJoin(e, s.clients, after[..|rows|], after[|rows|..]);
    }
  }

  lemma TrackedJoin(e: Settings, clients: map<Id, Client>, a: seq<Sequence>, b: seq<Sequence>)
    requires AllTracked(e, clients, a, true) && AllTracked(e, clients, b, true)
    ensures AllTracked(e, clients, a + b, true)
  {
    hide Tracked;
  }

  // ------------------------------------------------------------------
  // Publishing
  // ------------------------------------------------------------------

  lemma PushJoined(stream: seq<Chunk>, delta: string)
    requires NoEnd(stream)
    ensures NoEnd(Push(stream, delta)) && Joined(Push(stream, delta)) == Joined(stream) + delta
  {
    if delta != "" {
      assert (stream + [Text(delta)])[..|stream|] == stream;
    }
  }

  /** Publishing catches up: afterwards the whole output has been shown. */
  lemma PublishCatchesUp(e: Settings, c: Client, q: Sequence)
    requires Tracked(e, c, q, true)
    ensures LiveOk(e, PublishOne(e, c, q), q, q.output)
  {
    if c.streaming && !LiveOk(e, c, q, q.output) {
      var shown := q.output[..|q.output| - 1];
      assert LiveOk(e, c, q, shown);
      PushJoined(c.stream, Drop(e.decode(q.output), |c.publishedText|));
    }
  }

  /** From `clients` to `after` each of `seqs` was published exactly once and nobody else was touched. */
  ghost predicate PublishedTo(e: Settings, clients: map<Id, Client>, seqs: seq<Sequence>, after: map<Id, Client>) {
    && after.Keys == clients.Keys
    && (forall i :: 0 <= i < |seqs| ==> PublishedOne(e, clients, seqs[i], after))
    && (forall id :: id in clients && id !in Elems(Ids(seqs)) ==> after[id] == clients[id])
  }

  ghost predicate PublishedOne(e: Settings, clients: map<Id, Client>, q: Sequence, after: map<Id, Client>) {
    q.id in clients && q.id in after && after[q.id] == PublishOne(e, clients[q.id], q)
  }

  lemma {:induction false} PublishEach(e: Settings, running: set<Id>, clients: map<Id, Client>, seqs: seq<Sequence>)
    requires Rising(Ids(seqs)) && Elems(Ids(seqs)) <= running <= clients.Keys
    ensures PublishedTo(e, clients, seqs, PublishAll(e, running, clients, seqs))
  {
    hide PublishOne;
    if seqs != [] {
      var n := |seqs| - 1;
      var front, q := seqs[..n], seqs[n];
      assert seqs == front + [q] && Ids(seqs) == Ids(front) + [q.id];
      hide PublishedTo, Ids, Elems, Rising, Before;
      RisingSplit(Ids(front), [q.id]);
      ElemsFew(q.id);
      PublishEach(e, running, clients, front);
      PublishNext(e, clients, front, q, PublishAll(e, running, clients, front));
    }
  }

  lemma PublishNext(e: Settings, clients: map<Id, Client>, front: seq<Sequence>, q: Sequence, mid: map<Id, Client>)
    requires PublishedTo(e, clients, front, mid)
    requires q.id in clients && q.id !in Elems(Ids(front))
    requires Elems(Ids(front + [q])) == Elems(Ids(front)) + {q.id}
    ensures q.id in mid && PublishedTo(e, clients, front + [q], mid[q.id := PublishOne(e, mid[q.id], q)])
  {
    hide PublishOne;
    ElemsAre(front);
    var after := mid[q.id := PublishOne(e, mid[q.id], q)];
    forall i | 0 <= i < |front + [q]|
      ensures PublishedOne(e, clients, (front + [q])[i], after)
    {
      if i < |front| {
        assert PublishedOne(e, clients, front[i], mid);
        assert front[i].id in Elems(Ids(front));
      }
    }
  }

  lemma PublishClients(e: Settings, s: Sched)
    requires ClientsOk(e, s) && PlacesOk(e, PlacesOf(s)) && s.phase.Stepped?
    ensures ClientsOk(e, DoPublish(e, s))
  {
    assert AllTracked(e, DoPublish(e, s).clients, [], false);
    hide LeftOk, AllTracked, PublishedTo, Observe, Rising, Before, Under, Sized, PublishAll;
    var after := DoPublish(e, s).clients;
    PublishEach(e, s.running, s.clients, s.batch.seqs);
    PublishedRows(e, s.clients, s.batch.seqs, after);
    QueueFrame(e, s, after);
  }

  lemma PublishedRows(e: Settings, clients: map<Id, Client>, seqs: seq<Sequence>, after: map<Id, Client>)
    requires AllTracked(e, clients, seqs, true) && PublishedTo(e, clients, seqs, after)
    ensures AllTracked(e, after, seqs, false)
  {
    hide LiveOk, PublishOne;
    forall i | 0 <= i < |seqs|
      ensures seqs[i].id in after && Tracked(e, after[seqs[i].id], seqs[i], false)
    {
      assert PublishedOne(e, clients, seqs[i], after);
      PublishCatchesUp(e, clients[seqs[i].id], seqs[i]);
    }
  }

  /** Whoever is queued is not in the batch. */
  lemma QueueFrame(e: Settings, s: Sched, after: map<Id, Client>)
    requires PlacesOk(e, PlacesOf(s)) && AllTracked(e, s.clients, s.queue, false) && LeftAllOk(e, s.clients, s.left)
    requires PublishedTo(e, s.clients, s.batch.seqs, after)
    ensures AllTracked(e, after, s.queue, false) && LeftAllOk(e, after, s.left)
  {
    hide LeftOk, AllTracked, Ordered, Sized, Elems, Ids, PublishedOne;
    TrackedFrame(e, s.clients, after, s.queue, false);
  }

  lemma EvictClients(e: Settings, s: Sched, s': Sched)
    requires ClientsOk(e, s) && s.phase.Published? && s'.phase.Evicted?
    requires s' == s.(batch := s'.batch, phase := s'.phase)
    requires s'.batch.seqs == Select(s.batch.seqs, RowsWhere(s.batch.seqs, false))
    requires s'.phase.done == Select(s.batch.seqs, RowsWhere(s.batch.seqs, true))
    ensures ClientsOk(e, s')
  {
    hide LeftOk, Tracked;
    SubTracked(e, s.clients, s.batch.seqs, s'.batch.seqs, false);
    SubTracked(e, s.clients, s.batch.seqs, s'.phase.done, false);
  }

  // ------------------------------------------------------------------
  // Completion, failure, shutdown
  // ------------------------------------------------------------------

  /** Delivery gives a stream the rest of its text and its one
      sentinel, and settles the future unless the caller is gone. */
  lemma DeliverOk(e: Settings, c: Client, q: Sequence)
    requires Tracked(e, c, q, false) && Departing(e, q)
    ensures LeftOk(e, Deliver(e, c, q), Completed(q))
  {
    hide Departing, Sent, NoEnd, Joined, Ended;
    if c.streaming {
      var delta := Drop(e.decode(q.output), |c.publishedText|);
      PushJoined(c.stream, delta);
      Sealed(Push(c.stream, delta));
      hide Push, Drop;
    }
  }

  /** The sentinel adds no text. */
  lemma Sealed(body: seq<Chunk>)
    requires NoEnd(body)
    ensures Ended(body + [End]) && Joined(body + [End]) == Joined(body)
  {
    assert (body + [End])[..|body|] == body;
    assert Joined(body) + "" == Joined(body);
  }

  lemma CompleteClients(e: Settings, s: Sched, fed: seq<seq<Token>>)
    requires ClientsOk(e, s) && PlacesOk(e, PlacesOf(s)) && WorkOk(e, s, fed) && s.phase.Evicted?
    ensures ClientsOk(e, DoComplete(e, s))
  {
    hide BatchOk, WellShaped, AllAdmissible, AllSteady, Waiting, Entering, Departing, Tracked, LeftOk, LeftAllOk;
    hide Rising, Before, Under, Sized, DeliveredTo, CompleteAll;
    var done, mid := Leaving(s), CompleteAll(e, s, Leaving(s));
    assert DoComplete(e, s) == mid.(phase := Ready);
    CompleteEach(e, s, done);
    CompletedOk(e, s, done, mid);
    CompletedFrame(e, s, done, mid);
    SameButDelivered(e, s, done, mid);
  }

  lemma SameButDelivered(e: Settings, s: Sched, done: seq<Sequence>, s': Sched)
    requires DeliveredTo(e, s, done, s')
    ensures s'.queue == s.queue && s'.batch == s.batch && s'.phase == s.phase
  {
    hide DeliveredOne;
  }

  /** After delivery everyone who has left has what they deserve. */
  lemma CompletedOk(e: Settings, s: Sched, done: seq<Sequence>, s': Sched)
    requires DeliveredTo(e, s, done, s') && LeftAllOk(e, s.clients, s.left) && AllTracked(e, s.clients, done, false)
    requires forall i :: 0 <= i < |done| ==> Departing(e, done[i])
    requires s.left.Keys !! Elems(Ids(done))
    ensures LeftAllOk(e, s'.clients, s'.left)
  {
    hide LeftOk, Tracked, Departing, Deliver;
    ElemsAre(done);
    forall i | 0 <= i < |done|
      ensures DeliveredOne(e, s, done[i], s') && LeftOk(e, s'.clients[done[i].id], s'.left[done[i].id])
    {
      assert DeliveredOne(e, s, done[i], s');
      DeliverOk(e, s.clients[done[i].id], done[i]);
    }
    forall id | id in s'.left
      ensures id in s'.clients && LeftOk(e, s'.clients[id], s'.left[id])
    {
      if id in Elems(Ids(done)) {
        var i :| 0 <= i < |done| && done[i].id == id;
      } else {
        assert id in s.left;
      }
    }
  }

  /** Delivery does not touch those still queued or running. */
  lemma CompletedFrame(e: Settings, s: Sched, done: seq<Sequence>, s': Sched)
    requires DeliveredTo(e, s, done, s') && AllTracked(e, s.clients, s.queue, false)
             && AllTracked(e, s.clients, s.batch.seqs, false)
    requires Elems(Ids(done)) !! Elems(Ids(s.queue)) && Elems(Ids(done)) !! Elems(Ids(s.batch.seqs))
    ensures AllTracked(e, s'.clients, s.queue, false) && AllTracked(e, s'.clients, s.batch.seqs, false)
  {
    hide Tracked, Deliver, AllTracked;
    TrackedFrame(e, s.clients, s'.clients, s.queue, false);
    TrackedFrame(e, s.clients, s'.clients, s.batch.seqs, false);
  }

  lemma FailOk(e: Settings, c: Client, q: Sequence, lag: bool)
    requires Tracked(e, c, q, lag)
    ensures LeftOk(e, Fail(c), StepFailed)
  {
    assert (c.stream + [End])[..|c.stream|] == c.stream;
  }

  lemma CancelOk(e: Settings, c: Client, q: Sequence, lag: bool)
    requires Tracked(e, c, q, lag)
    ensures LeftOk(e, Cancel(c), ShutDown)
  {
  }

  /** Every id in `running` is that of a tracked sequence. */
  lemma RunningTracked(e: Settings, s: Sched, id: Id) returns (q: Sequence)
    requires ClientsOk(e, s) && PlacesOk(e, PlacesOf(s)) && id in s.running
    ensures id in s.clients && Tracked(e, s.clients[id], q, true)
  {
    hide LeftOk, LiveOk, Ordered, Sized;
    ElemsAre(s.batch.seqs);
    ElemsAre(Newcomers(s));
    ElemsAre(Leaving(s));
    var seqs := if Holds(s.batch.seqs, id) then s.batch.seqs
                else if Holds(Newcomers(s), id) then Newcomers(s)
                else Leaving(s);
    var i :| 0 <= i < |seqs| && seqs[i].id == id;
    q := seqs[i];
  }

  lemma FailClients(e: Settings, s: Sched)
    requires ClientsOk(e, s) && PlacesOk(e, PlacesOf(s))
    ensures ClientsOk(e, DoFail(s))
  {
    hide LeftOk, Tracked, Ordered, Sized, Fail;
    var s' := DoFail(s);
    forall id | id in s.running
      ensures id in s.clients && LeftOk(e, Fail(s.clients[id]), StepFailed)
    {
      var q := RunningTracked(e, s, id);
      FailOk(e, s.clients[id], q, true);
    }
    TrackedFrame(e, s.clients, s'.clients, s.queue, false);
  }

  lemma StopClients(e: Settings, s: Sched)
    requires ClientsOk(e, s) && PlacesOk(e, PlacesOf(s))
    ensures ClientsOk(e, DoStop(s))
  {
    assert AllTracked(e, DoStop(s).clients, [], false);
    hide LeftOk, Ordered, Sized, Cancel, AllTracked, Elems, Ids;
    ElemsAre(s.queue);
    var gone := s.running + IdSet(s.queue);
    forall id | id in gone
      ensures id in s.clients && LeftOk(e, Cancel(s.clients[id]), ShutDown)
    {
      if id in s.running {
        var q := RunningTracked(e, s, id);
        CancelOk(e, s.clients[id], q, true);
      } else {
        QueuedStops(e, s.clients, s.queue, id);
      }
    }
    hide IdSet;
  }

  lemma QueuedStops(e: Settings, clients: map<Id, Client>, queue: seq<Sequence>, id: Id)
    requires AllTracked(e, clients, queue, false) && id in IdSet(queue)
    ensures id in clients && LeftOk(e, Cancel(clients[id]), ShutDown)
  {
    hide Tracked, LeftOk, Cancel;
    var i :| 0 <= i < |queue| && queue[i].id == id;
    CancelOk(e, clients[id], queue[i], false);
  }
}
