/** The inference engine over mutable sequences and batches, proved against what its operations compute. */
module Engine {
  import opened Options
  import opened Masks
  import opened Transformer
  import opened Sampling
  import opened KvCache
  import opened Batching
  import opened Invariant
  import opened Generation

  /** A sequence as an object: prompt and settings are fixed, `output` and `reason` change; `View` is its value. */
  class Seq {
    const id: nat
    const prompt: seq<Token>
    const params: Params
    var output: seq<Token>
    var reason: Option<Reason>

    constructor (id: nat, prompt: seq<Token>, params: Params)
      ensures View() == Sequence(id, prompt, params, [], None)
    {
      this.id, this.prompt, this.params := id, prompt, params;
      output, reason := [], None;
    }

    function View(): Sequence
      reads this
    {
      Sequence(id, prompt, params, output, reason)
    }

    predicate Finished()
      reads this
    {
      reason.Some?
    }
  }

  function Views(seqs: seq<Seq>): (views: seq<Sequence>)
    reads seqs
    ensures |views| == |seqs|
  {
    seq(|seqs|, i requires 0 <= i < |seqs| reads seqs => seqs[i].View())
  }

  ghost predicate DistinctSeqs(seqs: seq<Seq>) {
    forall i, j :: 0 <= i < j < |seqs| ==> seqs[i] != seqs[j]
  }

  /** A batch as an object over sequence objects; `View` is its value. */
  class BatchState {
    var seqs: seq<Seq>
    var cache: Cache
    var mask: seq<seq<bool>>
    var next: seq<Token>

    constructor (seqs: seq<Seq>, cache: Cache, mask: seq<seq<bool>>, next: seq<Token>)
      ensures this.seqs == seqs && this.cache == cache && this.mask == mask && this.next == next
    {
      this.seqs, this.cache, this.mask, this.next := seqs, cache, mask, next;
    }

    constructor Empty()
      ensures seqs == [] && cache == [] && mask == [] && next == []
    {
      seqs, cache, mask, next := [], [], [], [];
    }

    function View(): Batch
      reads this, seqs
    {
      Batch(Views(seqs), cache, mask, next)
    }

    ghost predicate Valid(c: Config)
      reads this, seqs
    {
      DistinctSeqs(seqs) && WellShaped(c, View())
    }
  }

  function ArrayRow<T>(a: array2<T>, i: nat): (row: seq<T>)
    requires i < a.Length0
    reads a
    ensures |row| == a.Length1
    ensures forall j :: 0 <= j < |row| ==> row[j] == a[i, j]
  {
    seq(a.Length1, j requires 0 <= j < a.Length1 reads a => a[i, j])
  }

  class LLMEngine {
    const c: Config

    constructor (c: Config)
      ensures this.c == c
    {
      this.c := c;
    }

    method MakeSequence(id: nat, ids: seq<Token>, params: Params) returns (s: Seq)
      ensures fresh(s)
      ensures s.View() == Sequence(id, Encode(c, ids), Clamp(params, c.maxNewTokens), [], None)
    {
      s := new Seq(id, Encode(c, ids), Clamp(params, c.maxNewTokens));
    }

    /** Afterwards the batch is `Emit` of what it was: only its
        pending tokens and its unfinished sequences have changed. */
    method EmitTokens(state: BatchState, logits: seq<Logits>)
      requires DistinctSeqs(state.seqs) && |logits| == |state.seqs|
      modifies state`next, state.seqs
      ensures state.View() == Emit(c, old(state.View()), logits)
    {
      var seqs := state.seqs;
      ghost var before := Views(seqs);
      var params := seq(|seqs|, i requires 0 <= i < |seqs| => seqs[i].params);
      assert params == ParamsOf(before);
      var tokens := SampleBatch(c.sampler, logits, params);
      for row := 0 to |seqs|
        invariant forall i :: 0 <= i < row ==> seqs[i].View() == EmitOne(c, before[i], tokens[i])
        invariant forall i :: row <= i < |seqs| ==> seqs[i].View() == before[i]
      {
        var s := seqs[row];
        if s.Finished() {
          continue;
        }
        var token := tokens[row];
        s.output := s.output + [token];
        if token == c.eos {
          s.reason := Some(Stop);
        } else if |s.output| >= s.params.maxTokens {
          s.reason := Some(Length);
        } else if |s.prompt| + |s.output| >= c.maxContext {
          s.reason := Some(Length);
        }
      }
      state.next := tokens;
      assert Views(seqs) == EmitAll(c, before, tokens);
    }

    /** The lanes that `Prefill` is computed from. */
    method PadPrompts(prompts: seq<seq<Token>>, ghost seqs: seq<Sequence>) returns (lanes: seq<Lane>)
      requires prompts == Prompts(seqs) && prompts != []
      ensures lanes == PromptLanes(c, seqs)
    {
      var ids, mask := LeftPadSequences(prompts, c.pad);
      lanes := [];
      for i := 0 to |prompts|
        invariant lanes == PromptLanes(c, seqs)[..i]
      {
        var maskRow := ArrayRow(mask, i);
        var idRow := ArrayRow(ids, i);
        assert idRow == PadIds(prompts[i], c.pad, ids.Length1);
        assert maskRow == LeftMask(ids.Length1, |prompts[i]|);
        lanes := lanes + [Lane(NoPast(c.model), Row(idRow, Positions(maskRow), maskRow))];
        assert lanes[i] == PromptLanes(c, seqs)[i];
      }
    }

    /** A new batch over the given objects, worth `Prefill` of what they were. */
    method PrefillBatch(seqs: seq<Seq>) returns (state: BatchState)
      requires DistinctSeqs(seqs) && Prompted(Views(seqs))
      modifies seqs
      ensures fresh(state) && state.seqs == seqs
      ensures state.View() == Prefill(c, old(Views(seqs)))
    {
      hide PromptLanes, ForwardCache, ForwardLogits, Emit, DistinctSeqs;
      if seqs == [] {
        state := new BatchState.Empty();
        return;
      }
      ghost var before := Views(seqs);
      var prompts := seq(|seqs|, i requires 0 <= i < |seqs| => seqs[i].prompt);
      assert prompts == Prompts(before);
      var lanes := PadPrompts(prompts, before);
      PromptLanesFit(c, before);
      var masks := seq(|lanes|, i requires 0 <= i < |lanes| => lanes[i].row.mask);
      state := new BatchState(seqs, ForwardCache(c.model, lanes), masks, []);
      EmitTokens(state, ForwardLogits(c.model, lanes));
    }

    /** Afterwards the batch, over the same objects, is `Decode` of what it was. */
    method DecodeStep(state: BatchState)
      requires state.Valid(c)
      modifies state, state.seqs
      ensures state.seqs == old(state.seqs)
      ensures state.View() == Decode(c, old(state.View()))
      ensures state.Valid(c)
    {
      DecodeShape(c, state.View());
      if state.seqs == [] {
        return;
      }
      ghost var before := state.View();
      var lanes := NextLanes(c, state.View());
      var masks := seq(|lanes|, i requires 0 <= i < |lanes| => lanes[i].row.mask);
      state.cache := ForwardCache(c.model, lanes);
      state.mask := masks;
      EmitTokens(state, ForwardLogits(c.model, lanes));
    }

    /** Afterwards the batch is `Compact` of what it was; sequences and pending tokens are not written. */
    method CompactBatch(state: BatchState)
      requires state.Valid(c)
      modifies state`mask, state`cache
      ensures state.View() == Compact(c, old(state.View()))
    {
      if state.seqs == [] {
        return;
      }
      var b := state.View();
      var lead := LeadingBlanks(state.mask, Width(b));
      if lead == 0 {
        return;
      }
      ShapedWidths(state.cache, c.model.layers, |state.seqs|, Width(b));
      var mask := state.mask;
      state.mask := seq(|mask|, i requires 0 <= i < |mask| && lead <= |mask[i]| => mask[i][lead..]);
      state.cache := DropColumns(state.cache, lead);
    }

    /** A new batch over the unfinished objects, before compaction. */
    method KeepRows(state: BatchState, keep: seq<nat>) returns (after: BatchState)
      requires state.Valid(c) && keep == RowsWhere(Views(state.seqs), false) && keep != []
      ensures fresh(after) && after.seqs == Select(state.seqs, keep)
      ensures after.View() == Survivors(c, state.View()) && after.Valid(c)
    {
      ghost var b := state.View();
      ShapedWidths(state.cache, c.model.layers, |state.seqs|, Width(b));
      hide RowsWhere, Shaped;
      after := new BatchState(
        Select(state.seqs, keep), SelectRows(state.cache, keep), Select(state.mask, keep), Select(state.next, keep));
      assert after.View() == Survivors(c, b);
    }

    /** `after` holds the unfinished objects and is worth `Evict`;
        `done` lists the finished ones, in row order; no object changes. */
    method EvictFinished(state: BatchState) returns (after: BatchState, done: seq<Seq>)
      requires state.Valid(c)
      ensures after == state || fresh(after)
      ensures after.View() == Evict(c, old(state.View())) && after.Valid(c)
      ensures Views(done) == Done(old(state.View()))
      ensures after.seqs == Select(state.seqs, RowsWhere(Views(state.seqs), false))
      ensures done == Select(state.seqs, RowsWhere(Views(state.seqs), true))
    {
      hide WellShaped, Survivors, Compact, RowsWhere;
      EvictShape(c, state.View());
      var views := Views(state.seqs);
      var keep, gone := RowsWhere(views, false), RowsWhere(views, true);
      done := Select(state.seqs, gone);
      assert Views(done) == Done(state.View());
      if done == [] {
        AllUnfinished(views);
        assert Select(state.seqs, keep) == state.seqs;
        return state, done;
      }
      if keep == [] {
        NobodyStays(c, state.View());
        after := new BatchState.Empty();
        return;
      }
      after := KeepRows(state, keep);
      CompactBatch(after);
    }

    /** A new batch over the objects of both, worth `Splice` of the two. */
    method SpliceBatch(state: BatchState, prefilled: BatchState) returns (after: BatchState)
      requires 0 < c.model.layers
      requires state.Valid(c) && prefilled.Valid(c) && state.seqs != [] && prefilled.seqs != []
      requires DistinctSeqs(state.seqs + prefilled.seqs)
      ensures fresh(after) && after.seqs == state.seqs + prefilled.seqs
      ensures after.View() == Splice(c, state.View(), prefilled.View()) && after.Valid(c)
    {
      SpliceShape(c, state.View(), prefilled.View());
      var width := Max(|state.mask[0]|, |prefilled.mask[0]|);
      var cache := ConcatBatch(state.cache, prefilled.cache);
      var mask := PadMasks(state.mask, width) + PadMasks(prefilled.mask, width);
      after := new BatchState(state.seqs + prefilled.seqs, cache, mask, state.next + prefilled.next);
      assert Views(after.seqs) == state.View().seqs + prefilled.View().seqs;
    }

    /** A batch over the running objects and then the newcomers, worth `Admit` of what they were. */
    method AdmitBatch(state: BatchState, newcomers: seq<Seq>) returns (after: BatchState)
      requires 0 < c.model.layers
      requires state.Valid(c)
      requires DistinctSeqs(state.seqs + newcomers) && Prompted(Views(newcomers))
      modifies newcomers
      ensures after == state || fresh(after)
      ensures after.seqs == state.seqs + newcomers
      ensures after.View() == Admit(c, old(state.View()), old(Views(newcomers))) && after.Valid(c)
    {
      hide Prefill, WellShaped, Splice, Prompted, DistinctSeqs, Admit, Views;
      ghost var b, ns := state.View(), Views(newcomers);
      AdmitCases(c, b, ns);
      if newcomers == [] {
        assert state.seqs + newcomers == state.seqs;
        return state;
      }
      DistinctParts(state.seqs, newcomers);
      var prefilled := PrefillBatch(newcomers);
      assert state.View() == b;
      if state.seqs == [] {
        assert state.seqs + newcomers == newcomers;
        return prefilled;
      }
      after := SpliceBatch(state, prefilled);
    }

    /** Returns the output of `Solo`, so the loop terminates. */
    method GenerateWithKvCache(id: nat, ids: seq<Token>, maxNewTokens: int, params: Params) returns (output: seq<Token>)
      requires 2 <= c.maxContext
      ensures Encode(c, ids) != []
      ensures output == Solo(c, CachedRequest(c, id, ids, maxNewTokens, params)).output
    {
      hide Encode, Clamp, WellShaped, Prefill, Decode, Shaped;
      EncodeLeavesRoom(c, ids);
      var s := MakeSequence(id, ids, params.(maxTokens := maxNewTokens));
      ghost var request := s.View();
      assert Views([s]) == [request];
      PrefillShape(c, [request]);
      var state := PrefillBatch([s]);
      SoloKeepsOne(c, state.View());
      while !s.Finished()
        invariant fresh(state) && fresh(s) && state.seqs == [s] && state.Valid(c)
        invariant |SoloLoop(c, state.View()).seqs| == 1 && SoloLoop(c, state.View()).seqs[0] == Solo(c, request)
        decreases Patience(s.View())
      {
        assert state.View().seqs[0] == s.View();
        DecodeLone(c, state.View());
        DecodeStep(state);
        assert state.View().seqs[0] == s.View();
      }
      assert state.View().seqs[0] == s.View();
      output := s.output;
    }

    method MakeAll(prompts: seq<seq<Token>>, maxNewTokens: int, params: Params) returns (seqs: seq<Seq>)
      ensures |seqs| == |prompts| && DistinctSeqs(seqs) && fresh(seqs)
      ensures forall j :: 0 <= j < |prompts| ==>
                seqs[j].View() == CachedRequest(c, j, prompts[j], maxNewTokens, params)
    {
      seqs := [];
      for i := 0 to |prompts|
        invariant |seqs| == i && DistinctSeqs(seqs) && fresh(seqs)
        invariant forall j :: 0 <= j < i ==> seqs[j].View() == CachedRequest(c, j, prompts[j], maxNewTokens, params)
      {
        var s := MakeSequence(i, prompts[i], params.(maxTokens := maxNewTokens));
        seqs := seqs + [s];
      }
    }

    /** One decode step of a static batch; sequences outside the batch are untouched. */
    method RoundDecode(state: BatchState, ghost seqs: seq<Seq>, ghost rows: seq<nat>)
      requires DistinctSeqs(seqs) && Ascending(rows, |seqs|)
      requires state.Valid(c) && state.seqs == Select(seqs, rows)
      modifies state, seqs
      ensures state.Valid(c) && state.seqs == old(state.seqs)
      ensures state.View() == Decode(c, old(state.View()))
      ensures Moved(old(Views(seqs)), Views(seqs), rows, state.View().seqs)
    {
      hide WellShaped, Decode;
      assert forall k :: 0 <= k < |rows| ==> state.seqs[k] == seqs[rows[k]] && seqs[rows[k]] in seqs;
      DecodeStep(state);
    }

    /** Evict the finished rows of a static batch. */
    method RoundEvict(state: BatchState, ghost seqs: seq<Seq>, ghost requests: seq<Sequence>,
        ghost fed: seq<seq<Token>>, ghost rows: seq<nat>)
      returns (after: BatchState, ghost fed': seq<seq<Token>>, ghost rows': seq<nat>)
      requires StaticBatch(c, state, seqs, requests, fed, rows)
      ensures after == state || fresh(after)
      ensures StaticBatch(c, after, seqs, requests, fed', rows')
      ensures LessToDo(state.View(), after.View())
    {
      hide WellShaped, TotalPatience, Serving, Evict, Done, FedAfterEvict, LessToDo, Views;
      ghost var b := state.View();
      ghost var keep := RowsWhere(b.seqs, false);
      EvictServing(c, b, fed, Views(seqs), requests, rows);
      SelectTwice(seqs, rows, keep);
      AscendingSelect(rows, keep, |seqs|);
      fed', rows' := FedAfterEvict(b, fed), Select(rows, keep);
      hide Select;
      var done;
      after, done := EvictFinished(state);
    }

    /** Evict and decode until the batch is empty: then every sequence is finished, by rule. */
    method RunStatic(first: BatchState, seqs: seq<Seq>, ghost requests: seq<Sequence>, ghost fed0: seq<seq<Token>>,
      ghost rows0: seq<nat>)
      requires DistinctSeqs(seqs) && StaticBatch(c, first, seqs, requests, fed0, rows0)
      modifies first, seqs
      ensures AllServed(c, Views(seqs), requests)
    {
      hide WellShaped, TotalPatience, Serving, Decode, Moved, AllServed, AllOpen, RowsWhere;
      var state := first;
      ghost var fed, rows := fed0, rows0;
      while state.seqs != []
        invariant state == first || fresh(state)
        invariant StaticBatch(c, state, seqs, requests, fed, rows)
        decreases TotalPatience(state.View().seqs)
      {
        ghost var views := Views(seqs);
        state, fed, rows := RoundEvict(state, seqs, requests, fed, rows);
        if state.seqs == [] {
          break;
        }
        ghost var kept := state.View();
        StaticPositions(c, kept, fed, views, requests, rows);
        assert PositionsOk(c, kept, []);
        RoundDecode(state, seqs, rows);
        DecodeServing(c, kept, fed, views, requests, rows, Views(seqs));
        fed := FedAfter(kept, fed);
      }
      EmptyServes(c, state.View(), fed, Views(seqs), requests, rows);
    }

    /** Returns, prompt by prompt, the output of `Solo`. */
    method GenerateBatch(prompts: seq<seq<Token>>, maxNewTokens: int, params: Params) returns (outputs: seq<seq<Token>>)
      requires 2 <= c.maxContext
      ensures |outputs| == |prompts|
      ensures forall i :: 0 <= i < |prompts| ==>
                Encode(c, prompts[i]) != [] &&
                outputs[i] == Solo(c, CachedRequest(c, i, prompts[i], maxNewTokens, params)).output
    {
      hide Solo, Encode, Clamp, WellShaped, Prefill, Serving, AllServed, Lawful, Fresh, PositionsOk, BatchOk, Prompted;
      var seqs := MakeAll(prompts, maxNewTokens, params);
      ghost var requests := Views(seqs);
      StaticRequests(c, prompts, maxNewTokens, params, requests);
      StaticPrefill(c, prompts, requests);
      assert PositionsOk(c, EMPTY, requests);
      PrefillOk(c, requests);
      var state := PrefillBatch(seqs);
      ghost var rows: seq<nat> := seq(|seqs|, i => i);
      BatchSizes(c, state.View(), Prompts(requests));
      PrefillServing(c, state.View(), Prompts(requests), requests, rows);
      assert Select(seqs, rows) == seqs;
      RunStatic(state, seqs, requests, Prompts(requests), rows);
      outputs := Outputs(Views(seqs));
      ServedAreSolo(c, Views(seqs), requests);
    }

    /** Returns `Uncached`, the reference of the caching theorems. */
    method GenerateWithoutCache(ids: seq<Token>, maxNewTokens: int) returns (generated: seq<Token>)
      requires 2 <= c.maxContext
      ensures Encode(c, ids) != []
      ensures generated == Uncached(c, Encode(c, ids), maxNewTokens)
    {
      EncodeLeavesRoom(c, ids);
      var prompt := Encode(c, ids);
      generated := [];
      var left := Max(0, maxNewTokens);
      while left > 0
        invariant 0 <= left
        invariant Uncached(c, prompt, maxNewTokens) == UncachedFrom(c, prompt, generated, left)
      {
        var token := ArgMax(PlainLogits(c.model, Window(c, prompt + generated)));
        generated := generated + [token];
        if token == c.eos {
          return;
        }
        left := left - 1;
      }
    }
  }

  lemma AdmitCases(c: Config, b: Batch, ns: seq<Sequence>)
    requires WellShaped(c, b) && Prompted(ns)
    ensures WellShaped(c, Prefill(c, ns))
    ensures ns == [] ==> Admit(c, b, ns) == b
    ensures ns != [] && b.seqs == [] ==> Admit(c, b, ns) == Prefill(c, ns)
    ensures ns != [] && b.seqs != [] ==> Admit(c, b, ns) == Splice(c, b, Prefill(c, ns))
  {
    PrefillShape(c, ns);
    hide Prefill, Splice;
  }

  lemma NobodyStays(c: Config, b: Batch)
    requires WellShaped(c, b) && RowsWhere(b.seqs, false) == []
    ensures Compact(c, Survivors(c, b)) == EMPTY
  {
  }

  /** `s` is the lawful state of `request`, which nobody abandoned. */
  ghost predicate Served(c: Config, s: Sequence, request: Sequence) {
    Lawful(c, s) && Original(s) == request && s.reason != Some(Abandoned)
  }

  lemma SelectTwice<T>(xs: seq<T>, a: seq<nat>, b: seq<nat>)
    requires Ascending(a, |xs|) && Ascending(b, |a|)
    ensures Select(Select(xs, a), b) == Select(xs, Select(a, b))
  {
  }

  lemma AscendingSelect(a: seq<nat>, b: seq<nat>, n: nat)
    requires Ascending(a, n) && Ascending(b, |a|)
    ensures Ascending(Select(a, b), n)
  {
  }

  ghost predicate Serves(c: Config, views: seq<Sequence>, requests: seq<Sequence>, rows: seq<nat>, i: nat)
    requires i < |views| == |requests|
  {
    Served(c, views[i], requests[i]) && (views[i].Finished() || i in rows)
  }

  /** A static batch in progress: row `k` of the batch is sequence `rows[k]`, and every request
      is lawfully served, by a row of the batch or, once finished, by its own sequence. */
  ghost predicate Serving(c: Config, b: Batch, fed: seq<seq<Token>>, views: seq<Sequence>, requests: seq<Sequence>,
      rows: seq<nat>)
  {
    && BatchOk(c, b, fed)
    && |views| == |requests| && |rows| == |b.seqs| && Ascending(rows, |views|)
    && (forall k :: 0 <= k < |rows| ==> b.seqs[k] == views[rows[k]])
    && forall i :: 0 <= i < |views| ==> Serves(c, views, requests, rows, i)
  }

  predicate AllOpen(seqs: seq<Sequence>) {
    forall i :: 0 <= i < |seqs| ==> !seqs[i].Finished()
  }

  ghost predicate LessToDo(before: Batch, after: Batch) {
    AllOpen(after.seqs) && TotalPatience(after.seqs) <= TotalPatience(before.seqs)
  }

  /** The rows of a batch have moved on to `after`; no other sequence has changed. */
  ghost predicate Moved(before: seq<Sequence>, views: seq<Sequence>, rows: seq<nat>, after: seq<Sequence>) {
    && |views| == |before| && |rows| == |after| && Ascending(rows, |views|)
    && (forall k :: 0 <= k < |rows| ==> views[rows[k]] == after[k])
    && forall i :: 0 <= i < |views| && i !in rows ==> views[i] == before[i]
  }

  ghost predicate AllServed(c: Config, views: seq<Sequence>, requests: seq<Sequence>) {
    |views| == |requests| && forall i :: 0 <= i < |views| ==> Served(c, views[i], requests[i]) && views[i].Finished()
  }

  lemma EmptyServes(c: Config, b: Batch, fed: seq<seq<Token>>, views: seq<Sequence>, requests: seq<Sequence>,
      rows: seq<nat>)
    requires Serving(c, b, fed, views, requests, rows) && b.seqs == []
    ensures AllServed(c, views, requests)
  {
    forall i | 0 <= i < |views|
      ensures Served(c, views[i], requests[i]) && views[i].Finished()
    {
      assert Serves(c, views, requests, rows, i);
    }
  }

  ghost predicate StaticBatch(c: Config, state: BatchState, seqs: seq<Seq>, requests: seq<Sequence>,
      fed: seq<seq<Token>>, rows: seq<nat>)
    reads state, state.seqs, seqs
  {
    && |fed| == |state.seqs| == |rows| == |state.next|
    && state.Valid(c) && Ascending(rows, |seqs|) && state.seqs == Select(seqs, rows)
    && Serving(c, state.View(), fed, Views(seqs), requests, rows)
  }

  lemma PrefilledOriginal(c: Config, requests: seq<Sequence>, i: nat)
    requires Prompted(requests) && i < |requests|
    requires requests[i].reason.None? && requests[i].output == []
    ensures Original(Prefill(c, requests).seqs[i]) == requests[i]
    ensures Prefill(c, requests).seqs[i].reason != Some(Abandoned)
  {
    hide ForwardCache, ForwardLogits, SampleEach, PromptLanes;
  }

  lemma LawfulRow(c: Config, b: Batch, fed: seq<seq<Token>>, i: nat)
    requires BatchOk(c, b, fed) && i < |b.seqs|
    ensures Lawful(c, b.seqs[i])
  {
    assert RowAt(c, b, fed, i);
  }

  lemma PrefillServing(c: Config, b: Batch, fed: seq<seq<Token>>, requests: seq<Sequence>, rows: seq<nat>)
    requires BatchOk(c, b, fed)
    requires forall i :: 0 <= i < |requests| ==> Fresh(requests[i]) && requests[i].reason.None?
    requires Prompted(requests) && b == Prefill(c, requests)
    requires |rows| == |requests| && forall i :: 0 <= i < |rows| ==> rows[i] == i
    ensures Serving(c, b, fed, b.seqs, requests, rows)
  {
    hide BatchOk, WellShaped, Lawful, Prefill, Prompted;
    BatchSizes(c, b, fed);
    forall i | 0 <= i < |requests|
      ensures Serves(c, b.seqs, requests, rows, i)
    {
      PrefilledOriginal(c, requests, i);
      LawfulRow(c, b, fed, i);
      assert rows[i] in rows;
    }
  }

  lemma EvictServing(c: Config, b: Batch, fed: seq<seq<Token>>, views: seq<Sequence>, requests: seq<Sequence>,
      rows: seq<nat>)
    requires Serving(c, b, fed, views, requests, rows)
    ensures var keep := RowsWhere(b.seqs, false);
            && Serving(c, Evict(c, b), FedAfterEvict(b, fed), views, requests, Select(rows, keep))
            && LessToDo(b, Evict(c, b))
            && |FedAfterEvict(b, fed)| == |Evict(c, b).seqs| == |Evict(c, b).next|
  {
    hide BatchOk, WellShaped, Served, Evict, FedAfterEvict, TotalPatience, RowsWhere;
    var keep := RowsWhere(b.seqs, false);
    BatchSizes(c, b, fed);
    EvictOk(c, b, fed);
    BatchSizes(c, Evict(c, b), FedAfterEvict(b, fed));
    SurvivorsPatience(b.seqs);
    AscendingSelect(rows, keep, |views|);
    forall i | 0 <= i < |views|
      ensures Serves(c, views, requests, Select(rows, keep), i)
    {
      EvictServes(c, b.seqs, views, requests, rows, i);
    }
  }

  lemma EvictServes(c: Config, seqs: seq<Sequence>, views: seq<Sequence>, requests: seq<Sequence>, rows: seq<nat>,
      i: nat)
    requires i < |views| == |requests| && |rows| == |seqs|
    requires forall k :: 0 <= k < |rows| ==> rows[k] < |views| && seqs[k] == views[rows[k]]
    requires Serves(c, views, requests, rows, i)
    ensures Serves(c, views, requests, Select(rows, RowsWhere(seqs, false)), i)
  {
    hide Served, RowsWhere;
    var keep := RowsWhere(seqs, false);
    if !views[i].Finished() {
      var k :| 0 <= k < |rows| && rows[k] == i;
      RowsWhereComplete(seqs, false, k);
      var j :| 0 <= j < |keep| && keep[j] == k;
      assert Select(rows, keep)[j] == i;
    }
  }

  lemma DecodeServing(c: Config, b: Batch, fed: seq<seq<Token>>, views: seq<Sequence>, requests: seq<Sequence>,
      rows: seq<nat>, views': seq<Sequence>)
    requires Serving(c, b, fed, views, requests, rows) && b.seqs != []
    requires AllOpen(b.seqs)
    requires WellShaped(c, b) && Moved(views, views', rows, Decode(c, b).seqs)
    ensures Serving(c, Decode(c, b), FedAfter(b, fed), views', requests, rows)
    ensures TotalPatience(Decode(c, b).seqs) < TotalPatience(b.seqs)
    ensures |FedAfter(b, fed)| == |Decode(c, b).seqs| == |Decode(c, b).next|
  {
    DecodeOk(c, b, fed);
    LessPatience(b.seqs, Decode(c, b).seqs);
    forall i | 0 <= i < |views|
      ensures Serves(c, views', requests, rows, i)
    {
      DecodeServes(c, b, fed, views, requests, rows, views', i);
    }
  }

  lemma StaticRequests(c: Config, prompts: seq<seq<Token>>, maxNewTokens: int, params: Params, requests: seq<Sequence>)
    requires 2 <= c.maxContext && |requests| == |prompts|
    requires forall i :: 0 <= i < |prompts| ==> requests[i] == CachedRequest(c, i, prompts[i], maxNewTokens, params)
    ensures forall i :: 0 <= i < |prompts| ==>
              Encode(c, prompts[i]) != [] && Fresh(requests[i]) && requests[i].reason.None? && requests[i].output == []
    ensures Prompted(requests)
  {
    hide Encode, Clamp;
    forall i | 0 <= i < |prompts|
      ensures Encode(c, prompts[i]) != []
    {
      EncodeLeavesRoom(c, prompts[i]);
    }
  }

  /** In a static batch every decode step is at the right positions,
      below the context window: only unfinished rows are fed. */
  lemma StaticPositions(c: Config, b: Batch, fed: seq<seq<Token>>, views: seq<Sequence>, requests: seq<Sequence>,
      rows: seq<nat>)
    requires Serving(c, b, fed, views, requests, rows) && AllOpen(b.seqs)
    ensures PositionsOk(c, b, [])
  {
    BatchSizes(c, b, fed);
    hide Serves;
    forall i | 0 <= i < |b.seqs|
      ensures NextLanes(c, b)[i].row.positions == [|b.seqs[i].prompt| + |b.seqs[i].output| - 1]
      ensures |b.seqs[i].prompt| + |b.seqs[i].output| - 1 < c.maxContext - 1
    {
      assert RowAt(c, b, fed, i);
      hide BatchOk, RowOk, NextLanes, Open, Aligned;
      DecodePositions(c, b, fed, i);
    }
  }

  /** And so is its prefill. */
  lemma StaticPrefill(c: Config, prompts: seq<seq<Token>>, requests: seq<Sequence>)
    requires 2 <= c.maxContext && |requests| == |prompts|
    requires forall i :: 0 <= i < |prompts| ==> requests[i].prompt == Encode(c, prompts[i])
    ensures PositionsOk(c, EMPTY, requests)
  {
    hide Encode, PromptPlaced, PromptLanes;
    forall i | 0 <= i < |requests|
      ensures 1 <= |requests[i].prompt| < c.maxContext
    {
      EncodeLeavesRoom(c, prompts[i]);
    }
    assert Prompted(requests);
    forall i | 0 <= i < |requests|
      ensures PromptPlaced(PromptLanes(c, requests)[i].row, requests[i].prompt)
    {
      PromptTokens(c, requests, i);
    }
  }

  lemma DecodeServes(c: Config, b: Batch, fed: seq<seq<Token>>, views: seq<Sequence>, requests: seq<Sequence>,
      rows: seq<nat>, views': seq<Sequence>, i: nat)
    requires BatchOk(c, b, fed) && |views| == |requests| && i < |views| && |rows| == |b.seqs|
    requires Moved(views, views', rows, Decode(c, b).seqs) && AllOpen(b.seqs)
    requires forall k :: 0 <= k < |rows| ==> b.seqs[k] == views[rows[k]]
    requires Serves(c, views, requests, rows, i)
    ensures Serves(c, views', requests, rows, i)
  {
    hide BatchOk, Lawful, Decode;
    if i in rows {
      var k :| 0 <= k < |rows| && rows[k] == i;
      DecodedRow(c, b, fed, k);
      assert views'[i] == Decode(c, b).seqs[k];
    }
  }

  lemma DecodedRow(c: Config, b: Batch, fed: seq<seq<Token>>, k: nat)
    requires BatchOk(c, b, fed) && k < |b.seqs| && AllOpen(b.seqs)
    ensures WellShaped(c, b) && k < |Decode(c, b).seqs|
    ensures var s := Decode(c, b).seqs[k];
            Lawful(c, s) && Original(s) == Original(b.seqs[k]) && s.reason != Some(Abandoned)
  {
    BatchSizes(c, b, fed);
    DecodeOk(c, b, fed);
    LawfulRow(c, Decode(c, b), FedAfter(b, fed), k);
    hide BatchOk, WellShaped, Lawful, ForwardCache, ForwardLogits, SampleEach, NextLanes;
  }

  function Outputs(views: seq<Sequence>): seq<seq<Token>> {
    seq(|views|, i requires 0 <= i < |views| => views[i].output)
  }

  lemma ServedAreSolo(c: Config, views: seq<Sequence>, requests: seq<Sequence>)
    requires AllServed(c, views, requests)
    ensures forall i :: 0 <= i < |requests| ==>
              requests[i].prompt != [] && Outputs(views)[i] == Solo(c, requests[i]).output
  {
    forall i | 0 <= i < |requests|
      ensures requests[i].prompt != [] && views[i].output == Solo(c, requests[i]).output
    {
      assert Served(c, views[i], requests[i]);
      LawfulMatchesSolo(c, views[i]);
    }
  }

  function TotalPatience(seqs: seq<Sequence>): nat {
    if seqs == [] then 0 else TotalPatience(seqs[..|seqs| - 1]) + Patience(seqs[|seqs| - 1])
  }

  lemma {:induction false} SurvivorsPatience(seqs: seq<Sequence>)
    ensures TotalPatience(Select(seqs, RowsWhere(seqs, false))) <= TotalPatience(seqs)
  {
    if seqs != [] {
      var n := |seqs| - 1;
      SurvivorsPatience(seqs[..n]);
      var kept := Select(seqs[..n], RowsWhere(seqs[..n], false));
      var all := Select(seqs, RowsWhere(seqs, false));
      if seqs[n].Finished() {
        assert all == kept;
      } else {
        assert all == kept + [seqs[n]];
      }
    }
  }

  lemma {:induction false} LessPatience(before: seq<Sequence>, after: seq<Sequence>)
    requires |before| == |after|
    requires forall i :: 0 <= i < |before| ==> Patience(after[i]) < Patience(before[i])
    ensures TotalPatience(after) + |before| <= TotalPatience(before)
  {
    if before != [] {
      LessPatience(before[..|before| - 1], after[..|before| - 1]);
    }
  }

  lemma DistinctParts(a: seq<Seq>, b: seq<Seq>)
    requires DistinctSeqs(a + b)
    ensures DistinctSeqs(a) && DistinctSeqs(b)
    ensures forall i :: 0 <= i < |a| ==> a[i] !in b
  {
    assert forall i :: 0 <= i < |a| ==> a[i] == (a + b)[i];
    assert forall i :: 0 <= i < |b| ==> b[i] == (a + b)[|a| + i];
  }

  lemma {:induction false} AllUnfinished(seqs: seq<Sequence>)
    requires RowsWhere(seqs, true) == []
    ensures |RowsWhere(seqs, false)| == |seqs| && forall i :: 0 <= i < |seqs| ==> RowsWhere(seqs, false)[i] == i
  {
    if seqs != [] {
      AllUnfinished(seqs[..|seqs| - 1]);
    }
  }
}
