/** How far stale reads can unbalance the workers: by exactly the number of picks in flight. */
module Balance {
  import opened Options
  import opened Gateway

  /** Between its first load and its add. */
  predicate InFlight(t: Handler) {
    (t.stage.Scanning? || t.stage.Loading?) && t.stage.best.Some?
  }

  /** In flight with `w` in hand, read at `l` or less. */
  predicate AimsAt(t: Handler, w: nat, l: int) {
    InFlight(t) && t.stage.best == Some(w) && t.stage.load <= l
  }

  function Picking(): Handler -> bool {
    (t: Handler) => InFlight(t)
  }

  function Aiming(w: nat, l: int): Handler -> bool {
    (t: Handler) => AimsAt(t, w, l)
  }

  /** The count in hand is no more than that of any worker already looked at. */
  ghost predicate Scanned(g: Gate, t: Handler) {
    (t.stage.Scanning? || t.stage.Loading?) ==>
      && t.stage.next <= |g.inflight|
      && (t.stage.best.None? ==> t.stage.next == 0)
      && (t.stage.best.Some? ==>
            t.stage.best.value < |g.inflight| &&
            forall v :: 0 <= v < |g.inflight| && v < t.stage.next ==> t.stage.load <= g.inflight[v])
  }

  /** Adding to a worker everybody who aims at it from a count of `l` or less, it
      is at most `k` ahead of `l`, for every `l` that some worker has not passed. */
  ghost predicate Close(g: Gate, k: nat, w: nat, v: nat, l: int)
    requires w < |g.inflight| && v < |g.inflight|
  {
    g.inflight[v] <= l ==> g.inflight[w] + Tally(g.handlers, Aiming(w, l)) <= l + k
  }

  ghost predicate Level(g: Gate, k: nat) {
    && |g.healthy| == |g.inflight| && (forall w :: 0 <= w < |g.healthy| ==> g.healthy[w])
    && (forall i :: 0 <= i < |g.handlers| ==> Scanned(g, g.handlers[i]))
    && forall w, v, l :: 0 <= w < |g.inflight| && 0 <= v < |g.inflight| ==> Close(g, k, w, v, l)
  }

  /** No completions and no change of health. */
  predicate Calm(ev: Event) {
    !ev.CallDone? && !ev.FinishDone? && !ev.Probe?
  }

  lemma ArriveLevel(g: Gate, k: nat)
    requires Level(g, k)
    ensures Level(Step(g, Arrive), k)
  {
    var t := Handler(Arrived, Free, Free);
    var g' := Step(g, Arrive);
    forall w, v, l | 0 <= w < |g.inflight| && 0 <= v < |g.inflight|
      ensures Close(g', k, w, v, l)
    {
      assert Close(g, k, w, v, l);
      assert !AimsAt(t, w, l);
      TallySnoc(g.handlers, Aiming(w, l), t);
    }
  }

  /** A handler's own step, when it adds nothing. */
  lemma ScanLevel(g: Gate, h: nat, ev: Event, k: nat)
    requires Level(g, k) && h < |g.handlers| && ByHandler(ev) && Calm(ev) && !ev.AddOne?
    requires Tally(Move(g, h, ev).handlers, Picking()) <= k
    ensures Level(Move(g, h, ev), k)
  {
    hide Move, Advance, Scanned, Tally;
    var t, t' := g.handlers[h], Advance(g, g.handlers[h], ev);
    var g' := Move(g, h, ev);
    MoveSame(g, h, ev);
    CalmKeeps(g, h, ev);
    ScanScanned(g, t, ev);
    forall t: Handler | Scanned(g, t)
      ensures Scanned(g', t)
    {
      ScannedSame(g, g', t);
    }
    forall w, v, l | 0 <= w < |g.inflight| && 0 <= v < |g.inflight|
      ensures Close(g', k, w, v, l)
    {
      assert Close(g, k, w, v, l);
      TallyUpdate(g.handlers, Aiming(w, l), h, t');
      if AimsAt(t', w, l) && !AimsAt(t, w, l) {
        AimReads(g, t, ev, w);
        TallyLess(g'.handlers, Aiming(w, l), Picking());
      }
    }
  }

  /** Without an add or a completion the counts stay. */
  lemma CalmKeeps(g: Gate, h: nat, ev: Event)
    requires h < |g.handlers| && ByHandler(ev) && Calm(ev) && !ev.AddOne?
    ensures Move(g, h, ev).inflight == g.inflight
  {
    hide Advance;
  }

  lemma ScannedSame(g: Gate, g': Gate, t: Handler)
    requires Scanned(g, t) && g'.inflight == g.inflight
    ensures Scanned(g', t)
  {
  }

  lemma ScanScanned(g: Gate, t: Handler, ev: Event)
    requires ByHandler(ev) && !ev.AddOne? && |g.healthy| == |g.inflight| && Scanned(g, t)
    requires forall w :: 0 <= w < |g.healthy| ==> g.healthy[w]
    ensures Scanned(g, Advance(g, t, ev))
  {
  }

  /** A new aim is a fresh read. */
  lemma AimReads(g: Gate, t: Handler, ev: Event, w: nat)
    requires ByHandler(ev) && !ev.AddOne? && w < |g.inflight|
    requires var t' := Advance(g, t, ev);
             (t'.stage.Scanning? || t'.stage.Loading?) && t'.stage.best == Some(w) &&
             ((t.stage.Scanning? || t.stage.Loading?) ==> t.stage.best != Some(w) || t.stage.load != t'.stage.load)
    ensures Advance(g, t, ev).stage.load == g.inflight[w]
  {
  }

  /** The add of a pick whose scan is complete, hence whose count in hand nobody is below. */
  lemma AddLevel(g: Gate, h: nat, k: nat)
    requires Level(g, k) && h < |g.handlers| && 0 < |g.inflight| && HandlerOk(|g.inflight|, g.handlers[h])
    ensures Level(Move(g, h, AddOne(h)), k)
  {
    var t, t' := g.handlers[h], Advance(g, g.handlers[h], AddOne(h));
    var g' := Move(g, h, AddOne(h));
    assert Scanned(g, t);
    if t.stage.Scanning? && t.stage.next >= |g.inflight| {
      var b := t.stage.best.value;
      assert g'.inflight == g.inflight[b := g.inflight[b] + 1] && g'.handlers == g.handlers[h := t'];
      assert !InFlight(t') && InFlight(t);
      AddScanned(g, g', h);
      hide Move, Advance, HandlerOk;
      forall w, v, l | 0 <= w < |g.inflight| && 0 <= v < |g.inflight|
        ensures Close(g', k, w, v, l)
      {
        assert Close(g, k, w, v, l);
        TallyUpdate(g.handlers, Aiming(w, l), h, t');
      }
    } else {
      assert g' == g by { assert g.handlers[h := t] == g.handlers; }
    }
  }

  lemma AddScanned(g: Gate, g': Gate, h: nat)
    requires forall i :: 0 <= i < |g.handlers| ==> Scanned(g, g.handlers[i])
    requires |g'.inflight| == |g.inflight| && forall v :: 0 <= v < |g.inflight| ==> g.inflight[v] <= g'.inflight[v]
    requires h < |g.handlers| == |g'.handlers| && g'.handlers == g.handlers[h := g'.handlers[h]]
    requires !g'.handlers[h].stage.Scanning? && !g'.handlers[h].stage.Loading?
    ensures forall i :: 0 <= i < |g'.handlers| ==> Scanned(g', g'.handlers[i])
  {
    forall i | 0 <= i < |g'.handlers|
      ensures Scanned(g', g'.handlers[i])
    {
      assert Scanned(g, g.handlers[i]);
      assert i != h ==> g'.handlers[i] == g.handlers[i];
    }
  }

  lemma StepLevel(g: Gate, ev: Event, k: nat)
    requires Level(g, k) && Counted(g) && Calm(ev) && 0 < |g.inflight|
    requires Tally(Step(g, ev).handlers, Picking()) <= k
    ensures Level(Step(g, ev), k)
  {
    if ev.Arrive? {
      ArriveLevel(g, k);
    } else if ev.h < |g.handlers| {
      if ev.AddOne? {
        assert HandlerOk(|g.inflight|, g.handlers[ev.h]);
        AddLevel(g, ev.h, k);
      } else {
        ScanLevel(g, ev.h, ev, k);
      }
    }
  }

  /** A run without completions or changes of health in which at most `k` picks are ever in flight at once. */
  ghost predicate Crowded(g: Gate, events: seq<Event>, k: nat) {
    && Tally(Run(g, events).handlers, Picking()) <= k
    && (events != [] ==> Calm(events[|events| - 1]) && Crowded(g, events[..|events| - 1], k))
  }

  /** Equal loads, all workers healthy, and nobody in the middle of a pick. */
  ghost predicate Even(g: Gate) {
    && Counted(g) && 0 < |g.inflight|
    && (forall w :: 0 <= w < |g.healthy| ==> g.healthy[w])
    && (forall w :: 0 <= w < |g.inflight| ==> g.inflight[w] == g.inflight[0])
    && forall i :: 0 <= i < |g.handlers| ==> !g.handlers[i].stage.Scanning? && !g.handlers[i].stage.Loading?
  }

  /** No two workers differ by more than `k`. */
  ghost predicate Within(xs: seq<int>, k: int) {
    forall w, v :: 0 <= w < |xs| && 0 <= v < |xs| ==> xs[w] <= xs[v] + k
  }

  lemma EvenLevel(g: Gate, k: nat)
    requires Even(g)
    ensures Level(g, k)
  {
    forall w, v, l | 0 <= w < |g.inflight| && 0 <= v < |g.inflight|
      ensures Close(g, k, w, v, l)
    {
      assert forall i :: 0 <= i < |g.handlers| ==> !AimsAt(g.handlers[i], w, l);
      TallyNone(g.handlers, Aiming(w, l));
    }
  }

  lemma {:induction false} RunLevel(g: Gate, events: seq<Event>, k: nat)
    requires Even(g) && Crowded(g, events, k)
    ensures Level(Run(g, events), k) && Counted(Run(g, events)) && |Run(g, events).inflight| == |g.inflight|
  {
    RunCounted(g, events);
    RunSizes(g, events);
    if events == [] {
      EvenLevel(g, k);
    } else {
      var front := events[..|events| - 1];
      RunLevel(g, front, k);
      hide Level, Counted, Step;
      StepLevel(Run(g, front), events[|events| - 1], k);
    }
  }

  /** The stale-read bound: from equal loads, however loads and adds interleave, no two
      workers ever differ by more than the number of picks that are in flight at once. */
  lemma SpreadIsBounded(g: Gate, events: seq<Event>, k: nat)
    requires Even(g) && Crowded(g, events, k)
    ensures Within(Run(g, events).inflight, k)
  {
    RunLevel(g, events, k);
    var g' := Run(g, events);
    hide Run;
    forall w, v | 0 <= w < |g'.inflight| && 0 <= v < |g'.inflight|
      ensures g'.inflight[w] <= g'.inflight[v] + k
    {
      assert Close(g', k, w, v, g'.inflight[v]);
    }
  }

  // ------------------------------------------------------------------
  // The bound is reached
  // ------------------------------------------------------------------

  /** Handler `h` arrives, takes a slot and scans the first `i` workers. */
  function Scan(h: nat, i: nat): seq<Event> {
    if i == 0 then [Arrive, TakeSlot(h)] else Scan(h, i - 1) + [ReadHealth(h), ReadLoad(h)]
  }

  /** `k` handlers scan all `n` workers, one after the other. */
  function Herd(n: nat, k: nat): seq<Event> {
    if k == 0 then [] else Herd(n, k - 1) + Scan(k - 1, n)
  }

  /** Then the first `j` of them add. */
  function Stampede(n: nat, k: nat, j: nat): seq<Event> {
    if j == 0 then Herd(n, k) else Stampede(n, k, j - 1) + [AddOne(j - 1)]
  }

  lemma AtMostAll(hs: seq<Handler>)
    ensures Tally(hs, Picking()) <= |hs|
  {
    if hs != [] {
      AtMostAll(hs[..|hs| - 1]);
    }
  }

  /** `events` is such a run, and it leads to `g'`. */
  ghost predicate Leads(g: Gate, events: seq<Event>, k: nat, g': Gate) {
    Crowded(g, events, k) && Run(g, events) == g'
  }

  /** One more event, with no more handlers than picks may be in flight. */
  lemma OneMore(g: Gate, events: seq<Event>, ev: Event, k: nat, before: Gate, after: Gate)
    requires Leads(g, events, k, before) && Calm(ev) && Step(before, ev) == after && |after.handlers| <= k
    ensures Leads(g, events + [ev], k, after)
  {
    AtMostAll(after.handlers);
    hide Step;
    assert (events + [ev])[..|events|] == events;
  }

  /** A handler that has looked at the first `i` of workers that all stand at 0. */
  function Looking(i: nat): Handler {
    Handler(Scanning(i, if i == 0 then None else Some(0), 0), Held, Free)
  }

  const SERVED: Handler := Handler(Placed(0), Held, Held)

  /** `k` handlers, of whom the first `j` are placed on worker 0 and the others have it in hand. */
  function Gathered(n: nat, k: nat, j: nat): seq<Handler>
    requires j <= k
  {
    seq(k, i => if i < j then SERVED else Looking(n))
  }

  function Flock(n: nat, capacity: nat, hs: seq<Handler>, used: nat, first: nat): Gate {
    Gate(seq(n, w => if w == 0 then first else 0), seq(n, _ => true), used, capacity, hs)
  }

  lemma Enters(n: nat, capacity: nat, before: seq<Handler>, used: nat)
    requires used < capacity
    ensures var g := Flock(n, capacity, before, used, 0); var t := Handler(Arrived, Free, Free);
            && Step(g, Arrive) == Flock(n, capacity, before + [t], used, 0)
            && Step(Flock(n, capacity, before + [t], used, 0), TakeSlot(|before|))
               == Flock(n, capacity, before + [Looking(0)], used + 1, 0)
  {
    var t := Handler(Arrived, Free, Free);
    assert (before + [t])[|before| := Looking(0)] == before + [Looking(0)];
  }

  /** A handler that found worker `i` healthy. */
  function Reading(i: nat): Handler {
    Handler(Loading(i, if i == 0 then None else Some(0), 0), Held, Free)
  }

  lemma Looks(n: nat, capacity: nat, before: seq<Handler>, used: nat, i: nat)
    requires i < n
    ensures Step(Flock(n, capacity, before + [Looking(i)], used, 0), ReadHealth(|before|))
            == Flock(n, capacity, before + [Reading(i)], used, 0)
    ensures Step(Flock(n, capacity, before + [Reading(i)], used, 0), ReadLoad(|before|))
            == Flock(n, capacity, before + [Looking(i + 1)], used, 0)
  {
    var h := |before|;
    assert (before + [Looking(i)])[h := Reading(i)] == before + [Reading(i)];
    assert (before + [Reading(i)])[h := Looking(i + 1)] == before + [Looking(i + 1)];
  }

  lemma {:induction false} ScanRun(n: nat, capacity: nat, before: seq<Handler>, events: seq<Event>, most: nat, i: nat)
    requires |before| < most <= capacity && i <= n
    requires Leads(Fresh(n, capacity), events, most, Flock(n, capacity, before, |before|, 0))
    ensures Leads(Fresh(n, capacity), events + Scan(|before|, i), most,
              Flock(n, capacity, before + [Looking(i)], |before| + 1, 0))
  {
    hide Leads, Step, Flock, Fresh;
    var g0, h := Fresh(n, capacity), |before|;
    if i == 0 {
      var t := Handler(Arrived, Free, Free);
      Enters(n, capacity, before, h);
      FlockHas(n, capacity, before + [t], h);
      FlockHas(n, capacity, before + [Looking(0)], h + 1);
      OneMore(g0, events, Arrive, most, Flock(n, capacity, before, h, 0), Flock(n, capacity, before + [t], h, 0));
      OneMore(g0, events + [Arrive], TakeSlot(h), most,
        Flock(n, capacity, before + [t], h, 0), Flock(n, capacity, before + [Looking(0)], h + 1, 0));
      assert events + [Arrive] + [TakeSlot(h)] == events + Scan(h, 0);
    } else {
      ScanRun(n, capacity, before, events, most, i - 1);
      ScanOn(n, capacity, before, events + Scan(h, i - 1), most, i - 1);
      assert events + Scan(h, i - 1) + [ReadHealth(h), ReadLoad(h)] == events + Scan(h, i);
    }
  }

  lemma FlockHas(n: nat, capacity: nat, hs: seq<Handler>, used: nat)
    ensures Flock(n, capacity, hs, used, 0).handlers == hs
  {
  }

  lemma ScanOn(n: nat, capacity: nat, before: seq<Handler>, events: seq<Event>, most: nat, i: nat)
    requires |before| < most <= capacity && i < n
    requires Leads(Fresh(n, capacity), events, most, Flock(n, capacity, before + [Looking(i)], |before| + 1, 0))
    ensures Leads(Fresh(n, capacity), events + [ReadHealth(|before|), ReadLoad(|before|)], most,
              Flock(n, capacity, before + [Looking(i + 1)], |before| + 1, 0))
  {
    hide Leads, Step, Flock, Fresh;
    var g0, h := Fresh(n, capacity), |before|;
    Looks(n, capacity, before, h + 1, i);
    FlockHas(n, capacity, before + [Reading(i)], h + 1);
    FlockHas(n, capacity, before + [Looking(i + 1)], h + 1);
    OneMore(g0, events, ReadHealth(h), most,
      Flock(n, capacity, before + [Looking(i)], h + 1, 0), Flock(n, capacity, before + [Reading(i)], h + 1, 0));
    OneMore(g0, events + [ReadHealth(h)], ReadLoad(h), most,
      Flock(n, capacity, before + [Reading(i)], h + 1, 0), Flock(n, capacity, before + [Looking(i + 1)], h + 1, 0));
    assert events + [ReadHealth(h)] + [ReadLoad(h)] == events + [ReadHealth(h), ReadLoad(h)];
  }

  lemma {:induction false} HerdRun(n: nat, capacity: nat, k: nat, most: nat)
    requires k <= most <= capacity
    ensures Leads(Fresh(n, capacity), Herd(n, k), most, Flock(n, capacity, Gathered(n, k, 0), k, 0))
  {
    hide Leads, Flock, Fresh, Scan, Looking;
    if k > 0 {
      HerdRun(n, capacity, k - 1, most);
      ScanRun(n, capacity, Gathered(n, k - 1, 0), Herd(n, k - 1), most, n);
      assert Gathered(n, k - 1, 0) + [Looking(n)] == Gathered(n, k, 0);
    } else {
      HerdNone(n, capacity, most);
      assert Gathered(n, 0, 0) == [];
    }
  }

  lemma HerdNone(n: nat, capacity: nat, most: nat)
    ensures Leads(Fresh(n, capacity), [], most, Flock(n, capacity, [], 0, 0))
  {
    assert Fresh(n, capacity).inflight == Flock(n, capacity, [], 0, 0).inflight;
  }

  lemma Adds(n: nat, capacity: nat, k: nat, j: nat)
    requires 0 < n && j < k
    ensures Step(Flock(n, capacity, Gathered(n, k, j), k, j), AddOne(j)) ==
            Flock(n, capacity, Gathered(n, k, j + 1), k, j + 1)
  {
    assert Gathered(n, k, j)[j := SERVED] == Gathered(n, k, j + 1);
    var g := Flock(n, capacity, Gathered(n, k, j), k, j);
    assert g.handlers[j] == Looking(n) && Advance(g, Looking(n), AddOne(j)) == SERVED && PickOn(SERVED) == Some(0);
    assert AddTo(g.inflight, Some(0), 1) == Flock(n, capacity, Gathered(n, k, j + 1), k, j + 1).inflight;
  }

  lemma {:induction false} StampedeRun(n: nat, capacity: nat, k: nat, j: nat)
    requires 0 < n && k <= capacity && j <= k
    ensures Leads(Fresh(n, capacity), Stampede(n, k, j), k, Flock(n, capacity, Gathered(n, k, j), k, j))
  {
    hide Leads, Step, Fresh;
    if j == 0 {
      HerdRun(n, capacity, k, k);
    } else {
      StampedeRun(n, capacity, k, j - 1);
      Adds(n, capacity, k, j - 1);
      OneMore(Fresh(n, capacity), Stampede(n, k, j - 1), AddOne(j - 1), k,
        Flock(n, capacity, Gathered(n, k, j - 1), k, j - 1), Flock(n, capacity, Gathered(n, k, j), k, j));
    }
  }

  function Fewest(k: nat, capacity: nat): nat {
    if k <= capacity then k else capacity
  }

  /** Whoever is picking holds a slot, so no more picks are in flight than there are slots. */
  lemma {:induction false} CrowdedFew(g: Gate, events: seq<Event>, k: nat)
    requires Counted(g) && Crowded(g, events, k)
    ensures Crowded(g, events, Fewest(k, g.capacity))
  {
    RunCounted(g, events);
    RunSizes(g, events);
    var hs := Run(g, events).handlers;
    assert forall i :: 0 <= i < |hs| && Picking()(hs[i]) ==> HandlerOk(|g.inflight|, hs[i]) && SlotOut()(hs[i]);
    TallyLess(hs, Picking(), SlotOut());
    if events != [] {
      CrowdedFew(g, events[..|events| - 1], k);
    }
  }

  lemma {:induction false} CrowdedMore(g: Gate, events: seq<Event>, few: nat, k: nat)
    requires Crowded(g, events, few) && few <= k
    ensures Crowded(g, events, k)
  {
    if events != [] {
      CrowdedMore(g, events[..|events| - 1], few, k);
    }
  }
  lemma SpreadIsEnough(n: nat, capacity: nat, k: nat, bound: nat, events: seq<Event>)
    requires n <= 1 || Fewest(k, capacity) <= bound
    ensures Crowded(Fresh(n, capacity), events, k) ==> Within(Run(Fresh(n, capacity), events).inflight, bound)
  {
    hide Crowded, Run, Counted;
    var g := Fresh(n, capacity);
    FreshCounted(n, capacity);
    RunSizes(g, events);
    if Crowded(g, events, k) && 1 < n {
      CrowdedFew(g, events, k);
      assert Even(g);
      SpreadIsBounded(g, events, Fewest(k, capacity));
    }
  }

  /** As many picks as can be in flight at once all land on the first worker. */
  lemma SpreadIsReached(n: nat, capacity: nat, k: nat, bound: nat) returns (events: seq<Event>)
    requires 2 <= n && bound < Fewest(k, capacity)
    ensures Crowded(Fresh(n, capacity), events, k) && !Within(Run(Fresh(n, capacity), events).inflight, bound)
  {
    hide Crowded, Run, Stampede;
    var most := Fewest(k, capacity);
    StampedeRun(n, capacity, most, most);
    events := Stampede(n, most, most);
    CrowdedMore(Fresh(n, capacity), events, most, k);
    var xs := Run(Fresh(n, capacity), events).inflight;
    assert xs[0] == most && xs[1] == 0;
  }

  /** The bound is exact: a spread of `bound` is kept in every run of a fresh pool in which at most `k` picks are
      in flight at once exactly when `bound` is at least `k` or the number of slots, whichever is less, or there
      are no two workers to compare. In particular a spread of one is guaranteed only where picks never overlap. */
  lemma SpreadIsExact(n: nat, capacity: nat, k: nat, bound: nat)
    ensures (forall events :: Crowded(Fresh(n, capacity), events, k) ==>
              Within(Run(Fresh(n, capacity), events).inflight, bound))
            <==> n <= 1 || Fewest(k, capacity) <= bound
  {
    hide Crowded, Run, Within, Fresh, Fewest;
    if n <= 1 || Fewest(k, capacity) <= bound {
      forall events: seq<Event>
        ensures Crowded(Fresh(n, capacity), events, k) ==> Within(Run(Fresh(n, capacity), events).inflight, bound)
      {
        SpreadIsEnough(n, capacity, k, bound, events);
      }
    } else {
      var events := SpreadIsReached(n, capacity, k, bound);
    }
  }
}
