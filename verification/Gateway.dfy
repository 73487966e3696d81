/** The gateway's admission and routing as a protocol: any
    number of handlers, interleaved load by load and add by add. */
module Gateway {
  import opened Options

  /** One use of something that must be given back once: the flag
      of its closure, and whether giving back is still under way. */
  datatype Lease = Free | Held | Returning | Returned {
    predicate Out() { this == Held || this == Returning }
  }

  /** How far a handler has come. `Scanning`: about to look at the health of worker `next`. `Loading`: found it
      healthy, about to read its load. `best` is the least loaded worker read so far, `load` what was read then. */
  datatype Stage =
    | Arrived
    | Refused
    | Scanning(next: nat, best: Option<nat>, load: int)
    | Loading(next: nat, best: Option<nat>, load: int)
    | Placed(worker: nat)
    | NoWorkers

  datatype Handler = Handler(stage: Stage, slot: Lease, pick: Lease)

  /** Inflight counts and health of the workers, admission slots, and the handlers. */
  datatype Gate = Gate(inflight: seq<int>, healthy: seq<bool>, used: int, capacity: nat, handlers: seq<Handler>)

  datatype Event =
    | Arrive
    | TakeSlot(h: nat)
    | ReadHealth(h: nat)
    | ReadLoad(h: nat)
    | AddOne(h: nat)
    | CallDone(h: nat)
    | FinishDone(h: nat)
    | CallRelease(h: nat)
    | FinishRelease(h: nat)
    | Probe(worker: nat, up: bool)

  // ------------------------------------------------------------------
  // Steps
  // ------------------------------------------------------------------

  function Better(best: Option<nat>, load: int, y: int): bool {
    best.None? || y < load
  }

  /** What the handler of an event becomes. Handlers run `done` before `release`; both closures may be called again. */
  function Advance(g: Gate, t: Handler, ev: Event): Handler {
    match ev
    case TakeSlot(_) =>
      if !t.stage.Arrived? then t
      else if g.used < g.capacity then t.(stage := Scanning(0, None, 0), slot := Held)
      else t.(stage := Refused)
    case ReadHealth(_) =>
      if t.stage.Scanning? && t.stage.next < |g.inflight| then
        t.(stage := if t.stage.next < |g.healthy| && g.healthy[t.stage.next]
                    then Loading(t.stage.next, t.stage.best, t.stage.load)
                    else Scanning(t.stage.next + 1, t.stage.best, t.stage.load))
      else t
    case ReadLoad(_) =>
      if t.stage.Loading? && t.stage.next < |g.inflight| then
        var y := g.inflight[t.stage.next];
        t.(stage := if Better(t.stage.best, t.stage.load, y) then Scanning(t.stage.next + 1, Some(t.stage.next), y)
                    else Scanning(t.stage.next + 1, t.stage.best, t.stage.load))
      else t
    case AddOne(_) =>
      if t.stage.Scanning? && t.stage.next >= |g.inflight| then
        if t.stage.best.Some? then t.(stage := Placed(t.stage.best.value), pick := Held) else t.(stage := NoWorkers)
      else t
    case CallDone(_) =>
      if t.pick.Held? then t.(pick := Returning) else t
    case FinishDone(_) =>
      if t.pick.Returning? then t.(pick := Returned) else t
    case CallRelease(_) =>
      if t.slot.Held? && (t.stage.NoWorkers? || t.pick.Returned?) then t.(slot := Returning) else t
    case FinishRelease(_) =>
      if t.slot.Returning? then t.(slot := Returned) else t
    case _ => t
  }

  predicate ByHandler(ev: Event) {
    !ev.Arrive? && !ev.Probe?
  }

  /** The worker whose count a handler's pick is on, if it is out. */
  function PickOn(t: Handler): Option<nat> {
    if t.stage.Placed? && t.pick.Out() then Some(t.stage.worker) else None
  }

  function AddTo(xs: seq<int>, w: Option<nat>, d: int): seq<int> {
    if w.Some? && w.value < |xs| then xs[w.value := xs[w.value] + d] else xs
  }

  /** An event of a handler: its own part, and what it does to the shared counts. */
  function Move(g: Gate, h: nat, ev: Event): Gate
    requires h < |g.handlers|
  {
    var t := g.handlers[h];
    var t' := Advance(g, t, ev);
    var g' := g.(handlers := g.handlers[h := t']);
    match ev
    case TakeSlot(_) => if t.slot.Free? && t'.slot.Held? then g'.(used := g.used + 1) else g'
    case AddOne(_) => if t.pick.Free? && t'.pick.Held? then g'.(inflight := AddTo(g.inflight, PickOn(t'), 1)) else g'
    case FinishDone(_) => if t.pick.Returning? then g'.(inflight := AddTo(g.inflight, PickOn(t), -1)) else g'
    case FinishRelease(_) => if t.slot.Returning? then g'.(used := g.used - 1) else g'
    case _ => g'
  }

  function Step(g: Gate, ev: Event): Gate {
    if ev.Arrive? then g.(handlers := g.handlers + [Handler(Arrived, Free, Free)])
    else if ev.Probe? then
      if ev.worker < |g.healthy| then g.(healthy := g.healthy[ev.worker := ev.up]) else g
    else if ev.h < |g.handlers| then Move(g, ev.h, ev)
    else g
  }

  function Run(g: Gate, events: seq<Event>): Gate {
    if events == [] then g else Step(Run(g, events[..|events| - 1]), events[|events| - 1])
  }

  /** A fresh pool: every worker assumed healthy, nothing in flight. */
  function Fresh(workers: nat, capacity: nat): Gate {
    Gate(seq(workers, _ => 0), seq(workers, _ => true), 0, capacity, [])
  }

  // ------------------------------------------------------------------
  // Counting handlers
  // ------------------------------------------------------------------

  function One(b: bool): nat {
    if b then 1 else 0
  }

  function Tally(hs: seq<Handler>, p: Handler -> bool): nat {
    if hs == [] then 0 else Tally(hs[..|hs| - 1], p) + One(p(hs[|hs| - 1]))
  }

  lemma {:induction false} TallyUpdate(hs: seq<Handler>, p: Handler -> bool, h: nat, t: Handler)
    requires h < |hs|
    ensures Tally(hs[h := t], p) + One(p(hs[h])) == Tally(hs, p) + One(p(t))
    ensures One(p(hs[h])) <= Tally(hs, p)
  {
    var n := |hs| - 1;
    if h < n {
      assert hs[h := t][..n] == hs[..n][h := t];
      TallyUpdate(hs[..n], p, h, t);
    } else {
      assert hs[h := t][..n] == hs[..n];
    }
  }

  lemma TallySnoc(hs: seq<Handler>, p: Handler -> bool, t: Handler)
    ensures Tally(hs + [t], p) == Tally(hs, p) + One(p(t))
  {
    assert (hs + [t])[..|hs|] == hs;
  }

  lemma {:induction false} TallyLess(hs: seq<Handler>, p: Handler -> bool, q: Handler -> bool)
    requires forall i :: 0 <= i < |hs| && p(hs[i]) ==> q(hs[i])
    ensures Tally(hs, p) <= Tally(hs, q)
  {
    if hs != [] {
      TallyLess(hs[..|hs| - 1], p, q);
    }
  }

  function SlotOut(): Handler -> bool {
    (t: Handler) => t.slot.Out()
  }

  function AnyPick(): Handler -> bool {
    (t: Handler) => PickOn(t).Some?
  }

  function PickAt(w: nat): Handler -> bool {
    (t: Handler) => PickOn(t) == Some(w)
  }

  function Sum(xs: seq<int>): int {
    if xs == [] then 0 else Sum(xs[..|xs| - 1]) + xs[|xs| - 1]
  }

  lemma {:induction false} SumAddTo(xs: seq<int>, w: nat, d: int)
    requires w < |xs|
    ensures Sum(AddTo(xs, Some(w), d)) == Sum(xs) + d
  {
    var n := |xs| - 1;
    if w < n {
      assert xs[w := xs[w] + d][..n] == xs[..n][w := xs[..n][w] + d];
      SumAddTo(xs[..n], w, d);
    } else {
      assert xs[w := xs[w] + d][..n] == xs[..n];
    }
  }

  // ------------------------------------------------------------------
  // The counting invariant
  // ------------------------------------------------------------------

  /** A handler scans or is placed within the workers, only with
      its slot out, and releases it only once its pick is back. */
  ghost predicate HandlerOk(n: nat, t: Handler) {
    match t.stage
    case Arrived => t.slot.Free? && t.pick.Free?
    case Refused => t.slot.Free? && t.pick.Free?
    case Scanning(next, best, _) => t.slot.Held? && t.pick.Free? && next <= n && (best.Some? ==> best.value < n)
    case Loading(next, best, _) => t.slot.Held? && t.pick.Free? && next < n && (best.Some? ==> best.value < n)
    case Placed(w) => w < n && !t.pick.Free? && !t.slot.Free? && (t.pick.Out() ==> t.slot.Held?)
    case NoWorkers => !t.slot.Free? && t.pick.Free?
  }

  ghost predicate Counted(g: Gate) {
    && |g.healthy| == |g.inflight|
    && (forall i :: 0 <= i < |g.handlers| ==> HandlerOk(|g.inflight|, g.handlers[i]))
    && g.used == Tally(g.handlers, SlotOut()) <= g.capacity
    && Sum(g.inflight) == Tally(g.handlers, AnyPick())
    && forall w :: 0 <= w < |g.inflight| ==> g.inflight[w] == Tally(g.handlers, PickAt(w))
  }

  lemma AdvanceOk(g: Gate, t: Handler, ev: Event)
    requires HandlerOk(|g.inflight|, t) && ByHandler(ev)
    ensures HandlerOk(|g.inflight|, Advance(g, t, ev))
  {
  }

  lemma MoveUsed(g: Gate, h: nat, ev: Event)
    requires Counted(g) && h < |g.handlers| && ByHandler(ev)
    ensures Move(g, h, ev).used == Tally(Move(g, h, ev).handlers, SlotOut()) <= g.capacity
  {
    var t := g.handlers[h];
    assert HandlerOk(|g.inflight|, t);
    hide AddTo, Tally;
    TallyUpdate(g.handlers, SlotOut(), h, Advance(g, t, ev));
    MoveSlot(g, h, ev);
    hide Move, Advance, HandlerOk;
  }

  /** How an event of handler `h` changes the slots used: as its own slot comes and goes. */
  lemma MoveSlot(g: Gate, h: nat, ev: Event)
    requires h < |g.handlers| && ByHandler(ev) && HandlerOk(|g.inflight|, g.handlers[h]) && g.used <= g.capacity
    ensures var t' := Advance(g, g.handlers[h], ev);
            && Move(g, h, ev).used + One(g.handlers[h].slot.Out()) == g.used + One(t'.slot.Out())
            && Move(g, h, ev).used <= g.capacity
            && Move(g, h, ev).handlers == g.handlers[h := t']
  {
    hide AddTo;
  }

  /** How an event of handler `h` changes the count of worker `w`: as its own pick comes and goes. */
  lemma MoveInflight(g: Gate, h: nat, ev: Event, w: nat)
    requires |g.healthy| == |g.inflight| && h < |g.handlers| && ByHandler(ev) && w < |g.inflight|
    requires HandlerOk(|g.inflight|, g.handlers[h])
    ensures |Move(g, h, ev).inflight| == |g.inflight|
    ensures var t := g.handlers[h];
            Move(g, h, ev).inflight[w] + One(PickOn(t) == Some(w)) ==
            g.inflight[w] + One(PickOn(Advance(g, t, ev)) == Some(w))
  {
  }

  lemma MoveSum(g: Gate, h: nat, ev: Event)
    requires |g.healthy| == |g.inflight| && h < |g.handlers| && ByHandler(ev)
    requires HandlerOk(|g.inflight|, g.handlers[h])
    ensures var t := g.handlers[h];
            Sum(Move(g, h, ev).inflight) + One(PickOn(t).Some?) ==
              Sum(g.inflight) + One(PickOn(Advance(g, t, ev)).Some?)
  {
    var t := g.handlers[h];
    if ev.AddOne? && PickOn(Advance(g, t, ev)).Some? && t.pick.Free? {
      SumAddTo(g.inflight, PickOn(Advance(g, t, ev)).value, 1);
    } else if ev.FinishDone? && t.pick.Returning? {
      SumAddTo(g.inflight, PickOn(t).value, -1);
    }
    hide Sum, AddTo;
  }

  lemma MoveCounted(g: Gate, h: nat, ev: Event)
    requires Counted(g) && h < |g.handlers| && ByHandler(ev)
    ensures Counted(Move(g, h, ev))
  {
    hide Move, Advance, HandlerOk, Tally, Sum;
    var t := g.handlers[h];
    var t' := Advance(g, t, ev);
    var g' := Move(g, h, ev);
    assert HandlerOk(|g.inflight|, t);
    AdvanceOk(g, t, ev);
    MoveSame(g, h, ev);
    MoveUsed(g, h, ev);
    MoveSum(g, h, ev);
    TallyUpdate(g.handlers, AnyPick(), h, t');
    forall w | 0 <= w < |g.inflight|
      ensures |g'.inflight| == |g.inflight| && g'.inflight[w] == Tally(g'.handlers, PickAt(w))
    {
      MoveInflight(g, h, ev, w);
      TallyUpdate(g.handlers, PickAt(w), h, t');
    }
  }

  lemma MoveSame(g: Gate, h: nat, ev: Event)
    requires h < |g.handlers|
    ensures |Move(g, h, ev).inflight| == |g.inflight|
    ensures Move(g, h, ev).healthy == g.healthy && Move(g, h, ev).capacity == g.capacity
    ensures Move(g, h, ev).handlers == g.handlers[h := Advance(g, g.handlers[h], ev)]
  {
    hide Advance;
  }

  lemma StepCounted(g: Gate, ev: Event)
    requires Counted(g)
    ensures Counted(Step(g, ev))
  {
    if ev.Arrive? {
      var t := Handler(Arrived, Free, Free);
      TallySnoc(g.handlers, SlotOut(), t);
      TallySnoc(g.handlers, AnyPick(), t);
      forall w | 0 <= w < |g.inflight|
        ensures Tally(g.handlers + [t], PickAt(w)) == Tally(g.handlers, PickAt(w))
      {
        TallySnoc(g.handlers, PickAt(w), t);
      }
    } else if ev.Probe? {
    } else if ev.h < |g.handlers| {
      hide Counted, Move;
      MoveCounted(g, ev.h, ev);
    }
  }

  lemma {:induction false} SumZero(n: nat)
    ensures Sum(seq(n, _ => 0)) == 0
  {
    if n > 0 {
      assert seq(n, _ => 0)[..n - 1] == seq(n - 1, _ => 0);
      SumZero(n - 1);
    }
  }

  lemma {:induction false} RunCounted(g: Gate, events: seq<Event>)
    requires Counted(g)
    ensures Counted(Run(g, events))
  {
    if events != [] {
      RunCounted(g, events[..|events| - 1]);
      StepCounted(Run(g, events[..|events| - 1]), events[|events| - 1]);
    }
  }

  lemma FreshCounted(workers: nat, capacity: nat)
    ensures Counted(Fresh(workers, capacity))
  {
    SumZero(workers);
  }

  /** In every interleaving: each worker's count is the number of picks out on it, all counts together
      never exceed the slots used, nor these the capacity; and the receive that gives a slot back always
      finds one, however often closures are called. */
  lemma CountsAreExact(workers: nat, capacity: nat, events: seq<Event>)
    ensures var g := Run(Fresh(workers, capacity), events);
            && |g.inflight| == workers
            && (forall w :: 0 <= w < workers ==> g.inflight[w] == Tally(g.handlers, PickAt(w)))
            && Sum(g.inflight) <= g.used == Tally(g.handlers, SlotOut()) <= capacity
            && forall h :: 0 <= h < |g.handlers| && g.handlers[h].slot.Returning? ==> 1 <= g.used
  {
    var g := Run(Fresh(workers, capacity), events);
    FreshCounted(workers, capacity);
    RunCounted(Fresh(workers, capacity), events);
    RunSizes(Fresh(workers, capacity), events);
    forall i | 0 <= i < |g.handlers| && AnyPick()(g.handlers[i])
      ensures SlotOut()(g.handlers[i])
    {
      assert HandlerOk(|g.inflight|, g.handlers[i]);
    }
    TallyLess(g.handlers, AnyPick(), SlotOut());
    forall h | 0 <= h < |g.handlers| && g.handlers[h].slot.Returning?
      ensures 1 <= g.used
    {
      TallyUpdate(g.handlers, SlotOut(), h, g.handlers[h]);
    }
  }

  lemma {:induction false} RunSizes(g: Gate, events: seq<Event>)
    ensures |Run(g, events).inflight| == |g.inflight| && Run(g, events).capacity == g.capacity
  {
    if events != [] {
      RunSizes(g, events[..|events| - 1]);
      hide Advance, AddTo;
    }
  }

  /** Nothing leaks: when every handler has given back what it took, all counts and all slots are back to zero. */
  lemma NothingLeaks(workers: nat, capacity: nat, events: seq<Event>)
    requires var g := Run(Fresh(workers, capacity), events);
             forall h :: 0 <= h < |g.handlers| ==> !g.handlers[h].slot.Out() && !g.handlers[h].pick.Out()
    ensures var g := Run(Fresh(workers, capacity), events);
            g.used == 0 && forall w :: 0 <= w < |g.inflight| ==> g.inflight[w] == 0
  {
    var g := Run(Fresh(workers, capacity), events);
    CountsAreExact(workers, capacity, events);
    TallyNone(g.handlers, SlotOut());
    forall w | 0 <= w < |g.inflight|
      ensures g.inflight[w] == 0
    {
      TallyNone(g.handlers, PickAt(w));
    }
  }

  lemma {:induction false} TallyNone(hs: seq<Handler>, p: Handler -> bool)
    requires forall i :: 0 <= i < |hs| ==> !p(hs[i])
    ensures Tally(hs, p) == 0
  {
    if hs != [] {
      TallyNone(hs[..|hs| - 1], p);
    }
  }
}
