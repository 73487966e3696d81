/** The worker pool as objects: one call of each method, uninterrupted, against the protocol of the gateway. */
module WorkerPool {
  import opened Options
  import opened Gateway

  /** What a scan of the first `i` workers finds: a healthy one with the smallest load, the first of them on ties. */
  function Chosen(loads: seq<int>, healthy: seq<bool>, i: nat): (best: Option<nat>)
    requires i <= |loads| == |healthy|
    ensures best.Some? ==> best.value < i
  {
    if i == 0 then None
    else
      var before := Chosen(loads, healthy, i - 1);
      if healthy[i - 1]
        && Better(before, if before.Some? then loads[before.value] else 0, loads[i - 1]) then Some(i - 1)
      else before
  }

  /** `w` is healthy, nobody healthy is less loaded, and nobody healthy before it is as little loaded. */
  ghost predicate LeastLoaded(loads: seq<int>, healthy: seq<bool>, i: nat, w: nat)
    requires i <= |loads| == |healthy|
  {
    && w < i && healthy[w]
    && (forall v :: 0 <= v < i && healthy[v] ==> loads[w] <= loads[v])
    && forall v :: 0 <= v < w && healthy[v] ==> loads[w] < loads[v]
  }

  /** The scan finds `w` exactly when `w` is the first of the least
      loaded healthy workers, and nobody exactly when none is healthy. */
  lemma {:induction false} ChosenIsLeast(loads: seq<int>, healthy: seq<bool>, i: nat)
    requires i <= |loads| == |healthy|
    ensures forall w: nat :: Chosen(loads, healthy, i) == Some(w) <==> LeastLoaded(loads, healthy, i, w)
    ensures Chosen(loads, healthy, i) == None <==> forall v :: 0 <= v < i ==> !healthy[v]
  {
    if i > 0 {
      ChosenIsLeast(loads, healthy, i - 1);
      var before := Chosen(loads, healthy, i - 1);
      assert before.Some? ==> LeastLoaded(loads, healthy, i - 1, before.value);
      forall w: nat
        ensures Chosen(loads, healthy, i) == Some(w) <==> LeastLoaded(loads, healthy, i, w)
      {
        if LeastLoaded(loads, healthy, i, w) && w < i - 1 {
          assert LeastLoaded(loads, healthy, i - 1, w);
        }
      }
    }
  }

  class Worker {
    var inflight: int
    var healthy: bool

    constructor ()
      ensures inflight == 0 && healthy
    {
      inflight, healthy := 0, true;
    }
  }

  /** The closure that `Acquire` returns. */
  class SlotLease {
    const pool: Pool
    var once: bool

    constructor (p: Pool)
      ensures pool == p && !once
    {
      pool, once := p, false;
    }

    /** Lowers the pool's count by one on the first call and by nothing later. */
    method Release()
      requires !once ==> 0 < pool.used
      modifies this, pool`used
      ensures once && pool.used == old(pool.used) - if old(once) then 0 else 1
    {
      if !once {
        once := true;
        pool.used := pool.used - 1;
      }
    }
  }

  /** The closure that `Pick` returns. */
  class PickLease {
    const worker: Worker
    var once: bool

    constructor (w: Worker)
      ensures worker == w && !once
    {
      worker, once := w, false;
    }

    method Done()
      modifies this, worker`inflight
      ensures once && worker.inflight == old(worker.inflight) - if old(once) then 0 else 1
    {
      if !once {
        once := true;
        worker.inflight := worker.inflight - 1;
      }
    }
  }

  class Pool {
    const workers: seq<Worker>
    const capacity: nat
    var used: nat

    /** The given workers and `maxInflight` admission slots, 64 of them if that is not positive. */
    constructor (ws: seq<Worker>, maxInflight: int)
      requires forall i, j :: 0 <= i < j < |ws| ==> ws[i] != ws[j]
      ensures Valid() && workers == ws && used == 0 && capacity == if maxInflight <= 0 then 64 else maxInflight
    {
      workers := ws;
      capacity := if maxInflight <= 0 then 64 else maxInflight;
      used := 0;
    }

    ghost predicate Valid()
      reads this
    {
      && (forall i, j :: 0 <= i < j < |workers| ==> workers[i] != workers[j])
      && used <= capacity
    }

    ghost function Loads(): (loads: seq<int>)
      reads this, workers
      ensures |loads| == |workers|
    {
      seq(|workers|, i requires 0 <= i < |workers| reads this, workers => workers[i].inflight)
    }

    ghost function Health(): (healthy: seq<bool>)
      reads this, workers
      ensures |healthy| == |workers|
    {
      seq(|workers|, i requires 0 <= i < |workers| reads this, workers => workers[i].healthy)
    }

    /** A lease on one more slot, or null exactly when all are used. */
    method Acquire() returns (lease: SlotLease?)
      requires Valid()
      modifies this`used
      ensures Valid() && used == old(used) + if lease == null then 0 else 1
      ensures lease == null <==> old(used) == capacity
      ensures lease != null ==> fresh(lease) && lease.pool == this && !lease.once
    {
      if used < capacity {
        used := used + 1;
        lease := new SlotLease(this);
      } else {
        lease := null;
      }
    }

    /** The worker that `Chosen` finds, with its count raised by one, and a lease on it; null if `Chosen` finds none. */
    method Pick() returns (best: Worker?, lease: PickLease?)
      requires Valid()
      modifies workers
      ensures Health() == old(Health())
      ensures Loads() == AddTo(old(Loads()), Chosen(old(Loads()), old(Health()), |workers|), 1)
      ensures match Chosen(old(Loads()), old(Health()), |workers|)
              case None => best == null && lease == null
              case Some(w) => best == workers[w] && lease != null && fresh(lease) && lease.worker == best && !lease.once
    {
      best, lease := null, null;
      var bestLoad := 0;
      ghost var at := 0;
      for i := 0 to |workers|
        invariant Chosen(Loads(), Health(), i) == if best == null then None else Some(at)
        invariant best != null ==> at < i && best == workers[at] && bestLoad == Loads()[at]
      {
        var w := workers[i];
        if w.healthy {
          var load := w.inflight;
          if best == null || load < bestLoad {
            best, bestLoad := w, load;
            at := i;
          }
        }
      }
      if best == null {
        return;
      }
      best.inflight := best.inflight + 1;
      lease := new PickLease(best);
    }
  }

  // ------------------------------------------------------------------
  // The same scan, in the protocol
  // ------------------------------------------------------------------

  /** The loads and reads of one pick of handler `h`, nothing in between. */
  function PickEvents(h: nat, i: nat): seq<Event> {
    if i == 0 then [] else PickEvents(h, i - 1) + [ReadHealth(h), ReadLoad(h)]
  }

  /** Handler `h` after it has looked at the first `i` workers, nobody interfering. */
  function Looked(g: Gate, h: nat, i: nat): Gate
    requires |g.healthy| == |g.inflight| && i <= |g.inflight| && h < |g.handlers|
  {
    var best := Chosen(g.inflight, g.healthy, i);
    g.(handlers := g.handlers[h := g.handlers[h].(
         stage := Scanning(i, best, if best.Some? then g.inflight[best.value] else 0))])
  }

  lemma LookOnce(g: Gate, h: nat, i: nat)
    requires |g.healthy| == |g.inflight| && i < |g.inflight| && h < |g.handlers|
    ensures Step(Step(Looked(g, h, i), ReadHealth(h)), ReadLoad(h)) == Looked(g, h, i + 1)
  {
    var best := Chosen(g.inflight, g.healthy, i);
    var load := if best.Some? then g.inflight[best.value] else 0;
    var next := if g.healthy[i] then Loading(i, best, load) else Scanning(i + 1, best, load);
    var t := g.handlers[h];
    assert Looked(g, h, i).handlers[h].stage == Scanning(i, best, load);
    var mid := Step(Looked(g, h, i), ReadHealth(h));
    assert mid == g.(handlers := g.handlers[h := t.(stage := next)]);
    assert Step(mid, ReadLoad(h)).handlers == Looked(g, h, i + 1).handlers;
  }

  /** An uninterrupted scan of the protocol has in hand what `Pick` chooses. */
  lemma {:induction false} ScanChooses(g: Gate, h: nat, i: nat)
    requires |g.healthy| == |g.inflight| && i <= |g.inflight|
    requires h < |g.handlers| && g.handlers[h].stage == Scanning(0, None, 0)
    ensures Run(g, PickEvents(h, i)) == Looked(g, h, i)
  {
    hide Step, Looked, Run, Chosen;
    if i == 0 {
      LookNone(g, h);
    } else {
      var front := PickEvents(h, i - 1);
      ScanChooses(g, h, i - 1);
      LookOnce(g, h, i - 1);
      RunOne(g, front, ReadHealth(h));
      RunOne(g, front + [ReadHealth(h)], ReadLoad(h));
      assert front + [ReadHealth(h)] + [ReadLoad(h)] == PickEvents(h, i);
    }
  }

  lemma LookNone(g: Gate, h: nat)
    requires |g.healthy| == |g.inflight| && h < |g.handlers| && g.handlers[h].stage == Scanning(0, None, 0)
    ensures Run(g, []) == Looked(g, h, 0)
  {
    assert g.handlers[h := g.handlers[h]] == g.handlers;
  }

  lemma RunOne(g: Gate, events: seq<Event>, ev: Event)
    ensures Run(g, events + [ev]) == Step(Run(g, events), ev)
  {
    assert (events + [ev])[..|events|] == events;
  }
}
