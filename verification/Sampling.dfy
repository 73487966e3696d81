/** Logits to next token: greedy, or top-k and top-p filtering
    followed by a draw; and the grouped sampler of a ragged batch. */
module Sampling {
  import opened Masks
  import opened Transformer

  datatype Params = Params(maxTokens: int, temperature: real, topK: int, topP: real)

  /** The settings that select a sampling group; `maxTokens` is not one of them. */
  datatype Key = Key(temperature: real, topK: int, topP: real)

  function KeyOf(p: Params): Key {
    Key(p.temperature, p.topK, p.topP)
  }

  function Min(a: int, b: int): int { if a <= b then a else b }

  function Max(a: int, b: int): int { if a <= b then b else a }

  /** The settings as the engine uses them; `limit` is the
      `max_new_tokens` setting. A `top_p` of 0 counts as "not set". */
  function Clamp(p: Params, limit: int): Params {
    var topP := if p.topP <= 0.0 then 0.0 else if p.topP >= 1.0 then 1.0 else p.topP;
    Params(
      Max(1, Min(p.maxTokens, limit)),
      if p.temperature <= 0.0 then 0.0 else if p.temperature >= 2.0 then 2.0 else p.temperature,
      Max(0, p.topK),
      if topP == 0.0 then 1.0 else topP)
  }

  ghost predicate Honoured(p: Params, limit: int) {
    && 1 <= p.maxTokens <= limit
    && 0.0 <= p.temperature <= 2.0
    && 0 <= p.topK
    && 0.0 < p.topP <= 1.0
  }

  /** Clamping lands in the honoured range and moves no setting that is already there. */
  lemma ClampHonours(p: Params, limit: int)
    requires 1 <= limit
    ensures Honoured(Clamp(p, limit), limit)
    ensures Honoured(p, limit) <==> Clamp(p, limit) == p
    ensures Clamp(p, limit).maxTokens == p.maxTokens <==> 1 <= p.maxTokens <= limit
    ensures Clamp(p, limit).temperature == p.temperature <==> 0.0 <= p.temperature <= 2.0
    ensures Clamp(p, limit).topK == p.topK <==> 0 <= p.topK
    ensures Clamp(p, limit).topP == p.topP <==> 0.0 < p.topP <= 1.0
  {
  }

  // ------------------------------------------------------------------
  // Scores: reals extended with the minus infinity that masking writes
  // ------------------------------------------------------------------

  datatype Score = NegInf | Fin(r: real)

  predicate Below(a: Score, b: Score) {
    b.Fin? && (a.Fin? ==> a.r < b.r)
  }

  function Scaled(logits: Logits, temperature: real): seq<Score>
    requires temperature != 0.0
  {
    seq(|logits|, i requires 0 <= i < |logits| => Fin(logits[i] / temperature))
  }

  /** The indices of the scores strictly larger than `x`. */
  ghost function Above(xs: seq<Score>, x: Score): set<nat> {
    set i: nat | 0 <= i < |xs| && Below(x, xs[i])
  }

  ghost function Larger(xs: seq<Score>, x: Score): nat {
    |Above(xs, x)|
  }

  // ------------------------------------------------------------------
  // Sorting
  // ------------------------------------------------------------------

  ghost predicate Distinct(order: seq<nat>) {
    forall i, j :: 0 <= i < j < |order| ==> order[i] != order[j]
  }

  /** Distinct indices of `xs`, largest score first. */
  ghost predicate Sorted(xs: seq<Score>, order: seq<nat>) {
    && (forall j :: 0 <= j < |order| ==> order[j] < |xs|)
    && Distinct(order)
    && forall i, j :: 0 <= i < j < |order| ==> !Below(xs[order[i]], xs[order[j]])
  }

  /** `order` lists every index of `xs` once, largest score first. */
  ghost predicate IsDescending(xs: seq<Score>, order: seq<nat>) {
    |order| == |xs| && Sorted(xs, order)
  }

  ghost function Firsts(order: seq<nat>, n: nat): set<nat>
    requires n <= |order|
  {
    set j | 0 <= j < n :: order[j]
  }

  lemma {:induction false} FirstsSize(order: seq<nat>, n: nat)
    requires Distinct(order) && n <= |order|
    ensures |Firsts(order, n)| == n
  {
    if n > 0 {
      FirstsSize(order, n - 1);
      FirstsNext(order, n);
      hide Firsts, Distinct;
    } else {
      assert Firsts(order, n) == {};
    }
  }

  lemma FirstsNext(order: seq<nat>, n: nat)
    requires Distinct(order) && 0 < n <= |order|
    ensures Firsts(order, n) == Firsts(order, n - 1) + {order[n - 1]} && order[n - 1] !in Firsts(order, n - 1)
  {
  }

  lemma {:induction false} SubsetSize<T>(a: set<T>, b: set<T>)
    requires a <= b
    ensures |a| <= |b|
    ensures |a| == |b| ==> a == b
  {
    if a != {} {
      var x :| x in a;
      SubsetSize(a - {x}, b - {x});
    }
  }

  ghost function Indices(n: nat): set<nat> {
    if n == 0 then {} else Indices(n - 1) + {n - 1}
  }

  lemma {:induction false} IndicesSize(n: nat)
    ensures forall i: nat :: i in Indices(n) <==> i < n
    ensures |Indices(n)| == n
  {
    if n > 0 {
      IndicesSize(n - 1);
      assert n - 1 !in Indices(n - 1);
    } else {
      assert Indices(n) == {};
    }
  }

  /** A descending order mentions every index. */
  lemma OrderCovers(xs: seq<Score>, order: seq<nat>, i: nat)
    requires IsDescending(xs, order) && i < |xs|
    ensures exists j :: 0 <= j < |order| && order[j] == i
  {
    FirstsSize(order, |order|);
    IndicesSize(|xs|);
    SubsetSize(Firsts(order, |order|), Indices(|xs|));
    assert i in Firsts(order, |order|);
  }

  function Insert(xs: seq<Score>, order: seq<nat>, i: nat): seq<nat>
    requires i < |xs| && forall j :: 0 <= j < |order| ==> order[j] < |xs|
  {
    if order == [] || Below(xs[order[0]], xs[i]) then [i] + order
    else [order[0]] + Insert(xs, order[1..], i)
  }

  /** A stable descending sort of the first `n` indices. */
  function SortFirst(xs: seq<Score>, n: nat): (order: seq<nat>)
    requires n <= |xs|
    ensures forall j :: 0 <= j < |order| ==> order[j] < n
    decreases n
  {
    if n == 0 then []
    else
      var rest := SortFirst(xs, n - 1);
      InsertMembers(xs, rest, n - 1);
      var order := Insert(xs, rest, n - 1);
      assert forall j :: 0 <= j < |order| ==> order[j] in order;
      order
  }

  function Descending(xs: seq<Score>): (order: seq<nat>)
    ensures IsDescending(xs, order)
  {
    SortFirstSorts(xs, |xs|);
    SortFirst(xs, |xs|)
  }

  lemma {:induction false} InsertMembers(xs: seq<Score>, order: seq<nat>, i: nat)
    requires i < |xs| && forall j :: 0 <= j < |order| ==> order[j] < |xs|
    ensures |Insert(xs, order, i)| == |order| + 1
    ensures forall k :: k in Insert(xs, order, i) <==> k == i || k in order
  {
    if !(order == [] || Below(xs[order[0]], xs[i])) {
      InsertMembers(xs, order[1..], i);
      assert order == [order[0]] + order[1..];
    }
  }

  /** A score above everything sorted, or a first score not below the rest, can be put in front. */
  lemma PrependSorts(xs: seq<Score>, i: nat, rest: seq<nat>)
    requires i < |xs| && Sorted(xs, rest) && i !in rest
    requires forall k :: k in rest ==> !Below(xs[i], xs[k])
    ensures Sorted(xs, [i] + rest)
  {
    var res := [i] + rest;
    forall a, b | 0 <= a < b < |res|
      ensures !Below(xs[res[a]], xs[res[b]]) && res[a] != res[b]
    {
      assert res[b] == rest[b - 1] && rest[b - 1] in rest;
      assert a > 0 ==> res[a] == rest[a - 1];
    }
  }

  lemma {:induction false} InsertSorts(xs: seq<Score>, order: seq<nat>, i: nat)
    requires i < |xs| && Sorted(xs, order) && i !in order
    ensures Sorted(xs, Insert(xs, order, i))
  {
    if order == [] {
    } else if Below(xs[order[0]], xs[i]) {
      forall k | k in order
        ensures !Below(xs[i], xs[k])
      {
        var b :| 0 <= b < |order| && order[b] == k;
        assert b > 0 ==> !Below(xs[order[0]], xs[order[b]]);
      }
      PrependSorts(xs, i, order);
    } else {
      var rest := order[1..];
      InsertSorts(xs, rest, i);
      InsertMembers(xs, rest, i);
      forall k | k in Insert(xs, rest, i)
        ensures !Below(xs[order[0]], xs[k]) && k != order[0]
      {
        if k != i {
          var b :| 0 <= b < |rest| && rest[b] == k;
          assert order[b + 1] == k;
        }
      }
      PrependSorts(xs, order[0], Insert(xs, rest, i));
    }
  }

  lemma {:induction false} SortFirstSorts(xs: seq<Score>, n: nat)
    requires n <= |xs|
    ensures |SortFirst(xs, n)| == n && Sorted(xs, SortFirst(xs, n))
  {
    if n > 0 {
      SortFirstSorts(xs, n - 1);
      InsertMembers(xs, SortFirst(xs, n - 1), n - 1);
      InsertSorts(xs, SortFirst(xs, n - 1), n - 1);
    }
  }

  // ------------------------------------------------------------------
  // Top-k
  // ------------------------------------------------------------------

  /** Mask every score below the k-th largest. */
  function TopK(xs: seq<Score>, k: nat): (ys: seq<Score>)
    requires 0 < k && xs != []
    ensures |ys| == |xs|
  {
    var kth := xs[Descending(xs)[Min(k, |xs|) - 1]];
    seq(|xs|, i requires 0 <= i < |xs| => if Below(xs[i], kth) then NegInf else xs[i])
  }

  /** Below the k-th score means at least k scores are larger. */
  lemma BelowKth(xs: seq<Score>, order: seq<nat>, n: nat, i: nat)
    requires IsDescending(xs, order) && 1 <= n <= |order| && i < |xs| && Below(xs[i], xs[order[n - 1]])
    ensures n <= |Above(xs, xs[i])|
  {
    forall j | j in Firsts(order, n)
      ensures j in Above(xs, xs[i])
    {
      var p :| 0 <= p < n && order[p] == j;
      assert p < n - 1 ==> !Below(xs[order[p]], xs[order[n - 1]]);
    }
    FirstsSize(order, n);
    SubsetSize(Firsts(order, n), Above(xs, xs[i]));
  }

  /** Not below it means that fewer are. */
  lemma NotBelowKth(xs: seq<Score>, order: seq<nat>, n: nat, i: nat)
    requires IsDescending(xs, order) && 1 <= n <= |order| && i < |xs| && !Below(xs[i], xs[order[n - 1]])
    ensures |Above(xs, xs[i])| < n
  {
    forall j | j in Above(xs, xs[i])
      ensures j in Firsts(order, n - 1)
    {
      OrderCovers(xs, order, j);
    }
    FirstsSize(order, n - 1);
    SubsetSize(Above(xs, xs[i]), Firsts(order, n - 1));
  }

  /** Top-k keeps exactly the tokens with fewer than k strictly larger scores, and leaves those unchanged. */
  lemma TopKExact(xs: seq<Score>, k: nat, i: nat)
    requires 0 < k && i < |xs|
    ensures TopK(xs, k)[i] == if Larger(xs, xs[i]) < k then xs[i] else NegInf
  {
    var order := Descending(xs);
    var n := Min(k, |xs|);
    hide Above, Below, Descending;
    if Below(xs[i], xs[order[n - 1]]) {
      BelowKth(xs, order, n, i);
      AboveSize(xs, i);
    } else {
      NotBelowKth(xs, order, n, i);
    }
  }

  lemma AboveSize(xs: seq<Score>, i: nat)
    requires i < |xs|
    ensures |Above(xs, xs[i])| < |xs|
  {
    IndicesSize(|xs|);
    hide Indices;
    SubsetSize(Above(xs, xs[i]), Indices(|xs|) - {i});
  }

  // ------------------------------------------------------------------
  // Top-p
  // ------------------------------------------------------------------

  function Sum(xs: seq<real>): real {
    if xs == [] then 0.0 else Sum(xs[..|xs| - 1]) + xs[|xs| - 1]
  }

  function Weights(weight: real -> real, xs: seq<Score>): seq<real> {
    seq(|xs|, i requires 0 <= i < |xs| => if xs[i].Fin? then weight(xs[i].r) else 0.0)
  }

  /** Normalised weights; `weight` stands for the exponential. */
  function Softmax(weight: real -> real, xs: seq<Score>): (ps: seq<real>)
    requires Sum(Weights(weight, xs)) != 0.0
    ensures |ps| == |xs|
  {
    var ws := Weights(weight, xs);
    var total := Sum(ws);
    seq(|xs|, i requires 0 <= i < |xs| => ws[i] / total)
  }

  /** Write `vals[j]` to place `order[j]`, for the first `n` entries. */
  function Scatter(base: seq<Score>, order: seq<nat>, vals: seq<Score>, n: nat): (ys: seq<Score>)
    requires n <= |order| == |vals|
    requires forall j :: 0 <= j < |order| ==> order[j] < |base|
    ensures |ys| == |base|
  {
    if n == 0 then base else Scatter(base, order, vals, n - 1)[order[n - 1] := vals[n - 1]]
  }

  ghost predicate PositiveWeight(weight: real -> real) {
    forall r :: weight(r) > 0.0
  }

  /** Mask the tail of the descending order, from the first token the mass before which exceeds `p`. */
  function TopP(weight: real -> real, xs: seq<Score>, order: seq<nat>, p: real): (ys: seq<Score>)
    requires |order| == |xs| && forall j :: 0 <= j < |order| ==> order[j] < |xs|
    requires Sum(Weights(weight, Select(xs, order))) != 0.0
    ensures |ys| == |xs|
  {
    var ordered := Select(xs, order);
    var ps := Softmax(weight, ordered);
    var kept := seq(|xs|, j requires 0 <= j < |xs| =>
      if Sum(ps[..j + 1]) - ps[j] > p then NegInf else ordered[j]);
    Scatter(xs, order, kept, |xs|)
  }

  lemma {:induction false} ScatterAt(base: seq<Score>, order: seq<nat>, vals: seq<Score>, n: nat, j: nat)
    requires n <= |order| == |vals| && j < n
    requires forall j :: 0 <= j < |order| ==> order[j] < |base|
    requires Distinct(order)
    ensures Scatter(base, order, vals, n)[order[j]] == vals[j]
  {
    if j < n - 1 {
      ScatterAt(base, order, vals, n - 1, j);
    }
  }

  lemma {:induction false} SumGrows(ps: seq<real>, a: nat, b: nat)
    requires forall i :: 0 <= i < |ps| ==> ps[i] >= 0.0
    requires a <= b <= |ps|
    ensures Sum(ps[..a]) <= Sum(ps[..b])
  {
    if a < b {
      SumGrows(ps, a, b - 1);
      assert ps[..b][..b - 1] == ps[..b - 1];
    }
  }

  lemma {:induction false} SumScaled(ws: seq<real>, total: real, ps: seq<real>)
    requires total != 0.0 && |ps| == |ws|
    requires forall i :: 0 <= i < |ws| ==> ps[i] == ws[i] / total
    ensures Sum(ps) == Sum(ws) / total
  {
    if ws != [] {
      var n := |ws| - 1;
      SumScaled(ws[..n], total, ps[..n]);
      assert Sum(ws[..n]) / total + ws[n] / total == (Sum(ws[..n]) + ws[n]) / total;
    }
  }

  /** The probabilities of a softmax with a finite score add up to
      one; a finite score has some, a masked one has none. */
  lemma SoftmaxIsDistribution(weight: real -> real, xs: seq<Score>, i: nat)
    requires PositiveWeight(weight)
    requires i < |xs| && xs[i].Fin?
    ensures Sum(Weights(weight, xs)) > 0.0
    ensures forall j :: 0 <= j < |xs| ==> Softmax(weight, xs)[j] >= 0.0
    ensures forall j :: 0 <= j < |xs| ==> (Softmax(weight, xs)[j] == 0.0 <==> xs[j].NegInf?)
    ensures Sum(Softmax(weight, xs)) == 1.0
  {
    var ws := Weights(weight, xs);
    SumGrows(ws, 0, i);
    assert ws[..i + 1][..i] == ws[..i];
    SumGrows(ws, i + 1, |ws|);
    assert ws[..|ws|] == ws;
    var total := Sum(ws);
    SumScaled(ws, total, Softmax(weight, xs));
    Quotients(total, total);
    forall j | 0 <= j < |xs|
      ensures Softmax(weight, xs)[j] >= 0.0 && (Softmax(weight, xs)[j] == 0.0 <==> xs[j].NegInf?)
    {
      Quotients(ws[j], total);
      assert Softmax(weight, xs)[j] == ws[j] / total && (ws[j] == 0.0 <==> xs[j].NegInf?);
    }
  }

  lemma Quotients(a: real, b: real)
    requires a >= 0.0 && b > 0.0
    ensures a / b >= 0.0 && (a / b == 0.0 <==> a == 0.0) && b / b == 1.0
  {
    assert a / b * b == a;
  }

  /** The length of the shortest prefix of `ps` whose mass exceeds `p`. */
  function Nucleus(ps: seq<real>, p: real, n: nat): (len: nat)
    requires n <= |ps|
    requires Sum(ps) > p
    requires forall m :: 0 <= m < n ==> Sum(ps[..m]) <= p
    ensures len <= |ps| && Sum(ps[..len]) > p
    ensures forall m :: 0 <= m < len ==> Sum(ps[..m]) <= p
    decreases |ps| - n
  {
    assert ps[..|ps|] == ps;
    if Sum(ps[..n]) > p then n else Nucleus(ps, p, n + 1)
  }

  /** The j-th token of the order survives top-p exactly when the mass before it is at most `p`, with its own score. */
  lemma TopPAt(weight: real -> real, xs: seq<Score>, order: seq<nat>, p: real, j: nat)
    requires IsDescending(xs, order) && j < |xs|
    requires Sum(Weights(weight, Select(xs, order))) != 0.0
    ensures var ps := Softmax(weight, Select(xs, order));
            TopP(weight, xs, order, p)[order[j]] == if Sum(ps[..j]) <= p then xs[order[j]] else NegInf
  {
    hide Softmax, Weights, Scatter;
    var ordered := Select(xs, order);
    var ps := Softmax(weight, ordered);
    var kept := seq(|xs|, j requires 0 <= j < |xs| =>
      if Sum(ps[..j + 1]) - ps[j] > p then NegInf else ordered[j]);
    ScatterAt(xs, order, kept, |xs|, j);
    assert ps[..j + 1][..j] == ps[..j];
  }

  /** Top-p keeps exactly the shortest prefix of the descending order whose mass exceeds `p`: it is not empty,
      each of its tokens gets its own score back, every other token is masked, and no survivor was masked before. */
  lemma TopPShortest(weight: real -> real, xs: seq<Score>, order: seq<nat>, p: real, i: nat) returns (n: nat)
    requires PositiveWeight(weight) && IsDescending(xs, order)
    requires i < |xs| && xs[i].Fin?
    requires 0.0 < p < 1.0
    ensures Sum(Weights(weight, Select(xs, order))) > 0.0
    ensures var ps := Softmax(weight, Select(xs, order));
            1 <= n <= |xs| && Sum(ps[..n]) > p && forall m :: 0 <= m < n ==> Sum(ps[..m]) <= p
    ensures forall j :: 0 <= j < |xs| ==>
              TopP(weight, xs, order, p)[order[j]] == if j < n then xs[order[j]] else NegInf
    ensures forall j :: 0 <= j < n ==> xs[order[j]].Fin?
  {
    OrderCovers(xs, order, i);
    var at :| 0 <= at < |order| && order[at] == i;
    SoftmaxIsDistribution(weight, Select(xs, order), at);
    var ps := Softmax(weight, Select(xs, order));
    n := Nucleus(ps, p, 0);
    assert ps[..0] == [];
    forall j | 0 <= j < |xs|
      ensures TopP(weight, xs, order, p)[order[j]] == if j < n then xs[order[j]] else NegInf
    {
      TopPAt(weight, xs, order, p, j);
      if j >= n {
        SumGrows(ps, n, j);
      }
    }
    forall j | 0 <= j < n
      ensures xs[order[j]].Fin?
    {
      if xs[order[j]].NegInf? {
        TailIsMassless(weight, xs, order, j);
      }
    }
  }

  /** Scores after a masked one in descending order are masked too, so the prefix before it has all the mass. */
  lemma TailIsMassless(weight: real -> real, xs: seq<Score>, order: seq<nat>, j: nat)
    requires IsDescending(xs, order) && j < |xs| && xs[order[j]].NegInf?
    requires Sum(Weights(weight, Select(xs, order))) != 0.0
    ensures var ps := Softmax(weight, Select(xs, order)); Sum(ps[..j]) == Sum(ps)
  {
    var ps := Softmax(weight, Select(xs, order));
    forall k | j <= k < |xs|
      ensures ps[k] == 0.0
    {
      assert k > j ==> !Below(xs[order[j]], xs[order[k]]);
    }
    ZeroTail(ps, j, |ps|);
    assert ps[..|ps|] == ps;
  }

  lemma {:induction false} ZeroTail(ps: seq<real>, j: nat, n: nat)
    requires j <= n <= |ps|
    requires forall k :: j <= k < |ps| ==> ps[k] == 0.0
    ensures Sum(ps[..n]) == Sum(ps[..j])
  {
    if j < n {
      ZeroTail(ps, j, n - 1);
      assert ps[..n][..n - 1] == ps[..n - 1];
    }
  }

  // ------------------------------------------------------------------
  // One row
  // ------------------------------------------------------------------

  /** The exponential, and a deterministic stand-in for the draw from the filtered scores. */
  datatype Sampler = Sampler(weight: real -> real, draw: seq<Score> -> Token)

  function ArgMax(logits: seq<real>): (best: nat)
    requires logits != []
    ensures best < |logits|
    ensures forall i :: 0 <= i < |logits| ==> logits[i] <= logits[best]
    ensures forall i :: 0 <= i < best ==> logits[i] < logits[best]
  {
    if |logits| == 1 then 0
    else
      var n := |logits| - 1;
      var b := ArgMax(logits[..n]);
      if logits[n] > logits[b] then n else b
  }

  /** Top-k, then top-p on what is left. */
  function Filter(weight: real -> real, xs: seq<Score>, key: Key): (ys: seq<Score>)
    requires xs != []
    ensures |ys| == |xs|
  {
    var ys := if key.topK > 0 then TopK(xs, key.topK) else xs;
    var order := Descending(ys);
    if key.topP < 1.0 && Sum(Weights(weight, Select(ys, order))) != 0.0 then TopP(weight, ys, order, key.topP) else ys
  }

  function SampleRow(s: Sampler, logits: Logits, key: Key): Token {
    if key.temperature <= 0.0 then ArgMax(logits)
    else s.draw(Filter(s.weight, Scaled(logits, key.temperature), key))
  }

  /** The largest score always survives top-k. */
  lemma TopKKeepsBest(xs: seq<Score>, k: nat) returns (i: nat)
    requires 0 < k && xs != []
    ensures i < |xs| && TopK(xs, k)[i] == xs[i]
    ensures forall j :: 0 <= j < |xs| ==> !Below(xs[i], xs[j])
  {
    var order := Descending(xs);
    i := order[0];
    forall j | 0 <= j < |xs|
      ensures !Below(xs[i], xs[j])
    {
      OrderCovers(xs, order, j);
      var p :| 0 <= p < |order| && order[p] == j;
      assert p > 0 ==> !Below(xs[order[0]], xs[order[p]]);
    }
    TopKExact(xs, k, i);
    assert (set j | 0 <= j < |xs| && Below(xs[i], xs[j])) == {};
  }

  /** Top-p drops tokens but never changes a score, and never drops them all. */
  lemma TopPKeepsScores(weight: real -> real, xs: seq<Score>, p: real, best: nat)
    requires PositiveWeight(weight) && 0.0 < p < 1.0
    requires best < |xs| && xs[best].Fin?
    ensures Sum(Weights(weight, Select(xs, Descending(xs)))) > 0.0
    ensures var ys := TopP(weight, xs, Descending(xs), p);
            && (exists i :: 0 <= i < |ys| && ys[i].Fin?)
            && (forall i :: 0 <= i < |ys| && ys[i].Fin? ==> ys[i] == xs[i])
  {
    var order := Descending(xs);
    var n := TopPShortest(weight, xs, order, p, best);
    var ys := TopP(weight, xs, order, p);
    hide TopP;
    assert ys[order[0]].Fin?;
    forall i | 0 <= i < |ys| && ys[i].Fin?
      ensures ys[i] == xs[i]
    {
      OrderCovers(xs, order, i);
      var j :| 0 <= j < |order| && order[j] == i;
    }
  }

  /** What a draw can return: with finite logits and honoured settings some token always survives both filters, every
      survivor keeps its own score, and with top-k on every survivor has fewer than k strictly larger scores. */
  lemma FilterLeavesCandidates(weight: real -> real, logits: Logits, key: Key)
    requires PositiveWeight(weight)
    requires 0.0 < key.temperature && 0 <= key.topK && 0.0 < key.topP <= 1.0
    ensures var xs := Scaled(logits, key.temperature);
            var ys := Filter(weight, xs, key);
            && (exists i :: 0 <= i < |ys| && ys[i].Fin?)
            && (forall i :: 0 <= i < |ys| && ys[i].Fin? ==> ys[i] == xs[i])
            && (forall i :: 0 <= i < |ys| && ys[i].Fin? && key.topK > 0 ==> Larger(xs, xs[i]) < key.topK)
  {
    hide TopK, TopP, Larger, Weights;
    var xs := Scaled(logits, key.temperature);
    var mid := if key.topK > 0 then TopK(xs, key.topK) else xs;
    var best := 0;
    if key.topK > 0 {
      best := TopKKeepsBest(xs, key.topK);
      forall i | 0 <= i < |xs|
        ensures mid[i] == if Larger(xs, xs[i]) < key.topK then xs[i] else NegInf
      {
        TopKExact(xs, key.topK, i);
      }
    }
    assert mid[best].Fin?;
    if key.topP < 1.0 {
      TopPKeepsScores(weight, mid, key.topP, best);
    } else {
      assert Filter(weight, xs, key)[best].Fin?;
    }
  }

  // ------------------------------------------------------------------
  // A ragged batch
  // ------------------------------------------------------------------

  /** One vectorised call: every selected row under the same settings. */
  function SampleRows(s: Sampler, logits: seq<Logits>, key: Key): seq<Token> {
    seq(|logits|, i requires 0 <= i < |logits| => SampleRow(s, logits[i], key))
  }

  /** The reference: each row sampled on its own logits with its own settings. */
  function SampleEach(s: Sampler, logits: seq<Logits>, params: seq<Params>): seq<Token>
    requires |logits| == |params|
  {
    seq(|logits|, i requires 0 <= i < |logits| => SampleRow(s, logits[i], KeyOf(params[i])))
  }

  /** `rows` lists, in increasing order, only rows below `n` whose settings are `key`. */
  ghost predicate IsGroup(params: seq<Params>, n: nat, key: Key, rows: seq<nat>) {
    && (forall i, j :: 0 <= i < j < |rows| ==> rows[i] < rows[j])
    && forall i :: 0 <= i < |rows| ==> rows[i] < n <= |params| && KeyOf(params[rows[i]]) == key
  }

  /** The groups partition the first `n` rows by sampling settings; `keys` lists the groups once each. */
  ghost predicate Partition(params: seq<Params>, n: nat, keys: seq<Key>, groups: map<Key, seq<nat>>)
    requires n <= |params|
  {
    && (forall i, j :: 0 <= i < j < |keys| ==> keys[i] != keys[j])
    && (forall k :: k in keys <==> k in groups)
    && (forall k :: k in groups ==> IsGroup(params, n, k, groups[k]))
    && (forall r :: 0 <= r < n ==> KeyOf(params[r]) in groups && r in groups[KeyOf(params[r])])
  }

  function GroupAt(groups: map<Key, seq<nat>>, key: Key): seq<nat> {
    if key in groups then groups[key] else []
  }

  lemma GrowGroup(params: seq<Params>, row: nat, key: Key, rows: seq<nat>)
    requires row < |params| && (rows == [] || IsGroup(params, row, key, rows))
    ensures IsGroup(params, row + 1, key, rows)
    ensures key == KeyOf(params[row]) ==> IsGroup(params, row + 1, key, rows + [row])
  {
  }

  /** One more row joins the group of its settings, a new one if need be. */
  lemma JoinGroup(params: seq<Params>, row: nat, keys: seq<Key>, groups: map<Key, seq<nat>>, key: Key)
    requires row < |params| && Partition(params, row, keys, groups) && key == KeyOf(params[row])
    ensures Partition(params, row + 1, if key in groups then keys else keys + [key],
              groups[key := if key in groups then groups[key] + [row] else [row]])
  {
    hide IsGroup, KeyOf;
    var groups' := groups[key := if key in groups then groups[key] + [row] else [row]];
    assert [] + [row] == [row];
    forall k | k in groups'
      ensures IsGroup(params, row + 1, k, groups'[k])
    {
      GrowGroup(params, row, k, GroupAt(groups, k));
    }
    forall r | 0 <= r < row + 1
      ensures KeyOf(params[r]) in groups' && r in groups'[KeyOf(params[r])]
    {
      if r < row && KeyOf(params[r]) == key {
        assert r in GroupAt(groups, key);
      }
    }
  }

  lemma NoGroups(params: seq<Params>)
    ensures Partition(params, 0, [], map[])
  {
  }

  method GroupRows(params: seq<Params>) returns (keys: seq<Key>, groups: map<Key, seq<nat>>)
    ensures Partition(params, |params|, keys, groups)
  {
    hide Partition;
    NoGroups(params);
    keys, groups := [], map[];
    for row := 0 to |params|
      invariant Partition(params, row, keys, groups)
    {
      var key := KeyOf(params[row]);
      JoinGroup(params, row, keys, groups, key);
      if key in groups {
        groups := groups[key := groups[key] + [row]];
      } else {
        keys := keys + [key];
        groups := groups[key := [row]];
      }
    }
  }

  /** Every row of a group holds its own sample. */
  ghost predicate GroupSampled(s: Sampler, logits: seq<Logits>, key: Key, rows: seq<nat>, out: seq<Token>) {
    |out| == |logits| &&
    forall i :: 0 <= i < |rows| ==> rows[i] < |logits| && out[rows[i]] == SampleRow(s, logits[rows[i]], key)
  }

  /** Writes `picked` to `rows`, and nothing else. */
  method WriteRows(out: array<Token>, rows: seq<nat>, picked: seq<Token>)
    requires |picked| == |rows| && Ascending(rows, out.Length)
    modifies out
    ensures forall i :: 0 <= i < |rows| ==> out[rows[i]] == picked[i]
    ensures forall r :: 0 <= r < out.Length && r !in rows ==> out[r] == old(out[r])
  {
    for i := 0 to |rows|
      invariant forall j :: 0 <= j < i ==> out[rows[j]] == picked[j]
      invariant forall r :: 0 <= r < out.Length && r !in rows ==> out[r] == old(out[r])
    {
      out[rows[i]] := picked[i];
    }
  }

  /** Writing one group leaves the samples of a group with other settings alone. */
  lemma OtherGroup(s: Sampler, logits: seq<Logits>, params: seq<Params>, key: Key, rows: seq<nat>, other: Key,
      others: seq<nat>, before: seq<Token>, after: seq<Token>)
    requires key != other && IsGroup(params, |params|, key, rows) && IsGroup(params, |params|, other, others)
    requires GroupSampled(s, logits, other, others, before) && |after| == |before|
    requires forall r :: 0 <= r < |after| && r !in rows ==> after[r] == before[r]
    ensures GroupSampled(s, logits, other, others, after)
  {
    hide SampleRow, KeyOf;
    forall i | 0 <= i < |others|
      ensures others[i] !in rows
    {
      assert KeyOf(params[others[i]]) == other;
    }
  }

  /** When every group is sampled, so is every row. */
  lemma GroupsCover(s: Sampler, logits: seq<Logits>, params: seq<Params>, keys: seq<Key>, groups: map<Key, seq<nat>>,
    out: seq<Token>)
    requires |logits| == |params| == |out| && Partition(params, |params|, keys, groups)
    requires forall i :: 0 <= i < |keys| ==> keys[i] in groups && GroupSampled(s, logits, keys[i], groups[keys[i]], out)
    ensures out == SampleEach(s, logits, params)
  {
    hide SampleRow, KeyOf;
    forall r | 0 <= r < |logits|
      ensures out[r] == SampleRow(s, logits[r], KeyOf(params[r]))
    {
      var k := KeyOf(params[r]);
      assert k in keys;
      var g :| 0 <= g < |keys| && keys[g] == k;
      assert GroupSampled(s, logits, k, groups[k], out);
    }
  }

  /** The rows of a group, in order and within the batch. */
  lemma GroupOf(params: seq<Params>, keys: seq<Key>, groups: map<Key, seq<nat>>, g: nat)
    requires Partition(params, |params|, keys, groups) && g < |keys|
    ensures keys[g] in groups && IsGroup(params, |params|, keys[g], groups[keys[g]])
            && Ascending(groups[keys[g]], |params|)
    ensures forall j :: 0 <= j < g ==>
            keys[j] in groups && keys[j] != keys[g] && IsGroup(params, |params|, keys[j], groups[keys[j]])
  {
    assert keys[g] in keys;
    assert forall j :: 0 <= j < g ==> keys[j] in keys;
  }

  /** Grouped sampling is row-by-row sampling. */
  method SampleBatch(s: Sampler, logits: seq<Logits>, params: seq<Params>) returns (toks: seq<Token>)
    requires |logits| == |params|
    ensures toks == SampleEach(s, logits, params)
  {
    hide Partition, IsGroup, SampleRow;
    if params == [] {
      return [];
    }
    var keys, groups := GroupRows(params);
    var out := new Token[|logits|];
    for g := 0 to |keys|
      invariant forall i :: 0 <= i < g ==>
                keys[i] in groups && GroupSampled(s, logits, keys[i], groups[keys[i]], out[..])
    {
      GroupOf(params, keys, groups, g);
      var rows := groups[keys[g]];
      ghost var before := out[..];
      WriteRows(out, rows, SampleRows(s, seq(|rows|, i requires 0 <= i < |rows| => logits[rows[i]]), keys[g]));
      forall j | 0 <= j < g
        ensures GroupSampled(s, logits, keys[j], groups[keys[j]], out[..])
      {
        OtherGroup(s, logits, params, keys[g], rows, keys[j], groups[keys[j]], before, out[..]);
      }
    }
    GroupsCover(s, logits, params, keys, groups, out[..]);
    toks := out[..];
  }
}
