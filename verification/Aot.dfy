/** The two AOT losses sort two vectors and pair them index by index. Read as transport between
    two samples, that pairing is the cheapest one for every convex loss. */
module Aot {
  import opened Tensors

  // ----- torch.sort

  predicate Sorted(s: seq<real>) {
    forall i, j :: 0 <= i < j < |s| ==> s[i] <= s[j]
  }

  function Insert(x: real, s: seq<real>): (r: seq<real>)
    ensures |r| == |s| + 1
  {
    if s == [] || x <= s[0] then [x] + s else [s[0]] + Insert(x, s[1..])
  }

  function Sort(s: seq<real>): (r: seq<real>)
    ensures |r| == |s|
  {
    if s == [] then [] else Insert(s[0], Sort(s[1..]))
  }

  lemma {:induction false} InsertKeepsEntries(x: real, s: seq<real>)
    ensures multiset(Insert(x, s)) == multiset(s) + multiset{x}
  {
    if s != [] && x > s[0] {
      InsertKeepsEntries(x, s[1..]);
      assert s == [s[0]] + s[1..];
    }
  }

  lemma {:induction false} InsertSorted(x: real, s: seq<real>)
    requires Sorted(s)
    ensures Sorted(Insert(x, s))
  {
    if s != [] && x > s[0] {
      InsertSorted(x, s[1..]);
      InsertKeepsEntries(x, s[1..]);
      var rest := Insert(x, s[1..]);
      forall i | 0 <= i < |rest| ensures s[0] <= rest[i] {
        assert rest[i] in multiset(rest);
        assert rest[i] == x || rest[i] in s[1..];
      }
    }
  }

  lemma {:induction false} SortSorts(s: seq<real>)
    ensures Sorted(Sort(s)) && multiset(Sort(s)) == multiset(s)
  {
    if s != [] {
      SortSorts(s[1..]);
      InsertSorted(s[0], Sort(s[1..]));
      InsertKeepsEntries(s[0], Sort(s[1..]));
      assert s == [s[0]] + s[1..];
    }
  }

  lemma LeastFirst(a: seq<real>, v: real)
    requires Sorted(a) && v in multiset(a)
    ensures a != [] && a[0] <= v
  {
    var i :| 0 <= i < |a| && a[i] == v;
  }

  /** Being sorted and having the same entries determines the result of sorting. */
  lemma {:induction false} SortUnique(a: seq<real>, b: seq<real>)
    requires Sorted(a) && Sorted(b) && multiset(a) == multiset(b)
    ensures a == b
  {
    SameLength(a, b);
    if a != [] {
      SameHead(a, b);
      var tail := b[1..];
      SortUnique(a[1..], tail);
      assert a == [a[0]] + a[1..] && b == [b[0]] + tail;
    }
  }

  lemma SameHead(a: seq<real>, b: seq<real>)
    requires Sorted(a) && Sorted(b) && multiset(a) == multiset(b) && a != []
    ensures b != [] && a[0] == b[0] && multiset(a[1..]) == multiset(b[1..])
  {
    SameLength(a, b);
    assert a[0] in multiset(b) && b[0] in multiset(a);
    LeastFirst(a, b[0]);
    LeastFirst(b, a[0]);
    TailEntries(a);
    TailEntries(b);
  }

  lemma SortIgnoresOrder(a: seq<real>, b: seq<real>)
    requires multiset(a) == multiset(b)
    ensures Sort(a) == Sort(b)
  {
    SortSorts(a);
    SortSorts(b);
    SortUnique(Sort(a), Sort(b));
  }

  // ----- pairing

  function Losses(h: real -> real, deltas: seq<real>): seq<real> {
    seq(|deltas|, i requires 0 <= i < |deltas| => h(deltas[i]))
  }

  /** Total loss of pairing xs[i] with ys[i]. */
  function Cost(h: real -> real, xs: seq<real>, ys: seq<real>): real
    requires |xs| == |ys|
  {
    if xs == [] then 0.0 else h(xs[0] - ys[0]) + Cost(h, xs[1..], ys[1..])
  }

  lemma {:induction false} CostIsSum(h: real -> real, xs: seq<real>, ys: seq<real>)
    requires |xs| == |ys|
    ensures Cost(h, xs, ys) == Sum(Losses(h, Minus(xs, ys)))
  {
    if xs != [] {
      CostIsSum(h, xs[1..], ys[1..]);
      assert Losses(h, Minus(xs, ys))[1..] == Losses(h, Minus(xs[1..], ys[1..]));
    }
  }

  /** Uncrossing two pairs never costs more. */
  ghost predicate Exchange(h: real -> real) {
    forall a, b, c, d :: a <= b && c <= d ==> ExchangeAt(h, a, b, c, d)
  }

  predicate ExchangeAt(h: real -> real, a: real, b: real, c: real, d: real) {
    h(a - c) + h(b - d) <= h(a - d) + h(b - c)
  }

  /** One more pair costs at least what it costs to sort its two ends into sorted vectors. */
  lemma {:induction false} InsertPair(h: real -> real, x: real, y: real, xs: seq<real>, ys: seq<real>)
    requires Exchange(h) && |xs| == |ys| && Sorted(xs) && Sorted(ys)
    ensures Cost(h, Insert(x, xs), Insert(y, ys)) <= h(x - y) + Cost(h, xs, ys)
    decreases |xs|
  {
    if xs != [] {
      // The smaller of each end and the head leads; the larger sinks into the tail.
      InsertHead(x, xs);
      InsertHead(y, ys);
      InsertPair(h, Larger(x, xs[0]), Larger(y, ys[0]), xs[1..], ys[1..]);
      CostCons(h, Smaller(x, xs[0]), Smaller(y, ys[0]), Insert(Larger(x, xs[0]), xs[1..]),
               Insert(Larger(y, ys[0]), ys[1..]));
      Uncross(h, x, xs[0], y, ys[0]);
    }
  }

  function Smaller(a: real, b: real): real { if a <= b then a else b }

  function Larger(a: real, b: real): real { if a <= b then b else a }

  lemma Uncross(h: real -> real, x: real, x': real, y: real, y': real)
    requires Exchange(h)
    ensures h(Smaller(x, x') - Smaller(y, y')) + h(Larger(x, x') - Larger(y, y')) <= h(x - y) + h(x' - y')
  {
    assert ExchangeAt(h, Smaller(x, x'), Larger(x, x'), Smaller(y, y'), Larger(y, y'));
  }

  lemma CostCons(h: real -> real, x: real, y: real, xs: seq<real>, ys: seq<real>)
    requires |xs| == |ys|
    ensures Cost(h, [x] + xs, [y] + ys) == h(x - y) + Cost(h, xs, ys)
  {
    assert ([x] + xs)[1..] == xs && ([y] + ys)[1..] == ys;
  }

  lemma InsertHead(x: real, s: seq<real>)
    requires s != [] && Sorted(s)
    ensures Insert(x, s) == [Smaller(x, s[0])] + Insert(Larger(x, s[0]), s[1..])
  {
    InsertFirst(s);
  }

  lemma InsertFirst(s: seq<real>)
    requires s != [] && Sorted(s)
    ensures Insert(s[0], s[1..]) == s
  {
    if |s| > 1 { assert s[0] <= s[1]; }
  }

  lemma {:induction false} SortedPairingCheapest(h: real -> real, xs: seq<real>, ys: seq<real>)
    requires Exchange(h) && |xs| == |ys|
    ensures Cost(h, Sort(xs), Sort(ys)) <= Cost(h, xs, ys)
    decreases |xs|
  {
    if xs != [] {
      SortedPairingCheapest(h, xs[1..], ys[1..]);
      SortHeadIntoTail(h, xs[0], ys[0], xs[1..], ys[1..]);
      assert xs == [xs[0]] + xs[1..] && ys == [ys[0]] + ys[1..];
      CostCons(h, xs[0], ys[0], xs[1..], ys[1..]);
    }
  }

  lemma SortHeadIntoTail(h: real -> real, x: real, y: real, xs: seq<real>, ys: seq<real>)
    requires Exchange(h) && |xs| == |ys|
    ensures Cost(h, Sort([x] + xs), Sort([y] + ys)) <= h(x - y) + Cost(h, Sort(xs), Sort(ys))
  {
    SortSorts(xs);
    SortSorts(ys);
    assert ([x] + xs)[1..] == xs && ([y] + ys)[1..] == ys;
    InsertPair(h, x, y, Sort(xs), Sort(ys));
  }

  /** A pairing of two samples lists both in some order. */
  ghost predicate Pairing(xs: seq<real>, ys: seq<real>, xs': seq<real>, ys': seq<real>) {
    |xs| == |ys| == |xs'| == |ys'| && multiset(xs') == multiset(xs) && multiset(ys') == multiset(ys)
  }

  /** No pairing of two samples costs less than the sorted one. */
  ghost predicate SortedIsOptimal(h: real -> real) {
    forall xs, ys, xs', ys' :: Pairing(xs, ys, xs', ys') ==> Cost(h, Sort(xs), Sort(ys)) <= Cost(h, xs', ys')
  }

  lemma NoPairingIsCheaper(h: real -> real, xs: seq<real>, ys: seq<real>, xs': seq<real>, ys': seq<real>)
    requires Exchange(h) && Pairing(xs, ys, xs', ys')
    ensures Cost(h, Sort(xs), Sort(ys)) <= Cost(h, xs', ys')
  {
    SortIgnoresOrder(xs, xs');
    SortIgnoresOrder(ys, ys');
    SortedPairingCheapest(h, xs', ys');
  }

  /** The exchange inequality is what makes the sorted pairing optimal, and nothing weaker does. */
  lemma OptimalIffExchange(h: real -> real)
    ensures SortedIsOptimal(h) <==> Exchange(h)
  {
    if Exchange(h) {
      forall xs, ys, xs', ys' | Pairing(xs, ys, xs', ys')
        ensures Cost(h, Sort(xs), Sort(ys)) <= Cost(h, xs', ys')
      {
        NoPairingIsCheaper(h, xs, ys, xs', ys');
      }
    } else {
      var a, b, c, d :| a <= b && c <= d && !ExchangeAt(h, a, b, c, d);
      CrossingIsCheaper(h, a, b, c, d);
    }
  }

  lemma CrossingIsCheaper(h: real -> real, a: real, b: real, c: real, d: real)
    requires a <= b && c <= d && !ExchangeAt(h, a, b, c, d)
    ensures !SortedIsOptimal(h)
  {
    CrossedPairIsWorse(h, a, b, c, d);
    assert Pairing([a, b], [d, c], [a, b], [d, c]);
  }

  lemma CrossedPairIsWorse(h: real -> real, a: real, b: real, c: real, d: real)
    requires a <= b && c <= d
    ensures Cost(h, Sort([a, b]), Sort([d, c])) == h(a - c) + h(b - d)
    ensures Cost(h, [a, b], [d, c]) == h(a - d) + h(b - c)
  {
    SortTwo(a, b);
    SortTwo(d, c);
    PairCost(h, a, b, c, d);
    PairCost(h, a, b, d, c);
  }

  lemma SortTwo(x: real, y: real)
    ensures Sort([x, y]) == [Smaller(x, y), Larger(x, y)]
  {
    assert [x, y][1..] == [y] && [y][1..] == [];
    assert Sort([y]) == Insert(y, []) == [y];
    assert Insert(x, []) == [x];
  }

  lemma PairCost(h: real -> real, a: real, b: real, c: real, d: real)
    ensures Cost(h, [a, b], [c, d]) == h(a - c) + h(b - d)
  {
    assert [a, b][1..] == [b] && [c, d][1..] == [d];
    assert Cost(h, [b], [d]) == h(b - d) + Cost(h, [], []);
  }

  // ----- convex losses

  ghost predicate Convex(h: real -> real) {
    forall x, y, t, z :: 0.0 <= t <= 1.0 && z == t * x + (1.0 - t) * y ==> ConvexAt(h, x, y, t, z)
  }

  /** The value at the point z between x and y lies under the chord. */
  predicate ConvexAt(h: real -> real, x: real, y: real, t: real, z: real) {
    h(z) <= t * h(x) + (1.0 - t) * h(y)
  }

  lemma ConvexExchanges(h: real -> real)
    requires Convex(h)
    ensures Exchange(h)
  {
    forall a, b, c, d | a <= b && c <= d ensures ExchangeAt(h, a, b, c, d) {
      var low, high := a - d, b - c;
      if low < high {
        var t := Weight(low, high, d - c);
        assert ConvexAt(h, high, low, t, a - c) && ConvexAt(h, high, low, 1.0 - t, b - d);
      }
    }
  }

  lemma Weight(low: real, high: real, step: real) returns (t: real)
    requires low < high && 0.0 <= step <= high - low
    ensures 0.0 <= t <= 1.0
    ensures t * high + (1.0 - t) * low == low + step
    ensures (1.0 - t) * high + (1.0 - (1.0 - t)) * low == high - step
  {
    t := step / (high - low);
    Between(step, high - low);
    assert t * (high - low) == step;
  }

  lemma Between(x: real, y: real)
    requires 0.0 <= x <= y && 0.0 < y
    ensures 0.0 <= x / y <= 1.0
  {
    assert x == (x / y) * y;
  }

  function Times(k: real, x: real): real {
    k * x
  }

  function Scaled(g: real -> real, k: real): real -> real {
    delta => g(Times(k, delta))
  }

  function Weighted(g: real -> real, w: real): real -> real {
    delta => g(delta) * w
  }

  function Plus(g: real -> real, h: real -> real): real -> real {
    delta => g(delta) + h(delta)
  }

  /** The loss both variants apply, with g standing for the negated log-sigmoid. */
  function SmoothedLoss(g: real -> real, beta: real, smoothing: real): real -> real {
    Plus(Weighted(Scaled(g, beta), 1.0 - smoothing), Weighted(Scaled(g, -beta), smoothing))
  }

  /** Smoothing is the chance that the preference is the wrong way round: without it the loss is that of
      the preferred answer, flipping the preference swaps it with its complement, and in between the loss
      is the expected one. */
  lemma SmoothingFlipsPreferences(g: real -> real, beta: real, smoothing: real, delta: real)
    ensures SmoothedLoss(g, beta, 0.0)(delta) == g(beta * delta)
    ensures SmoothedLoss(g, beta, 1.0 - smoothing)(delta) == SmoothedLoss(g, beta, smoothing)(-delta)
    ensures SmoothedLoss(g, beta, smoothing)(delta)
            == SmoothedLoss(g, beta, 0.0)(delta)
               + smoothing * (SmoothedLoss(g, beta, 1.0)(delta) - SmoothedLoss(g, beta, 0.0)(delta))
  {
    assert Times(beta, -delta) == Times(-beta, delta) && Times(-beta, -delta) == Times(beta, delta);
    Mix(g(Times(beta, delta)), g(Times(-beta, delta)), smoothing);
  }

  lemma Mix(a: real, b: real, s: real)
    ensures a * (1.0 - s) + b * s == a + s * (b - a)
  {
  }

  lemma SmoothedLossConvex(g: real -> real, beta: real, smoothing: real)
    requires Convex(g) && 0.0 <= smoothing <= 1.0
    ensures Convex(SmoothedLoss(g, beta, smoothing))
  {
    ScaledConvex(g, beta);
    ScaledConvex(g, -beta);
    WeightedConvex(Scaled(g, beta), 1.0 - smoothing);
    WeightedConvex(Scaled(g, -beta), smoothing);
    PlusConvex(Weighted(Scaled(g, beta), 1.0 - smoothing), Weighted(Scaled(g, -beta), smoothing));
  }

  lemma PlusConvex(g: real -> real, h: real -> real)
    requires Convex(g) && Convex(h)
    ensures Convex(Plus(g, h))
  {
    forall x, y, t, z | 0.0 <= t <= 1.0 && z == t * x + (1.0 - t) * y ensures ConvexAt(Plus(g, h), x, y, t, z) {
      assert ConvexAt(g, x, y, t, z) && ConvexAt(h, x, y, t, z);
      assert t * (g(x) + h(x)) == t * g(x) + t * h(x);
      assert (1.0 - t) * (g(y) + h(y)) == (1.0 - t) * g(y) + (1.0 - t) * h(y);
    }
  }

  lemma WeightedConvex(g: real -> real, w: real)
    requires Convex(g) && 0.0 <= w
    ensures Convex(Weighted(g, w))
  {
    forall x, y, t, z | 0.0 <= t <= 1.0 && z == t * x + (1.0 - t) * y ensures ConvexAt(Weighted(g, w), x, y, t, z) {
      assert ConvexAt(g, x, y, t, z);
      ScaleUp(g(z), t * g(x) + (1.0 - t) * g(y), w);
      Distribute(w, t, g(x), g(y));
    }
  }

  lemma ScaledConvex(g: real -> real, k: real)
    requires Convex(g)
    ensures Convex(Scaled(g, k))
  {
    forall x, y, t, z | 0.0 <= t <= 1.0 && z == t * x + (1.0 - t) * y ensures ConvexAt(Scaled(g, k), x, y, t, z) {
      Distribute(k, t, x, y);
      assert ConvexAt(g, Times(k, x), Times(k, y), t, Times(k, z));
    }
  }

  lemma Distribute(k: real, t: real, x: real, y: real)
    ensures k * (t * x + (1.0 - t) * y) == t * (k * x) + (1.0 - t) * (k * y)
  {
  }

  lemma ScaleUp(a: real, b: real, c: real)
    requires a <= b && 0.0 <= c
    ensures a * c <= b * c
  {
  }

  // ----- the two losses

  function AotPairDelta(chosen: seq<real>, rejected: seq<real>, refChosen: seq<real>, refRejected: seq<real>): seq<real>
    requires |chosen| == |rejected| == |refChosen| == |refRejected|
  {
    Minus(Sort(Minus(chosen, refChosen)), Sort(Minus(rejected, refRejected)))
  }

  function AotDelta(chosen: seq<real>, rejected: seq<real>, refChosen: seq<real>, refRejected: seq<real>): seq<real>
    requires |chosen| == |rejected| == |refChosen| == |refRejected|
  {
    Minus(Sort(Minus(chosen, rejected)), Sort(Minus(refChosen, refRejected)))
  }

  /** The pairing that lists both samples from their smallest to their largest entry. */
  ghost predicate SortedPairing(a: seq<real>, b: seq<real>, xs: seq<real>, ys: seq<real>) {
    Pairing(a, b, xs, ys) && Sorted(xs) && Sorted(ys)
  }

  /** The deltas of both losses are the differences within that pairing, and there is one. */
  lemma AotDeltasAreSortedPairing(chosen: seq<real>, rejected: seq<real>, refChosen: seq<real>, refRejected: seq<real>)
    requires |chosen| == |rejected| == |refChosen| == |refRejected|
    ensures exists xs, ys :: SortedPairing(Minus(chosen, refChosen), Minus(rejected, refRejected), xs, ys)
    ensures exists xs, ys :: SortedPairing(Minus(chosen, rejected), Minus(refChosen, refRejected), xs, ys)
    ensures forall xs, ys :: SortedPairing(Minus(chosen, refChosen), Minus(rejected, refRejected), xs, ys) ==>
      AotPairDelta(chosen, rejected, refChosen, refRejected) == Minus(xs, ys)
    ensures forall xs, ys :: SortedPairing(Minus(chosen, rejected), Minus(refChosen, refRejected), xs, ys) ==>
      AotDelta(chosen, rejected, refChosen, refRejected) == Minus(xs, ys)
  {
    OneSortedPairing(Minus(chosen, refChosen), Minus(rejected, refRejected));
    OneSortedPairing(Minus(chosen, rejected), Minus(refChosen, refRejected));
  }

  lemma OneSortedPairing(a: seq<real>, b: seq<real>)
    requires |a| == |b|
    ensures SortedPairing(a, b, Sort(a), Sort(b))
    ensures forall xs, ys :: SortedPairing(a, b, xs, ys) ==> xs == Sort(a) && ys == Sort(b)
  {
    SortSorts(a);
    SortSorts(b);
    forall xs, ys | SortedPairing(a, b, xs, ys) ensures xs == Sort(a) && ys == Sort(b) {
      SortUnique(xs, Sort(a));
      SortUnique(ys, Sort(b));
    }
  }

  /** The total is what some pairing of the samples costs, and no pairing costs less. */
  ghost predicate IsLeastCost(h: real -> real, a: seq<real>, b: seq<real>, total: real) {
    && (exists xs, ys :: Pairing(a, b, xs, ys) && Cost(h, xs, ys) == total)
    && (forall xs, ys :: Pairing(a, b, xs, ys) ==> total <= Cost(h, xs, ys))
  }

  lemma SortedPairingIsLeast(h: real -> real, a: seq<real>, b: seq<real>)
    requires Exchange(h) && |a| == |b|
    ensures IsLeastCost(h, a, b, Sum(Losses(h, Minus(Sort(a), Sort(b)))))
  {
    OptimalIffExchange(h);
    OneSortedPairing(a, b);
    CostIsSum(h, Sort(a), Sort(b));
    assert Pairing(a, b, Sort(a), Sort(b));
  }

  /** For every loss with the exchange inequality, both losses total the least that any pairing of the
      two samples they compare can cost. */
  lemma AotLossesAreCheapest(h: real -> real, chosen: seq<real>, rejected: seq<real>, refChosen: seq<real>,
                             refRejected: seq<real>)
    requires Exchange(h) && |chosen| == |rejected| == |refChosen| == |refRejected|
    ensures IsLeastCost(h, Minus(chosen, refChosen), Minus(rejected, refRejected),
                        Sum(Losses(h, AotPairDelta(chosen, rejected, refChosen, refRejected))))
    ensures IsLeastCost(h, Minus(chosen, rejected), Minus(refChosen, refRejected),
                        Sum(Losses(h, AotDelta(chosen, rejected, refChosen, refRejected))))
  {
    SortedPairingIsLeast(h, Minus(chosen, refChosen), Minus(rejected, refRejected));
    SortedPairingIsLeast(h, Minus(chosen, rejected), Minus(refChosen, refRejected));
  }

  /** The loss the trainer applies is such a loss. */
  lemma SmoothedAotLossesAreCheapest(g: real -> real, beta: real, smoothing: real, chosen: seq<real>,
                                     rejected: seq<real>, refChosen: seq<real>, refRejected: seq<real>)
    requires Convex(g) && 0.0 <= smoothing <= 1.0 && |chosen| == |rejected| == |refChosen| == |refRejected|
    ensures
      var h := SmoothedLoss(g, beta, smoothing);
      && IsLeastCost(h, Minus(chosen, refChosen), Minus(rejected, refRejected),
                     Sum(Losses(h, AotPairDelta(chosen, rejected, refChosen, refRejected))))
      && IsLeastCost(h, Minus(chosen, rejected), Minus(refChosen, refRejected),
                     Sum(Losses(h, AotDelta(chosen, rejected, refChosen, refRejected))))
  {
    SmoothedLossConvex(g, beta, smoothing);
    ConvexExchanges(SmoothedLoss(g, beta, smoothing));
    AotLossesAreCheapest(SmoothedLoss(g, beta, smoothing), chosen, rejected, refChosen, refRejected);
  }

  /** Sorting moves the deltas around but keeps their sum, so both losses see the same mean margin. */
  lemma AotDeltasConserveMargin(chosen: seq<real>, rejected: seq<real>, refChosen: seq<real>, refRejected: seq<real>)
    requires |chosen| == |rejected| == |refChosen| == |refRejected|
    ensures Sum(AotPairDelta(chosen, rejected, refChosen, refRejected))
            == Sum(chosen) - Sum(refChosen) - (Sum(rejected) - Sum(refRejected))
    ensures Sum(AotDelta(chosen, rejected, refChosen, refRejected))
            == Sum(AotPairDelta(chosen, rejected, refChosen, refRejected))
  {
    SortedDifferenceSum(chosen, refChosen, rejected, refRejected);
    SortedDifferenceSum(chosen, rejected, refChosen, refRejected);
  }

  lemma SortedDifferenceSum(a: seq<real>, b: seq<real>, c: seq<real>, d: seq<real>)
    requires |a| == |b| == |c| == |d|
    ensures Sum(Minus(Sort(Minus(a, b)), Sort(Minus(c, d)))) == Sum(a) - Sum(b) - (Sum(c) - Sum(d))
  {
    var x, y := Minus(a, b), Minus(c, d);
    SortSorts(x);
    SortSorts(y);
    SumPermute(Sort(x), x);
    SumPermute(Sort(y), y);
    SumMinus(Sort(x), Sort(y));
    SumMinus(a, b);
    SumMinus(c, d);
  }

  /** The unpaired loss does not depend on the order of the chosen or of the rejected examples. */
  lemma AotPairIgnoresOrder(chosen: seq<real>, rejected: seq<real>, refChosen: seq<real>, refRejected: seq<real>,
                            chosen': seq<real>, rejected': seq<real>, refChosen': seq<real>, refRejected': seq<real>)
    requires |chosen| == |rejected| == |refChosen| == |refRejected|
    requires |chosen'| == |rejected'| == |refChosen'| == |refRejected'|
    requires multiset(Minus(chosen, refChosen)) == multiset(Minus(chosen', refChosen'))
    requires multiset(Minus(rejected, refRejected)) == multiset(Minus(rejected', refRejected'))
    ensures AotPairDelta(chosen, rejected, refChosen, refRejected)
      == AotPairDelta(chosen', rejected', refChosen', refRejected')
  {
    SortIgnoresOrder(Minus(chosen, refChosen), Minus(chosen', refChosen'));
    SortIgnoresOrder(Minus(rejected, refRejected), Minus(rejected', refRejected'));
  }

  /** The paired loss does not depend on the order of the pairs, nor on which reference margin goes
      with which policy margin. */
  lemma AotIgnoresOrder(chosen: seq<real>, rejected: seq<real>, refChosen: seq<real>, refRejected: seq<real>,
                        chosen': seq<real>, rejected': seq<real>, refChosen': seq<real>, refRejected': seq<real>)
    requires |chosen| == |rejected| == |refChosen| == |refRejected|
    requires |chosen'| == |rejected'| == |refChosen'| == |refRejected'|
    requires multiset(Minus(chosen, rejected)) == multiset(Minus(chosen', rejected'))
    requires multiset(Minus(refChosen, refRejected)) == multiset(Minus(refChosen', refRejected'))
    ensures AotDelta(chosen, rejected, refChosen, refRejected) == AotDelta(chosen', rejected', refChosen', refRejected')
  {
    SortIgnoresOrder(Minus(chosen, rejected), Minus(chosen', rejected'));
    SortIgnoresOrder(Minus(refChosen, refRejected), Minus(refChosen', refRejected'));
  }
}
