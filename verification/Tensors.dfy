/** The vocabulary the trainers share: a matrix is a sequence of equally long rows, a boolean
    mask selects entries of a row, and Python slices clip instead of failing. */
module Tensors {

  datatype Option<+T> = None | Some(value: T)

  datatype Error = ValueError | IndexError | KeyError | RuntimeError

  datatype Result<+T> = Success(value: T) | Failure(error: Error)

  datatype TruncationMode = KeepStart | KeepEnd | UnknownMode

  function Max(a: int, b: int): int { if a < b then b else a }

  function Min(a: int, b: int): int { if a < b then a else b }

  ghost predicate Rect<T>(rows: seq<seq<T>>, width: nat) {
    forall r :: 0 <= r < |rows| ==> |rows[r]| == width
  }

  /** `s[:k]` for a non-negative k. */
  function First<T>(s: seq<T>, k: nat): seq<T> {
    if k <= |s| then s[..k] else s
  }

  /** `s[-k:]` for a non-negative k; note that `-0` is `0`, so k = 0 gives the whole of s. */
  function Last<T>(s: seq<T>, k: nat): (r: seq<T>)
    ensures |r| == if 0 < k <= |s| then k else |s|
  {
    if 0 < k <= |s| then s[|s| - k..] else s
  }

  function Fill<T>(n: nat, x: T): (r: seq<T>)
    ensures |r| == n
  {
    seq(n, _ => x)
  }

  /** `pad_to_length`: right-padding, leaving longer rows alone. */
  function PadToLength<T>(s: seq<T>, n: nat, x: T): seq<T> {
    if |s| >= n then s else s + Fill(n - |s|, x)
  }

  function PadRows<T>(rows: seq<seq<T>>, n: nat, x: T): (r: seq<seq<T>>)
    ensures |r| == |rows|
    ensures forall i :: 0 <= i < |rows| ==> r[i] == PadToLength(rows[i], n, x)
  {
    seq(|rows|, i requires 0 <= i < |rows| => PadToLength(rows[i], n, x))
  }

  /** The length of the longest row. */
  function Longest(rows: seq<seq<int>>): (n: nat)
    ensures forall i :: 0 <= i < |rows| ==> |rows[i]| <= n
  {
    if rows == [] then 0 else Max(|rows[0]|, Longest(rows[1..]))
  }

  lemma {:induction false} LongestSame(a: seq<seq<int>>, b: seq<seq<int>>)
    requires |a| == |b| && forall i :: 0 <= i < |a| ==> |a[i]| == |b[i]|
    ensures Longest(a) == Longest(b)
  {
    if a != [] { LongestSame(a[1..], b[1..]); }
  }

  // ----- sums

  function Sum(s: seq<real>): real {
    if s == [] then 0.0 else s[0] + Sum(s[1..])
  }

  function Minus(xs: seq<real>, ys: seq<real>): seq<real>
    requires |xs| == |ys|
  {
    seq(|xs|, i requires 0 <= i < |xs| => xs[i] - ys[i])
  }

  lemma {:induction false} SumMinus(xs: seq<real>, ys: seq<real>)
    requires |xs| == |ys|
    ensures Sum(Minus(xs, ys)) == Sum(xs) - Sum(ys)
  {
    if xs != [] {
      SumMinus(xs[1..], ys[1..]);
      assert Minus(xs, ys)[1..] == Minus(xs[1..], ys[1..]);
    }
  }

  lemma {:induction false} SumAppend(a: seq<real>, b: seq<real>)
    ensures Sum(a + b) == Sum(a) + Sum(b)
  {
    if a == [] {
      assert a + b == b;
    } else {
      assert (a + b)[1..] == a[1..] + b;
      SumAppend(a[1..], b);
    }
  }

  lemma SumSnoc(s: seq<real>, x: real)
    ensures Sum(s + [x]) == Sum(s) + x
  {
    SumAppend(s, [x]);
    assert Sum([x]) == x + Sum([]);
  }

  lemma {:induction false} SumZeros(s: seq<real>)
    requires forall i :: 0 <= i < |s| ==> s[i] == 0.0
    ensures Sum(s) == 0.0
  {
    if s != [] { SumZeros(s[1..]); }
  }

  lemma {:induction false} FindEntry<T>(x: T, s: seq<T>) returns (front: seq<T>, back: seq<T>)
    requires x in s
    ensures s == front + ([x] + back)
  {
    assert s == [s[0]] + s[1..];
    if s[0] == x {
      front, back := [], s[1..];
    } else {
      front, back := FindEntry(x, s[1..]);
      front := [s[0]] + front;
    }
  }

  /** Two lists with the same entries still agree after the head of one is taken from both. */
  lemma TakeHead<T>(a: seq<T>, b: seq<T>) returns (front: seq<T>, back: seq<T>)
    requires multiset(a) == multiset(b) && a != []
    ensures b == front + ([a[0]] + back)
    ensures multiset(a[1..]) == multiset(front + back)
  {
    assert a[0] in multiset(b);
    front, back := FindEntry(a[0], b);
    EntriesAround(front, a[0], back);
    TailEntries(a);
  }

  lemma EntriesAround<T>(front: seq<T>, x: T, back: seq<T>)
    ensures multiset(front + ([x] + back)) == multiset(front + back) + multiset{x}
  {
  }

  lemma {:induction false} SumAtLeast(s: seq<real>, k: nat)
    requires k < |s| && forall i :: 0 <= i < |s| ==> s[i] >= 0.0
    ensures Sum(s) >= s[k]
  {
    if k > 0 {
      SumAtLeast(s[1..], k - 1);
    } else if |s| > 1 {
      SumAtLeast(s[1..], 0);
    }
  }

  lemma TailEntries<T>(s: seq<T>)
    requires s != []
    ensures multiset(s[1..]) == multiset(s) - multiset{s[0]}
  {
    assert s == [s[0]] + s[1..];
  }

  lemma SameLength<T>(a: seq<T>, b: seq<T>)
    requires multiset(a) == multiset(b)
    ensures |a| == |b|
  {
    assert |multiset(a)| == |multiset(b)|;
  }

  lemma SumAround(a: seq<real>, x: real, b: seq<real>)
    ensures Sum(a + ([x] + b)) == x + Sum(a + b)
  {
    SumAppend(a, [x] + b);
    assert ([x] + b)[1..] == b;
    SumAppend(a, b);
  }

  /** A sum depends only on which values occur, not on their order. */
  lemma {:induction false} SumPermute(a: seq<real>, b: seq<real>)
    requires multiset(a) == multiset(b)
    ensures Sum(a) == Sum(b)
  {
    SameLength(a, b);
    if a != [] {
      var front, back := TakeHead(a, b);
      SumPermute(a[1..], front + back);
      SumAround(front, a[0], back);
    }
  }

  // ----- boolean masks

  function Count(mask: seq<bool>): (n: nat)
    ensures n <= |mask|
  {
    if mask == [] then 0 else (if mask[0] then 1 else 0) + Count(mask[1..])
  }

  /** `s[mask]` on one row. */
  function Select<T>(mask: seq<bool>, s: seq<T>): (r: seq<T>)
    requires |mask| == |s|
    ensures |r| == Count(mask)
  {
    if mask == [] then []
    else if mask[0] then [s[0]] + Select(mask[1..], s[1..])
    else Select(mask[1..], s[1..])
  }

  lemma {:induction false} CountAppend(a: seq<bool>, b: seq<bool>)
    ensures Count(a + b) == Count(a) + Count(b)
  {
    if a == [] {
      assert a + b == b;
    } else {
      assert (a + b)[1..] == a[1..] + b;
      CountAppend(a[1..], b);
    }
  }

  lemma {:induction false} SelectAppend<T>(m: seq<bool>, m': seq<bool>, s: seq<T>, s': seq<T>)
    requires |m| == |s| && |m'| == |s'|
    ensures Select(m + m', s + s') == Select(m, s) + Select(m', s')
  {
    if m == [] {
      assert m + m' == m' && s + s' == s';
    } else {
      assert (m + m')[1..] == m[1..] + m' && (s + s')[1..] == s[1..] + s';
      SelectAppend(m[1..], m', s[1..], s');
    }
  }

  lemma SelectSplit<T>(mask: seq<bool>, s: seq<T>, k: nat)
    requires |mask| == |s| && k <= |s|
    ensures Select(mask, s) == Select(mask[..k], s[..k]) + Select(mask[k..], s[k..])
    ensures Count(mask) == Count(mask[..k]) + Count(mask[k..])
  {
    assert mask == mask[..k] + mask[k..] && s == s[..k] + s[k..];
    SelectAppend(mask[..k], mask[k..], s[..k], s[k..]);
    CountAppend(mask[..k], mask[k..]);
  }

  lemma {:induction false} SelectNone<T>(mask: seq<bool>, s: seq<T>)
    requires |mask| == |s|
    requires forall i :: 0 <= i < |mask| ==> !mask[i]
    ensures Select(mask, s) == [] && Count(mask) == 0
  {
    if mask != [] { SelectNone(mask[1..], s[1..]); }
  }

  lemma {:induction false} SelectAll<T>(mask: seq<bool>, s: seq<T>)
    requires |mask| == |s|
    requires forall i :: 0 <= i < |mask| ==> mask[i]
    ensures Select(mask, s) == s && Count(mask) == |mask|
  {
    if mask != [] { SelectAll(mask[1..], s[1..]); }
  }

  lemma SelectPrefix<T>(mask: seq<bool>, s: seq<T>, n: nat)
    requires |mask| == |s| && n <= |mask|
    requires forall i :: 0 <= i < |mask| ==> mask[i] == (i < n)
    ensures Select(mask, s) == s[..n] && Count(mask) == n
  {
    SelectSplit(mask, s, n);
    SelectAll(mask[..n], s[..n]);
    SelectNone(mask[n..], s[n..]);
  }

  /** When the set entries form one run [lo, hi), selecting is slicing. */
  lemma SelectRun<T>(mask: seq<bool>, s: seq<T>, lo: nat, hi: nat)
    requires |mask| == |s| && lo <= hi <= |mask|
    requires forall i :: 0 <= i < |mask| ==> mask[i] == (lo <= i < hi)
    ensures Select(mask, s) == s[lo..hi] && Count(mask) == hi - lo
  {
    SelectSplit(mask, s, lo);
    SelectNone(mask[..lo], s[..lo]);
    SelectPrefix(mask[lo..], s[lo..], hi - lo);
    assert s[lo..][..hi - lo] == s[lo..hi];
  }

  function Not(mask: seq<bool>): seq<bool> {
    seq(|mask|, i requires 0 <= i < |mask| => !mask[i])
  }

  /** The positions of the set entries, counted from base. */
  function Indices(mask: seq<bool>, base: nat): (r: seq<nat>)
    ensures |r| == Count(mask)
    ensures forall k :: 0 <= k < |r| ==> base <= r[k] < base + |mask|
  {
    if mask == [] then []
    else if mask[0] then [base] + Indices(mask[1..], base + 1)
    else Indices(mask[1..], base + 1)
  }

  lemma IndexInTail(mask: seq<bool>, base: nat, k: nat)
    requires mask != [] && (if mask[0] then 1 else 0) <= k < Count(mask)
    ensures Indices(mask, base)[k] == Indices(mask[1..], base + 1)[k - (if mask[0] then 1 else 0)]
  {
  }

  lemma {:induction false} IndexIsSet(mask: seq<bool>, base: nat, k: nat)
    requires k < Count(mask)
    ensures mask[Indices(mask, base)[k] - base]
  {
    var d := if mask[0] then 1 else 0;
    if k >= d {
      var tail := mask[1..];
      IndexInTail(mask, base, k);
      IndexIsSet(tail, base + 1, k - d);
      assert tail[Indices(mask, base)[k] - base - 1];
    }
  }

  lemma {:induction false} IndexIncreases(mask: seq<bool>, base: nat, j: nat, k: nat)
    requires j < k < Count(mask)
    ensures Indices(mask, base)[j] < Indices(mask, base)[k]
  {
    var d := if mask[0] then 1 else 0;
    IndexInTail(mask, base, k);
    if j >= d {
      IndexInTail(mask, base, j);
      IndexIncreases(mask[1..], base + 1, j - d, k - d);
    }
  }

  /** They come in increasing order and are exactly the set entries. */
  lemma IndicesOrdered(mask: seq<bool>, base: nat)
    ensures forall k :: 0 <= k < Count(mask) ==> mask[Indices(mask, base)[k] - base]
    ensures forall j, k :: 0 <= j < k < Count(mask) ==> Indices(mask, base)[j] < Indices(mask, base)[k]
  {
    forall k | 0 <= k < Count(mask) ensures mask[Indices(mask, base)[k] - base] {
      IndexIsSet(mask, base, k);
    }
    forall j, k | 0 <= j < k < Count(mask) ensures Indices(mask, base)[j] < Indices(mask, base)[k] {
      IndexIncreases(mask, base, j, k);
    }
  }

  lemma {:induction false} IndicesComplete(mask: seq<bool>, base: nat, i: nat)
    requires i < |mask| && mask[i]
    ensures base + i in Indices(mask, base)
  {
    if i == 0 {
      assert Indices(mask, base)[0] == base;
    } else {
      IndicesComplete(mask[1..], base + 1, i - 1);
    }
  }

  /** A mask and its complement share out the entries of a row. */
  lemma {:induction false} SelectPartition<T>(mask: seq<bool>, s: seq<T>)
    requires |mask| == |s|
    ensures multiset(Select(mask, s)) + multiset(Select(Not(mask), s)) == multiset(s)
    ensures Count(mask) + Count(Not(mask)) == |mask|
  {
    if mask != [] {
      assert Not(mask)[1..] == Not(mask[1..]);
      assert s == [s[0]] + s[1..];
      SelectPartition(mask[1..], s[1..]);
    }
  }

  /** `torch.gather` on one row. */
  function Gather<T>(s: seq<T>, index: seq<nat>): seq<T>
    requires forall k :: 0 <= k < |index| ==> index[k] < |s|
  {
    seq(|index|, k requires 0 <= k < |index| => s[index[k]])
  }

  /** Selecting with the mask picks the set entries in the order of their positions. */
  lemma {:induction false} SelectIndices<T>(mask: seq<bool>, s: seq<T>, base: nat, k: nat)
    requires |mask| == |s| && k < Count(mask)
    ensures Select(mask, s)[k] == s[Indices(mask, base)[k] - base]
  {
    var d := if mask[0] then 1 else 0;
    if k >= d {
      SelectIndices(mask[1..], s[1..], base + 1, k - d);
      assert Indices(mask, base)[k] == Indices(mask[1..], base + 1)[k - d];
      assert Select(mask, s)[k] == Select(mask[1..], s[1..])[k - d];
    }
  }

  lemma GatherIndices<T>(mask: seq<bool>, s: seq<T>)
    requires |mask| == |s|
    ensures Gather(s, Indices(mask, 0)) == Select(mask, s)
  {
    forall k | 0 <= k < Count(mask) ensures Gather(s, Indices(mask, 0))[k] == Select(mask, s)[k] {
      SelectIndices(mask, s, 0, k);
    }
  }

  /** Index of the first set entry, or the length when there is none. */
  function FirstTrue(mask: seq<bool>): (k: nat)
    ensures k <= |mask|
    ensures forall i :: 0 <= i < k ==> !mask[i]
    ensures k < |mask| ==> mask[k]
  {
    if mask == [] || mask[0] then 0 else 1 + FirstTrue(mask[1..])
  }

  /** `argmax` of a 0/1 row: the first set entry, and 0 for an all-zero row. */
  function Argmax(mask: seq<bool>): (k: nat)
    ensures k <= |mask|
    ensures forall i :: 0 <= i < k ==> !mask[i]
    ensures k > 0 ==> k < |mask| && mask[k]
    ensures k < |mask| && !mask[k] ==> forall i :: 0 <= i < |mask| ==> !mask[i]
  {
    if FirstTrue(mask) == |mask| then 0 else FirstTrue(mask)
  }

  // ----- concatenating rows

  function Concat<T>(rows: seq<seq<T>>): seq<T> {
    if rows == [] then [] else rows[0] + Concat(rows[1..])
  }

  /** Where row r starts in the concatenation. */
  function Offset<T>(rows: seq<seq<T>>, r: nat): nat
    requires r <= |rows|
  {
    if r == 0 then 0 else |rows[0]| + Offset(rows[1..], r - 1)
  }

  lemma {:induction false} ConcatSlice<T>(rows: seq<seq<T>>, r: nat)
    requires r < |rows|
    ensures Offset(rows, r) + |rows[r]| <= |Concat(rows)|
    ensures Concat(rows)[Offset(rows, r)..Offset(rows, r) + |rows[r]|] == rows[r]
    ensures Offset(rows, r + 1) == Offset(rows, r) + |rows[r]|
  {
    if r == 0 {
      assert Offset(rows, 1) == |rows[0]| + Offset(rows[1..], 0);
    } else {
      ConcatSlice(rows[1..], r - 1);
      var k, o := |rows[0]|, Offset(rows[1..], r - 1);
      assert Offset(rows, r + 1) == k + Offset(rows[1..], r);
      assert Concat(rows)[k + o..k + o + |rows[r]|] == Concat(rows[1..])[o..o + |rows[r]|];
    }
  }

  lemma {:induction false} ConcatAppend<T>(a: seq<seq<T>>, b: seq<seq<T>>)
    ensures Concat(a + b) == Concat(a) + Concat(b)
  {
    if a == [] {
      assert a + b == b;
    } else {
      assert (a + b)[1..] == a[1..] + b;
      ConcatAppend(a[1..], b);
    }
  }

  lemma {:induction false} OffsetSame<S, T>(a: seq<seq<S>>, b: seq<seq<T>>, r: nat)
    requires |a| == |b| && r <= |a|
    requires forall i :: 0 <= i < |a| ==> |a[i]| == |b[i]|
    ensures Offset(a, r) == Offset(b, r)
  {
    if r != 0 { OffsetSame(a[1..], b[1..], r - 1); }
  }

  lemma {:induction false} OffsetEnd<T>(rows: seq<seq<T>>)
    ensures Offset(rows, |rows|) == |Concat(rows)|
  {
    if rows != [] { OffsetEnd(rows[1..]); }
  }
}
