/** The forward pass of the DPO trainer after flushing: labels are the inputs rolled by one, masked
    scores are rolled back and column 0 is dropped. Padding-free flattening and the restriction to
    the last logits must not change any row's sum. The network and the log-probability of a label
    under a logit vector are parameters; L is the type of a logit vector. */
module DpoForward {
  import opened Tensors
  import opened Flush

  type Net<!L> = seq<int> -> seq<L>
  type LogProb<!L> = (L, int) -> real

  /** One logit vector per token. */
  ghost predicate IsNet<L>(net: Net<L>) {
    forall tokens :: |net(tokens)| == |tokens|
  }

  // ----- the meaning of a row

  /** Log-probability of each loss token but the first under the logits one position before it. */
  function NextTokenLogps<L>(lp: LogProb<L>, logits: seq<L>, ids: seq<int>, loss: seq<bool>): seq<real>
    requires |logits| == |ids| == |loss|
  {
    if ids == [] then []
    else seq(|ids| - 1, j requires 0 <= j < |ids| - 1 => if loss[j + 1] then lp(logits[j], ids[j + 1]) else 0.0)
  }

  /** The reference: the log-probability of an example from its own tokens alone. */
  function ExampleLogp<L>(net: Net<L>, lp: LogProb<L>, tokens: seq<int>, loss: seq<bool>): real
    requires |net(tokens)| == |tokens| == |loss|
  {
    Sum(NextTokenLogps(lp, net(tokens), tokens, loss))
  }

  // ----- roll, score, roll back

  /** `roll(s, shifts=-1)` and `roll(s, shifts=1)`. */
  function RollBackward<T>(s: seq<T>): (r: seq<T>)
    ensures |r| == |s|
  {
    if s == [] then [] else s[1..] + [s[0]]
  }

  function RollForward<T>(s: seq<T>): (r: seq<T>)
    ensures |r| == |s|
  {
    if s == [] then [] else [s[|s| - 1]] + s[..|s| - 1]
  }

  function DropFirstColumn<T>(s: seq<T>): seq<T> {
    if s == [] then [] else s[1..]
  }

  function Score<L>(lp: LogProb<L>, logits: seq<L>, labels: seq<int>, mask: seq<bool>): seq<real>
    requires |logits| == |labels| == |mask|
  {
    seq(|labels|, j requires 0 <= j < |labels| => if mask[j] then lp(logits[j], labels[j]) else 0.0)
  }

  /** Rolling, scoring and rolling back, then dropping column 0, scores each token under the logits
      before it; the term that wrapped around is the one dropped. */
  lemma RollIsShift<L>(lp: LogProb<L>, logits: seq<L>, ids: seq<int>, loss: seq<bool>)
    requires |logits| == |ids| == |loss|
    ensures DropFirstColumn(RollForward(Score(lp, logits, RollBackward(ids), RollBackward(loss))))
            == NextTokenLogps(lp, logits, ids, loss)
  {
  }

  /** What the pass sums when the labels have not been rolled. */
  function UnrolledSum<L>(lp: LogProb<L>, logits: seq<L>, labels: seq<int>, mask: seq<bool>): real
    requires |logits| == |labels| == |mask|
  {
    Sum(DropFirstColumn(RollForward(Score(lp, logits, labels, mask))))
  }

  /** In the encoder-decoder branch labels are not rolled, so the same two steps lose the last
      column of every row. */
  lemma EncoderDecoderLosesLastColumn<L>(lp: LogProb<L>, logits: seq<L>, labels: seq<int>, mask: seq<bool>)
    requires |logits| == |labels| == |mask| > 0
    ensures
      var all, last := Score(lp, logits, labels, mask), |labels| - 1;
      UnrolledSum(lp, logits, labels, mask) == Sum(all) - (if mask[last] then lp(logits[last], labels[last]) else 0.0)
  {
    var all, last := Score(lp, logits, labels, mask), |labels| - 1;
    assert all == all[..last] + [all[last]];
    SumSnoc(all[..last], all[last]);
    assert DropFirstColumn(RollForward(all)) == all[..last];
  }

  /** Nothing is lost, for every scoring, if and only if the row's last column does not count. */
  lemma EncoderDecoderKeepsSumIff<L>(logits: seq<L>, labels: seq<int>, mask: seq<bool>)
    requires |logits| == |labels| == |mask| > 0
    ensures (forall lp: LogProb<L> :: UnrolledSum(lp, logits, labels, mask) == Sum(Score(lp, logits, labels, mask)))
            <==> !mask[|labels| - 1]
  {
    forall lp: LogProb<L> | !mask[|labels| - 1]
      ensures UnrolledSum(lp, logits, labels, mask) == Sum(Score(lp, logits, labels, mask))
    {
      EncoderDecoderLosesLastColumn(lp, logits, labels, mask);
    }
    EncoderDecoderLosesLastColumn(One<L>(), logits, labels, mask);
  }

  /** Every label scores one. */
  function One<L>(): LogProb<L> {
    (_, _) => 1.0
  }

  /** A completion that fills its row: the second of its two labels is lost. */
  lemma FullRowLosesItsLastLabel()
    ensures UnrolledSum(One<int>(), [0, 0], [7, 8], [true, true]) == 1.0
    ensures Sum(Score(One<int>(), [0, 0], [7, 8], [true, true])) == 2.0
  {
    var all := Score(One<int>(), [0, 0], [7, 8], [true, true]);
    assert all == [1.0] + [1.0];
    SumSnoc([], 1.0);
    SumSnoc([1.0], 1.0);
    assert [] + [1.0] == [1.0];
    EncoderDecoderLosesLastColumn(One<int>(), [0, 0], [7, 8], [true, true]);
  }

  // ----- padded rows

  /** What the attention mask buys: logits at attended positions of a left-aligned row are those of
      the row's tokens alone; the others are arbitrary. */
  ghost predicate PaddedLogits<L>(net: Net<L>, logits: seq<L>, attention: seq<bool>, ids: seq<int>)
    requires |attention| == |ids|
  {
    |logits| == |ids| && logits[..Count(attention)] == net(Select(attention, ids))
  }

  lemma PaddedRowLogp<L>(net: Net<L>, lp: LogProb<L>, logits: seq<L>, attention: seq<bool>, ids: seq<int>,
                         loss: seq<bool>)
    requires IsNet(net) && |attention| == |ids| == |loss| && PaddedLogits(net, logits, attention, ids)
    requires LeftAligned(attention, Count(attention))
    requires forall c :: 0 <= c < |loss| && loss[c] ==> attention[c]
    ensures Sum(NextTokenLogps(lp, logits, ids, loss))
            == ExampleLogp(net, lp, Select(attention, ids), Select(attention, loss))
  {
    var n := Count(attention);
    SelectLeftAligned(attention, ids, n);
    SelectLeftAligned(attention, loss, n);
    var row, own := NextTokenLogps(lp, logits, ids, loss), NextTokenLogps(lp, logits[..n], ids[..n], loss[..n]);
    assert row == row[..|own|] + row[|own|..];
    assert row[..|own|] == own;
    SumAppend(row[..|own|], row[|own|..]);
    SumZeros(row[|own|..]);
  }

  // ----- logits_to_keep

  /** First column with a loss token in any row, or the width. */
  function FirstLossColumn(b: Batch): (f: nat)
    requires Valid(b)
    ensures f <= b.width
    ensures forall r, c :: 0 <= r < |b.loss| && 0 <= c < f ==> !b.loss[r][c]
    ensures f < b.width ==> !EmptyColumn(b.loss, f)
  {
    FirstFilledColumn(b.loss, b.width, 0)
  }

  function FirstFilledColumn(mask: seq<seq<bool>>, width: nat, c: nat): (e: nat)
    requires Rect(mask, width) && c <= width
    ensures c <= e <= width
    ensures forall r, i :: 0 <= r < |mask| && c <= i < e ==> !mask[r][i]
    ensures e < width ==> !EmptyColumn(mask, e)
    decreases width - c
  {
    if c == width || !EmptyColumn(mask, c) then c else FirstFilledColumn(mask, width, c + 1)
  }

  /** The minimum over no column at all is an error. */
  function LogitsToKeep(b: Batch): (k: Result<nat>)
    requires Valid(b)
    ensures k.Success? ==> k.value >= 2
  {
    if FirstLossColumn(b) == b.width then Failure(RuntimeError) else Success(b.width - FirstLossColumn(b) + 1)
  }

  /** It fails if and only if no row has a loss token, and otherwise reaches from the column before the first
      that holds one to the end. */
  lemma LogitsReachFirstLoss(b: Batch)
    requires Valid(b)
    ensures LogitsToKeep(b).Failure? <==> forall r, c :: 0 <= r < |b.loss| && 0 <= c < b.width ==> !b.loss[r][c]
    ensures LogitsToKeep(b).Success? ==>
      var first := b.width + 1 - LogitsToKeep(b).value;
      && 0 <= first < b.width
      && (exists r :: 0 <= r < |b.loss| && b.loss[r][first])
      && forall r, c :: 0 <= r < |b.loss| && 0 <= c < first ==> !b.loss[r][c]
  {
  }

  /** Scoring only the last logits leaves the sum unchanged: the columns left out carry no loss. */
  lemma KeptLogitsSameSum<L>(lp: LogProb<L>, logits: seq<L>, ids: seq<int>, loss: seq<bool>, first: nat)
    requires |logits| == |ids| == |loss| && first < |ids|
    requires forall c :: 0 <= c < first ==> !loss[c]
    ensures
      var k := |ids| - first + 1;
      Sum(DropFirstColumn(RollForward(Score(lp, Last(logits, k), Last(RollBackward(ids), k),
                                            Last(RollBackward(loss), k)))))
      == Sum(NextTokenLogps(lp, logits, ids, loss))
  {
    var k := |ids| - first + 1;
    var all := Score(lp, logits, RollBackward(ids), RollBackward(loss));
    ScoreOfLast(lp, logits, RollBackward(ids), RollBackward(loss), k);
    RollIsShift(lp, logits, ids, loss);
    if first > 0 {
      LastThenRoll(all, k);
      DropZeros(NextTokenLogps(lp, logits, ids, loss), first - 1);
    }
  }

  /** And it is no larger than needed: with one logit less, the first loss token's term is missing. */
  lemma OneLogitLessLosesATerm<L>(lp: LogProb<L>, logits: seq<L>, ids: seq<int>, loss: seq<bool>, first: nat)
    requires |logits| == |ids| == |loss| && 0 < first < |ids|
    requires loss[first] && forall c :: 0 <= c < first ==> !loss[c]
    ensures
      var k := |ids| - first;
      Sum(DropFirstColumn(RollForward(Score(lp, Last(logits, k), Last(RollBackward(ids), k),
                                            Last(RollBackward(loss), k)))))
      == Sum(NextTokenLogps(lp, logits, ids, loss)) - lp(logits[first - 1], ids[first])
  {
    var k := |ids| - first;
    var all, row := Score(lp, logits, RollBackward(ids), RollBackward(loss)), NextTokenLogps(lp, logits, ids, loss);
    ScoreOfLast(lp, logits, RollBackward(ids), RollBackward(loss), k);
    RollIsShift(lp, logits, ids, loss);
    LastThenRoll(all, k);
    DropFirstTerm(row, first - 1);
  }

  lemma ScoreOfLast<L>(lp: LogProb<L>, logits: seq<L>, labels: seq<int>, mask: seq<bool>, k: nat)
    requires |logits| == |labels| == |mask|
    ensures Score(lp, Last(logits, k), Last(labels, k), Last(mask, k)) == Last(Score(lp, logits, labels, mask), k)
  {
  }

  lemma LastThenRoll(all: seq<real>, k: nat)
    requires 0 < k <= |all|
    ensures DropFirstColumn(RollForward(Last(all, k))) == DropFirstColumn(RollForward(all))[|all| - k..]
  {
  }

  lemma DropFirstTerm(row: seq<real>, i: nat)
    requires i < |row| && forall j :: 0 <= j < i ==> row[j] == 0.0
    ensures Sum(row[i + 1..]) == Sum(row) - row[i]
  {
    DropZeros(row, i);
    assert row[i..][1..] == row[i + 1..];
  }

  lemma DropZeros(row: seq<real>, cut: nat)
    requires cut <= |row| && forall i :: 0 <= i < cut ==> row[i] == 0.0
    ensures Sum(row[cut..]) == Sum(row)
  {
    assert row == row[..cut] + row[cut..];
    SumAppend(row[..cut], row[cut..]);
    SumZeros(row[..cut]);
  }

  // ----- padding-free: positions

  function CumSum(mask: seq<bool>): seq<int> {
    seq(|mask|, j requires 0 <= j < |mask| => Count(mask[..j + 1]))
  }

  /** `attention_mask.cumsum(1)[attention_mask] - 1` on one row. */
  function PositionIds(mask: seq<bool>): seq<int> {
    var picked := Select(mask, CumSum(mask));
    seq(|picked|, j requires 0 <= j < |picked| => picked[j] - 1)
  }

  function Range(n: nat): (r: seq<int>)
    ensures |r| == n
  {
    seq(n, i => i)
  }

  lemma CumSumAppend(front: seq<bool>, x: bool)
    ensures CumSum(front + [x]) == CumSum(front) + [Count(front + [x])]
  {
    var mask := front + [x];
    forall j | 0 <= j < |mask| ensures CumSum(mask)[j] == (CumSum(front) + [Count(mask)])[j] {
      if j < |front| { assert mask[..j + 1] == front[..j + 1]; } else { assert mask[..j + 1] == mask; }
    }
  }

  /** The attended positions of a row are numbered 0, 1, 2, ... wherever they are. */
  lemma {:induction false} PositionsCountUp(mask: seq<bool>)
    ensures PositionIds(mask) == Range(Count(mask))
  {
    if mask != [] {
      var front, x := mask[..|mask| - 1], mask[|mask| - 1];
      PositionsCountUp(front);
      assert mask == front + [x];
      CumSumAppend(front, x);
      SelectAppend(front, [x], CumSum(front), [Count(mask)]);
      CountAppend(front, [x]);
      forall j | 0 <= j < Count(front) ensures PositionIds(mask)[j] == j { assert PositionIds(front)[j] == j; }
    }
  }

  function SelectRows<T>(attention: seq<seq<bool>>, rows: seq<seq<T>>): (r: seq<seq<T>>)
    requires |attention| == |rows|
    requires forall r :: 0 <= r < |rows| ==> |attention[r]| == |rows[r]|
    ensures |r| == |rows|
  {
    seq(|rows|, r requires 0 <= r < |rows| => Select(attention[r], rows[r]))
  }

  function PositionRows(attention: seq<seq<bool>>): seq<seq<int>> {
    seq(|attention|, r requires 0 <= r < |attention| => PositionIds(attention[r]))
  }

  // ----- padding-free: the network on the flattened row

  /** Length of the first sequence: up to the next position 0. */
  function SegmentLength(positions: seq<int>): (k: nat)
    requires positions != []
    ensures 1 <= k <= |positions|
  {
    if |positions| == 1 || positions[1] == 0 then 1 else 1 + SegmentLength(positions[1..])
  }

  /** The positions tell the sequences of a flattened row apart; each is seen on its own. */
  function FlatNet<L>(net: Net<L>, ids: seq<int>, positions: seq<int>): seq<L>
    requires |ids| == |positions|
    decreases |ids|
  {
    if positions == [] then []
    else
      var k := SegmentLength(positions);
      net(ids[..k]) + FlatNet(net, ids[k..], positions[k..])
  }

  lemma {:induction false} SegmentOfRange(n: nat, from: nat, rest: seq<int>)
    requires from < n && (rest == [] || rest[0] == 0)
    ensures SegmentLength(Range(n)[from..] + rest) == n - from
    decreases n - from
  {
    var s := Range(n)[from..] + rest;
    if from + 1 < n {
      assert s[1..] == Range(n)[from + 1..] + rest && s[1] == from + 1;
      SegmentOfRange(n, from + 1, rest);
    }
  }

  function NetRows<L>(net: Net<L>, rows: seq<seq<int>>): (r: seq<seq<L>>)
    ensures |r| == |rows|
  {
    seq(|rows|, r requires 0 <= r < |rows| => net(rows[r]))
  }

  function Ranges(rows: seq<seq<int>>): (r: seq<seq<int>>)
    ensures |r| == |rows|
  {
    seq(|rows|, r requires 0 <= r < |rows| => Range(|rows[r]|))
  }

  lemma {:induction false} RangesStartAtZero(rows: seq<seq<int>>)
    ensures |Concat(Ranges(rows))| == |Concat(rows)|
    ensures Concat(rows) != [] ==> Concat(Ranges(rows))[0] == 0
  {
    if rows != [] {
      assert Ranges(rows)[1..] == Ranges(rows[1..]);
      RangesStartAtZero(rows[1..]);
    }
  }

  /** The first sequence is cut off where the next one starts. */
  lemma FlatNetStep<L>(net: Net<L>, first: seq<int>, ids: seq<int>, positions: seq<int>)
    requires IsNet(net) && |ids| == |positions| && (positions == [] || positions[0] == 0)
    ensures FlatNet(net, first + ids, Range(|first|) + positions) == net(first) + FlatNet(net, ids, positions)
  {
    var n := |first|;
    if n > 0 {
      SegmentOfRange(n, 0, positions);
      assert Range(n)[0..] == Range(n);
      assert (first + ids)[..n] == first && (first + ids)[n..] == ids && (Range(n) + positions)[n..] == positions;
    } else {
      assert first + ids == ids && Range(n) + positions == positions;
      assert net(first) == [];
    }
  }

  /** Flattening and telling apart again runs the network on every row's own tokens. */
  lemma {:induction false} FlatNetIsRowwise<L>(net: Net<L>, rows: seq<seq<int>>)
    requires IsNet(net)
    ensures |Concat(Ranges(rows))| == |Concat(rows)|
    ensures FlatNet(net, Concat(rows), Concat(Ranges(rows))) == Concat(NetRows(net, rows))
  {
    RangesStartAtZero(rows);
    if rows != [] {
      var tail := rows[1..];
      assert Ranges(rows)[1..] == Ranges(tail) && NetRows(net, rows)[1..] == NetRows(net, tail);
      FlatNetIsRowwise(net, tail);
      RangesStartAtZero(tail);
      FlatNetStep(net, rows[0], Concat(tail), Concat(Ranges(tail)));
    }
  }

  // ----- padding-free: unflattening

  /** `out[mask] = values` on one row of zeros. */
  function Scatter(mask: seq<bool>, values: seq<real>): (r: seq<real>)
    requires |values| == Count(mask)
    ensures |r| == |mask|
  {
    if mask == [] then []
    else if mask[0] then [values[0]] + Scatter(mask[1..], values[1..])
    else [0.0] + Scatter(mask[1..], values)
  }

  /** Number of attended tokens of all rows, and of the rows before r. */
  function Attended(attention: seq<seq<bool>>): nat {
    if attention == [] then 0 else Count(attention[0]) + Attended(attention[1..])
  }

  function RowStart(attention: seq<seq<bool>>, r: nat): nat
    requires r <= |attention|
  {
    if r == 0 then 0 else Count(attention[0]) + RowStart(attention[1..], r - 1)
  }

  lemma {:induction false} SelectedRowsLayout<T>(attention: seq<seq<bool>>, rows: seq<seq<T>>, r: nat)
    requires |attention| == |rows| && r <= |rows|
    requires forall i :: 0 <= i < |rows| ==> |rows[i]| == Count(attention[i])
    ensures |Concat(rows)| == Attended(attention) && Offset(rows, r) == RowStart(attention, r)
  {
    if rows != [] { SelectedRowsLayout(attention[1..], rows[1..], if r > 0 then r - 1 else 0); }
  }

  /** `out[mask] = values` on a matrix of zeros, row after row. */
  function Unflatten(attention: seq<seq<bool>>, values: seq<real>): (r: seq<seq<real>>)
    requires |values| == Attended(attention)
    ensures |r| == |attention|
  {
    if attention == [] then []
    else
      var n := Count(attention[0]);
      [Scatter(attention[0], values[..n])] + Unflatten(attention[1..], values[n..])
  }

  lemma {:induction false} RowInside(attention: seq<seq<bool>>, r: nat)
    requires r < |attention|
    ensures RowStart(attention, r) + Count(attention[r]) <= Attended(attention)
  {
    if r > 0 { RowInside(attention[1..], r - 1); }
  }

  /** The stretch of a flattened sequence that belongs to row r. */
  function Stretch<T>(attention: seq<seq<bool>>, flat: seq<T>, r: nat): (s: seq<T>)
    requires |flat| == Attended(attention) && r < |attention|
    ensures |s| == Count(attention[r])
  {
    RowInside(attention, r);
    Cut(flat, RowStart(attention, r), Count(attention[r]))
  }

  function Cut<T>(s: seq<T>, o: nat, n: nat): (c: seq<T>)
    requires o + n <= |s|
    ensures |c| == n
  {
    seq(n, j requires 0 <= j < n => s[o + j])
  }

  lemma CutOfDrop<T>(s: seq<T>, k: nat, o: nat, n: nat)
    requires k + o + n <= |s|
    ensures Cut(s[k..], o, n) == Cut(s, k + o, n)
  {
  }

  lemma CutIsSlice<T>(s: seq<T>, o: nat, n: nat)
    requires o + n <= |s|
    ensures Cut(s, o, n) == s[o..o + n]
  {
  }

  lemma StretchIsSlice<T>(attention: seq<seq<bool>>, flat: seq<T>, r: nat, o: nat, n: nat)
    requires |flat| == Attended(attention) && r < |attention| && o == RowStart(attention, r) && n == Count(attention[r])
    ensures o + n <= |flat| && Stretch(attention, flat, r) == flat[o..o + n]
  {
    RowInside(attention, r);
    CutIsSlice(flat, o, n);
  }

  lemma {:induction false} UnflattenRow(attention: seq<seq<bool>>, values: seq<real>, r: nat)
    requires |values| == Attended(attention) && r < |attention|
    ensures Unflatten(attention, values)[r] == Scatter(attention[r], Stretch(attention, values, r))
  {
    var n := Count(attention[0]);
    if r > 0 {
      UnflattenRow(attention[1..], values[n..], r - 1);
      RowInside(attention, r);
      CutOfDrop(values, n, RowStart(attention[1..], r - 1), Count(attention[r]));
    } else {
      RowInside(attention, 0);
      CutIsSlice(values, 0, n);
    }
  }

  lemma {:induction false} ScatterLeftAligned(mask: seq<bool>, values: seq<real>, n: nat)
    requires |values| == Count(mask) && LeftAligned(mask, n) && Count(mask) == n
    ensures Scatter(mask, values) == values + Fill(|mask| - n, 0.0)
  {
    if mask != [] {
      if n > 0 {
        ScatterLeftAligned(mask[1..], values[1..], n - 1);
      } else {
        ScatterLeftAligned(mask[1..], values, 0);
      }
    }
  }

  // ----- padding-free: sums

  /** Entry i + 1 scores label i + 1 under the logits at i. */
  ghost predicate RolledTerm<L>(lp: LogProb<L>, flat: seq<real>, logits: seq<L>, ids: seq<int>, loss: seq<bool>, i: nat)
    requires |flat| == |logits| == |ids| == |loss| && i + 1 < |ids|
  {
    flat[i + 1] == if loss[i + 1] then lp(logits[i], ids[i + 1]) else 0.0
  }

  lemma RolledTermsAreOwn<L>(lp: LogProb<L>, own: seq<real>, x: seq<L>, y: seq<int>, z: seq<bool>)
    requires |own| == |x| == |y| == |z|
    requires forall j :: 0 <= j < |y| - 1 ==> RolledTerm(lp, own, x, y, z, j)
    ensures DropFirstColumn(own) == NextTokenLogps(lp, x, y, z)
  {
    forall j | 0 <= j < |y| - 1 ensures own[j + 1] == NextTokenLogps(lp, x, y, z)[j] {
      assert RolledTerm(lp, own, x, y, z, j);
    }
  }

  lemma RolledAt<L>(lp: LogProb<L>, logits: seq<L>, ids: seq<int>, loss: seq<bool>, i: nat)
    requires |logits| == |ids| == |loss| && i + 1 < |ids|
    ensures RollForward(Score(lp, logits, RollBackward(ids), RollBackward(loss)))[i + 1]
            == if loss[i + 1] then lp(logits[i], ids[i + 1]) else 0.0
  {
    RollBackwardAt(ids, i);
    RollBackwardAt(loss, i);
    RollForwardAt(Score(lp, logits, RollBackward(ids), RollBackward(loss)), i);
  }

  lemma RollBackwardAt<T>(s: seq<T>, i: nat)
    requires i + 1 < |s|
    ensures RollBackward(s)[i] == s[i + 1]
  {
  }

  lemma RollForwardAt<T>(s: seq<T>, i: nat)
    requires i + 1 < |s|
    ensures RollForward(s)[i + 1] == s[i]
  {
  }

  /** The flattened batch: tokens, loss flags and positions of all rows in a row. */
  function FlatIds(b: Batch): seq<int>
    requires Valid(b)
  {
    Concat(SelectRows(b.attention, b.ids))
  }

  function FlatLoss(b: Batch): seq<bool>
    requires Valid(b)
  {
    Concat(SelectRows(b.attention, b.loss))
  }

  function FlatPositions(b: Batch): seq<int>
    requires Valid(b)
  {
    Concat(PositionRows(b.attention))
  }

  lemma FlatShapes(b: Batch)
    requires Valid(b)
    ensures FlatPositions(b) == Concat(Ranges(SelectRows(b.attention, b.ids)))
    ensures |FlatIds(b)| == |FlatLoss(b)| == |FlatPositions(b)| == Attended(b.attention)
  {
    forall r | 0 <= r < |b.ids| ensures PositionIds(b.attention[r]) == Range(Count(b.attention[r])) {
      PositionsCountUp(b.attention[r]);
    }
    assert PositionRows(b.attention) == Ranges(SelectRows(b.attention, b.ids));
    SelectedRowsLayout(b.attention, Ranges(SelectRows(b.attention, b.ids)), 0);
    SelectedRowsLayout(b.attention, SelectRows(b.attention, b.ids), 0);
    SelectedRowsLayout(b.attention, SelectRows(b.attention, b.loss), 0);
  }

  /** The logits of the flattened batch. */
  function FlatLogits<L>(net: Net<L>, b: Batch): (logits: seq<L>)
    requires Valid(b) && IsNet(net)
    ensures |logits| == Attended(b.attention)
  {
    FlatLogitsAreRowwise(net, b);
    FlatShapes(b);
    FlatNet(net, FlatIds(b), FlatPositions(b))
  }

  lemma FlatLogitsAreRowwise<L>(net: Net<L>, b: Batch)
    requires Valid(b) && IsNet(net)
    ensures |FlatIds(b)| == |FlatPositions(b)|
    ensures FlatNet(net, FlatIds(b), FlatPositions(b)) == Concat(NetRows(net, SelectRows(b.attention, b.ids)))
    ensures |Concat(NetRows(net, SelectRows(b.attention, b.ids)))| == Attended(b.attention)
  {
    FlatShapes(b);
    FlatNetIsRowwise(net, SelectRows(b.attention, b.ids));
    SelectedRowsLayout(b.attention, NetRows(net, SelectRows(b.attention, b.ids)), 0);
  }

  /** The scores of the flattened batch, already rolled back. */
  function FlatScores<L>(net: Net<L>, lp: LogProb<L>, b: Batch): (flat: seq<real>)
    requires Valid(b) && IsNet(net)
    ensures |flat| == Attended(b.attention)
  {
    FlatShapes(b);
    RollForward(Score(lp, FlatLogits(net, b), RollBackward(FlatIds(b)), RollBackward(FlatLoss(b))))
  }

  lemma StretchOfConcat<T>(attention: seq<seq<bool>>, rows: seq<seq<T>>, r: nat)
    requires |attention| == |rows| && r < |rows|
    requires forall i :: 0 <= i < |rows| ==> |rows[i]| == Count(attention[i])
    ensures |Concat(rows)| == Attended(attention) && Stretch(attention, Concat(rows), r) == rows[r]
  {
    SelectedRowsLayout(attention, rows, r);
    ConcatSlice(rows, r);
    CutIsSlice(Concat(rows), Offset(rows, r), |rows[r]|);
  }

  /** Row r occupies one stretch of each flattened sequence. */
  lemma RowStretch<L>(net: Net<L>, b: Batch, r: nat)
    requires Valid(b) && IsNet(net) && r < |b.ids|
    ensures |FlatIds(b)| == |FlatLoss(b)| == Attended(b.attention)
    ensures Stretch(b.attention, FlatIds(b), r) == Tokens(b, r)
    ensures Stretch(b.attention, FlatLoss(b), r) == TokenLoss(b, r)
    ensures Stretch(b.attention, FlatLogits(net, b), r) == net(Tokens(b, r))
  {
    FlatLogitsAreRowwise(net, b);
    StretchOfConcat(b.attention, SelectRows(b.attention, b.ids), r);
    StretchOfConcat(b.attention, SelectRows(b.attention, b.loss), r);
    StretchOfConcat(b.attention, NetRows(net, SelectRows(b.attention, b.ids)), r);
  }

  /** Padding-free equals the meaning of every row, for rows of any length, empty ones included. */
  lemma PaddingFreeRowLogp<L>(net: Net<L>, lp: LogProb<L>, b: Batch, r: nat)
    requires Valid(b) && IsNet(net) && r < |b.ids|
    requires LeftAligned(b.attention[r], Count(b.attention[r]))
    ensures Sum(DropFirstColumn(Unflatten(b.attention, FlatScores(net, lp, b))[r]))
            == ExampleLogp(net, lp, Tokens(b, r), TokenLoss(b, r))
  {
    OwnScores(net, lp, b, r);
    UnflattenedRowSum(b.attention, FlatScores(net, lp, b), r);
  }

  lemma OwnScores<L>(net: Net<L>, lp: LogProb<L>, b: Batch, r: nat)
    requires Valid(b) && IsNet(net) && r < |b.ids|
    ensures DropFirstColumn(Stretch(b.attention, FlatScores(net, lp, b), r))
            == NextTokenLogps(lp, net(Tokens(b, r)), Tokens(b, r), TokenLoss(b, r))
  {
    RowStretch(net, b, r);
    var own := Stretch(b.attention, FlatScores(net, lp, b), r);
    forall j | 0 <= j < |own| - 1 ensures RolledTerm(lp, own, net(Tokens(b, r)), Tokens(b, r), TokenLoss(b, r), j) {
      RolledTermOfRow(b.attention, lp, FlatLogits(net, b), FlatIds(b), FlatLoss(b), FlatScores(net, lp, b), r, j);
    }
    RolledTermsAreOwn(lp, own, net(Tokens(b, r)), Tokens(b, r), TokenLoss(b, r));
  }

  /** Behind its first entry, a row's stretch of the flattened scores has the row's own terms; the
      entry that crossed the border is the first. */
  lemma RolledTermOfRow<L>(attention: seq<seq<bool>>, lp: LogProb<L>, logits: seq<L>, ids: seq<int>, loss: seq<bool>,
                           flat: seq<real>, r: nat, j: nat)
    requires |flat| == |logits| == |ids| == |loss| == Attended(attention) && r < |attention|
    requires flat == RollForward(Score(lp, logits, RollBackward(ids), RollBackward(loss)))
      && j + 1 < Count(attention[r])
    ensures RolledTerm(lp, Stretch(attention, flat, r), Stretch(attention, logits, r), Stretch(attention, ids, r),
                       Stretch(attention, loss, r), j)
  {
    RowInside(attention, r);
    var o, n := RowStart(attention, r), Count(attention[r]);
    RolledAt(lp, logits, ids, loss, o + j);
    CutTerm(lp, flat, logits, ids, loss, o, n, j);
  }

  lemma CutTerm<L>(lp: LogProb<L>, flat: seq<real>, logits: seq<L>, ids: seq<int>, loss: seq<bool>, o: nat, n: nat,
                   j: nat)
    requires |flat| == |logits| == |ids| == |loss| && o + n <= |ids| && j + 1 < n
    requires RolledTerm(lp, flat, logits, ids, loss, o + j)
    ensures RolledTerm(lp, Cut(flat, o, n), Cut(logits, o, n), Cut(ids, o, n), Cut(loss, o, n), j)
  {
  }

  lemma UnflattenedRowSum(attention: seq<seq<bool>>, flat: seq<real>, r: nat)
    requires |flat| == Attended(attention) && r < |attention|
    requires LeftAligned(attention[r], Count(attention[r]))
    ensures Sum(DropFirstColumn(Unflatten(attention, flat)[r])) == Sum(DropFirstColumn(Stretch(attention, flat, r)))
  {
    UnflattenRow(attention, flat, r);
    ScatterLeftAligned(attention[r], Stretch(attention, flat, r), Count(attention[r]));
    PaddedTail(Stretch(attention, flat, r), |attention[r]| - Count(attention[r]));
  }

  lemma PaddedTail(row: seq<real>, zeros: nat)
    ensures Sum(DropFirstColumn(row + Fill(zeros, 0.0))) == Sum(DropFirstColumn(row))
  {
    var tail := Fill(zeros, 0.0);
    if row == [] {
      assert row + tail == tail;
      SumZeros(DropFirstColumn(tail));
    } else {
      assert DropFirstColumn(row + tail) == DropFirstColumn(row) + tail;
      SumAppend(DropFirstColumn(row), tail);
      SumZeros(tail);
    }
  }

  // ----- the split between chosen and rejected in the flattened row

  function IsZero(positions: seq<int>): seq<bool> {
    seq(|positions|, i requires 0 <= i < |positions| => positions[i] == 0)
  }

  /** `(position_ids == 0).nonzero()[n]`. */
  function SplitIndex(positions: seq<int>, n: nat): Result<nat> {
    var zeros := Indices(IsZero(positions), 0);
    if n < |zeros| then Success(zeros[n]) else Failure(IndexError)
  }

  /** Where the non-empty rows start. */
  function Starts(attention: seq<seq<bool>>, base: nat): seq<nat> {
    if attention == [] then []
    else if Count(attention[0]) > 0 then [base] + Starts(attention[1..], base + Count(attention[0]))
    else Starts(attention[1..], base)
  }

  lemma {:induction false} ZerosAreStarts(attention: seq<seq<bool>>, base: nat)
    ensures Indices(IsZero(Concat(PositionRows(attention))), base) == Starts(attention, base)
  {
    if attention != [] {
      var n, tail := Count(attention[0]), attention[1..];
      PositionsCountUp(attention[0]);
      assert PositionRows(attention)[1..] == PositionRows(tail);
      var rest := Concat(PositionRows(tail));
      assert Concat(PositionRows(attention)) == Range(n) + rest;
      ZerosAreStarts(tail, base + n);
      ZerosOfRange(n, rest, base);
    }
  }

  lemma ZerosOfRange(n: nat, rest: seq<int>, base: nat)
    ensures Indices(IsZero(Range(n) + rest), base)
            == (if n > 0 then [base] else []) + Indices(IsZero(rest), base + n)
  {
    if n > 0 {
      var tail := Fill(n - 1, false) + IsZero(rest);
      OneZeroInRange(n, rest);
      assert ([true] + tail)[1..] == tail;
      NoneInFront(n - 1, IsZero(rest), base + 1);
    } else {
      assert Range(n) + rest == rest;
    }
  }

  lemma OneZeroInRange(n: nat, rest: seq<int>)
    requires n > 0
    ensures IsZero(Range(n) + rest) == [true] + (Fill(n - 1, false) + IsZero(rest))
  {
  }

  lemma {:induction false} NoneInFront(n: nat, mask: seq<bool>, base: nat)
    ensures Indices(Fill(n, false) + mask, base) == Indices(mask, base + n)
  {
    var m := Fill(n, false) + mask;
    if n > 0 {
      assert m[1..] == Fill(n - 1, false) + mask;
      NoneInFront(n - 1, mask, base + 1);
    } else {
      assert m == mask;
    }
  }

  lemma {:induction false} StartsIncrease(attention: seq<seq<bool>>, base: nat)
    ensures forall i :: 0 <= i < |Starts(attention, base)| ==> Starts(attention, base)[i] >= base
    ensures forall i, j :: 0 <= i < j < |Starts(attention, base)| ==>
      Starts(attention, base)[i] < Starts(attention, base)[j]
  {
    if attention != [] { StartsIncrease(attention[1..], base + Count(attention[0])); }
  }

  lemma {:induction false} StartAtLeast(attention: seq<seq<bool>>, base: nat, k: nat)
    requires k < |Starts(attention, base)|
    ensures k < |attention| && Starts(attention, base)[k] >= base + RowStart(attention, k)
  {
    StartsIncrease(attention, base);
    if Count(attention[0]) == 0 {
      StartAtLeast(attention[1..], base, k);
      if k > 0 { StartAtLeast(attention[1..], base, k - 1); }
    } else if k > 0 {
      StartAtLeast(attention[1..], base + Count(attention[0]), k - 1);
    }
  }

  /** Every one of the first n rows attends something, and so does some later row. */
  ghost predicate SplitWellDefined(attention: seq<seq<bool>>, n: nat) {
    (forall r :: 0 <= r < n && r < |attention| ==> Count(attention[r]) > 0)
    && exists r :: n <= r < |attention| && Count(attention[r]) > 0
  }

  lemma SplitTail(attention: seq<seq<bool>>, n: nat)
    requires attention != [] && n <= |attention|
    ensures n == 0 ==>
      (SplitWellDefined(attention, 0) <==> Count(attention[0]) > 0 || SplitWellDefined(attention[1..], 0))
    ensures n > 0 ==>
      (SplitWellDefined(attention, n) <==> Count(attention[0]) > 0 && SplitWellDefined(attention[1..], n - 1))
  {
    var tail := attention[1..];
    assert forall r :: 0 <= r < |tail| ==> tail[r] == attention[r + 1];
    if SplitWellDefined(attention, n) {
      var r :| n <= r < |attention| && Count(attention[r]) > 0;
      if r > 0 { assert Count(tail[r - 1]) > 0; }
    }
    var m := if n == 0 then 0 else n - 1;
    if SplitWellDefined(tail, m) {
      var r :| m <= r < |tail| && Count(tail[r]) > 0;
      assert Count(attention[r + 1]) > 0;
    }
  }

  lemma {:induction false} StartsAtRow(attention: seq<seq<bool>>, base: nat, n: nat)
    requires n <= |attention|
    ensures n < |Starts(attention, base)| && Starts(attention, base)[n] == base + RowStart(attention, n)
            <==> SplitWellDefined(attention, n)
  {
    if attention != [] {
      var c, tail := Count(attention[0]), attention[1..];
      SplitTail(attention, n);
      if n == 0 {
        StartsAtRow(tail, base + c, 0);
      } else if c > 0 {
        StartsAtRow(tail, base + c, n - 1);
      } else if n < |Starts(tail, base)| {
        StartsIncrease(tail, base);
        StartAtLeast(tail, base, n - 1);
        assert Starts(tail, base)[n - 1] < Starts(tail, base)[n];
      }
    }
  }

  /** The split index exists and is the number of attended tokens of the first n rows if and only if
      all of those rows, and some later one, attend a token. */
  lemma SplitIndexIff(b: Batch, n: nat)
    requires Valid(b) && n <= |b.ids|
    ensures SplitIndex(FlatPositions(b), n) == Success(RowStart(b.attention, n)) <==> SplitWellDefined(b.attention, n)
  {
    ZerosAreStarts(b.attention, 0);
    StartsAtRow(b.attention, 0, n);
  }

  /** Rows that attend something. */
  function AttendingRows(attention: seq<seq<bool>>): nat {
    if attention == [] then 0 else (if Count(attention[0]) > 0 then 1 else 0) + AttendingRows(attention[1..])
  }

  lemma {:induction false} OneStartEach(attention: seq<seq<bool>>, base: nat)
    ensures |Starts(attention, base)| == AttendingRows(attention)
  {
    if attention != [] {
      OneStartEach(attention[1..], base + Count(attention[0]));
      OneStartEach(attention[1..], base);
    }
  }

  /** Looking up the split index raises if and only if at most n rows attend something. */
  lemma SplitExistsIff(b: Batch, n: nat)
    requires Valid(b)
    ensures SplitIndex(FlatPositions(b), n).Success? <==> n < AttendingRows(b.attention)
  {
    ZerosAreStarts(b.attention, 0);
    OneStartEach(b.attention, 0);
  }

  lemma StartsOfFour(attention: seq<seq<bool>>)
    requires attention == [[false], [true], [true], [true]]
    ensures Starts(attention, 0) == [0, 1, 2]
  {
    assert attention[1..] == [[true], [true], [true]] && attention[1..][1..] == [[true], [true]];
    assert attention[1..][1..][1..] == [[true]];
    assert Count([true]) == 1 && Count([false]) == 0;
    assert Starts([[true]], 2) == [2] && Starts([[true], [true]], 1) == [1, 2];
  }

  /** Two chosen and two rejected rows of one token each, but the first is empty: the rejected tokens
      start at 1, the split is found at 2. */
  lemma EmptyRowMovesSplit()
    ensures
      var b := Batch(1, [[false], [true], [true], [true]], [[0], [5], [6], [7]], [[false], [true], [true], [true]]);
      Valid(b) && SplitIndex(FlatPositions(b), 2) == Success(2) && RowStart(b.attention, 2) == 1
  {
    var attention := [[false], [true], [true], [true]];
    ZerosAreStarts(attention, 0);
    StartsOfFour(attention);
    ThirdStart(attention);
  }

  lemma ThirdStart(attention: seq<seq<bool>>)
    requires attention == [[false], [true], [true], [true]]
    ensures RowStart(attention, 2) == 1
  {
    assert Count([true]) == 1 && Count([false]) == 0;
    assert RowStart(attention[1..], 1) == 1 + RowStart(attention[1..][1..], 0);
  }

  // ----- the length normalisation of the IPO loss

  /** `loss_mask.sum(-1)` of a padded row, whose mask has been rolled and perhaps cut to the kept
      logits: the number of the row's loss tokens either way. */
  lemma PaddedDivisor(loss: seq<bool>, first: nat)
    requires first < |loss| && forall c :: 0 <= c < first ==> !loss[c]
    ensures Count(RollBackward(loss)) == Count(loss)
    ensures Count(Last(RollBackward(loss), |loss| - first + 1)) == Count(loss)
  {
    var rolled := RollBackward(loss);
    assert loss == [loss[0]] + loss[1..];
    CountAppend([loss[0]], loss[1..]);
    CountAppend(loss[1..], [loss[0]]);
    if first > 0 {
      var cut := first - 1;
      assert rolled == rolled[..cut] + rolled[cut..];
      CountAppend(rolled[..cut], rolled[cut..]);
      assert forall c :: 0 <= c < cut ==> rolled[c] == loss[c + 1];
      SelectNone(rolled[..cut], rolled[..cut]);
    }
  }

  /** Loss tokens of all rows. */
  function LossTokens(rows: seq<seq<bool>>): nat {
    if rows == [] then 0 else Count(rows[0]) + LossTokens(rows[1..])
  }

  lemma {:induction false} CountInside(attention: seq<bool>, loss: seq<bool>)
    requires |attention| == |loss| && forall c :: 0 <= c < |loss| && loss[c] ==> attention[c]
    ensures Count(Select(attention, loss)) == Count(loss)
  {
    if loss != [] { CountInside(attention[1..], loss[1..]); }
  }

  lemma {:induction false} CountConcat(rows: seq<seq<bool>>)
    ensures Count(Concat(rows)) == LossTokens(rows)
  {
    if rows != [] {
      CountAppend(rows[0], Concat(rows[1..]));
      CountConcat(rows[1..]);
    }
  }

  lemma {:induction false} SameLossTokens(a: seq<seq<bool>>, b: seq<seq<bool>>)
    requires |a| == |b| && forall i :: 0 <= i < |a| ==> Count(a[i]) == Count(b[i])
    ensures LossTokens(a) == LossTokens(b)
  {
    if a != [] { SameLossTokens(a[1..], b[1..]); }
  }

  lemma {:induction false} OnlyRow(rows: seq<seq<bool>>, r: nat)
    requires r < |rows|
    ensures Count(rows[r]) <= LossTokens(rows)
    ensures LossTokens(rows) == Count(rows[r]) <==> forall i :: 0 <= i < |rows| && i != r ==> Count(rows[i]) == 0
  {
    var tail := rows[1..];
    NoLossTokens(tail);
    assert forall i :: 0 <= i < |tail| ==> tail[i] == rows[i + 1];
    if r > 0 {
      OnlyRow(tail, r - 1);
      if forall i :: 0 <= i < |rows| && i != r ==> Count(rows[i]) == 0 {
        assert forall i :: 0 <= i < |tail| && i != r - 1 ==> Count(tail[i]) == 0;
      } else {
        var i :| 0 <= i < |rows| && i != r && Count(rows[i]) != 0;
        if i > 0 { assert Count(tail[i - 1]) != 0; }
      }
    } else if exists i :: 0 < i < |rows| && Count(rows[i]) != 0 {
      var i :| 0 < i < |rows| && Count(rows[i]) != 0;
      assert Count(tail[i - 1]) != 0;
    }
  }

  lemma {:induction false} NoLossTokens(rows: seq<seq<bool>>)
    ensures LossTokens(rows) == 0 <==> forall i :: 0 <= i < |rows| ==> Count(rows[i]) == 0
  {
    if rows != [] {
      NoLossTokens(rows[1..]);
      assert forall i :: 0 < i < |rows| ==> rows[i] == rows[1..][i - 1];
    }
  }

  /** The sum the padding-free pass finds for row r. */
  function PaddingFreeSum<L>(net: Net<L>, lp: LogProb<L>, b: Batch, r: nat): real
    requires Valid(b) && IsNet(net) && r < |b.ids|
  {
    Sum(DropFirstColumn(Unflatten(b.attention, FlatScores(net, lp, b))[r]))
  }

  /** Row r has no loss token but perhaps its first token, which is never scored. */
  predicate NothingScored(loss: seq<bool>) {
    forall j :: 1 <= j < |loss| ==> !loss[j]
  }

  /** Loss tokens of the batch, which padding-free IPO divides every row's sum by. */
  lemma PaddingFreeDivisor(b: Batch)
    requires Valid(b) && LossInside(b)
    ensures Count(RollBackward(FlatLoss(b))) == LossTokens(b.loss)
  {
    var selected := SelectRows(b.attention, b.loss);
    forall i | 0 <= i < |b.ids| ensures Count(selected[i]) == Count(b.loss[i]) {
      CountInside(b.attention[i], b.loss[i]);
    }
    SameLossTokens(selected, b.loss);
    CountConcat(selected);
    CountRolled(FlatLoss(b));
  }

  lemma CountRolled(mask: seq<bool>)
    ensures Count(RollBackward(mask)) == Count(mask)
  {
    if mask != [] { PaddedDivisor(mask, 0); }
  }

  lemma OwnSumOfOnes(loss: seq<bool>, terms: seq<real>)
    requires loss != [] && |terms| == |loss| - 1
    requires forall j :: 0 <= j < |terms| ==> terms[j] == if loss[j + 1] then 1.0 else 0.0
    ensures Sum(terms) >= 0.0 && (Sum(terms) == 0.0 <==> NothingScored(loss))
  {
    if NothingScored(loss) {
      SumZeros(terms);
    } else {
      var j :| 1 <= j < |loss| && loss[j];
      SumAtLeast(terms, j - 1);
    }
  }

  lemma SumOfOnesIff<L>(net: Net<L>, tokens: seq<int>, loss: seq<bool>)
    requires IsNet(net) && |tokens| == |loss|
    ensures ExampleLogp(net, One<L>(), tokens, loss) == 0.0 <==> NothingScored(loss)
  {
    if loss != [] { OwnSumOfOnes(loss, NextTokenLogps(One<L>(), net(tokens), tokens, loss)); }
  }

  lemma NothingScoredIsZero<L>(net: Net<L>, lp: LogProb<L>, tokens: seq<int>, loss: seq<bool>)
    requires IsNet(net) && |tokens| == |loss| && NothingScored(loss)
    ensures ExampleLogp(net, lp, tokens, loss) == 0.0
  {
    SumZeros(NextTokenLogps(lp, net(tokens), tokens, loss));
  }

  ghost predicate OnlyRowWithLoss(b: Batch, r: nat) {
    forall i :: 0 <= i < |b.loss| && i != r ==> Count(b.loss[i]) == 0
  }

  /** In padding-free mode the mask is one row, so the IPO loss divides every example's sum by the
      loss tokens of the whole batch. That is the example's own average, for every scoring, if and only
      if no other row has a loss token or the row has none behind its first token. */
  lemma IpoAverageKeptIff<L>(net: Net<L>, b: Batch, r: nat)
    requires Valid(b) && LossInside(b) && IsNet(net) && r < |b.ids| && Count(b.loss[r]) > 0
    requires LeftAligned(b.attention[r], Count(b.attention[r]))
    ensures Count(RollBackward(FlatLoss(b))) >= Count(RollBackward(b.loss[r])) == Count(b.loss[r])
    ensures (forall lp: LogProb<L> :: PaddingFreeSum(net, lp, b, r) / Count(RollBackward(FlatLoss(b))) as real
                                      == PaddingFreeSum(net, lp, b, r) / Count(RollBackward(b.loss[r])) as real)
            <==> OnlyRowWithLoss(b, r) || NothingScored(TokenLoss(b, r))
  {
    PaddingFreeDivisor(b);
    CountRolled(b.loss[r]);
    OnlyRow(b.loss, r);
    var p, q := LossTokens(b.loss) as real, Count(b.loss[r]) as real;
    forall lp: LogProb<L> | OnlyRowWithLoss(b, r) || NothingScored(TokenLoss(b, r))
      ensures PaddingFreeSum(net, lp, b, r) / p == PaddingFreeSum(net, lp, b, r) / q
    {
      PaddingFreeRowLogp(net, lp, b, r);
      if NothingScored(TokenLoss(b, r)) { NothingScoredIsZero(net, lp, Tokens(b, r), TokenLoss(b, r)); }
      SameQuotient(PaddingFreeSum(net, lp, b, r), p, q);
    }
    PaddingFreeRowLogp(net, One<L>(), b, r);
    SumOfOnesIff(net, Tokens(b, r), TokenLoss(b, r));
    SameQuotient(PaddingFreeSum(net, One<L>(), b, r), p, q);
  }

  /** Two rows of two tokens, the second of which counts: each row's only term is halved. */
  lemma IpoHalvesTwoRows<L>(net: Net<L>)
    requires IsNet(net)
    ensures
      var yes, row := [true, true], [false, true];
      var b := Batch(2, [yes, yes], [[5, 6], [5, 6]], [row, row]);
      && Valid(b) && LossInside(b) && LeftAligned(yes, Count(yes)) && PaddingFreeSum(net, One<L>(), b, 0) == 1.0
      && Count(RollBackward(FlatLoss(b))) == 2 && Count(RollBackward(row)) == 1
  {
    var yes, row := [true, true], [false, true];
    var b := Batch(2, [yes, yes], [[5, 6], [5, 6]], [row, row]);
    SelectAll(yes, row);
    SelectAll(yes, [5, 6]);
    assert row[1..] == [true] && [row, row][1..] == [row];
    assert Count(row) == 1 && LossTokens([row]) == 1 && LossTokens([row, row]) == 2;
    PaddingFreeDivisor(b);
    CountRolled(row);
    PaddingFreeRowLogp(net, One<L>(), b, 0);
    assert NextTokenLogps(One<L>(), net([5, 6]), [5, 6], row) == [1.0];
    assert Sum([1.0]) == 1.0 + Sum([]);
  }

  lemma SameQuotient(x: real, p: real, q: real)
    requires 0.0 < p && 0.0 < q
    ensures x / p == x / q <==> x == 0.0 || p == q
  {
    var u, v := x / p, x / q;
    assert x == u * p && x == v * q;
    if u == v && p != q { assert u * (p - q) == 0.0; }
  }
}
