/** The DPO forward pass from a collated batch to the log-probability of every example. Whatever
    the batch looks like and whichever optimisation is on, an example's result is the one of its
    own truncated tokens. */
module DpoTrainer {
  import opened Tensors
  import opened Flush
  import opened DpoForward
  import opened BatchLogps

  datatype Config = Config(maxLength: Option<nat>, mode: TruncationMode, paddingFree: bool, useLogitsToKeep: bool,
                           ipo: bool)

  /** Token ids and attention mask of equally many rows. */
  datatype Side = Side(width: nat, ids: seq<seq<int>>, mask: seq<seq<bool>>)

  datatype Inputs = Inputs(prompt: Side, chosen: Side, rejected: Side)

  ghost predicate ValidSide(s: Side, rows: nat) {
    |s.ids| == |s.mask| == rows && Rect(s.ids, s.width) && Rect(s.mask, s.width)
  }

  /** Prompts are left-padded and completions right-padded, as the collator delivers them. */
  ghost predicate ValidInputs(x: Inputs) {
    var n := |x.prompt.ids|;
    && ValidSide(x.prompt, n) && ValidSide(x.chosen, n) && ValidSide(x.rejected, n)
    && forall r :: 0 <= r < n ==>
      && RightAligned(x.prompt.mask[r], Count(x.prompt.mask[r]))
      && LeftAligned(x.chosen.mask[r], Count(x.chosen.mask[r]))
      && LeftAligned(x.rejected.mask[r], Count(x.rejected.mask[r]))
  }

  // ----- concatenated_inputs

  function CompletionWidth(x: Inputs): nat {
    Max(x.chosen.width, x.rejected.width)
  }

  /** Prompts twice. */
  function DoubledPrompt(x: Inputs): (s: Side)
    requires ValidInputs(x)
    ensures ValidSide(s, 2 * |x.prompt.ids|)
  {
    Side(x.prompt.width, x.prompt.ids + x.prompt.ids, x.prompt.mask + x.prompt.mask)
  }

  /** Chosen completions above rejected ones, right-padded to the longer width. */
  function StackedCompletions(x: Inputs, pad: int): (s: Side)
    requires ValidInputs(x)
    ensures ValidSide(s, 2 * |x.prompt.ids|)
  {
    var w := CompletionWidth(x);
    Side(w, PadRows(x.chosen.ids, w, pad) + PadRows(x.rejected.ids, w, pad),
         PadRows(x.chosen.mask, w, false) + PadRows(x.rejected.mask, w, false))
  }

  function ConcatenatedInputs(x: Inputs, pad: int): (b: Batch)
    requires ValidInputs(x)
    ensures Valid(b) && |b.ids| == 2 * |x.prompt.ids|
  {
    var p, c := DoubledPrompt(x), StackedCompletions(x, pad);
    JoinPromptAndCompletion(p.ids, p.mask, p.width, c.ids, c.mask, c.width)
  }

  /** The tokens of one side of a pair, and which of them count. */
  function ExampleTokens(x: Inputs, completion: Side, i: nat): seq<int>
    requires ValidSide(x.prompt, |x.prompt.ids|) && ValidSide(completion, |x.prompt.ids|) && i < |x.prompt.ids|
  {
    Select(x.prompt.mask[i], x.prompt.ids[i]) + Select(completion.mask[i], completion.ids[i])
  }

  function ExampleLoss(x: Inputs, completion: Side, i: nat): seq<bool>
    requires ValidSide(x.prompt, |x.prompt.ids|) && ValidSide(completion, |x.prompt.ids|) && i < |x.prompt.ids|
  {
    Fill(Count(x.prompt.mask[i]), false) + Fill(Count(completion.mask[i]), true)
  }

  lemma PaddedSideRow(mask: seq<bool>, ids: seq<int>, w: nat, pad: int)
    requires |mask| == |ids| <= w && LeftAligned(mask, Count(mask))
    ensures LeftAligned(PadToLength(mask, w, false), Count(mask))
    ensures PadToLength(ids, w, pad)[..Count(mask)] == Select(mask, ids)
  {
    SelectLeftAligned(mask, ids, Count(mask));
  }

  lemma StackedSides(x: Inputs, pad: int, r: nat, side: Side, i: nat)
    requires ValidInputs(x) && i < |x.prompt.ids|
    requires (side == x.chosen && r == i) || (side == x.rejected && r == |x.prompt.ids| + i)
    ensures
      var p, c, w := DoubledPrompt(x), StackedCompletions(x, pad), CompletionWidth(x);
      && p.ids[r] == x.prompt.ids[i] && p.mask[r] == x.prompt.mask[i]
      && c.ids[r] == PadToLength(side.ids[i], w, pad) && c.mask[r] == PadToLength(side.mask[i], w, false)
  {
  }

  lemma ConcatenatedSideRow(x: Inputs, pad: int, r: nat, side: Side, i: nat)
    requires ValidInputs(x) && i < |x.prompt.ids|
    requires (side == x.chosen && r == i) || (side == x.rejected && r == |x.prompt.ids| + i)
    ensures Block(ConcatenatedInputs(x, pad).attention[r])
    ensures Tokens(ConcatenatedInputs(x, pad), r) == ExampleTokens(x, side, i)
    ensures TokenLoss(ConcatenatedInputs(x, pad), r) == ExampleLoss(x, side, i)
  {
    var p, c := DoubledPrompt(x), StackedCompletions(x, pad);
    StackedSides(x, pad, r, side, i);
    PaddedSideRow(side.mask[i], side.ids[i], c.width, pad);
    SelectRightAligned(x.prompt.mask[i], x.prompt.ids[i], Count(x.prompt.mask[i]));
    JoinedRow(p.ids, p.mask, p.width, c.ids, c.mask, c.width, r, Count(x.prompt.mask[i]), Count(side.mask[i]));
  }

  /** Row i is the i-th pair with its chosen completion, row n + i with its rejected one. */
  function RowSide(x: Inputs, r: nat): Side {
    if r < |x.prompt.ids| then x.chosen else x.rejected
  }

  function RowIndex(x: Inputs, r: nat): (i: nat)
    requires r < 2 * |x.prompt.ids|
    ensures i < |x.prompt.ids|
  {
    if r < |x.prompt.ids| then r else r - |x.prompt.ids|
  }

  lemma ConcatenatedRow(x: Inputs, pad: int, r: nat)
    requires ValidInputs(x) && r < 2 * |x.prompt.ids|
    ensures Block(ConcatenatedInputs(x, pad).attention[r])
    ensures Tokens(ConcatenatedInputs(x, pad), r) == ExampleTokens(x, RowSide(x, r), RowIndex(x, r))
    ensures TokenLoss(ConcatenatedInputs(x, pad), r) == ExampleLoss(x, RowSide(x, r), RowIndex(x, r))
  {
    ConcatenatedSideRow(x, pad, r, RowSide(x, r), RowIndex(x, r));
  }

  lemma ConcatenatedLossInside(x: Inputs, pad: int)
    requires ValidInputs(x)
    ensures LossInside(ConcatenatedInputs(x, pad))
  {
    var b := ConcatenatedInputs(x, pad);
    forall r, c | 0 <= r < |b.loss| && 0 <= c < b.width && b.loss[r][c] ensures b.attention[r][c] {
      assert c >= x.prompt.width;
    }
  }

  /** Truncation of one example, whatever batch it is in. */
  function KeptTokens<T>(s: seq<T>, cfg: Config): seq<T> {
    if cfg.maxLength.None? then s
    else if cfg.mode == KeepEnd then Last(s, cfg.maxLength.value)
    else First(s, cfg.maxLength.value)
  }

  /** A limit the batch's width does not exceed truncates no example. */
  lemma WidthDoesNotMatter<T>(s: seq<T>, width: nat, cfg: Config)
    requires |s| <= width
    ensures Kept(s, width, cfg.maxLength, cfg.mode) == KeptTokens(s, cfg)
  {
  }

  // ----- the model

  /** The padded model sees one row and its attention mask. */
  ghost predicate RespectsAttention<L>(net: Net<L>, paddedNet: (seq<int>, seq<bool>) -> seq<L>) {
    forall ids, attention :: |ids| == |attention| && LeftAligned(attention, Count(attention)) ==>
      PaddedLogits(net, paddedNet(ids, attention), attention, ids)
  }

  lemma AttendedLogits<L>(net: Net<L>, paddedNet: (seq<int>, seq<bool>) -> seq<L>, ids: seq<int>, attention: seq<bool>)
    requires RespectsAttention(net, paddedNet) && |ids| == |attention| && LeftAligned(attention, Count(attention))
    ensures PaddedLogits(net, paddedNet(ids, attention), attention, ids)
  {
  }

  // ----- in-place steps

  /** `labels[~mask] = 0`, score, `scores[~mask] = 0`, roll forward. */
  method ScoreInPlace<L>(lp: LogProb<L>, logits: seq<L>, rolled: seq<int>, mask: seq<bool>)
    returns (perToken: array<real>)
    requires |logits| == |rolled| == |mask|
    ensures fresh(perToken) && perToken[..] == RollForward(Score(lp, logits, rolled, mask))
  {
    var n := |rolled|;
    var labels := new int[n](i requires 0 <= i < n => rolled[i]);
    for i := 0 to n
      invariant forall k :: 0 <= k < n && mask[k] ==> labels[k] == rolled[k]
    {
      if !mask[i] { labels[i] := 0; }
    }
    var scores := new real[n];
    for i := 0 to n
      invariant forall k :: 0 <= k < n && mask[k] ==> labels[k] == rolled[k]
      invariant forall k :: 0 <= k < i && mask[k] ==> scores[k] == lp(logits[k], rolled[k])
    {
      scores[i] := lp(logits[i], labels[i]);
    }
    for i := 0 to n
      invariant forall k :: 0 <= k < n && mask[k] ==> scores[k] == lp(logits[k], rolled[k])
      invariant forall k :: 0 <= k < i && !mask[k] ==> scores[k] == 0.0
    {
      if !mask[i] { scores[i] := 0.0; }
    }
    var masked := scores[..];
    assert masked == Score(lp, logits, rolled, mask);
    perToken := new real[n];
    for i := 0 to n
      invariant forall k :: 0 <= k < i ==> perToken[k] == RollForward(masked)[k]
    {
      perToken[i] := masked[if i == 0 then n - 1 else i - 1];
    }
  }

  /** `out[mask] = values` on one row of zeros, taking the values from position start on. */
  method ScatterInto(mask: seq<bool>, values: seq<real>, start: nat) returns (out: array<real>, next: nat)
    requires start + Count(mask) <= |values|
    ensures fresh(out) && next == start + Count(mask)
    ensures out[..] == Scatter(mask, values[start..next])
  {
    ghost var own := values[start..start + Count(mask)];
    out := new real[|mask|](_ => 0.0);
    next := start;
    for c := 0 to |mask|
      invariant next == start + Before(mask, c)
      invariant forall k :: 0 <= k < c ==> out[k] == Scatter(mask, own)[k]
      invariant forall k :: c <= k < |mask| ==> out[k] == 0.0
    {
      ScatterAt(mask, own, c);
      if mask[c] {
        out[c] := values[next];
        next := next + 1;
      }
    }
    AllBefore(mask);
  }

  /** Number of set entries before column c. */
  function Before(mask: seq<bool>, c: nat): (n: nat)
    requires c <= |mask|
    ensures n <= Count(mask)
  {
    if c == 0 then 0 else (if mask[0] then 1 else 0) + Before(mask[1..], c - 1)
  }

  lemma {:induction false} AllBefore(mask: seq<bool>)
    ensures Before(mask, |mask|) == Count(mask)
  {
    if mask != [] { AllBefore(mask[1..]); }
  }

  /** A set entry receives the next value, counted from the left; an unset one stays zero. */
  lemma {:induction false} ScatterAt(mask: seq<bool>, values: seq<real>, c: nat)
    requires |values| == Count(mask) && c < |mask|
    ensures Before(mask, c + 1) == Before(mask, c) + (if mask[c] then 1 else 0) <= Count(mask)
    ensures Scatter(mask, values)[c] == if mask[c] then values[Before(mask, c)] else 0.0
  {
    if c > 0 {
      ScatterAt(mask[1..], if mask[0] then values[1..] else values, c - 1);
    } else {
      assert Before(mask, 1) == (if mask[0] then 1 else 0) + Before(mask[1..], 0);
    }
  }

  /** `row[1:].sum()`. */
  method SumFromColumnOne(row: array<real>) returns (s: real)
    ensures s == Sum(DropFirstColumn(row[..]))
  {
    s := 0.0;
    if row.Length > 0 {
      for c := 1 to row.Length
        invariant s == Sum(row[1..c])
      {
        assert row[1..c + 1] == row[1..c] + [row[c]];
        SumSnoc(row[1..c], row[c]);
        s := s + row[c];
      }
      assert row[1..row.Length] == row[..][1..];
    }
  }

  // ----- concatenated_forward, decoder-only

  /** When the pass over n pairs raises: an unknown truncation mode that is needed, no loss token to
      keep logits for, both optimisations at once with fewer logits kept than there are tokens, or, in
      padding-free mode, no start of a rejected row to be found because at most n rows attend a token. */
  ghost predicate Raises(cfg: Config, b: Batch, n: nat)
    requires Valid(b)
  {
    var t := FlushAndTruncate(b, cfg.maxLength, cfg.mode);
    t.Failure? || CannotScore(cfg, t.value, n)
  }

  predicate CannotScore(cfg: Config, t: Batch, n: nat)
    requires Valid(t)
  {
    || (cfg.useLogitsToKeep && LogitsToKeep(t).Failure?)
    || (cfg.useLogitsToKeep && cfg.paddingFree && LogitsToKeep(t).value < Attended(t.attention))
    || (cfg.paddingFree && AttendingRows(t.attention) <= n)
  }

  /** What becomes of a row's sum: IPO divides it by the row's loss tokens, or by those of the whole
      batch when the batch is one row. */
  function RowResult(cfg: Config, t: Batch, r: nat, sum: real): Logp
    requires Valid(t) && r < |t.ids|
  {
    if !cfg.ipo then Logp.Value(sum)
    else Quotient(sum, if cfg.paddingFree then LossTokens(t.loss) else Count(t.loss[r]))
  }

  /** The log-probability of every row of the flushed batch. */
  method AllLogps<L>(cfg: Config, t: Batch, n: nat, net: Net<L>, paddedNet: (seq<int>, seq<bool>) -> seq<L>,
                     lp: LogProb<L>)
    returns (all: Result<seq<Logp>>)
    requires Valid(t) && LossInside(t) && IsNet(net) && RespectsAttention(net, paddedNet)
    requires forall r :: 0 <= r < |t.ids| ==> LeftAligned(t.attention[r], Count(t.attention[r]))
    ensures all.Failure? <==> CannotScore(cfg, t, n)
    ensures all.Success? ==> |all.value| == |t.ids|
    ensures all.Success? ==> forall r :: 0 <= r < |t.ids| ==>
      all.value[r] == RowResult(cfg, t, r, ExampleLogp(net, lp, Tokens(t, r), TokenLoss(t, r)))
  {
    var keep := 0;
    if cfg.useLogitsToKeep {
      var k := LogitsToKeep(t);
      if k.Failure? { return Failure(k.error); }
      keep := k.value;
    }
    var sums;
    if cfg.paddingFree {
      var flat := AllLogpsPaddingFree(t, keep, net, lp);
      if flat.Failure? { return Failure(flat.error); }
      sums := flat.value;
      SplitExistsIff(t, n);
      if SplitIndex(FlatPositions(t), n).Failure? { return Failure(IndexError); }
    } else {
      sums := AllLogpsPadded(t, keep, net, paddedNet, lp);
    }
    var logps := Normalise(cfg, t, keep, sums);
    return Success(logps);
  }

  /** `all_logps / loss_mask.sum(-1)` for IPO, with the mask as it has been rolled and cut. */
  method Normalise(cfg: Config, t: Batch, keep: nat, sums: seq<real>) returns (logps: seq<Logp>)
    requires Valid(t) && LossInside(t) && |sums| == |t.ids| && (keep == 0 || LogitsToKeep(t) == Success(keep))
    requires cfg.paddingFree ==> !(0 < keep < Attended(t.attention))
    ensures |logps| == |t.ids|
    ensures forall r :: 0 <= r < |t.ids| ==> logps[r] == RowResult(cfg, t, r, sums[r])
  {
    logps := [];
    for r := 0 to |t.ids|
      invariant |logps| == r && forall i :: 0 <= i < r ==> logps[i] == RowResult(cfg, t, i, sums[i])
    {
      var logp := Logp.Value(sums[r]);
      if cfg.ipo {
        var mask := if cfg.paddingFree then FlatLoss(t) else t.loss[r];
        MaskDivisor(cfg.paddingFree, t, keep, r);
        logp := Quotient(sums[r], Count(Last(RollBackward(mask), keep)));
      }
      logps := logps + [logp];
    }
  }

  lemma MaskDivisor(paddingFree: bool, t: Batch, keep: nat, r: nat)
    requires Valid(t) && LossInside(t) && r < |t.ids| && (keep == 0 || LogitsToKeep(t) == Success(keep))
    requires paddingFree ==> !(0 < keep < Attended(t.attention))
    ensures Count(Last(RollBackward(if paddingFree then FlatLoss(t) else t.loss[r]), keep))
            == if paddingFree then LossTokens(t.loss) else Count(t.loss[r])
  {
    if paddingFree {
      FlatShapes(t);
      PaddingFreeDivisor(t);
      LastIsAll(RollBackward(FlatLoss(t)), keep);
    } else if keep == 0 {
      CountRolled(t.loss[r]);
    } else {
      PaddedDivisor(t.loss[r], FirstLossColumn(t));
    }
  }

  lemma PaddedRowSum<L>(net: Net<L>, lp: LogProb<L>, t: Batch, keep: nat, r: nat, logits: seq<L>)
    requires Valid(t) && LossInside(t) && IsNet(net) && r < |t.ids|
    requires LeftAligned(t.attention[r], Count(t.attention[r]))
    requires keep == 0 || LogitsToKeep(t) == Success(keep)
    requires PaddedLogits(net, logits, t.attention[r], t.ids[r])
    ensures
      Sum(DropFirstColumn(RollForward(
        Score(lp, Last(logits, keep), Last(RollBackward(t.ids[r]), keep), Last(RollBackward(t.loss[r]), keep)))))
      == ExampleLogp(net, lp, Tokens(t, r), TokenLoss(t, r))
  {
    if keep == 0 {
      RollIsShift(lp, logits, t.ids[r], t.loss[r]);
    } else {
      KeptLogitsSameSum(lp, logits, t.ids[r], t.loss[r], FirstLossColumn(t));
    }
    PaddedRowLogp(net, lp, logits, t.attention[r], t.ids[r], t.loss[r]);
  }

  method PaddedRow<L>(t: Batch, keep: nat, ghost net: Net<L>, lp: LogProb<L>, r: nat, logits: seq<L>) returns (s: real)
    requires Valid(t) && LossInside(t) && IsNet(net) && r < |t.ids|
    requires LeftAligned(t.attention[r], Count(t.attention[r]))
    requires keep == 0 || LogitsToKeep(t) == Success(keep)
    requires PaddedLogits(net, logits, t.attention[r], t.ids[r])
    ensures s == ExampleLogp(net, lp, Tokens(t, r), TokenLoss(t, r))
  {
    var row := ScoreInPlace(lp, Last(logits, keep), Last(RollBackward(t.ids[r]), keep),
                            Last(RollBackward(t.loss[r]), keep));
    s := SumFromColumnOne(row);
    PaddedRowSum(net, lp, t, keep, r, logits);
  }

  method AllLogpsPadded<L>(t: Batch, keep: nat, net: Net<L>, paddedNet: (seq<int>, seq<bool>) -> seq<L>, lp: LogProb<L>)
    returns (sums: seq<real>)
    requires Valid(t) && LossInside(t) && IsNet(net) && RespectsAttention(net, paddedNet)
    requires forall r :: 0 <= r < |t.ids| ==> LeftAligned(t.attention[r], Count(t.attention[r]))
    requires keep == 0 || LogitsToKeep(t) == Success(keep)
    ensures |sums| == |t.ids|
    ensures forall r :: 0 <= r < |t.ids| ==> sums[r] == ExampleLogp(net, lp, Tokens(t, r), TokenLoss(t, r))
  {
    sums := [];
    for r := 0 to |t.ids|
      invariant |sums| == r
      invariant forall i :: 0 <= i < r ==> sums[i] == ExampleLogp(net, lp, Tokens(t, i), TokenLoss(t, i))
    {
      var logits := paddedNet(t.ids[r], t.attention[r]);
      AttendedLogits(net, paddedNet, t.ids[r], t.attention[r]);
      var s := PaddedRow(t, keep, net, lp, r, logits);
      sums := sums + [s];
    }
  }

  method AllLogpsPaddingFree<L>(t: Batch, keep: nat, net: Net<L>, lp: LogProb<L>) returns (sums: Result<seq<real>>)
    requires Valid(t) && IsNet(net)
    requires forall r :: 0 <= r < |t.ids| ==> LeftAligned(t.attention[r], Count(t.attention[r]))
    ensures sums.Failure? <==> 0 < keep < Attended(t.attention)
    ensures sums.Success? ==> |sums.value| == |t.ids|
    ensures sums.Success? ==> forall r :: 0 <= r < |t.ids| ==>
      sums.value[r] == ExampleLogp(net, lp, Tokens(t, r), TokenLoss(t, r))
  {
    var flat := ScoreFlat(t, keep, net, lp);
    if |flat| != Attended(t.attention) {
      return Failure(RuntimeError);
    }
    var all := UnflattenAndSum(t.attention, flat);
    forall r | 0 <= r < |t.ids| ensures all[r] == ExampleLogp(net, lp, Tokens(t, r), TokenLoss(t, r)) {
      PaddingFreeRowLogp(net, lp, t, r);
    }
    return Success(all);
  }

  /** Flatten, run the network, score. With fewer logits kept than tokens the scores are too few. */
  method ScoreFlat<L>(t: Batch, keep: nat, net: Net<L>, lp: LogProb<L>) returns (flat: seq<real>)
    requires Valid(t) && IsNet(net)
    ensures 0 < keep < Attended(t.attention) ==> |flat| == keep
    ensures !(0 < keep < Attended(t.attention)) ==> flat == FlatScores(net, lp, t)
  {
    FlatShapes(t);
    FlatLogitsAreRowwise(net, t);
    var ids, loss := FlatIds(t), FlatLoss(t);
    var logits := FlatNet(net, ids, FlatPositions(t));
    var labels, mask := RollBackward(ids), RollBackward(loss);
    var scored := ScoreInPlace(lp, Last(logits, keep), Last(labels, keep), Last(mask, keep));
    flat := scored[..];
    if !(0 < keep < Attended(t.attention)) {
      LastIsAll(logits, keep);
      LastIsAll(labels, keep);
      LastIsAll(mask, keep);
    }
  }

  lemma LastIsAll<T>(s: seq<T>, k: nat)
    requires !(0 < k < |s|)
    ensures Last(s, k) == s
  {
  }

  /** Unflatten row by row and sum every row from column 1 on. */
  method UnflattenAndSum(attention: seq<seq<bool>>, flat: seq<real>) returns (sums: seq<real>)
    requires |flat| == Attended(attention)
    ensures |sums| == |attention|
    ensures forall r :: 0 <= r < |attention| ==> sums[r] == Sum(DropFirstColumn(Unflatten(attention, flat)[r]))
  {
    sums := [];
    var next := 0;
    for r := 0 to |attention|
      invariant |sums| == r && next == RowStart(attention, r)
      invariant forall i :: 0 <= i < r ==> sums[i] == Sum(DropFirstColumn(Unflatten(attention, flat)[i]))
    {
      UnflattenedSlice(attention, flat, r, next);
      var s;
      s, next := UnflattenRowAndSum(attention[r], flat, next);
      sums := sums + [s];
    }
  }

  lemma UnflattenedSlice(attention: seq<seq<bool>>, flat: seq<real>, r: nat, o: nat)
    requires |flat| == Attended(attention) && r < |attention| && o == RowStart(attention, r)
    ensures o + Count(attention[r]) <= |flat| && RowStart(attention, r + 1) == o + Count(attention[r])
    ensures Unflatten(attention, flat)[r] == Scatter(attention[r], flat[o..o + Count(attention[r])])
  {
    UnflattenRow(attention, flat, r);
    StretchIsSlice(attention, flat, r, o, Count(attention[r]));
    RowStartNext(attention, r);
  }

  method UnflattenRowAndSum(mask: seq<bool>, flat: seq<real>, start: nat) returns (s: real, next: nat)
    requires start + Count(mask) <= |flat|
    ensures next == start + Count(mask) && s == Sum(DropFirstColumn(Scatter(mask, flat[start..next])))
  {
    var row;
    row, next := ScatterInto(mask, flat, start);
    s := SumFromColumnOne(row);
  }

  lemma {:induction false} RowStartNext(attention: seq<seq<bool>>, r: nat)
    requires r < |attention|
    ensures RowStart(attention, r + 1) == RowStart(attention, r) + Count(attention[r])
  {
    if r > 0 {
      RowStartNext(attention[1..], r - 1);
    } else {
      assert RowStart(attention, 1) == Count(attention[0]) + RowStart(attention[1..], 0);
    }
  }

  /** What an example is worth on its own: nothing but its own truncated tokens enters. */
  function ExampleSum<L>(cfg: Config, x: Inputs, side: Side, i: nat, net: Net<L>, lp: LogProb<L>): real
    requires ValidSide(x.prompt, |x.prompt.ids|) && ValidSide(side, |x.prompt.ids|) && i < |x.prompt.ids| && IsNet(net)
  {
    ExampleLogp(net, lp, KeptTokens(ExampleTokens(x, side, i), cfg), KeptTokens(ExampleLoss(x, side, i), cfg))
  }

  /** The loss tokens of every example after truncation. */
  function KeptLoss(cfg: Config, x: Inputs): (rows: seq<seq<bool>>)
    requires ValidInputs(x)
    ensures |rows| == 2 * |x.prompt.ids|
  {
    seq(2 * |x.prompt.ids|,
        r requires 0 <= r < 2 * |x.prompt.ids| => KeptTokens(ExampleLoss(x, RowSide(x, r), RowIndex(x, r)), cfg))
  }

  /** The example's own sum, which IPO divides by its own loss tokens in padded mode and by those of all
      examples in padding-free mode. A loss token that comes first is counted but not scored. */
  function ExampleMeaning<L>(cfg: Config, x: Inputs, side: Side, i: nat, net: Net<L>, lp: LogProb<L>): Logp
    requires ValidInputs(x) && ValidSide(side, |x.prompt.ids|) && i < |x.prompt.ids| && IsNet(net)
  {
    var sum := ExampleSum(cfg, x, side, i, net, lp);
    if !cfg.ipo then Logp.Value(sum)
    else Quotient(sum, if cfg.paddingFree then LossTokens(KeptLoss(cfg, x))
                  else Count(KeptTokens(ExampleLoss(x, side, i), cfg)))
  }

  /** Main result. Each chosen and each rejected log-probability is that of the example's own
      truncated tokens: it does not depend on padding, on the other examples, or on whether the
      batch was flattened or only the last logits were computed. The one exception is the divisor
      of IPO in padding-free mode. */
  method ConcatenatedForward<L>(cfg: Config, x: Inputs, pad: int, net: Net<L>,
                                paddedNet: (seq<int>, seq<bool>) -> seq<L>, lp: LogProb<L>)
    returns (out: Result<(seq<Logp>, seq<Logp>)>)
    requires ValidInputs(x) && IsNet(net) && RespectsAttention(net, paddedNet)
    ensures out.Failure? <==> Raises(cfg, ConcatenatedInputs(x, pad), |x.prompt.ids|)
    ensures out.Success? ==> |out.value.0| == |out.value.1| == |x.prompt.ids|
    ensures out.Success? ==> forall i :: 0 <= i < |x.prompt.ids| ==>
      && out.value.0[i] == ExampleMeaning(cfg, x, x.chosen, i, net, lp)
      && out.value.1[i] == ExampleMeaning(cfg, x, x.rejected, i, net, lp)
  {
    var n := |x.prompt.ids|;
    var flushed := FlushAndTruncate(ConcatenatedInputs(x, pad), cfg.maxLength, cfg.mode);
    if flushed.Failure? { return Failure(flushed.error); }
    var t := flushed.value;
    FlushedBatch(cfg, x, pad, net, lp);
    var all := AllLogps(cfg, t, n, net, paddedNet, lp);
    if all.Failure? { return Failure(all.error); }
    var logps := all.value;
    out := Success((logps[..n], logps[n..]));
    SplitAll(cfg, x, net, lp, logps);
  }

  lemma SplitAll<L>(cfg: Config, x: Inputs, net: Net<L>, lp: LogProb<L>, logps: seq<Logp>)
    requires ValidInputs(x) && IsNet(net) && |logps| == 2 * |x.prompt.ids|
    requires forall r :: 0 <= r < |logps| ==> logps[r] == RowMeaning(cfg, x, r, net, lp)
    ensures forall i :: 0 <= i < |x.prompt.ids| ==>
      && logps[..|x.prompt.ids|][i] == ExampleMeaning(cfg, x, x.chosen, i, net, lp)
      && logps[|x.prompt.ids|..][i] == ExampleMeaning(cfg, x, x.rejected, i, net, lp)
  {
    forall i | 0 <= i < |x.prompt.ids|
      ensures logps[..|x.prompt.ids|][i] == ExampleMeaning(cfg, x, x.chosen, i, net, lp)
      ensures logps[|x.prompt.ids|..][i] == ExampleMeaning(cfg, x, x.rejected, i, net, lp)
    {
      SplitRows(cfg, x, net, lp, logps, i);
    }
  }

  predicate StartsWithCompletion(cfg: Config, x: Inputs, side: Side, i: nat)
    requires ValidSide(x.prompt, |x.prompt.ids|) && ValidSide(side, |x.prompt.ids|) && i < |x.prompt.ids|
  {
    Count(x.prompt.mask[i]) == 0
    || (cfg.mode == KeepEnd && cfg.maxLength.Some? && 0 < cfg.maxLength.value <= Count(side.mask[i]))
  }

  /** The first token an example keeps counts for the loss if and only if there is no prompt or the end
      is kept and holds completion tokens alone. */
  lemma FirstKeptTokenCountsIff(cfg: Config, x: Inputs, side: Side, i: nat)
    requires ValidInputs(x) && ValidSide(side, |x.prompt.ids|) && i < |x.prompt.ids|
    requires KeptTokens(ExampleLoss(x, side, i), cfg) != []
    ensures KeptTokens(ExampleLoss(x, side, i), cfg)[0] <==> StartsWithCompletion(cfg, x, side, i)
  {
  }

  /** What `get_batch_logps` averages for an example: the terms of its kept tokens, labels marked off the
      completion. */
  function ScoredAverage<L>(cfg: Config, x: Inputs, side: Side, i: nat, net: Net<L>, lp: LogProb<L>, mark: int): Logp
    requires ValidInputs(x) && ValidSide(side, |x.prompt.ids|) && i < |x.prompt.ids| && IsNet(net)
  {
    var tokens, loss := KeptTokens(ExampleTokens(x, side, i), cfg), KeptTokens(ExampleLoss(x, side, i), cfg);
    KeptTogether(ExampleTokens(x, side, i), ExampleLoss(x, side, i), cfg);
    RowLogp(lp, net(tokens), MarkedLabels(tokens, loss, mark), true, mark, false)
  }

  /** An example's padded IPO value is the average over its scored terms, for every scoring, if and only
      if it keeps a prompt token in front. The mark is any token the example does not hold. */
  lemma PaddedIpoIsAverageIff<L>(cfg: Config, net: Net<L>, x: Inputs, side: Side, i: nat, mark: int)
    requires ValidInputs(x) && ValidSide(side, |x.prompt.ids|) && i < |x.prompt.ids| && IsNet(net)
    requires cfg.ipo && !cfg.paddingFree && KeptTokens(ExampleLoss(x, side, i), cfg) != []
    requires mark !in KeptTokens(ExampleTokens(x, side, i), cfg)
    ensures (forall lp: LogProb<L> ::
              ExampleMeaning(cfg, x, side, i, net, lp) == ScoredAverage(cfg, x, side, i, net, lp, mark))
            <==> !StartsWithCompletion(cfg, x, side, i)
  {
    var tokens, loss := KeptTokens(ExampleTokens(x, side, i), cfg), KeptTokens(ExampleLoss(x, side, i), cfg);
    KeptTogether(ExampleTokens(x, side, i), ExampleLoss(x, side, i), cfg);
    PaddedAverageIff(net(tokens), tokens, loss, mark);
    FirstKeptTokenCountsIff(cfg, x, side, i);
    forall lp: LogProb<L>
      ensures ExampleMeaning(cfg, x, side, i, net, lp)
              == Quotient(RolledSum(lp, net(tokens), tokens, loss), Count(RollBackward(loss)))
    {
      RollIsShift(lp, net(tokens), tokens, loss);
      CountRolled(loss);
    }
  }

  /** A prompt of one token, a completion of two and room for two. */
  function CompletionSide(): Side {
    Side(2, [[2, 3]], [[true, true]])
  }

  function ShortLimit(): (Config, Inputs) {
    (Config(Some(2), KeepEnd, false, false, true),
     Inputs(Side(1, [[1]], [[true]]), CompletionSide(), CompletionSide()))
  }

  lemma KeepEndKeepsCompletion()
    ensures
      var (cfg, x) := ShortLimit();
      && ValidInputs(x)
      && KeptTokens(ExampleTokens(x, CompletionSide(), 0), cfg) == [2, 3]
      && KeptTokens(ExampleLoss(x, CompletionSide(), 0), cfg) == [true, true]
  {
    SelectAll([true], [1]);
    SelectAll([true, true], [2, 3]);
    assert ValidInputs(ShortLimit().1);
    assert Last([1] + [2, 3], 2) == [2, 3];
    assert Last(Fill(1, false) + Fill(2, true), 2) == [true, true];
  }

  lemma TwoTokensOneTerm<L>(net: Net<L>)
    requires IsNet(net)
    ensures Count([true, true]) == 2 && ExampleLogp(net, One<L>(), [2, 3], [true, true]) == 1.0
    ensures RowLogp(One<L>(), net([2, 3]), MarkedLabels([2, 3], [true, true], -100), true, -100, false)
            == Logp.Value(1.0)
  {
    var yes := [true, true];
    assert NextTokenLogps(One<L>(), net([2, 3]), [2, 3], yes) == [1.0];
    assert Sum([1.0]) == 1.0 + Sum([]);
    AverageIsQuotient(One<L>(), net([2, 3]), [2, 3], yes, -100);
    RollIsShift(One<L>(), net([2, 3]), [2, 3], yes);
    RolledCount([2, 3], yes, -100);
    CountRolled(yes);
    SelectAll(yes, yes);
  }

  /** keep_end leaves the completion, whose one scored term is divided by two. */
  lemma KeepEndHalvesCompletion<L>(net: Net<L>)
    requires IsNet(net)
    ensures
      var (cfg, x) := ShortLimit();
      && ValidInputs(x)
      && ExampleMeaning(cfg, x, CompletionSide(), 0, net, One<L>()) == Logp.Value(0.5)
      && ScoredAverage(cfg, x, CompletionSide(), 0, net, One<L>(), -100) == Logp.Value(1.0)
  {
    KeepEndKeepsCompletion();
    TwoTokensOneTerm(net);
  }

  /** The meaning of row r of the concatenated batch. */
  function RowMeaning<L>(cfg: Config, x: Inputs, r: nat, net: Net<L>, lp: LogProb<L>): Logp
    requires ValidInputs(x) && r < 2 * |x.prompt.ids| && IsNet(net)
  {
    ExampleMeaning(cfg, x, RowSide(x, r), RowIndex(x, r), net, lp)
  }

  lemma SplitRows<L>(cfg: Config, x: Inputs, net: Net<L>, lp: LogProb<L>, logps: seq<Logp>, i: nat)
    requires ValidInputs(x) && IsNet(net) && |logps| == 2 * |x.prompt.ids| && i < |x.prompt.ids|
    requires forall r :: 0 <= r < |logps| ==> logps[r] == RowMeaning(cfg, x, r, net, lp)
    ensures logps[i] == ExampleMeaning(cfg, x, x.chosen, i, net, lp)
    ensures logps[|x.prompt.ids| + i] == ExampleMeaning(cfg, x, x.rejected, i, net, lp)
  {
    var r := |x.prompt.ids| + i;
    assert RowSide(x, i) == x.chosen && RowIndex(x, i) == i;
    assert RowSide(x, r) == x.rejected && RowIndex(x, r) == i;
    assert logps[r] == RowMeaning(cfg, x, r, net, lp);
  }

  lemma FlushedBatch<L>(cfg: Config, x: Inputs, pad: int, net: Net<L>, lp: LogProb<L>)
    requires ValidInputs(x) && IsNet(net)
    requires FlushAndTruncate(ConcatenatedInputs(x, pad), cfg.maxLength, cfg.mode).Success?
    ensures
      var t := FlushAndTruncate(ConcatenatedInputs(x, pad), cfg.maxLength, cfg.mode).value;
      && LossInside(t)
      && (forall r :: 0 <= r < |t.ids| ==> LeftAligned(t.attention[r], Count(t.attention[r])))
      && (forall r :: 0 <= r < |t.ids| ==>
           RowResult(cfg, t, r, ExampleLogp(net, lp, Tokens(t, r), TokenLoss(t, r))) == RowMeaning(cfg, x, r, net, lp))
  {
    ConcatenatedLossInside(x, pad);
    FlushAndTruncateCompacts(ConcatenatedInputs(x, pad), cfg.maxLength, cfg.mode);
    var t := FlushAndTruncate(ConcatenatedInputs(x, pad), cfg.maxLength, cfg.mode).value;
    FlushedLossTokens(cfg, x, pad, t);
    forall r | 0 <= r < |t.ids|
      ensures LeftAligned(t.attention[r], Count(t.attention[r]))
      ensures RowResult(cfg, t, r, ExampleLogp(net, lp, Tokens(t, r), TokenLoss(t, r)))
        == RowMeaning(cfg, x, r, net, lp)
    {
      FlushedRow(cfg, x, pad, net, lp, t, r);
    }
  }

  /** The flushed loss mask counts each example's truncated loss tokens. */
  lemma FlushedLossTokens(cfg: Config, x: Inputs, pad: int, t: Batch)
    requires ValidInputs(x) && FlushAndTruncate(ConcatenatedInputs(x, pad), cfg.maxLength, cfg.mode) == Success(t)
    requires Valid(t) && LossInside(t)
    ensures |t.loss| == 2 * |x.prompt.ids| && LossTokens(t.loss) == LossTokens(KeptLoss(cfg, x))
    ensures forall r :: 0 <= r < |t.loss| ==> Count(t.loss[r]) == Count(KeptLoss(cfg, x)[r])
  {
    forall r | 0 <= r < |t.loss| ensures Count(t.loss[r]) == Count(KeptLoss(cfg, x)[r]) {
      FlushedExample(cfg, x, pad, r, t);
      CountInside(t.attention[r], t.loss[r]);
    }
    SameLossTokens(t.loss, KeptLoss(cfg, x));
  }

  lemma FlushedRow<L>(cfg: Config, x: Inputs, pad: int, net: Net<L>, lp: LogProb<L>, t: Batch, r: nat)
    requires ValidInputs(x) && IsNet(net) && r < 2 * |x.prompt.ids|
    requires FlushAndTruncate(ConcatenatedInputs(x, pad), cfg.maxLength, cfg.mode) == Success(t)
    requires Valid(t) && |t.loss| == 2 * |x.prompt.ids| && LossTokens(t.loss) == LossTokens(KeptLoss(cfg, x))
    requires Count(t.loss[r]) == Count(KeptLoss(cfg, x)[r])
    ensures r < |t.attention| && LeftAligned(t.attention[r], Count(t.attention[r]))
    ensures RowResult(cfg, t, r, ExampleLogp(net, lp, Tokens(t, r), TokenLoss(t, r))) == RowMeaning(cfg, x, r, net, lp)
  {
    FlushedExample(cfg, x, pad, r, t);
  }

  /** Row r of the flushed batch holds the truncated tokens of its example. */
  lemma FlushedExample(cfg: Config, x: Inputs, pad: int, r: nat, t: Batch)
    requires ValidInputs(x) && r < 2 * |x.prompt.ids|
    requires FlushAndTruncate(ConcatenatedInputs(x, pad), cfg.maxLength, cfg.mode) == Success(t)
    ensures Valid(t) && r < |t.ids|
    ensures Tokens(t, r) == KeptTokens(ExampleTokens(x, RowSide(x, r), RowIndex(x, r)), cfg)
    ensures TokenLoss(t, r) == KeptTokens(ExampleLoss(x, RowSide(x, r), RowIndex(x, r)), cfg)
    ensures LeftAligned(t.attention[r], Count(t.attention[r]))
  {
    var b := ConcatenatedInputs(x, pad);
    forall i | 0 <= i < |b.ids| ensures Block(b.attention[i]) { ConcatenatedRow(x, pad, i); }
    ConcatenatedRow(x, pad, r);
    FlushAndTruncateRow(b, cfg.maxLength, cfg.mode, r);
    WidthDoesNotMatter(Tokens(b, r), b.width, cfg);
    WidthDoesNotMatter(TokenLoss(b, r), b.width, cfg);
  }

  // ----- when the pass raises, in terms of the examples

  /** The truncated tokens of every example. */
  function KeptRows(cfg: Config, x: Inputs): (rows: seq<seq<int>>)
    requires ValidInputs(x)
    ensures |rows| == 2 * |x.prompt.ids|
  {
    seq(2 * |x.prompt.ids|,
        r requires 0 <= r < 2 * |x.prompt.ids| => KeptTokens(ExampleTokens(x, RowSide(x, r), RowIndex(x, r)), cfg))
  }

  function NonEmptyRows(rows: seq<seq<int>>): nat {
    if rows == [] then 0 else (if rows[0] == [] then 0 else 1) + NonEmptyRows(rows[1..])
  }

  predicate LossAt(loss: seq<seq<bool>>, r: nat, c: nat) {
    r < |loss| && c < |loss[r]| && loss[r][c]
  }

  /** The first position at which some example has a loss token. */
  ghost predicate FirstLossAt(loss: seq<seq<bool>>, first: nat) {
    (exists r: nat :: LossAt(loss, r, first)) && forall r: nat, c: nat :: LossAt(loss, r, c) ==> first <= c
  }

  /** Exactly these passes raise: those that need an unknown truncation mode; with kept logits, those in
      which no example keeps a loss token; with kept logits and without padding, those in which fewer logits
      are kept, from the position before the first loss token to the end of the longest example, than there
      are tokens; and, without padding, those in which no more than half of the examples keep a token. */
  lemma PassRaisesIff(cfg: Config, x: Inputs, pad: int)
    requires ValidInputs(x)
    ensures
      var kept, loss, n := KeptRows(cfg, x), KeptLoss(cfg, x), |x.prompt.ids|;
      Raises(cfg, ConcatenatedInputs(x, pad), n) <==>
        || (cfg.mode == UnknownMode && cfg.maxLength.Some? && cfg.maxLength.value < x.prompt.width + CompletionWidth(x))
        || (cfg.useLogitsToKeep && forall r: nat, c: nat :: !LossAt(loss, r, c))
        || (cfg.useLogitsToKeep && cfg.paddingFree
            && exists first :: FirstLossAt(loss, first) && Longest(kept) + 1 - first < |Concat(kept)|)
        || (cfg.paddingFree && NonEmptyRows(kept) <= n)
  {
    var b := ConcatenatedInputs(x, pad);
    ConcatenatedLossInside(x, pad);
    var f := FlushAndTruncate(b, cfg.maxLength, cfg.mode);
    if f.Success? {
      FlushAndTruncateCompacts(b, cfg.maxLength, cfg.mode);
      forall r: nat | r < |f.value.ids|
        ensures Tokens(f.value, r) == KeptRows(cfg, x)[r] && TokenLoss(f.value, r) == KeptLoss(cfg, x)[r]
        ensures LeftAligned(f.value.attention[r], Count(f.value.attention[r]))
      {
        FlushedExample(cfg, x, pad, r, f.value);
      }
      CannotScoreIff(cfg, f.value, KeptRows(cfg, x), KeptLoss(cfg, x), |x.prompt.ids|);
    }
  }

  /** The flushed batch holds these tokens and loss flags, and nothing else. */
  ghost predicate HoldsRows(t: Batch, kept: seq<seq<int>>, loss: seq<seq<bool>>)
    requires Valid(t)
  {
    && |kept| == |loss| == |t.ids| && LossInside(t) && Compact(t)
    && forall r: nat :: r < |t.ids| ==>
      Tokens(t, r) == kept[r] && TokenLoss(t, r) == loss[r] && LeftAligned(t.attention[r], Count(t.attention[r]))
  }

  lemma CannotScoreIff(cfg: Config, t: Batch, kept: seq<seq<int>>, loss: seq<seq<bool>>, n: nat)
    requires Valid(t) && HoldsRows(t, kept, loss)
    ensures CannotScore(cfg, t, n) <==>
      || (cfg.useLogitsToKeep && forall r: nat, c: nat :: !LossAt(loss, r, c))
      || (cfg.useLogitsToKeep && cfg.paddingFree
          && exists first :: FirstLossAt(loss, first) && Longest(kept) + 1 - first < |Concat(kept)|)
      || (cfg.paddingFree && NonEmptyRows(kept) <= n)
  {
    AttendedRows(t.attention, kept);
    WidthIsLongest(t, kept, loss);
    KeepIff(t, kept, loss);
  }

  lemma {:induction false} AttendedRows(attention: seq<seq<bool>>, kept: seq<seq<int>>)
    requires |attention| == |kept| && forall r :: 0 <= r < |kept| ==> Count(attention[r]) == |kept[r]|
    ensures Attended(attention) == |Concat(kept)| && AttendingRows(attention) == NonEmptyRows(kept)
  {
    if kept != [] { AttendedRows(attention[1..], kept[1..]); }
  }

  lemma {:induction false} LongestIsARow(rows: seq<seq<int>>)
    ensures Longest(rows) > 0 ==> exists r :: 0 <= r < |rows| && |rows[r]| == Longest(rows)
  {
    if rows != [] && Longest(rows) != |rows[0]| {
      LongestIsARow(rows[1..]);
      if Longest(rows) > 0 {
        var r :| 0 <= r < |rows[1..]| && |rows[1..][r]| == Longest(rows[1..]);
        assert rows[r + 1] == rows[1..][r];
      }
    }
  }

  lemma WidthIsLongest(t: Batch, kept: seq<seq<int>>, loss: seq<seq<bool>>)
    requires Valid(t) && HoldsRows(t, kept, loss)
    ensures t.width == Longest(kept)
  {
    LongestIsARow(kept);
    if t.width > 0 {
      assert !EmptyColumn(t.attention, t.width - 1);
      var r: nat :| r < |t.attention| && t.attention[r][t.width - 1];
      assert |kept[r]| == t.width;
    }
  }

  lemma LossColumn(t: Batch, kept: seq<seq<int>>, loss: seq<seq<bool>>, r: nat, c: nat)
    requires Valid(t) && HoldsRows(t, kept, loss)
    ensures LossAt(loss, r, c) <==> r < |t.loss| && c < t.width && t.loss[r][c]
  {
    if r < |t.ids| { SelectLeftAligned(t.attention[r], t.loss[r], Count(t.attention[r])); }
  }

  lemma KeepIff(t: Batch, kept: seq<seq<int>>, loss: seq<seq<bool>>)
    requires Valid(t) && HoldsRows(t, kept, loss)
    ensures LogitsToKeep(t).Failure? <==> forall r: nat, c: nat :: !LossAt(loss, r, c)
    ensures forall first: nat :: FirstLossAt(loss, first) ==> LogitsToKeep(t) == Success(t.width + 1 - first)
    ensures LogitsToKeep(t).Success? ==> exists first: nat :: FirstLossAt(loss, first)
  {
    LogitsReachFirstLoss(t);
    forall r: nat, c: nat ensures LossAt(loss, r, c) <==> r < |t.loss| && c < t.width && t.loss[r][c] {
      LossColumn(t, kept, loss, r, c);
    }
    if LogitsToKeep(t).Success? {
      var first: nat := t.width + 1 - LogitsToKeep(t).value;
      var r: nat :| r < |t.loss| && t.loss[r][first];
      assert LossAt(loss, r, first);
      assert FirstLossAt(loss, first);
    }
  }

  // ----- precomputed reference values

  /** The same example in two batches: in the one its reference value is computed in, and in the one it
      is used in. */
  predicate SameExample(x: Inputs, side: Side, i: nat, y: Inputs, side': Side, j: nat)
    requires ValidSide(x.prompt, |x.prompt.ids|) && ValidSide(side, |x.prompt.ids|) && i < |x.prompt.ids|
    requires ValidSide(y.prompt, |y.prompt.ids|) && ValidSide(side', |y.prompt.ids|) && j < |y.prompt.ids|
  {
    ExampleTokens(x, side, i) == ExampleTokens(y, side', j) && ExampleLoss(x, side, i) == ExampleLoss(y, side', j)
  }

  /** When the values cannot differ: the divisor is the example's own, or it is the same in both batches,
      or no term of the example is scored and both divisors are positive. */
  predicate DivisorsDoNotMatter(cfg: Config, x: Inputs, side: Side, i: nat, y: Inputs)
    requires ValidInputs(x) && ValidInputs(y) && ValidSide(side, |x.prompt.ids|) && i < |x.prompt.ids|
  {
    var p, q := LossTokens(KeptLoss(cfg, x)), LossTokens(KeptLoss(cfg, y));
    || !cfg.ipo || !cfg.paddingFree || p == q
    || (NothingScored(KeptTokens(ExampleLoss(x, side, i), cfg)) && p > 0 && q > 0)
  }

  lemma QuotientsAgreeIff(sum: real, p: nat, q: nat)
    ensures Quotient(sum, p) == Quotient(sum, q) <==> p == q || (sum == 0.0 && p > 0 && q > 0)
  {
    if p > 0 && q > 0 { SameQuotient(sum, p as real, q as real); }
  }

  /** A precomputed value is the value computed in the batch it is used in, for every scoring, if and
      only if padding-free and IPO are not combined, or the divisors do not matter. */
  lemma PrecomputedIsOnTheFlyIff<L>(cfg: Config, net: Net<L>, x: Inputs, side: Side, i: nat,
                                    y: Inputs, side': Side, j: nat)
    requires ValidInputs(x) && ValidInputs(y) && IsNet(net)
    requires ValidSide(side, |x.prompt.ids|) && i < |x.prompt.ids|
    requires ValidSide(side', |y.prompt.ids|) && j < |y.prompt.ids|
    requires SameExample(x, side, i, y, side', j)
    ensures (forall lp: LogProb<L> ::
              ExampleMeaning(cfg, x, side, i, net, lp) == ExampleMeaning(cfg, y, side', j, net, lp))
            <==> DivisorsDoNotMatter(cfg, x, side, i, y)
  {
    var tokens, loss := KeptTokens(ExampleTokens(x, side, i), cfg), KeptTokens(ExampleLoss(x, side, i), cfg);
    KeptTogether(ExampleTokens(x, side, i), ExampleLoss(x, side, i), cfg);
    SumOfOnesIff(net, tokens, loss);
    forall lp: LogProb<L>
      ensures NothingScored(loss) ==> ExampleLogp(net, lp, tokens, loss) == 0.0
      ensures cfg.ipo && cfg.paddingFree ==>
        (ExampleMeaning(cfg, x, side, i, net, lp) == ExampleMeaning(cfg, y, side', j, net, lp)
         <==> LossTokens(KeptLoss(cfg, x)) == LossTokens(KeptLoss(cfg, y))
              || (ExampleLogp(net, lp, tokens, loss) == 0.0
                  && LossTokens(KeptLoss(cfg, x)) > 0 && LossTokens(KeptLoss(cfg, y)) > 0))
    {
      if NothingScored(loss) { NothingScoredIsZero(net, lp, tokens, loss); }
      QuotientsAgreeIff(ExampleLogp(net, lp, tokens, loss), LossTokens(KeptLoss(cfg, x)), LossTokens(KeptLoss(cfg, y)));
    }
    assert ExampleLogp(net, One<L>(), tokens, loss) == 0.0 <==> NothingScored(loss);
  }

  lemma KeptTogether<S, T>(s: seq<S>, t: seq<T>, cfg: Config)
    requires |s| == |t|
    ensures |KeptTokens(s, cfg)| == |KeptTokens(t, cfg)|
  {
  }
}
