/** `get_batch_logps`: the log-probability of labels under logits, where a sentinel label marks the
    positions that do not count. */
module BatchLogps {
  import opened Tensors
  import opened DpoForward

  /** An average over no label at all is not a number. */
  datatype Logp = Value(v: real) | NotANumber

  /** Logits aligned with the labels they predict. */
  function AlignedLabels(labels: seq<int>, encoderDecoder: bool): seq<int> {
    if encoderDecoder then labels else DropFirstColumn(labels)
  }

  function AlignedLogits<L>(logits: seq<L>, encoderDecoder: bool): seq<L> {
    if encoderDecoder || logits == [] then logits else logits[..|logits| - 1]
  }

  function LabelMask(labels: seq<int>, labelPad: int): seq<bool> {
    seq(|labels|, j requires 0 <= j < |labels| => labels[j] != labelPad)
  }

  /** Sum over the counting labels of one row. */
  function LabelSum<L>(lp: LogProb<L>, logits: seq<L>, labels: seq<int>, labelPad: int, encoderDecoder: bool): real
    requires |logits| == |labels|
  {
    var y := AlignedLabels(labels, encoderDecoder);
    Sum(Score(lp, AlignedLogits(logits, encoderDecoder), y, LabelMask(y, labelPad)))
  }

  function LabelCount(labels: seq<int>, labelPad: int, encoderDecoder: bool): nat {
    Count(LabelMask(AlignedLabels(labels, encoderDecoder), labelPad))
  }

  function RowLogp<L>(lp: LogProb<L>, logits: seq<L>, labels: seq<int>, average: bool, labelPad: int,
                      encoderDecoder: bool): Logp
    requires |logits| == |labels|
  {
    var sum, count := LabelSum(lp, logits, labels, labelPad, encoderDecoder),
      LabelCount(labels, labelPad, encoderDecoder);
    if !average then Value(sum) else if count == 0 then NotANumber else Value(sum / count as real)
  }

  /** The pad marks replaced by the dummy token 0. */
  function WithoutMarks(labels: seq<int>, labelPad: int): seq<int> {
    seq(|labels|, j requires 0 <= j < |labels| => if labels[j] == labelPad then 0 else labels[j])
  }

  /** `labels[labels == label_pad_token_id] = 0`, in place. */
  method ReplaceMarks(labels: array<int>, labelPad: int)
    modifies labels
    ensures labels[..] == WithoutMarks(old(labels[..]), labelPad)
  {
    for j := 0 to labels.Length
      invariant forall k :: 0 <= k < j ==> labels[k] == WithoutMarks(old(labels[..]), labelPad)[k]
      invariant forall k :: j <= k < labels.Length ==> labels[k] == old(labels[k])
    {
      if labels[j] == labelPad { labels[j] := 0; }
    }
  }

  /** `(per_token_logps * loss_mask).sum(-1)` and `loss_mask.sum(-1)`. */
  method MaskedSum<L>(lp: LogProb<L>, logits: seq<L>, labels: seq<int>, mask: seq<bool>) returns (sum: real, count: nat)
    requires |logits| == |labels| == |mask|
    ensures sum == Sum(Score(lp, logits, labels, mask)) && count == Count(mask)
  {
    sum, count := 0.0, 0;
    var scores := [];
    for j := 0 to |labels|
      invariant |scores| == j && forall k :: 0 <= k < j ==> scores[k] == Score(lp, logits, labels, mask)[k]
      invariant sum == Sum(scores) && count == Count(mask[..j])
    {
      var s := if mask[j] then lp(logits[j], labels[j]) else 0.0;
      SumSnoc(scores, s);
      assert mask[..j + 1] == mask[..j] + [mask[j]];
      CountAppend(mask[..j], [mask[j]]);
      scores, sum, count := scores + [s], sum + s, count + (if mask[j] then 1 else 0);
    }
    assert scores == Score(lp, logits, labels, mask) && mask[..|labels|] == mask;
  }

  /** The dummy token stands only where the mask is off. */
  lemma DummyTokenUnseen<L>(lp: LogProb<L>, logits: seq<L>, labels: seq<int>, labelPad: int)
    requires |logits| == |labels|
    ensures Score(lp, logits, WithoutMarks(labels, labelPad), LabelMask(labels, labelPad))
            == Score(lp, logits, labels, LabelMask(labels, labelPad))
  {
  }

  /** One row as the trainers compute it. A decoder-only call works on a copy of the labels. The CPO
      trainer's encoder-decoder call works on the caller's labels and leaves them without marks. */
  method GetRowLogp<L>(lp: LogProb<L>, logits: seq<L>, labels: array<int>, average: bool, labelPad: int,
                       encoderDecoder: bool)
    returns (r: Result<Logp>)
    modifies labels
    ensures |logits| != labels.Length ==> r == Failure(ValueError)
    ensures |logits| == labels.Length ==>
      r == Success(RowLogp(lp, logits, old(labels[..]), average, labelPad, encoderDecoder))
    ensures |logits| == labels.Length && encoderDecoder ==> labels[..] == WithoutMarks(old(labels[..]), labelPad)
    ensures |logits| != labels.Length || !encoderDecoder ==> labels[..] == old(labels[..])
  {
    if |logits| != labels.Length { return Failure(ValueError); }
    var y := labels;
    if !encoderDecoder {
      var m := if labels.Length == 0 then 0 else labels.Length - 1;
      y := new int[m](i requires 0 <= i < m reads labels => labels[i + 1]);
    }
    ghost var marked := AlignedLabels(labels[..], encoderDecoder);
    assert y[..] == marked;
    var mask := LabelMask(y[..], labelPad);
    ReplaceMarks(y, labelPad);
    DummyTokenUnseen(lp, AlignedLogits(logits, encoderDecoder), marked, labelPad);
    var sum, count := MaskedSum(lp, AlignedLogits(logits, encoderDecoder), y[..], mask);
    r := Success(if !average then Value(sum) else if count == 0 then NotANumber else Value(sum / count as real));
  }

  /** A second encoder-decoder call on the same labels finds no marks left and counts every column,
      unless the mark itself is the dummy token. */
  lemma SecondCallCountsEveryColumn(labels: seq<int>, labelPad: int)
    ensures labelPad != 0 ==> LabelCount(WithoutMarks(labels, labelPad), labelPad, true) == |labels|
    ensures labelPad == 0 ==>
      LabelCount(WithoutMarks(labels, labelPad), labelPad, true) == LabelCount(labels, labelPad, true)
  {
    var m := LabelMask(WithoutMarks(labels, labelPad), labelPad);
    if labelPad != 0 {
      SelectAll(m, m);
    } else {
      assert WithoutMarks(labels, labelPad) == labels;
    }
  }

  // ----- what a row's value is made of

  /** Row by row from its last label: a counting label adds its score under the logits at its own position
      for an encoder-decoder, and under those one position earlier, if there is one, for a decoder. */
  lemma OneMoreLabel<L>(lp: LogProb<L>, logits: seq<L>, labels: seq<int>, logit: L, token: int, labelPad: int)
    requires |logits| == |labels|
    ensures LabelSum(lp, logits + [logit], labels + [token], labelPad, true)
            == LabelSum(lp, logits, labels, labelPad, true) + (if token == labelPad then 0.0 else lp(logit, token))
    ensures LabelSum(lp, logits + [logit], labels + [token], labelPad, false)
            == LabelSum(lp, logits, labels, labelPad, false)
               + (if labels == [] || token == labelPad then 0.0 else lp(logits[|logits| - 1], token))
  {
    MoreScores(lp, logits, labels, logit, token, labelPad);
    if labels != [] {
      var last := |labels| - 1;
      assert (logits + [logit])[..|labels|] == logits[..last] + [logits[last]];
      assert (labels + [token])[1..] == labels[1..] + [token];
      MoreScores(lp, logits[..last], labels[1..], logits[last], token, labelPad);
    }
  }

  lemma MoreScores<L>(lp: LogProb<L>, logits: seq<L>, labels: seq<int>, logit: L, token: int, labelPad: int)
    requires |logits| == |labels|
    ensures Sum(Score(lp, logits + [logit], labels + [token], LabelMask(labels + [token], labelPad)))
            == Sum(Score(lp, logits, labels, LabelMask(labels, labelPad)))
               + (if token == labelPad then 0.0 else lp(logit, token))
  {
    var before := Score(lp, logits, labels, LabelMask(labels, labelPad));
    var own := if token == labelPad then 0.0 else lp(logit, token);
    SumSnoc(before, own);
    assert Score(lp, logits + [logit], labels + [token], LabelMask(labels + [token], labelPad)) == before + [own];
  }

  /** No label, no value; an average times the number of counting labels is the sum. */
  lemma RowLogpOfSum<L>(lp: LogProb<L>, logits: seq<L>, labels: seq<int>, labelPad: int, encoderDecoder: bool)
    requires |logits| == |labels|
    ensures labels == [] ==> LabelSum(lp, logits, labels, labelPad, encoderDecoder) == 0.0
    ensures RowLogp(lp, logits, labels, false, labelPad, encoderDecoder)
            == Value(LabelSum(lp, logits, labels, labelPad, encoderDecoder))
    ensures
      var average, count := RowLogp(lp, logits, labels, true, labelPad, encoderDecoder),
        LabelCount(labels, labelPad, encoderDecoder);
      && (average.NotANumber? <==> count == 0)
      && (count > 0 ==> average.v * count as real == LabelSum(lp, logits, labels, labelPad, encoderDecoder))
  {
  }

  /** The number of counting labels, from the last label on. */
  lemma OneMoreCount(labels: seq<int>, token: int, labelPad: int)
    ensures LabelCount([], labelPad, true) == LabelCount([], labelPad, false) == 0
    ensures LabelCount(labels + [token], labelPad, true)
            == LabelCount(labels, labelPad, true) + (if token == labelPad then 0 else 1)
    ensures LabelCount(labels + [token], labelPad, false)
            == LabelCount(labels, labelPad, false) + (if labels == [] || token == labelPad then 0 else 1)
  {
    MoreCounts(labels, token, labelPad);
    if labels != [] {
      assert (labels + [token])[1..] == labels[1..] + [token];
      MoreCounts(labels[1..], token, labelPad);
    }
  }

  lemma MoreCounts(labels: seq<int>, token: int, labelPad: int)
    ensures Count(LabelMask(labels + [token], labelPad))
            == Count(LabelMask(labels, labelPad)) + (if token == labelPad then 0 else 1)
  {
    CountAppend(LabelMask(labels, labelPad), [token != labelPad]);
    assert LabelMask(labels + [token], labelPad) == LabelMask(labels, labelPad) + [token != labelPad];
  }

  // ----- the two ways of aligning labels

  /** Labels carrying the loss mask as pad marks. */
  function MarkedLabels(ids: seq<int>, loss: seq<bool>, labelPad: int): seq<int>
    requires |ids| == |loss|
  {
    seq(|ids|, j requires 0 <= j < |ids| => if loss[j] then ids[j] else labelPad)
  }

  /** What the DPO pass sums for a row of ids and loss flags. */
  function RolledSum<L>(lp: LogProb<L>, logits: seq<L>, ids: seq<int>, loss: seq<bool>): real
    requires |logits| == |ids| == |loss|
  {
    Sum(DropFirstColumn(RollForward(Score(lp, logits, RollBackward(ids), RollBackward(loss)))))
  }

  /** No loss token after the first column is the pad mark itself. */
  predicate MarkUnused(ids: seq<int>, loss: seq<bool>, labelPad: int)
    requires |ids| == |loss|
  {
    forall j :: 1 <= j < |ids| && loss[j] ==> ids[j] != labelPad
  }

  lemma RollRefinesSlice<L>(lp: LogProb<L>, logits: seq<L>, ids: seq<int>, loss: seq<bool>, labelPad: int)
    requires |logits| == |ids| == |loss| && MarkUnused(ids, loss, labelPad)
    ensures RolledSum(lp, logits, ids, loss) == LabelSum(lp, logits, MarkedLabels(ids, loss, labelPad), labelPad, false)
  {
    RollIsShift(lp, logits, ids, loss);
    if ids != [] {
      var y := MarkedLabels(ids, loss, labelPad)[1..];
      var row, own := NextTokenLogps(lp, logits, ids, loss), Score(lp, logits[..|ids| - 1], y, LabelMask(y, labelPad));
      forall j | 0 <= j < |ids| - 1 ensures row[j] == own[j] {
        SlicedLabel(ids, loss, labelPad, j);
      }
      assert row == own;
    }
  }

  /** After slicing, a label is unmarked if and only if it counts. */
  lemma SlicedLabel(ids: seq<int>, loss: seq<bool>, labelPad: int, j: nat)
    requires |ids| == |loss| && j + 1 < |ids| && MarkUnused(ids, loss, labelPad)
    ensures MarkedLabels(ids, loss, labelPad)[1..][j] == if loss[j + 1] then ids[j + 1] else labelPad
    ensures LabelMask(MarkedLabels(ids, loss, labelPad)[1..], labelPad)[j] == loss[j + 1]
  {
  }

  /** Rolling by one and slicing by one give the same sum under every scoring if and only if the mark
      is not used as a token. */
  lemma RollRefinesSliceIff<L>(logits: seq<L>, ids: seq<int>, loss: seq<bool>, labelPad: int)
    requires |logits| == |ids| == |loss|
    ensures (forall lp: LogProb<L> ::
              RolledSum(lp, logits, ids, loss)
                == LabelSum(lp, logits, MarkedLabels(ids, loss, labelPad), labelPad, false))
            <==> MarkUnused(ids, loss, labelPad)
  {
    if MarkUnused(ids, loss, labelPad) {
      forall lp: LogProb<L>
        ensures RolledSum(lp, logits, ids, loss)
          == LabelSum(lp, logits, MarkedLabels(ids, loss, labelPad), labelPad, false)
      {
        RollRefinesSlice(lp, logits, ids, loss, labelPad);
      }
    } else {
      MarkAsTokenIsDropped(logits, ids, loss, labelPad);
    }
  }

  /** Scores the mark with one and everything else with nothing. */
  function MarkScore<L>(labelPad: int): LogProb<L> {
    (_, token) => if token == labelPad then 1.0 else 0.0
  }

  lemma MarkAsTokenIsDropped<L>(logits: seq<L>, ids: seq<int>, loss: seq<bool>, labelPad: int)
    requires |logits| == |ids| == |loss| && !MarkUnused(ids, loss, labelPad)
    ensures RolledSum(MarkScore(labelPad), logits, ids, loss)
            > LabelSum(MarkScore(labelPad), logits, MarkedLabels(ids, loss, labelPad), labelPad, false)
  {
    var y := AlignedLabels(MarkedLabels(ids, loss, labelPad), false);
    MarksScoreNothing(AlignedLogits(logits, false), y, labelPad);
    var j :| 1 <= j < |ids| && loss[j] && ids[j] == labelPad;
    RollIsShift(MarkScore(labelPad), logits, ids, loss);
    MarkScoresOne(logits, ids, loss, j);
  }

  lemma MarkScoresOne<L>(logits: seq<L>, ids: seq<int>, loss: seq<bool>, j: nat)
    requires |logits| == |ids| == |loss| && 1 <= j < |ids| && loss[j]
    ensures Sum(NextTokenLogps(MarkScore(ids[j]), logits, ids, loss)) >= 1.0
  {
    SumAtLeast(NextTokenLogps(MarkScore(ids[j]), logits, ids, loss), j - 1);
  }

  lemma MarksScoreNothing<L>(logits: seq<L>, labels: seq<int>, labelPad: int)
    requires |logits| == |labels|
    ensures Sum(Score(MarkScore(labelPad), logits, labels, LabelMask(labels, labelPad))) == 0.0
  {
    SumZeros(Score(MarkScore(labelPad), logits, labels, LabelMask(labels, labelPad)));
  }

  // ----- the two ways of averaging

  function Quotient(sum: real, count: nat): Logp {
    if count == 0 then NotANumber else Logp.Value(sum / count as real)
  }

  /** The rolled mask counts the row's first token, which nothing scores; the sliced labels do not. */
  lemma RolledCount(ids: seq<int>, loss: seq<bool>, labelPad: int)
    requires |ids| == |loss| > 0 && MarkUnused(ids, loss, labelPad)
    ensures Count(RollBackward(loss))
            == LabelCount(MarkedLabels(ids, loss, labelPad), labelPad, false) + (if loss[0] then 1 else 0)
  {
    var mask := LabelMask(MarkedLabels(ids, loss, labelPad)[1..], labelPad);
    forall j | 0 <= j < |mask| ensures mask[j] == loss[1..][j] { SlicedLabel(ids, loss, labelPad, j); }
    assert mask == loss[1..];
    CountRolled(loss);
  }

  /** The padded IPO quotient of a row is the average over the terms that are scored, as the sliced form
      computes it, for every scoring, if and only if the row's first token does not count. */
  lemma PaddedAverageIff<L>(logits: seq<L>, ids: seq<int>, loss: seq<bool>, labelPad: int)
    requires |logits| == |ids| == |loss| > 0 && MarkUnused(ids, loss, labelPad)
    ensures (forall lp: LogProb<L> :: Quotient(RolledSum(lp, logits, ids, loss), Count(RollBackward(loss)))
                                      == RowLogp(lp, logits, MarkedLabels(ids, loss, labelPad), true, labelPad, false))
            <==> !loss[0]
  {
    RolledCount(ids, loss, labelPad);
    forall lp: LogProb<L>
      ensures RowLogp(lp, logits, MarkedLabels(ids, loss, labelPad), true, labelPad, false)
              == SlicedQuotient(lp, logits, ids, loss, labelPad)
    {
      AverageIsQuotient(lp, logits, ids, loss, labelPad);
    }
    if loss[0] { CountedTokenSpoilsAverage(logits, ids, loss, labelPad); }
  }

  /** The rolled sum over the number of labels the sliced form counts. */
  function SlicedQuotient<L>(lp: LogProb<L>, logits: seq<L>, ids: seq<int>, loss: seq<bool>, labelPad: int): Logp
    requires |logits| == |ids| == |loss|
  {
    Quotient(RolledSum(lp, logits, ids, loss), LabelCount(MarkedLabels(ids, loss, labelPad), labelPad, false))
  }

  lemma AverageIsQuotient<L>(lp: LogProb<L>, logits: seq<L>, ids: seq<int>, loss: seq<bool>, labelPad: int)
    requires |logits| == |ids| == |loss| && MarkUnused(ids, loss, labelPad)
    ensures RowLogp(lp, logits, MarkedLabels(ids, loss, labelPad), true, labelPad, false)
            == SlicedQuotient(lp, logits, ids, loss, labelPad)
  {
    RollRefinesSlice(lp, logits, ids, loss, labelPad);
  }

  lemma CountedTokenSpoilsAverage<L>(logits: seq<L>, ids: seq<int>, loss: seq<bool>, labelPad: int)
    requires |logits| == |ids| == |loss| > 0 && MarkUnused(ids, loss, labelPad) && loss[0]
    ensures Quotient(RolledSum(One<L>(), logits, ids, loss), Count(RollBackward(loss)))
            != SlicedQuotient(One<L>(), logits, ids, loss, labelPad)
  {
    RolledCount(ids, loss, labelPad);
    RolledOnes(logits, ids, loss);
    CountRolled(loss);
    var n := LabelCount(MarkedLabels(ids, loss, labelPad), labelPad, false);
    if n > 0 { SameQuotient(RolledSum(One<L>(), logits, ids, loss), n as real, (n + 1) as real); }
  }

  /** Scored by ones, a row sums to more than zero if some token behind the first counts. */
  lemma RolledOnes<L>(logits: seq<L>, ids: seq<int>, loss: seq<bool>)
    requires |logits| == |ids| == |loss| > 0
    ensures Count(loss[1..]) > 0 ==> RolledSum(One<L>(), logits, ids, loss) > 0.0
  {
    RollIsShift(One<L>(), logits, ids, loss);
    OwnSumOfOnes(loss, NextTokenLogps(One<L>(), logits, ids, loss));
    if NothingScored(loss) { SelectNone(loss[1..], loss[1..]); }
  }
}
