/** The flush-and-truncate block of the DPO trainer. Attention mask, token ids and loss mask are
    three matrices moved by the same column operations; what matters of a row is the sequence of
    its attended tokens and which of them count for the loss. */
module Flush {
  import opened Tensors

  datatype Batch = Batch(width: nat, attention: seq<seq<bool>>, ids: seq<seq<int>>, loss: seq<seq<bool>>)

  ghost predicate Valid(b: Batch) {
    && |b.attention| == |b.ids| == |b.loss|
    && Rect(b.attention, b.width) && Rect(b.ids, b.width) && Rect(b.loss, b.width)
  }

  /** Only attended tokens count for the loss. */
  ghost predicate LossInside(b: Batch)
    requires Valid(b)
  {
    forall r, c :: 0 <= r < |b.loss| && 0 <= c < b.width && b.loss[r][c] ==> b.attention[r][c]
  }

  /** The attended tokens of a row form one block, as left-padded prompts followed by right-padded
      completions do. */
  predicate Block(mask: seq<bool>) {
    forall i, j, k :: 0 <= i < j < k < |mask| && mask[i] && mask[k] ==> mask[j]
  }

  ghost predicate Blocks(b: Batch) {
    forall r :: 0 <= r < |b.attention| ==> Block(b.attention[r])
  }

  predicate LeftAligned(mask: seq<bool>, n: nat) {
    n <= |mask| && forall c :: 0 <= c < |mask| ==> mask[c] == (c < n)
  }

  predicate RightAligned(mask: seq<bool>, n: nat) {
    n <= |mask| && forall c :: 0 <= c < |mask| ==> mask[c] == (|mask| - n <= c)
  }

  function Tokens(b: Batch, r: nat): seq<int>
    requires Valid(b) && r < |b.ids|
  {
    Select(b.attention[r], b.ids[r])
  }

  function TokenLoss(b: Batch, r: nat): seq<bool>
    requires Valid(b) && r < |b.ids|
  {
    Select(b.attention[r], b.loss[r])
  }

  // ----- flush_left

  function RollLeft<T>(s: seq<T>, k: nat): seq<T>
    requires k <= |s|
  {
    s[k..] + s[..k]
  }

  /** Every row rolled so that its first attended column comes first. */
  function RollRows<T>(rows: seq<seq<T>>, attention: seq<seq<bool>>): seq<seq<T>>
    requires |rows| == |attention|
    requires forall r :: 0 <= r < |rows| ==> |rows[r]| == |attention[r]|
  {
    seq(|rows|, r requires 0 <= r < |rows| => RollLeft(rows[r], Argmax(attention[r])))
  }

  predicate EmptyColumn(attention: seq<seq<bool>>, c: nat)
    requires forall r :: 0 <= r < |attention| ==> c < |attention[r]|
  {
    forall r :: 0 <= r < |attention| ==> !attention[r][c]
  }

  /** The first all-empty column from c on, or the width when there is none. */
  function FirstEmptyColumn(attention: seq<seq<bool>>, width: nat, c: nat): (e: nat)
    requires Rect(attention, width) && c <= width
    ensures c <= e <= width
    ensures forall i :: c <= i < e ==> !EmptyColumn(attention, i)
    ensures e < width ==> EmptyColumn(attention, e)
    decreases width - c
  {
    if c == width || EmptyColumn(attention, c) then c else FirstEmptyColumn(attention, width, c + 1)
  }

  function FirstColumns<T>(rows: seq<seq<T>>, k: nat): seq<seq<T>> {
    seq(|rows|, r requires 0 <= r < |rows| => First(rows[r], k))
  }

  function LastColumns<T>(rows: seq<seq<T>>, k: nat): seq<seq<T>> {
    seq(|rows|, r requires 0 <= r < |rows| => Last(rows[r], k))
  }

  function FlushLeft(b: Batch): (f: Batch)
    requires Valid(b)
    ensures Valid(f) && |f.ids| == |b.ids|
  {
    var attention := RollRows(b.attention, b.attention);
    var cut := FirstEmptyColumn(attention, b.width, 0);
    Batch(cut, FirstColumns(attention, cut), FirstColumns(RollRows(b.ids, b.attention), cut),
          FirstColumns(RollRows(b.loss, b.attention), cut))
  }

  lemma RollBlock(mask: seq<bool>)
    requires Block(mask)
    ensures LeftAligned(RollLeft(mask, Argmax(mask)), Count(mask))
  {
    var k := Argmax(mask);
    if k < |mask| && mask[k] {
      var d := FirstTrue(Not(mask[k..]));
      forall i | 0 <= i < |mask| ensures mask[i] == (k <= i < k + d) {
        if k <= i {
          assert Not(mask[k..])[i - k] == !mask[i];
          if k + d < |mask| { assert Not(mask[k..])[d] == !mask[k + d]; }
        }
      }
      SelectRun(mask, mask, k, k + d);
    } else {
      SelectNone(mask, mask);
    }
  }

  lemma RollKeepsSelection<T>(mask: seq<bool>, s: seq<T>)
    requires |mask| == |s|
    ensures Select(RollLeft(mask, Argmax(mask)), RollLeft(s, Argmax(mask))) == Select(mask, s)
  {
    var k := Argmax(mask);
    SelectSplit(mask, s, k);
    SelectNone(mask[..k], s[..k]);
    SelectAppend(mask[k..], mask[..k], s[k..], s[..k]);
  }

  lemma SelectLeftAligned<T>(mask: seq<bool>, s: seq<T>, n: nat)
    requires |mask| == |s| && LeftAligned(mask, n)
    ensures Select(mask, s) == s[..n] && Count(mask) == n
  {
    SelectRun(mask, s, 0, n);
  }

  lemma SelectRightAligned<T>(mask: seq<bool>, s: seq<T>, n: nat)
    requires |mask| == |s| && RightAligned(mask, n)
    ensures Select(mask, s) == s[|s| - n..] && Count(mask) == n
  {
    SelectRun(mask, s, |s| - n, |s|);
  }

  /** No column of the matrix is empty. */
  ghost predicate Compact(b: Batch)
    requires Valid(b)
  {
    forall c :: 0 <= c < b.width ==> !EmptyColumn(b.attention, c)
  }

  lemma FlushLeftRow(b: Batch, r: nat)
    requires Valid(b) && r < |b.ids| && Block(b.attention[r])
    ensures LeftAligned(FlushLeft(b).attention[r], Count(b.attention[r]))
    ensures Tokens(FlushLeft(b), r) == Tokens(b, r) && TokenLoss(FlushLeft(b), r) == TokenLoss(b, r)
  {
    var mask, k, n := b.attention[r], Argmax(b.attention[r]), Count(b.attention[r]);
    var rolled, cut := RollRows(b.attention, b.attention), FlushLeft(b).width;
    RollBlock(mask);
    if cut < b.width { assert !rolled[r][cut]; }
    assert n <= cut;
    SelectLeftAligned(RollLeft(mask, k), RollLeft(b.ids[r], k), n);
    SelectLeftAligned(RollLeft(mask, k), RollLeft(b.loss[r], k), n);
    SelectLeftAligned(FlushLeft(b).attention[r], FlushLeft(b).ids[r], n);
    SelectLeftAligned(FlushLeft(b).attention[r], FlushLeft(b).loss[r], n);
    RollKeepsSelection(mask, b.ids[r]);
    RollKeepsSelection(mask, b.loss[r]);
  }

  lemma FlushLeftKeepsLossInside(b: Batch)
    requires Valid(b) && LossInside(b)
    ensures LossInside(FlushLeft(b)) && Compact(FlushLeft(b))
  {
    var f := FlushLeft(b);
    forall r, c | 0 <= r < |f.loss| && 0 <= c < f.width && f.loss[r][c] ensures f.attention[r][c] {
      var k := Argmax(b.attention[r]);
      var source := if k + c < b.width then k + c else k + c - b.width;
      assert f.loss[r][c] == b.loss[r][source] && f.attention[r][c] == b.attention[r][source];
    }
    var rolled := RollRows(b.attention, b.attention);
    forall c | 0 <= c < f.width ensures !EmptyColumn(f.attention, c) {
      assert !EmptyColumn(rolled, c);
      var r :| 0 <= r < |rolled| && rolled[r][c];
      assert f.attention[r][c];
    }
  }

  // ----- flush_right, the mirror image

  function Reverse<T>(s: seq<T>): seq<T> {
    seq(|s|, i requires 0 <= i < |s| => s[|s| - 1 - i])
  }

  function ReverseRows<T>(rows: seq<seq<T>>): seq<seq<T>> {
    seq(|rows|, r requires 0 <= r < |rows| => Reverse(rows[r]))
  }

  function Mirror(b: Batch): (m: Batch)
    requires Valid(b)
    ensures Valid(m)
  {
    Batch(b.width, ReverseRows(b.attention), ReverseRows(b.ids), ReverseRows(b.loss))
  }

  function FlushRight(b: Batch): (f: Batch)
    requires Valid(b)
    ensures Valid(f) && |f.ids| == |b.ids|
  {
    Mirror(FlushLeft(Mirror(b)))
  }

  lemma {:induction false} SelectReverse<T>(mask: seq<bool>, s: seq<T>)
    requires |mask| == |s|
    ensures Select(Reverse(mask), Reverse(s)) == Reverse(Select(mask, s))
    ensures Count(Reverse(mask)) == Count(mask)
  {
    if mask != [] {
      assert Reverse(mask) == Reverse(mask[1..]) + [mask[0]] && Reverse(s) == Reverse(s[1..]) + [s[0]];
      SelectAppend(Reverse(mask[1..]), [mask[0]], Reverse(s[1..]), [s[0]]);
      CountAppend(Reverse(mask[1..]), [mask[0]]);
      SelectReverse(mask[1..], s[1..]);
    }
  }

  lemma FlushRightRow(b: Batch, r: nat)
    requires Valid(b) && r < |b.ids| && Block(b.attention[r])
    ensures RightAligned(FlushRight(b).attention[r], Count(b.attention[r]))
    ensures Tokens(FlushRight(b), r) == Tokens(b, r) && TokenLoss(FlushRight(b), r) == TokenLoss(b, r)
  {
    var m := Mirror(b);
    var f := FlushLeft(m);
    FlushLeftRow(m, r);
    SelectReverse(b.attention[r], b.ids[r]);
    SelectReverse(b.attention[r], b.loss[r]);
    SelectReverse(f.attention[r], f.ids[r]);
    SelectReverse(f.attention[r], f.loss[r]);
    ReverseTwice(Tokens(b, r));
    ReverseTwice(TokenLoss(b, r));
  }

  lemma ReverseTwice<T>(s: seq<T>)
    ensures Reverse(Reverse(s)) == s
  {
  }

  lemma MirrorKeepsLossInside(b: Batch)
    requires Valid(b) && LossInside(b)
    ensures LossInside(Mirror(b))
  {
    var m := Mirror(b);
    forall r, c | 0 <= r < |m.loss| && 0 <= c < m.width && m.loss[r][c] ensures m.attention[r][c] {
      assert m.loss[r][c] == b.loss[r][b.width - 1 - c] && m.attention[r][c] == b.attention[r][b.width - 1 - c];
    }
  }

  // ----- truncation

  function KeepFirstColumns(b: Batch, k: nat): (t: Batch)
    requires Valid(b)
    ensures Valid(t) && |t.ids| == |b.ids|
  {
    Batch(if k <= b.width then k else b.width,
          FirstColumns(b.attention, k), FirstColumns(b.ids, k), FirstColumns(b.loss, k))
  }

  function KeepLastColumns(b: Batch, k: nat): (t: Batch)
    requires Valid(b)
    ensures Valid(t) && |t.ids| == |b.ids|
  {
    Batch(if 0 < k <= b.width then k else b.width,
          LastColumns(b.attention, k), LastColumns(b.ids, k), LastColumns(b.loss, k))
  }

  /** The block as written: the mode is looked at only when the unflushed width exceeds the limit. */
  function FlushAndTruncate(b: Batch, maxLength: Option<nat>, mode: TruncationMode): (t: Result<Batch>)
    requires Valid(b)
    ensures t.Success? ==> Valid(t.value) && |t.value.ids| == |b.ids|
    ensures t.Failure? <==> maxLength.Some? && maxLength.value < b.width && mode == UnknownMode
  {
    if maxLength.Some? && maxLength.value < b.width then
      match mode
      case KeepStart => Success(KeepFirstColumns(FlushLeft(b), maxLength.value))
      case KeepEnd => Success(FlushLeft(KeepLastColumns(FlushRight(b), maxLength.value)))
      case UnknownMode => Failure(ValueError)
    else Success(FlushLeft(b))
  }

  /** What becomes of the sequence of attended tokens of a row. */
  function Kept<T>(s: seq<T>, width: nat, maxLength: Option<nat>, mode: TruncationMode): seq<T> {
    if maxLength.Some? && maxLength.value < width then
      (if mode == KeepEnd then Last(s, maxLength.value) else First(s, maxLength.value))
    else s
  }

  lemma FirstOfLeftAligned<T>(mask: seq<bool>, s: seq<T>, k: nat, n: nat)
    requires |mask| == |s| && LeftAligned(mask, n)
    ensures LeftAligned(First(mask, k), if n <= k then n else k)
    ensures Select(First(mask, k), First(s, k)) == First(Select(mask, s), k)
  {
    SelectLeftAligned(mask, s, n);
    SelectLeftAligned(First(mask, k), First(s, k), if n <= k then n else k);
  }

  lemma LastOfRightAligned<T>(mask: seq<bool>, s: seq<T>, k: nat, n: nat)
    requires |mask| == |s| && RightAligned(mask, n)
    ensures RightAligned(Last(mask, k), if 0 < k < n then k else n)
    ensures Select(Last(mask, k), Last(s, k)) == Last(Select(mask, s), k)
  {
    SelectRightAligned(mask, s, n);
    SelectRightAligned(Last(mask, k), Last(s, k), if 0 < k < n then k else n);
  }

  lemma KeepFirstRow(b: Batch, k: nat, r: nat, n: nat)
    requires Valid(b) && r < |b.ids| && LeftAligned(b.attention[r], n)
    ensures LeftAligned(KeepFirstColumns(b, k).attention[r], if n <= k then n else k)
    ensures Tokens(KeepFirstColumns(b, k), r) == First(Tokens(b, r), k)
    ensures TokenLoss(KeepFirstColumns(b, k), r) == First(TokenLoss(b, r), k)
  {
    FirstOfLeftAligned(b.attention[r], b.ids[r], k, n);
    FirstOfLeftAligned(b.attention[r], b.loss[r], k, n);
  }

  lemma KeepLastRow(b: Batch, k: nat, r: nat, n: nat)
    requires Valid(b) && r < |b.ids| && RightAligned(b.attention[r], n)
    ensures RightAligned(KeepLastColumns(b, k).attention[r], if 0 < k < n then k else n)
    ensures Tokens(KeepLastColumns(b, k), r) == Last(Tokens(b, r), k)
    ensures TokenLoss(KeepLastColumns(b, k), r) == Last(TokenLoss(b, r), k)
  {
    LastOfRightAligned(b.attention[r], b.ids[r], k, n);
    LastOfRightAligned(b.attention[r], b.loss[r], k, n);
  }

  lemma RightAlignedIsBlock(mask: seq<bool>, n: nat)
    requires RightAligned(mask, n)
    ensures Block(mask)
  {
  }

  /** Main result: a row keeps the first or the last of its attended tokens, in order and moved to
      the left edge, and the loss mask stays on the same tokens. */
  lemma FlushAndTruncateRow(b: Batch, maxLength: Option<nat>, mode: TruncationMode, r: nat)
    requires Valid(b) && Blocks(b) && r < |b.ids|
    requires FlushAndTruncate(b, maxLength, mode).Success?
    ensures
      var t := FlushAndTruncate(b, maxLength, mode).value;
      && Tokens(t, r) == Kept(Tokens(b, r), b.width, maxLength, mode)
      && TokenLoss(t, r) == Kept(TokenLoss(b, r), b.width, maxLength, mode)
      && LeftAligned(t.attention[r], |Tokens(t, r)|)
  {
    FlushLeftRow(b, r);
    if maxLength.Some? && maxLength.value < b.width {
      var k, n := maxLength.value, Count(b.attention[r]);
      if mode == KeepStart {
        KeepFirstRow(FlushLeft(b), k, r, n);
      } else {
        FlushRightRow(b, r);
        KeepLastRow(FlushRight(b), k, r, n);
        RightAlignedIsBlock(KeepLastColumns(FlushRight(b), k).attention[r], if 0 < k < n then k else n);
        FlushLeftRow(KeepLastColumns(FlushRight(b), k), r);
      }
    }
  }

  lemma KeepFirstCompacts(b: Batch, k: nat)
    requires Valid(b) && LossInside(b) && Compact(b)
    ensures LossInside(KeepFirstColumns(b, k)) && Compact(KeepFirstColumns(b, k))
  {
    var t := KeepFirstColumns(b, k);
    forall c | 0 <= c < t.width ensures !EmptyColumn(t.attention, c) {
      assert !EmptyColumn(b.attention, c);
      var r :| 0 <= r < |b.attention| && b.attention[r][c];
      assert t.attention[r][c];
    }
  }

  lemma KeepLastKeepsLossInside(b: Batch, k: nat)
    requires Valid(b) && LossInside(b)
    ensures LossInside(KeepLastColumns(b, k))
  {
    var t := KeepLastColumns(b, k);
    var d := b.width - t.width;
    forall r, c | 0 <= r < |t.loss| && 0 <= c < t.width && t.loss[r][c] ensures t.attention[r][c] {
      assert t.loss[r][c] == b.loss[r][c + d] && t.attention[r][c] == b.attention[r][c + d];
    }
  }

  lemma FlushRightKeepsLossInside(b: Batch)
    requires Valid(b) && LossInside(b)
    ensures LossInside(FlushRight(b))
  {
    MirrorKeepsLossInside(b);
    FlushLeftKeepsLossInside(Mirror(b));
    MirrorKeepsLossInside(FlushLeft(Mirror(b)));
  }

  /** The block drops every column no row attends and keeps the loss inside the attended tokens. */
  lemma FlushAndTruncateCompacts(b: Batch, maxLength: Option<nat>, mode: TruncationMode)
    requires Valid(b) && LossInside(b) && FlushAndTruncate(b, maxLength, mode).Success?
    ensures LossInside(FlushAndTruncate(b, maxLength, mode).value)
      && Compact(FlushAndTruncate(b, maxLength, mode).value)
  {
    if maxLength.Some? && maxLength.value < b.width && mode == KeepEnd {
      FlushRightKeepsLossInside(b);
      KeepLastKeepsLossInside(FlushRight(b), maxLength.value);
      FlushLeftKeepsLossInside(KeepLastColumns(FlushRight(b), maxLength.value));
    } else {
      FlushLeftKeepsLossInside(b);
      if maxLength.Some? && maxLength.value < b.width {
        KeepFirstCompacts(FlushLeft(b), maxLength.value);
      }
    }
  }

  /** The last min(n, k) elements. */
  function LastTokens<T>(s: seq<T>, k: nat): seq<T> {
    if k <= |s| then s[|s| - k..] else s
  }

  /** keep_end keeps the last maxLength tokens of every row unless the limit is zero: `[-0:]` keeps
      all of them. keep_start has no such exception. */
  lemma KeepEndKeepsLastTokensIff(b: Batch, maxLength: nat, r: nat)
    requires Valid(b) && Blocks(b) && r < |b.ids| && maxLength < b.width
    ensures Tokens(FlushAndTruncate(b, Some(maxLength), KeepEnd).value, r) == LastTokens(Tokens(b, r), maxLength)
            <==> maxLength > 0 || Tokens(b, r) == []
    ensures Tokens(FlushAndTruncate(b, Some(maxLength), KeepStart).value, r) == First(Tokens(b, r), maxLength)
  {
    FlushAndTruncateRow(b, Some(maxLength), KeepEnd, r);
    FlushAndTruncateRow(b, Some(maxLength), KeepStart, r);
  }

  // ----- the batch the block starts from

  /** Prompt columns followed by completion columns; the prompt does not count for the loss. */
  function JoinPromptAndCompletion(promptIds: seq<seq<int>>, promptMask: seq<seq<bool>>, promptWidth: nat,
                                   completionIds: seq<seq<int>>, completionMask: seq<seq<bool>>,
                                   completionWidth: nat): (b: Batch)
    requires |promptIds| == |promptMask| == |completionIds| == |completionMask|
    requires Rect(promptIds, promptWidth) && Rect(promptMask, promptWidth)
    requires Rect(completionIds, completionWidth) && Rect(completionMask, completionWidth)
    ensures Valid(b) && |b.ids| == |promptIds|
  {
    var noLoss := Fill(|promptIds|, Fill(promptWidth, false));
    Batch(promptWidth + completionWidth, Beside(promptMask, completionMask), Beside(promptIds, completionIds),
          Beside(noLoss, completionMask))
  }

  /** `torch.cat((left, right), dim=1)`. */
  function Beside<T>(left: seq<seq<T>>, right: seq<seq<T>>): seq<seq<T>>
    requires |left| == |right|
  {
    seq(|left|, r requires 0 <= r < |left| => left[r] + right[r])
  }

  /** Left-padded prompts and right-padded completions give one attended block per row, and the
      attended tokens are the prompt's followed by the completion's, which alone count. */
  lemma JoinedRow(promptIds: seq<seq<int>>, promptMask: seq<seq<bool>>, promptWidth: nat,
                  completionIds: seq<seq<int>>, completionMask: seq<seq<bool>>, completionWidth: nat, r: nat, p: nat,
                  c: nat)
    requires |promptIds| == |promptMask| == |completionIds| == |completionMask|
    requires Rect(promptIds, promptWidth) && Rect(promptMask, promptWidth)
    requires Rect(completionIds, completionWidth) && Rect(completionMask, completionWidth)
    requires r < |promptIds| && RightAligned(promptMask[r], p) && LeftAligned(completionMask[r], c)
    ensures
      var b := JoinPromptAndCompletion(promptIds, promptMask, promptWidth, completionIds, completionMask,
                                       completionWidth);
      && Block(b.attention[r])
      && Tokens(b, r) == promptIds[r][promptWidth - p..] + completionIds[r][..c]
      && TokenLoss(b, r) == Fill(p, false) + Fill(c, true)
  {
    var none := Fill(promptWidth, false);
    SelectAppend(promptMask[r], completionMask[r], promptIds[r], completionIds[r]);
    SelectAppend(promptMask[r], completionMask[r], none, completionMask[r]);
    SelectRightAligned(promptMask[r], promptIds[r], p);
    SelectRightAligned(promptMask[r], none, p);
    SelectLeftAligned(completionMask[r], completionIds[r], c);
    SelectLeftAligned(completionMask[r], completionMask[r], c);
    assert none[promptWidth - p..] == Fill(p, false) && completionMask[r][..c] == Fill(c, true);
  }
}
