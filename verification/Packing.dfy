/** The helpers every trainer file carries for left-packing a batch and for lining masks up with
    the packed rows. A row is a prompt of |row| - keep tokens followed by a completion of keep. */
module Packing {
  import opened Tensors

  function NonPadMask(row: seq<int>, pad: int): seq<bool> {
    seq(|row|, i requires 0 <= i < |row| => row[i] != pad)
  }

  function NonPads(row: seq<int>, pad: int): seq<int> {
    Select(NonPadMask(row, pad), row)
  }

  predicate AllPad(row: seq<int>, pad: int) {
    forall i :: 0 <= i < |row| ==> row[i] == pad
  }

  /** Pads come only after the last token. */
  predicate TrailingPads(row: seq<int>, pad: int) {
    forall i, j :: 0 <= i < j < |row| && row[i] == pad ==> row[j] == pad
  }

  /** `row[:-keep]`; with keep = 0 the slice is `row[:0]`. */
  function PromptSection(row: seq<int>, keep: nat): seq<int>
    requires keep <= |row|
  {
    if keep == 0 then [] else row[..|row| - keep]
  }

  function CalculatePadTokensInPrompt(row: seq<int>, keep: nat, pad: int): Result<nat> {
    if keep >= |row| then Failure(ValueError)
    else Success(Count(Not(NonPadMask(PromptSection(row, keep), pad))))
  }

  /** It is an error to keep as many columns as there are, or more. Keeping none, the prompt section is empty
      and so has no pad; otherwise the pads are what is no token in the columns that are not kept. */
  lemma PadsInPrompt(row: seq<int>, keep: nat, pad: int)
    ensures CalculatePadTokensInPrompt(row, keep, pad).Failure? <==> |row| <= keep
    ensures keep == 0 && row != [] ==> CalculatePadTokensInPrompt(row, keep, pad) == Success(0)
    ensures 0 < keep < |row| ==>
      CalculatePadTokensInPrompt(row, keep, pad)
      == Success(|row| - keep - |NonPads(row[..|row| - keep], pad)|)
  {
    if 0 < keep < |row| { PadCount(row[..|row| - keep], pad); }
  }

  // ----- left_pack_padding

  /** The contract of `argsort(mask, descending=True, stable=True)`: a permutation of the
      positions that puts set before unset and keeps the order among equals. */
  ghost predicate IsStableDescendingArgsort(mask: seq<bool>, index: seq<nat>) {
    && |index| == |mask|
    && (forall k :: 0 <= k < |index| ==> index[k] < |mask|)
    && (forall i :: 0 <= i < |mask| ==> i in index)
    && (forall j, k :: 0 <= j < k < |index| ==> Precedes(mask, index[j], index[k]))
  }

  predicate Precedes(mask: seq<bool>, i: nat, j: nat)
    requires i < |mask| && j < |mask|
  {
    (mask[i] && !mask[j]) || (mask[i] == mask[j] && i < j)
  }

  function StableDescendingArgsort(mask: seq<bool>): seq<nat> {
    Indices(mask, 0) + Indices(Not(mask), 0)
  }

  lemma ArgsortMeetsContract(mask: seq<bool>)
    ensures IsStableDescendingArgsort(mask, StableDescendingArgsort(mask))
  {
    SelectPartition(mask, mask);
    ArgsortComplete(mask);
    ArgsortOrdered(mask);
  }

  lemma ArgsortComplete(mask: seq<bool>)
    ensures forall i :: 0 <= i < |mask| ==> i in StableDescendingArgsort(mask)
  {
    forall i | 0 <= i < |mask| ensures i in Indices(mask, 0) + Indices(Not(mask), 0) {
      if mask[i] { IndicesComplete(mask, 0, i); } else { IndicesComplete(Not(mask), 0, i); }
    }
  }

  lemma ArgsortOrdered(mask: seq<bool>)
    ensures
      var index := StableDescendingArgsort(mask);
      forall j, k :: 0 <= j < k < |index| ==> Precedes(mask, index[j], index[k])
  {
    var a, b := Indices(mask, 0), Indices(Not(mask), 0);
    IndicesOrdered(mask, 0);
    IndicesOrdered(Not(mask), 0);
    assert forall k :: 0 <= k < |b| ==> !mask[b[k]];
  }

  /** The contract leaves no choice, so whatever sorting routine meets it packs the same way. */
  lemma ArgsortUnique(mask: seq<bool>, p: seq<nat>, q: seq<nat>)
    requires IsStableDescendingArgsort(mask, p) && IsStableDescendingArgsort(mask, q)
    ensures p == q
  {
    ArgsortAgree(mask, p, q, |mask|);
  }

  lemma {:induction false} ArgsortAgree(mask: seq<bool>, p: seq<nat>, q: seq<nat>, n: nat)
    requires IsStableDescendingArgsort(mask, p) && IsStableDescendingArgsort(mask, q)
    requires n <= |mask|
    ensures forall i :: 0 <= i < n ==> p[i] == q[i]
  {
    if n > 0 {
      ArgsortAgree(mask, p, q, n - 1);
      NextIsNotLater(mask, p, q, n - 1);
      NextIsNotLater(mask, q, p, n - 1);
    }
  }

  lemma NextIsNotLater(mask: seq<bool>, p: seq<nat>, q: seq<nat>, k: nat)
    requires IsStableDescendingArgsort(mask, p) && IsStableDescendingArgsort(mask, q)
    requires k < |mask| && forall i :: 0 <= i < k ==> p[i] == q[i]
    ensures p[k] == q[k] || Precedes(mask, p[k], q[k])
  {
    assert forall i :: 0 <= i < k ==> Precedes(mask, q[i], q[k]) && p[i] != q[k];
    assert q[k] in p;
    var i :| 0 <= i < |p| && p[i] == q[k];
    assert i == k || Precedes(mask, p[k], p[i]);
  }

  function LeftPackPadding(row: seq<int>, pad: int): (packed: seq<int>)
    ensures |packed| == |row|
  {
    ArgsortMeetsContract(NonPadMask(row, pad));
    Gather(row, StableDescendingArgsort(NonPadMask(row, pad)))
  }

  /** Packing keeps the tokens in order and moves every pad behind them. */
  lemma LeftPackShape(row: seq<int>, pad: int)
    ensures LeftPackPadding(row, pad) == NonPads(row, pad) + Fill(|row| - |NonPads(row, pad)|, pad)
    ensures forall i :: 0 <= i < |NonPads(row, pad)| ==> NonPads(row, pad)[i] != pad
  {
    PackedHalves(row, pad);
    SelectedValues(row, pad);
    SelectPartition(NonPadMask(row, pad), row);
  }

  lemma PackedHalves(row: seq<int>, pad: int)
    ensures LeftPackPadding(row, pad) == NonPads(row, pad) + Select(Not(NonPadMask(row, pad)), row)
  {
    var m := NonPadMask(row, pad);
    GatherIndices(m, row);
    GatherIndices(Not(m), row);
    assert LeftPackPadding(row, pad) == Gather(row, Indices(m, 0)) + Gather(row, Indices(Not(m), 0));
  }

  lemma {:induction false} SelectedValues(row: seq<int>, pad: int)
    ensures forall k :: 0 <= k < |NonPads(row, pad)| ==> NonPads(row, pad)[k] != pad
    ensures forall k :: 0 <= k < |Select(Not(NonPadMask(row, pad)), row)| ==>
      Select(Not(NonPadMask(row, pad)), row)[k] == pad
  {
    if row != [] {
      var m := NonPadMask(row, pad);
      assert m[1..] == NonPadMask(row[1..], pad) && Not(m)[1..] == Not(m[1..]);
      SelectedValues(row[1..], pad);
      assert NonPads(row, pad) == if m[0] then [row[0]] + NonPads(row[1..], pad) else NonPads(row[1..], pad);
    }
  }

  /** No token and no pad is lost. */
  lemma LeftPackPermutes(row: seq<int>, pad: int)
    ensures multiset(LeftPackPadding(row, pad)) == multiset(row)
  {
    PackedHalves(row, pad);
    SelectPartition(NonPadMask(row, pad), row);
  }

  // ----- create_completion_attention_mask

  function CompletionAttentionMask(sliced: seq<int>, leftPads: nat, maxLeftPad: nat, pad: int): seq<bool> {
    seq(|sliced|, j requires 0 <= j < |sliced| => j >= maxLeftPad - leftPads && sliced[j] != pad)
  }

  /** What the loss sees of one row: pack, keep the last keep + maxLeftPad columns, mask. */
  function RepackedCompletion(row: seq<int>, keep: nat, maxLeftPad: nat, pad: int): seq<int> {
    Last(LeftPackPadding(row, pad), keep + maxLeftPad)
  }

  function RepackedMask(row: seq<int>, keep: nat, maxLeftPad: nat, pad: int): seq<bool>
    requires keep < |row|
  {
    CompletionAttentionMask(RepackedCompletion(row, keep, maxLeftPad, pad), LeftPads(row, keep, pad), maxLeftPad, pad)
  }

  function LeftPads(row: seq<int>, keep: nat, pad: int): nat
    requires keep < |row|
  {
    CalculatePadTokensInPrompt(row, keep, pad).value
  }

  function Completion(row: seq<int>, keep: nat): seq<int>
    requires keep <= |row|
  {
    row[|row| - keep..]
  }

  /** When the repacked window still starts inside the prompt and no earlier than the packed row.
      With keep = 0 the window slice `[-0:]` is the whole row. */
  predicate WindowFits(row: seq<int>, keep: nat, maxLeftPad: nat, pad: int)
    requires keep < |row|
  {
    if keep == 0 then maxLeftPad > 0 || AllPad(row, pad)
    else LeftPads(row, keep, pad) <= maxLeftPad <= |row| - keep || AllPad(Completion(row, keep), pad)
  }

  /** The mask selects exactly the completion's tokens, in order, wherever the pads were; it does
      so if and only if the window fits. */
  lemma RepackSelectsCompletion(row: seq<int>, keep: nat, maxLeftPad: nat, pad: int)
    requires keep < |row|
    ensures WindowFits(row, keep, maxLeftPad, pad) <==>
            Select(RepackedMask(row, keep, maxLeftPad, pad), RepackedCompletion(row, keep, maxLeftPad, pad))
            == NonPads(Completion(row, keep), pad)
  {
    var selected := Select(RepackedMask(row, keep, maxLeftPad, pad), RepackedCompletion(row, keep, maxLeftPad, pad));
    var whole, completion := NonPads(row, pad), NonPads(Completion(row, keep), pad);
    SelectedIsSuffix(row, keep, maxLeftPad, pad);
    NonPadsSplit(row, |row| - keep, pad);
    PadCount(row[..|row| - keep], pad);
    AllPadNonPads(Completion(row, keep), pad);
    AllPadNonPads(row, pad);
    assert whole[|whole| - |completion|..] == completion;
    assert selected == completion <==> |selected| == |completion| by {
      var start := SelectedFrom(|row|, keep, maxLeftPad, LeftPads(row, keep, pad));
      if |selected| == |completion| && completion != [] { assert start == |whole| - |completion|; }
    }
  }

  /** The column of the packed row at which the selection starts. */
  function SelectedFrom(width: nat, keep: nat, maxLeftPad: nat, leftPads: nat): nat {
    var window := if 0 < keep + maxLeftPad <= width then keep + maxLeftPad else width;
    width - window + (if maxLeftPad < leftPads then 0 else maxLeftPad - leftPads)
  }

  /** The selection is the part of the packed tokens from that column on. */
  lemma SelectedIsSuffix(row: seq<int>, keep: nat, maxLeftPad: nat, pad: int)
    requires keep < |row|
    ensures
      var from := SelectedFrom(|row|, keep, maxLeftPad, LeftPads(row, keep, pad));
      Select(RepackedMask(row, keep, maxLeftPad, pad), RepackedCompletion(row, keep, maxLeftPad, pad))
      == if from <= |NonPads(row, pad)| then NonPads(row, pad)[from..] else []
  {
    var tokens := NonPads(row, pad);
    RepackedMaskRun(row, keep, maxLeftPad, pad);
    LeftPackShape(row, pad);
    WindowOfPacked(tokens, Fill(|row| - |tokens|, pad), keep, maxLeftPad, LeftPads(row, keep, pad),
                   RepackedCompletion(row, keep, maxLeftPad, pad), RepackedMask(row, keep, maxLeftPad, pad));
  }

  lemma WindowOfPacked(tokens: seq<int>, pads: seq<int>, keep: nat, maxLeftPad: nat, leftPads: nat,
                       sliced: seq<int>, mask: seq<bool>)
    requires sliced == Last(tokens + pads, keep + maxLeftPad) && |mask| == |sliced|
    requires forall j :: 0 <= j < |mask| ==>
      mask[j] == (maxLeftPad - leftPads <= j < |tokens| - (|tokens| + |pads| - |sliced|))
    ensures
      var from := SelectedFrom(|tokens| + |pads|, keep, maxLeftPad, leftPads);
      Select(mask, sliced) == if from <= |tokens| then tokens[from..] else []
  {
    var cut, lo := |tokens| + |pads| - |sliced|, if maxLeftPad < leftPads then 0 else maxLeftPad - leftPads;
    SelectFromColumn(tokens, pads, sliced, mask, cut, lo);
  }

  lemma SelectFromColumn(tokens: seq<int>, pads: seq<int>, sliced: seq<int>, mask: seq<bool>, cut: nat, lo: nat)
    requires cut <= |tokens| + |pads| && sliced == (tokens + pads)[cut..] && |mask| == |sliced|
    requires forall j :: 0 <= j < |mask| ==> mask[j] == (lo <= j < |tokens| - cut)
    ensures Select(mask, sliced) == if cut + lo <= |tokens| then tokens[cut + lo..] else []
  {
    if cut + lo <= |tokens| {
      SelectRun(mask, sliced, lo, |tokens| - cut);
      SliceOfSuffix(tokens, pads, cut, lo);
    } else {
      SelectNone(mask, sliced);
    }
  }

  lemma SliceOfSuffix<T>(a: seq<T>, b: seq<T>, cut: nat, lo: nat)
    requires cut + lo <= |a|
    ensures (a + b)[cut..][lo..|a| - cut] == a[cut + lo..]
  {
  }

  /** The selected columns of the window are one run: from the shift to the last token. */
  lemma RepackedMaskRun(row: seq<int>, keep: nat, maxLeftPad: nat, pad: int)
    requires keep < |row|
    ensures forall j :: 0 <= j < |RepackedMask(row, keep, maxLeftPad, pad)| ==>
      RepackedMask(row, keep, maxLeftPad, pad)[j]
      == (maxLeftPad - LeftPads(row, keep, pad) <= j
          < |NonPads(row, pad)| - (|row| - |RepackedCompletion(row, keep, maxLeftPad, pad)|))
  {
    var cut := |row| - |RepackedCompletion(row, keep, maxLeftPad, pad)|;
    forall j | 0 <= j < |RepackedMask(row, keep, maxLeftPad, pad)|
      ensures (RepackedCompletion(row, keep, maxLeftPad, pad)[j] != pad) == (j < |NonPads(row, pad)| - cut)
    {
      PackedAt(row, pad, cut + j);
    }
  }

  lemma PackedAt(row: seq<int>, pad: int, i: nat)
    requires i < |row|
    ensures (LeftPackPadding(row, pad)[i] != pad) == (i < |NonPads(row, pad)|)
  {
    LeftPackShape(row, pad);
  }

  lemma NonPadsSplit(row: seq<int>, k: nat, pad: int)
    requires k <= |row|
    ensures NonPads(row, pad) == NonPads(row[..k], pad) + NonPads(row[k..], pad)
  {
    SelectSplit(NonPadMask(row, pad), row, k);
    assert NonPadMask(row, pad)[..k] == NonPadMask(row[..k], pad);
    assert NonPadMask(row, pad)[k..] == NonPadMask(row[k..], pad);
  }

  lemma PadCount(row: seq<int>, pad: int)
    ensures Count(Not(NonPadMask(row, pad))) == |row| - |NonPads(row, pad)|
  {
    SelectPartition(NonPadMask(row, pad), row);
  }

  lemma AllPadNonPads(row: seq<int>, pad: int)
    ensures AllPad(row, pad) <==> NonPads(row, pad) == []
  {
    var m := NonPadMask(row, pad);
    if AllPad(row, pad) {
      SelectNone(m, row);
    } else {
      var i :| 0 <= i < |row| && row[i] != pad;
      IndicesComplete(m, 0, i);
    }
  }

  /** With max_left_pad taken as the largest pad count of the batch, every row is served. */
  lemma BatchMaximumServesEveryRow(rows: seq<seq<int>>, keep: nat, maxLeftPad: nat, pad: int, r: nat)
    requires 0 < keep && r < |rows|
    requires forall i :: 0 <= i < |rows| ==> keep < |rows[i]| == |rows[0]|
    requires forall i :: 0 <= i < |rows| ==> LeftPads(rows[i], keep, pad) <= maxLeftPad
    requires exists i :: 0 <= i < |rows| && LeftPads(rows[i], keep, pad) == maxLeftPad
    ensures Select(RepackedMask(rows[r], keep, maxLeftPad, pad), RepackedCompletion(rows[r], keep, maxLeftPad, pad))
            == NonPads(Completion(rows[r], keep), pad)
  {
    RepackSelectsCompletion(rows[r], keep, maxLeftPad, pad);
  }

  // ----- align_logprobs_with_mask

  /** One row of values laid out from the mask's first set column; what does not fit is dropped. */
  function AlignedRow<T>(values: seq<T>, mask: seq<bool>, fill: T): seq<T> {
    var from := Argmax(mask);
    seq(|mask|, c requires 0 <= c < |mask| => if from <= c < from + |values| then values[c - from] else fill)
  }

  method AlignLogprobsWithMask<T>(values: seq<seq<T>>, mask: seq<seq<bool>>, width: nat, fill: T)
    returns (padded: array2<T>)
    requires |values| == |mask| && Rect(mask, width)
    ensures fresh(padded) && padded.Length0 == |mask| && padded.Length1 == width
    ensures forall r, c :: 0 <= r < |mask| && 0 <= c < width ==>
      padded[r, c] == AlignedRow(values[r], mask[r], fill)[c]
    ensures forall r, c :: 0 <= r < |mask| && 0 <= c < width ==>
      padded[r, c] == if 0 <= c - Argmax(mask[r]) < |values[r]| then values[r][c - Argmax(mask[r])] else fill
  {
    padded := new T[|mask|, width]((_, _) => fill);
    for r := 0 to |mask|
      invariant forall i, c :: 0 <= i < r && 0 <= c < width ==>
        padded[i, c] == AlignedRow(values[i], mask[i], fill)[c]
      invariant forall i, c :: r <= i < |mask| && 0 <= c < width ==> padded[i, c] == fill
    {
      var from := Argmax(mask[r]);
      for j := 0 to |values[r]|
        invariant forall i, c :: 0 <= i < |mask| && i != r && 0 <= c < width ==>
          padded[i, c] == if i < r then AlignedRow(values[i], mask[i], fill)[c] else fill
        invariant forall c :: 0 <= c < width ==>
          padded[r, c] == if from <= c < from + j then values[r][c - from] else fill
      {
        if from + j < width {
          padded[r, from + j] := values[r][j];
        }
      }
    }
  }

  // ----- align_completion_tool_mask

  /** `completion_mask * tool_mask` on one row of equal lengths. */
  function Product(mask: seq<bool>, tool: seq<int>): seq<int>
    requires |mask| == |tool|
  {
    seq(|mask|, c requires 0 <= c < |mask| => if mask[c] then tool[c] else 0)
  }

  function Ones(n: nat): seq<int> {
    Fill(n, 1)
  }

  /** What the completion token at column c of row i is multiplied with: one if there is no tool mask, the
      entry at its own column if the shapes agree, and otherwise the entry as far from the first as c is from
      the row's first completion token, or zero if there is none. */
  function ToolEntry(tool: Option<seq<seq<int>>>, toolWidth: nat, mask: seq<bool>, i: nat, c: nat): int
    requires tool.Some? ==> i < |tool.value| && Rect(tool.value, toolWidth)
    requires c < |mask| && mask[c]
  {
    if tool.None? then 1
    else if toolWidth == |mask| then tool.value[i][c]
    else if c - Argmax(mask) < toolWidth then tool.value[i][c - Argmax(mask)]
    else 0
  }

  /** Rows of the aligned mask. The equal-shape shortcut skips the alignment. */
  function AlignCompletionToolMask(tool: Option<seq<seq<int>>>, toolWidth: nat,
                                   completion: seq<seq<bool>>, width: nat): (r: Result<seq<seq<int>>>)
    requires Rect(completion, width) && (tool.Some? ==> Rect(tool.value, toolWidth))
    ensures r.Failure? <==> tool.Some? && |tool.value| != |completion|
    ensures r.Success? ==> |r.value| == |completion| && Rect(r.value, width)
    ensures r.Success? ==> forall i, c :: 0 <= i < |completion| && 0 <= c < width ==>
      r.value[i][c] == if completion[i][c] then ToolEntry(tool, toolWidth, completion[i], i, c) else 0
  {
    if tool.None? then
      Success(seq(|completion|, i requires 0 <= i < |completion| => Product(completion[i], Ones(width))))
    else if |tool.value| != |completion| then Failure(ValueError)
    else if toolWidth == width then
      Success(seq(|completion|, i requires 0 <= i < |completion| => Product(completion[i], tool.value[i])))
    else
      Success(seq(|completion|, i requires 0 <= i < |completion| =>
        Product(completion[i], AlignedRow(tool.value[i], completion[i], 0))))
  }

  /** The shortcut gives what the general alignment gives for every tool mask if and only if the
      row keeps its first column or keeps nothing, that is, if the row is not left-padded. */
  lemma ShortcutAgreesIffNotLeftPadded(mask: seq<bool>)
    ensures (forall tool: seq<int> :: |tool| == |mask| ==>
             Product(mask, tool) == Product(mask, AlignedRow(tool, mask, 0)))
            <==> Argmax(mask) == 0
  {
    var from := Argmax(mask);
    if from == 0 {
      forall tool: seq<int> | |tool| == |mask| ensures Product(mask, tool) == Product(mask, AlignedRow(tool, mask, 0)) {
        assert AlignedRow(tool, mask, 0) == tool;
      }
    } else {
      var tool := seq(|mask|, i => i);
      assert Product(mask, tool)[from] != Product(mask, AlignedRow(tool, mask, 0))[from];
    }
  }

  /** The repacked rows are never left-padded when their shape equals the raw completion's. */
  lemma RepackedWithoutShiftStartsAtZero(row: seq<int>, keep: nat, pad: int)
    requires 0 < keep < |row|
    ensures Argmax(RepackedMask(row, keep, 0, pad)) == 0
  {
    RepackedMaskRun(row, keep, 0, pad);
  }

  /** The raw mask entries that belong to the completion's own tokens, in order. */
  function OwnEntries(row: seq<int>, keep: nat, pad: int, tool: seq<int>): seq<int>
    requires keep <= |row| && |tool| == keep
  {
    Select(NonPadMask(Completion(row, keep), pad), tool)
  }

  function AlignedTool(row: seq<int>, keep: nat, maxLeftPad: nat, pad: int, tool: seq<int>): seq<int>
    requires keep < |row| && |tool| == keep
  {
    var mask := RepackedMask(row, keep, maxLeftPad, pad);
    Product(mask, AlignedRow(tool, mask, 0))
  }

  /** At the selected columns the aligned mask reads the first entries of the raw mask, as many as
      there are tokens; it is zero at every other column. */
  lemma AlignedToolReadsPrefix(row: seq<int>, keep: nat, maxLeftPad: nat, pad: int, tool: seq<int>)
    requires 0 < keep < |row| && |tool| == keep
    requires LeftPads(row, keep, pad) <= maxLeftPad <= |row| - keep
    ensures |NonPads(Completion(row, keep), pad)| <= keep
    ensures Select(RepackedMask(row, keep, maxLeftPad, pad), AlignedTool(row, keep, maxLeftPad, pad, tool))
            == tool[..|NonPads(Completion(row, keep), pad)|]
    ensures forall c :: 0 <= c < |AlignedTool(row, keep, maxLeftPad, pad, tool)| ==>
      RepackedMask(row, keep, maxLeftPad, pad)[c] || AlignedTool(row, keep, maxLeftPad, pad, tool)[c] == 0
  {
    var mask := RepackedMask(row, keep, maxLeftPad, pad);
    RepackedMaskRun(row, keep, maxLeftPad, pad);
    NonPadsSplit(row, |row| - keep, pad);
    PadCount(row[..|row| - keep], pad);
    RunReadsPrefix(mask, tool, maxLeftPad - LeftPads(row, keep, pad), |NonPads(Completion(row, keep), pad)|);
  }

  lemma RunReadsPrefix(mask: seq<bool>, tool: seq<int>, shift: nat, n: nat)
    requires shift + n <= |mask| && n <= |tool|
    requires forall c :: 0 <= c < |mask| ==> mask[c] == (shift <= c < shift + n)
    ensures Select(mask, Product(mask, AlignedRow(tool, mask, 0))) == tool[..n]
  {
    SelectRun(mask, Product(mask, AlignedRow(tool, mask, 0)), shift, shift + n);
    forall k | 0 <= k < n ensures Product(mask, AlignedRow(tool, mask, 0))[shift + k] == tool[k] {
      RunReadsEntry(mask, tool, shift, n, k);
    }
  }

  lemma RunReadsEntry(mask: seq<bool>, tool: seq<int>, shift: nat, n: nat, k: nat)
    requires k < n <= |tool| && shift + n <= |mask|
    requires forall c :: 0 <= c < |mask| ==> mask[c] == (shift <= c < shift + n)
    ensures Product(mask, AlignedRow(tool, mask, 0))[shift + k] == tool[k]
  {
    assert mask[shift] && Argmax(mask) == shift;
  }

  /** On a repacked batch the function gives every row its aligned tool mask, shortcut or not. */
  lemma BatchToolMaskIsRowwise(rows: seq<seq<int>>, keep: nat, maxLeftPad: nat, pad: int, tool: seq<seq<int>>,
                               completion: seq<seq<bool>>, r: nat)
    requires 0 < keep && r < |rows| == |tool| == |completion|
    requires forall i :: 0 <= i < |rows| ==> keep < |rows[i]| && maxLeftPad <= |rows[i]| - keep
    requires Rect(tool, keep) && Rect(completion, keep + maxLeftPad)
    requires forall i :: 0 <= i < |rows| ==> completion[i] == RepackedMask(rows[i], keep, maxLeftPad, pad)
    ensures AlignCompletionToolMask(Some(tool), keep, completion, keep + maxLeftPad).Success?
    ensures AlignCompletionToolMask(Some(tool), keep, completion, keep + maxLeftPad).value[r]
            == AlignedTool(rows[r], keep, maxLeftPad, pad, tool[r])
  {
    if maxLeftPad == 0 {
      RepackedWithoutShiftStartsAtZero(rows[r], keep, pad);
      ShortcutAgreesIffNotLeftPadded(completion[r]);
      assert Product(completion[r], tool[r]) == Product(completion[r], AlignedRow(tool[r], completion[r], 0));
    }
  }

  /** Every kept token reads back its own raw entry. */
  predicate ReadsBack(row: seq<int>, keep: nat, maxLeftPad: nat, pad: int, tool: seq<int>)
    requires keep < |row| && |tool| == keep
  {
    Select(RepackedMask(row, keep, maxLeftPad, pad), AlignedTool(row, keep, maxLeftPad, pad, tool))
    == OwnEntries(row, keep, pad, tool)
  }

  /** That holds for every tool mask if and only if the completion's pads are trailing. */
  lemma ToolMaskReadsBackIffPadsTrail(row: seq<int>, keep: nat, maxLeftPad: nat, pad: int)
    requires 0 < keep < |row|
    requires LeftPads(row, keep, pad) <= maxLeftPad <= |row| - keep
    ensures (forall tool: seq<int> :: |tool| == keep ==> ReadsBack(row, keep, maxLeftPad, pad, tool))
            <==> TrailingPads(Completion(row, keep), pad)
  {
    var m := NonPadMask(Completion(row, keep), pad);
    forall tool: seq<int> | |tool| == keep
      ensures ReadsBack(row, keep, maxLeftPad, pad, tool) <==> SelectsPrefix(m, tool)
    {
      AlignedToolReadsPrefix(row, keep, maxLeftPad, pad, tool);
    }
    SelectsPrefixIffTrailing(m);
    TrailingMask(Completion(row, keep), pad);
  }

  lemma TrailingMask(row: seq<int>, pad: int)
    ensures TrailingPads(row, pad) <==> NoneAfterGap(NonPadMask(row, pad))
  {
    var m := NonPadMask(row, pad);
    assert forall i :: 0 <= i < |m| ==> m[i] == (row[i] != pad);
  }

  /** Nothing is set after an unset entry. */
  predicate NoneAfterGap(m: seq<bool>) {
    forall i, j :: 0 <= i < j < |m| && !m[i] ==> !m[j]
  }

  predicate SelectsPrefix(m: seq<bool>, tool: seq<int>)
    requires |tool| == |m|
  {
    Select(m, tool) == tool[..Count(m)]
  }

  lemma SelectsPrefixIffTrailing(m: seq<bool>)
    ensures (forall tool: seq<int> :: |tool| == |m| ==> SelectsPrefix(m, tool))
            <==> NoneAfterGap(m)
  {
    if NoneAfterGap(m) {
      var hi := FirstTrue(Not(m));
      forall i | 0 <= i < |m| ensures m[i] == (i < hi) {
        assert Not(m)[i] == !m[i];
        if hi < |m| { assert Not(m)[hi] == !m[hi]; }
      }
      forall tool: seq<int> | |tool| == |m| ensures SelectsPrefix(m, tool) {
        SelectRun(m, tool, 0, hi);
      }
    } else {
      var i, j :| 0 <= i < j < |m| && !m[i] && m[j];
      GapBreaksPrefix(m, i, j);
    }
  }

  lemma GapBreaksPrefix(m: seq<bool>, i: nat, j: nat)
    requires i < j < |m| && !m[i] && m[j]
    ensures !SelectsPrefix(m, seq(|m|, k => k))
  {
    var tool, found := seq(|m|, k => k), Indices(m, 0);
    IndicesComplete(m, 0, j);
    IndicesOrdered(m, 0);
    var k :| 0 <= k < |found| && found[k] == j;
    SelectIndices(m, tool, 0, k);
    if k == j {
      SelectIndices(m, tool, 0, i);
      assert m[found[i]] && Select(m, tool)[i] == found[i] != i;
    }
  }
}
