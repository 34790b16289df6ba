/** The CPO trainer's single forward pass over chosen and rejected examples stacked on each other. */
module CpoForward {
  import opened Tensors
  import opened DpoForward
  import opened BatchLogps

  type Tensor = seq<seq<int>>

  datatype Field = InputIds | AttentionMask | Labels | DecoderInputIds

  datatype Key = Chosen(field: Field) | Rejected(field: Field) | Prompt(field: Field) | OtherKey(name: string)

  /** Only tensors are concatenated; strings and lists stay out. */
  datatype Entry = TensorEntry(tensor: Tensor) | OtherEntry

  type DictBatch = map<Key, Entry>

  predicate HasTensor(batch: DictBatch, key: Key) {
    key in batch && batch[key].TensorEntry?
  }

  function Shape1(t: Tensor): nat {
    if t == [] then 0 else |t[0]|
  }

  datatype Config = Config(encoderDecoder: bool, labelPad: int, paddingValue: int)

  function PadValue(field: Field, cfg: Config): int {
    if field == Labels || cfg.encoderDecoder then cfg.labelPad
    else if field == AttentionMask then 0
    else cfg.paddingValue
  }

  /** The key whose width decides how far rows are padded. */
  function WidthField(cfg: Config): Field {
    if cfg.encoderDecoder then Labels else InputIds
  }

  function MaxLength(batch: DictBatch, cfg: Config): nat
    requires HasTensor(batch, Chosen(WidthField(cfg))) && HasTensor(batch, Rejected(WidthField(cfg)))
  {
    Max(Shape1(batch[Chosen(WidthField(cfg))].tensor), Shape1(batch[Rejected(WidthField(cfg))].tensor))
  }

  /** What the dict holds for a field: chosen rows above rejected rows, all padded to one width. */
  function Stacked(batch: DictBatch, field: Field, cfg: Config): Tensor
    requires HasTensor(batch, Chosen(WidthField(cfg))) && HasTensor(batch, Rejected(WidthField(cfg)))
    requires HasTensor(batch, Chosen(field))
  {
    var w, pad := MaxLength(batch, cfg), PadValue(field, cfg);
    PadRows(batch[Chosen(field)].tensor, w, pad)
    + (if HasTensor(batch, Rejected(field)) then PadRows(batch[Rejected(field)].tensor, w, pad) else [])
  }

  /** Every rejected tensor has its chosen counterpart, and the needed keys are there. */
  ghost predicate Complete(batch: DictBatch, cfg: Config) {
    && HasTensor(batch, Chosen(WidthField(cfg))) && HasTensor(batch, Rejected(WidthField(cfg)))
    && (forall f :: HasTensor(batch, Rejected(f)) ==> HasTensor(batch, Chosen(f)))
    && (cfg.encoderDecoder ==> HasTensor(batch, Prompt(InputIds)) && HasTensor(batch, Prompt(AttentionMask)))
  }

  function PaddedEntry(batch: DictBatch, key: Key, width: nat, cfg: Config): Tensor
    requires HasTensor(batch, key) && !key.OtherKey?
  {
    PadRows(batch[key].tensor, width, PadValue(key.field, cfg))
  }

  ghost predicate ListsKeys(keys: seq<Key>, batch: DictBatch) {
    && (forall key :: key in keys <==> key in batch)
    && (forall i, j :: 0 <= i < j < |keys| ==> keys[i] != keys[j])
  }

  /** What `concatenated_inputs` needs: both sides of the tensor whose width counts, the labels of an
      encoder-decoder and the ids otherwise; the prompt of an encoder-decoder; and no rejected tensor without
      its chosen counterpart. Only the prompt's ids and mask are taken from the prompt, all other fields are
      padded to the wider of the two sides. */
  lemma WhatIsStacked(batch: DictBatch, cfg: Config)
    ensures Complete(batch, cfg) <==>
      && (cfg.encoderDecoder ==> HasTensor(batch, Chosen(Labels)) && HasTensor(batch, Rejected(Labels))
                                 && HasTensor(batch, Prompt(InputIds)) && HasTensor(batch, Prompt(AttentionMask)))
      && (!cfg.encoderDecoder ==> HasTensor(batch, Chosen(InputIds)) && HasTensor(batch, Rejected(InputIds)))
      && forall f :: HasTensor(batch, Rejected(f)) ==> HasTensor(batch, Chosen(f))
    ensures forall f :: FromPrompt(f, cfg) <==> cfg.encoderDecoder && f in {InputIds, AttentionMask}
    ensures HasWidths(batch, cfg) ==>
      MaxLength(batch, cfg)
      == if cfg.encoderDecoder then Max(Shape1(batch[Chosen(Labels)].tensor), Shape1(batch[Rejected(Labels)].tensor))
         else Max(Shape1(batch[Chosen(InputIds)].tensor), Shape1(batch[Rejected(InputIds)].tensor))
  {
  }

  /** First loop over the keys. */
  method PadChosen(keys: seq<Key>, batch: DictBatch, width: nat, cfg: Config) returns (out: map<Field, Tensor>)
    requires ListsKeys(keys, batch)
    ensures forall f :: f in out <==> HasTensor(batch, Chosen(f))
    ensures forall f :: f in out ==> out[f] == PaddedEntry(batch, Chosen(f), width, cfg)
  {
    out := map[];
    for i := 0 to |keys|
      invariant forall f :: f in out <==> Chosen(f) in keys[..i] && HasTensor(batch, Chosen(f))
      invariant forall f :: f in out ==> out[f] == PaddedEntry(batch, Chosen(f), width, cfg)
    {
      var key := keys[i];
      assert keys[..i + 1] == keys[..i] + [key];
      if key.Chosen? && HasTensor(batch, key) {
        out := out[key.field := PaddedEntry(batch, key, width, cfg)];
      }
    }
    assert keys[..|keys|] == keys;
  }

  /** Second loop; a rejected tensor without chosen counterpart is a missing key. */
  method AppendRejected(keys: seq<Key>, batch: DictBatch, width: nat, cfg: Config, chosen: map<Field, Tensor>)
    returns (r: Result<map<Field, Tensor>>)
    requires ListsKeys(keys, batch)
    ensures r.Success? <==> forall f :: HasTensor(batch, Rejected(f)) ==> f in chosen
    ensures r.Success? ==> r.value.Keys == chosen.Keys
    ensures r.Success? ==> forall f :: f in chosen ==>
      r.value[f] ==
        chosen[f] + (if HasTensor(batch, Rejected(f)) then PaddedEntry(batch, Rejected(f), width, cfg) else [])
  {
    var out := chosen;
    for i := 0 to |keys|
      invariant out.Keys == chosen.Keys
      invariant forall f :: Rejected(f) in keys[..i] && HasTensor(batch, Rejected(f)) ==> f in chosen
      invariant forall f :: f in chosen && !(Rejected(f) in keys[..i] && HasTensor(batch, Rejected(f))) ==>
        out[f] == chosen[f]
      invariant forall f :: f in chosen && Rejected(f) in keys[..i] && HasTensor(batch, Rejected(f)) ==>
        out[f] == chosen[f] + PaddedEntry(batch, Rejected(f), width, cfg)
    {
      var key := keys[i];
      assert keys[..i + 1] == keys[..i] + [key];
      if key.Rejected? && HasTensor(batch, key) {
        if key.field !in out { return Failure(KeyError); }
        assert key !in keys[..i];
        out := out[key.field := out[key.field] + PaddedEntry(batch, key, width, cfg)];
      }
    }
    assert keys[..|keys|] == keys;
    return Success(out);
  }

  predicate HasWidths(batch: DictBatch, cfg: Config) {
    HasTensor(batch, Chosen(WidthField(cfg))) && HasTensor(batch, Rejected(WidthField(cfg)))
  }

  /** Both loops, one after the other. */
  method StackFields(keys: seq<Key>, batch: DictBatch, cfg: Config) returns (r: Result<map<Field, Tensor>>)
    requires ListsKeys(keys, batch) && HasWidths(batch, cfg)
    ensures r.Success? <==> forall f :: HasTensor(batch, Rejected(f)) ==> HasTensor(batch, Chosen(f))
    ensures r.Success? ==> forall f :: f in r.value <==> HasTensor(batch, Chosen(f))
    ensures r.Success? ==> forall f :: f in r.value ==> r.value[f] == Stacked(batch, f, cfg)
  {
    var w := MaxLength(batch, cfg);
    var chosen := PadChosen(keys, batch, w, cfg);
    r := AppendRejected(keys, batch, w, cfg, chosen);
  }

  /** The whole of `concatenated_inputs`. */
  method ConcatenatedInputs(keys: seq<Key>, batch: DictBatch, cfg: Config) returns (r: Result<map<Field, Tensor>>)
    requires ListsKeys(keys, batch)
    ensures r.Success? <==> Complete(batch, cfg)
    ensures r.Success? ==> forall f :: HasTensor(batch, Chosen(f)) ==> f in r.value
    ensures r.Success? ==> forall f :: HasTensor(batch, Chosen(f)) && !FromPrompt(f, cfg) ==>
      r.value[f] == Stacked(batch, f, cfg)
    ensures r.Success? && cfg.encoderDecoder ==> forall f :: f == InputIds || f == AttentionMask ==>
      f in r.value && r.value[f] == batch[Prompt(f)].tensor + batch[Prompt(f)].tensor
  {
    if !HasWidths(batch, cfg) {
      return Failure(KeyError);
    }
    r := StackFields(keys, batch, cfg);
    if r.Success? && cfg.encoderDecoder {
      if !HasTensor(batch, Prompt(InputIds)) || !HasTensor(batch, Prompt(AttentionMask)) { return Failure(KeyError); }
      var ids, mask := batch[Prompt(InputIds)].tensor, batch[Prompt(AttentionMask)].tensor;
      r := Success(r.value[InputIds := ids + ids][AttentionMask := mask + mask]);
    }
  }

  /** An encoder-decoder model reads the prompt, repeated for both sides. */
  predicate FromPrompt(field: Field, cfg: Config) {
    cfg.encoderDecoder && (field == InputIds || field == AttentionMask)
  }

  // ----- one pass equals two

  /** The two kinds of row-wise models: one reads ids and mask of the whole sequence, the other
      those of the prompt and the labels to decode. */
  datatype Model<!L> = Model(decoderOnly: (seq<int>, seq<int>) -> seq<L>,
                             encoderDecoder: (seq<int>, seq<int>, seq<int>) -> seq<L>)

  function RowLogits<L>(m: Model<L>, cfg: Config, ids: seq<int>, mask: seq<int>, labels: seq<int>): seq<L> {
    if cfg.encoderDecoder then m.encoderDecoder(ids, mask, labels) else m.decoderOnly(ids, mask)
  }

  /** One logit vector per position, undisturbed by padding on the right. */
  ghost predicate IgnoresRightPadding<L>(m: Model<L>) {
    && (forall ids, mask :: |m.decoderOnly(ids, mask)| == |ids|)
    && (forall ids, mask, n: nat, pad :: |ids| == |mask| ==>
         m.decoderOnly(ids, mask) <= m.decoderOnly(ids + Fill(n, pad), mask + Fill(n, 0)))
    && (forall ids, mask, labels :: |m.encoderDecoder(ids, mask, labels)| == |labels|)
    && (forall ids, mask, labels, n: nat, pad ::
         m.encoderDecoder(ids, mask, labels) <= m.encoderDecoder(ids, mask, labels + Fill(n, pad)))
  }

  /** Right padding with the pad mark adds no label and changes no sum. */
  lemma PaddingAddsNothing<L>(lp: LogProb<L>, logits: seq<L>, labels: seq<int>, padded: seq<L>, n: nat,
                              average: bool, labelPad: int, encoderDecoder: bool)
    requires |logits| == |labels| && |padded| == |labels| + n && logits <= padded
    ensures RowLogp(lp, padded, labels + Fill(n, labelPad), average, labelPad, encoderDecoder)
            == RowLogp(lp, logits, labels, average, labelPad, encoderDecoder)
  {
    var all := labels + Fill(n, labelPad);
    var y, z := AlignedLabels(labels, encoderDecoder), AlignedLabels(all, encoderDecoder);
    var my, mz := LabelMask(y, labelPad), LabelMask(z, labelPad);
    var sy := Score(lp, AlignedLogits(logits, encoderDecoder), y, my);
    var sz := Score(lp, AlignedLogits(padded, encoderDecoder), z, mz);
    assert y == z[..|y|] && forall j :: |y| <= j < |z| ==> z[j] == labelPad;
    PrefixSum(sy, sz);
    PrefixCount(my, mz);
  }

  lemma PrefixSum(a: seq<real>, b: seq<real>)
    requires a <= b && forall i :: |a| <= i < |b| ==> b[i] == 0.0
    ensures Sum(a) == Sum(b)
  {
    assert b == a + b[|a|..];
    SumAppend(a, b[|a|..]);
    SumZeros(b[|a|..]);
  }

  lemma PrefixCount(a: seq<bool>, b: seq<bool>)
    requires a <= b && forall i :: |a| <= i < |b| ==> !b[i]
    ensures Count(a) == Count(b)
  {
    assert b == a + b[|a|..];
    CountAppend(a, b[|a|..]);
    SelectNone(b[|a|..], b[|a|..]);
  }

  /** One side of the batch on its own. */
  datatype Examples = Examples(ids: Tensor, mask: Tensor, labels: Tensor)

  predicate HasSides(batch: DictBatch, cfg: Config) {
    && HasTensor(batch, Chosen(Labels)) && HasTensor(batch, Rejected(Labels))
    && if cfg.encoderDecoder then HasTensor(batch, Prompt(InputIds)) && HasTensor(batch, Prompt(AttentionMask))
       else HasTensor(batch, Chosen(InputIds)) && HasTensor(batch, Chosen(AttentionMask))
            && HasTensor(batch, Rejected(InputIds)) && HasTensor(batch, Rejected(AttentionMask))
  }

  function ChosenSide(batch: DictBatch, cfg: Config): Examples
    requires HasSides(batch, cfg)
  {
    if cfg.encoderDecoder then
      Examples(batch[Prompt(InputIds)].tensor, batch[Prompt(AttentionMask)].tensor, batch[Chosen(Labels)].tensor)
    else Examples(batch[Chosen(InputIds)].tensor, batch[Chosen(AttentionMask)].tensor, batch[Chosen(Labels)].tensor)
  }

  function RejectedSide(batch: DictBatch, cfg: Config): Examples
    requires HasSides(batch, cfg)
  {
    if cfg.encoderDecoder then
      Examples(batch[Prompt(InputIds)].tensor, batch[Prompt(AttentionMask)].tensor, batch[Rejected(Labels)].tensor)
    else Examples(batch[Rejected(InputIds)].tensor, batch[Rejected(AttentionMask)].tensor,
                  batch[Rejected(Labels)].tensor)
  }

  /** Equally many rows, and labels as wide as the ids they label. */
  predicate Shaped(e: Examples, cfg: Config) {
    && |e.ids| == |e.mask| == |e.labels|
    && (!cfg.encoderDecoder ==> forall r :: 0 <= r < |e.ids| ==> |e.ids[r]| == |e.mask[r]| == |e.labels[r]|)
  }

  /** As collated: n rows of one width. */
  ghost predicate ValidSide(e: Examples, cfg: Config, n: nat, width: nat) {
    Shaped(e, cfg) && |e.labels| == n && Rect(e.labels, width)
  }

  /** Log-probabilities of examples scored on their own, row by row. */
  function Separate<L>(m: Model<L>, lp: LogProb<L>, cfg: Config, e: Examples, average: bool): (all: seq<Logp>)
    requires IgnoresRightPadding(m) && Shaped(e, cfg)
    ensures |all| == |e.labels|
  {
    seq(|e.labels|, r requires 0 <= r < |e.labels| => ScoreOf(m, lp, cfg, e.ids[r], e.mask[r], e.labels[r], average))
  }

  function ScoreOf<L>(m: Model<L>, lp: LogProb<L>, cfg: Config, ids: seq<int>, mask: seq<int>, labels: seq<int>,
                      average: bool): Logp
    requires IgnoresRightPadding(m) && (!cfg.encoderDecoder ==> |ids| == |labels|)
  {
    RowLogp(lp, RowLogits(m, cfg, ids, mask, labels), labels, average, cfg.labelPad, cfg.encoderDecoder)
  }

  /** One side padded to a common width, and two sides on top of each other. */
  function PadSide(e: Examples, cfg: Config, width: nat): Examples {
    var labels := PadRows(e.labels, width, PadValue(Labels, cfg));
    if cfg.encoderDecoder then Examples(e.ids, e.mask, labels)
    else Examples(PadRows(e.ids, width, PadValue(InputIds, cfg)), PadRows(e.mask, width, PadValue(AttentionMask, cfg)),
                  labels)
  }

  function OnTop(a: Examples, b: Examples): Examples {
    Examples(a.ids + b.ids, a.mask + b.mask, a.labels + b.labels)
  }

  lemma SeparateOnTop<L>(m: Model<L>, lp: LogProb<L>, cfg: Config, a: Examples, b: Examples, average: bool)
    requires IgnoresRightPadding(m) && Shaped(a, cfg) && Shaped(b, cfg)
    ensures Shaped(OnTop(a, b), cfg)
    ensures Separate(m, lp, cfg, OnTop(a, b), average)
      == Separate(m, lp, cfg, a, average) + Separate(m, lp, cfg, b, average)
  {
  }

  /** A row and the same row with n pads on its right. */
  predicate PaddedBy(cfg: Config, n: nat, ids: seq<int>, mask: seq<int>, labels: seq<int>,
                     pids: seq<int>, pmask: seq<int>, plabels: seq<int>) {
    && plabels == labels + Fill(n, cfg.labelPad)
    && if cfg.encoderDecoder then pids == ids && pmask == mask
       else |ids| == |mask| == |labels| && pids == ids + Fill(n, cfg.paddingValue) && pmask == mask + Fill(n, 0)
  }

  lemma PaddedRowScoresAlike<L>(m: Model<L>, lp: LogProb<L>, cfg: Config, n: nat, ids: seq<int>, mask: seq<int>,
                                labels: seq<int>, pids: seq<int>, pmask: seq<int>, plabels: seq<int>, average: bool)
    requires IgnoresRightPadding(m) && PaddedBy(cfg, n, ids, mask, labels, pids, pmask, plabels)
    ensures ScoreOf(m, lp, cfg, pids, pmask, plabels, average) == ScoreOf(m, lp, cfg, ids, mask, labels, average)
  {
    PaddingAddsNothing(lp, RowLogits(m, cfg, ids, mask, labels), labels, RowLogits(m, cfg, pids, pmask, plabels), n,
                       average, cfg.labelPad, cfg.encoderDecoder);
  }

  lemma PadIsAppend<T>(s: seq<T>, width: nat, x: T)
    requires |s| <= width
    ensures PadToLength(s, width, x) == s + Fill(width - |s|, x)
  {
  }

  lemma PaddedSideRow(e: Examples, cfg: Config, own: nat, width: nat, r: nat)
    requires ValidSide(e, cfg, |e.labels|, own) && own <= width && r < |e.labels|
    ensures Shaped(PadSide(e, cfg, width), cfg)
    ensures PaddedBy(cfg, width - own, e.ids[r], e.mask[r], e.labels[r],
                     PadSide(e, cfg, width).ids[r], PadSide(e, cfg, width).mask[r], PadSide(e, cfg, width).labels[r])
  {
    PaddedSideShaped(e, cfg, own, width);
    PadIsAppend(e.labels[r], width, cfg.labelPad);
    if !cfg.encoderDecoder {
      PadIsAppend(e.ids[r], width, cfg.paddingValue);
      PadIsAppend(e.mask[r], width, 0);
    }
  }

  /** Padding a side changes no score. */
  lemma PaddedSideScoresAlike<L>(m: Model<L>, lp: LogProb<L>, cfg: Config, e: Examples, own: nat, width: nat,
                                 average: bool)
    requires IgnoresRightPadding(m) && ValidSide(e, cfg, |e.labels|, own) && own <= width
    ensures Shaped(PadSide(e, cfg, width), cfg)
    ensures Separate(m, lp, cfg, PadSide(e, cfg, width), average) == Separate(m, lp, cfg, e, average)
  {
    PaddedSideShaped(e, cfg, own, width);
    var p := PadSide(e, cfg, width);
    forall r | 0 <= r < |e.labels|
      ensures Separate(m, lp, cfg, p, average)[r] == Separate(m, lp, cfg, e, average)[r]
    {
      PaddedSideRow(e, cfg, own, width, r);
      PaddedRowScoresAlike(m, lp, cfg, width - own, e.ids[r], e.mask[r], e.labels[r], p.ids[r], p.mask[r], p.labels[r],
                           average);
    }
  }

  lemma PaddedSideShaped(e: Examples, cfg: Config, own: nat, width: nat)
    requires ValidSide(e, cfg, |e.labels|, own) && own <= width
    ensures Shaped(PadSide(e, cfg, width), cfg)
  {
  }

  /** The dict's tensors as one set of examples. */
  method StackSides(keys: seq<Key>, batch: DictBatch, cfg: Config, ghost n: nat, ghost wc: nat, ghost wr: nat)
    returns (r: Result<Examples>)
    requires ListsKeys(keys, batch) && HasSides(batch, cfg)
    requires ValidSide(ChosenSide(batch, cfg), cfg, n, wc) && ValidSide(RejectedSide(batch, cfg), cfg, n, wr)
    ensures r.Success? <==> Complete(batch, cfg)
    ensures r.Success? ==>
      r.value == OnTop(PadSide(ChosenSide(batch, cfg), cfg, Max(wc, wr)),
                       PadSide(RejectedSide(batch, cfg), cfg, Max(wc, wr)))
  {
    var dict := ConcatenatedInputs(keys, batch, cfg);
    if dict.Failure? { return Failure(dict.error); }
    assert FromPrompt(InputIds, cfg) == FromPrompt(AttentionMask, cfg) == cfg.encoderDecoder
      && !FromPrompt(Labels, cfg);
    StackedIsPadded(batch, cfg, n, wc, wr);
    return Success(Examples(dict.value[InputIds], dict.value[AttentionMask], dict.value[Labels]));
  }

  lemma StackedIsPadded(batch: DictBatch, cfg: Config, n: nat, wc: nat, wr: nat)
    requires HasSides(batch, cfg) && Complete(batch, cfg)
    requires ValidSide(ChosenSide(batch, cfg), cfg, n, wc) && ValidSide(RejectedSide(batch, cfg), cfg, n, wr)
    ensures
      var c, j, w := PadSide(ChosenSide(batch, cfg), cfg, Max(wc, wr)),
        PadSide(RejectedSide(batch, cfg), cfg, Max(wc, wr)), Max(wc, wr);
      && Stacked(batch, Labels, cfg) == c.labels + j.labels
      && (!cfg.encoderDecoder ==>
          Stacked(batch, InputIds, cfg) == c.ids + j.ids && Stacked(batch, AttentionMask, cfg) == c.mask + j.mask)
  {
    if n > 0 { CommonWidth(batch, cfg, n, wc, wr); }
  }

  lemma CommonWidth(batch: DictBatch, cfg: Config, n: nat, wc: nat, wr: nat)
    requires HasSides(batch, cfg) && Complete(batch, cfg) && n > 0
    requires ValidSide(ChosenSide(batch, cfg), cfg, n, wc) && ValidSide(RejectedSide(batch, cfg), cfg, n, wr)
    ensures MaxLength(batch, cfg) == Max(wc, wr)
  {
  }

  method GetBatchLogps<L>(m: Model<L>, lp: LogProb<L>, cfg: Config, e: Examples, average: bool) returns (all: seq<Logp>)
    requires IgnoresRightPadding(m) && Shaped(e, cfg)
    ensures all == Separate(m, lp, cfg, e, average)
  {
    all := [];
    for r := 0 to |e.labels|
      invariant all == Separate(m, lp, cfg, e, average)[..r]
    {
      var labels := e.labels[r];
      var row := new int[|labels|](j requires 0 <= j < |labels| => labels[j]);
      assert row[..] == labels;
      var logp := GetRowLogp(lp, RowLogits(m, cfg, e.ids[r], e.mask[r], labels), row, average, cfg.labelPad,
                             cfg.encoderDecoder);
      all := all + [logp.value];
    }
  }

  /** Main result. Stacking both sides, scoring once and cutting at the number of chosen examples
      gives every example the log-probability it has when its side is scored alone. */
  method ConcatenatedForward<L>(keys: seq<Key>, batch: DictBatch, cfg: Config, average: bool, m: Model<L>,
                                lp: LogProb<L>, ghost n: nat, ghost wc: nat, ghost wr: nat)
    returns (r: Result<(seq<Logp>, seq<Logp>)>)
    requires ListsKeys(keys, batch) && HasSides(batch, cfg) && IgnoresRightPadding(m)
    requires ValidSide(ChosenSide(batch, cfg), cfg, n, wc) && ValidSide(RejectedSide(batch, cfg), cfg, n, wr)
    ensures r.Success? <==> Complete(batch, cfg)
    ensures r.Success? ==> r.value.0 == Separate(m, lp, cfg, ChosenSide(batch, cfg), average)
    ensures r.Success? ==> r.value.1 == Separate(m, lp, cfg, RejectedSide(batch, cfg), average)
  {
    var stacked := StackSides(keys, batch, cfg, n, wc, wr);
    if stacked.Failure? { return Failure(stacked.error); }
    ghost var c, j := ChosenSide(batch, cfg), RejectedSide(batch, cfg);
    PaddedSideScoresAlike(m, lp, cfg, c, wc, Max(wc, wr), average);
    PaddedSideScoresAlike(m, lp, cfg, j, wr, Max(wc, wr), average);
    SeparateOnTop(m, lp, cfg, PadSide(c, cfg, Max(wc, wr)), PadSide(j, cfg, Max(wc, wr)), average);
    var all := GetBatchLogps(m, lp, cfg, stacked.value, average);
    var lenChosen := |batch[Chosen(Labels)].tensor|;
    return Success((all[..lenChosen], all[lenChosen..]));
  }
}
