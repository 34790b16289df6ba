/** Reference log-probabilities computed once: the first request for the training data loader runs
    the reference model over the dataset and stores its results as columns, later ones reuse them.
    calculateKl = false gives the BCO trainer, which has no KL column. */
module RefCache {
  import opened Tensors
  import opened DpoForward
  import opened BatchLogps
  import opened CpoForward
  import opened Dataset
  import opened LabelSplit

  datatype Encoding = Encoding(ids: seq<int>, mask: seq<int>)

  /** A tokenised dataset row: the example, and the mismatched pair the KL estimate is taken from. */
  datatype Row = Row(prompt: Encoding, completion: Encoding, labels: seq<int>,
                     klPrompt: Encoding, klCompletion: Encoding, klLabels: seq<int>)

  predicate WellFormed(e: Encoding) {
    |e.ids| == |e.mask|
  }

  /** A decoder-only model has one label per token it reads. */
  predicate ValidRow(row: Row, cfg: Config) {
    && WellFormed(row.prompt) && WellFormed(row.completion) && WellFormed(row.klPrompt) && WellFormed(row.klCompletion)
    && (!cfg.encoderDecoder ==> |row.completion.ids| == |row.labels| && |row.klCompletion.ids| == |row.klLabels|)
  }

  ghost predicate ValidRows(rows: seq<Row>, cfg: Config) {
    forall i :: 0 <= i < |rows| ==> ValidRow(rows[i], cfg)
  }

  // ----- the three passes over a row

  /** What a pass feeds the model for a row. */
  datatype Pass = CachePass | ForwardPass | KlPass

  /** The cache encodes the prompt when the model is an encoder-decoder; the forward pass encodes the
      completion whatever the model is. */
  function Source(pass: Pass, row: Row, cfg: Config): Encoding {
    match pass
    case CachePass => if cfg.encoderDecoder then row.prompt else row.completion
    case ForwardPass => row.completion
    case KlPass => if cfg.encoderDecoder then row.klPrompt else row.klCompletion
  }

  function Target(pass: Pass, row: Row): seq<int> {
    if pass == KlPass then row.klLabels else row.labels
  }

  /** Padding is invisible: an encoder-decoder model does not look at masked positions on the right of
      its input, and no model's logits change when padding is added on the right. */
  ghost predicate IgnoresPadding<L>(m: Model<L>) {
    IgnoresRightPadding(m) && forall ids, mask, labels, n: nat, pad :: EncoderIgnores(m, ids, mask, labels, n, pad)
  }

  ghost predicate EncoderIgnores<L>(m: Model<L>, ids: seq<int>, mask: seq<int>, labels: seq<int>, n: nat, pad: int) {
    |ids| == |mask| ==>
      m.encoderDecoder(ids + Fill(n, pad), mask + Fill(n, 0), labels) == m.encoderDecoder(ids, mask, labels)
  }

  /** The value of a row scored on its own. */
  function RowValue<L>(m: Model<L>, lp: LogProb<L>, cfg: Config, e: Encoding, labels: seq<int>): real
    requires IgnoresPadding(m) && (!cfg.encoderDecoder ==> |e.ids| == |labels|)
  {
    LabelSum(lp, RowLogits(m, cfg, e.ids, e.mask, labels), labels, cfg.labelPad, cfg.encoderDecoder)
  }

  function Value<L>(pass: Pass, m: Model<L>, lp: LogProb<L>, cfg: Config, row: Row): real
    requires IgnoresPadding(m) && ValidRow(row, cfg)
  {
    RowValue(m, lp, cfg, Source(pass, row, cfg), Target(pass, row))
  }

  function Values<L>(pass: Pass, m: Model<L>, lp: LogProb<L>, cfg: Config, rows: seq<Row>): (v: seq<real>)
    requires IgnoresPadding(m) && ValidRows(rows, cfg)
    ensures |v| == |rows|
  {
    seq(|rows|, i requires 0 <= i < |rows| => Value(pass, m, lp, cfg, rows[i]))
  }

  /** Every pass scores the labels of its own sequence: the cache and the forward pass the row's, the KL pass
      those of the mismatched one. A decoder-only model reads the whole sequence; an encoder-decoder reads
      the prompt, except in the forward pass. */
  lemma PassesReadTheirSequence<L>(m: Model<L>, lp: LogProb<L>, cfg: Config, row: Row)
    requires IgnoresPadding(m) && ValidRow(row, cfg)
    ensures !cfg.encoderDecoder ==>
      && Value(CachePass, m, lp, cfg, row)
         == LabelSum(lp, m.decoderOnly(row.completion.ids, row.completion.mask), row.labels, cfg.labelPad, false)
      && Value(ForwardPass, m, lp, cfg, row) == Value(CachePass, m, lp, cfg, row)
      && Value(KlPass, m, lp, cfg, row)
         == LabelSum(lp, m.decoderOnly(row.klCompletion.ids, row.klCompletion.mask), row.klLabels, cfg.labelPad, false)
    ensures cfg.encoderDecoder ==>
      && Value(CachePass, m, lp, cfg, row)
         == LabelSum(lp, m.encoderDecoder(row.prompt.ids, row.prompt.mask, row.labels), row.labels, cfg.labelPad, true)
      && Value(ForwardPass, m, lp, cfg, row)
         == LabelSum(lp, m.encoderDecoder(row.completion.ids, row.completion.mask, row.labels), row.labels,
                     cfg.labelPad, true)
      && Value(KlPass, m, lp, cfg, row)
         == LabelSum(lp, m.encoderDecoder(row.klPrompt.ids, row.klPrompt.mask, row.klLabels), row.klLabels,
                     cfg.labelPad, true)
  {
  }

  /** The KL value of a row is the completion value of the row that has the mismatched prompt, completion
      and labels for its own. */
  lemma KlIsMismatchedCompletion<L>(m: Model<L>, lp: LogProb<L>, cfg: Config, row: Row, own: Row)
    requires IgnoresPadding(m) && ValidRow(row, cfg) && ValidRow(own, cfg)
    requires own.prompt == row.klPrompt && own.completion == row.klCompletion && own.labels == row.klLabels
    ensures Value(KlPass, m, lp, cfg, row) == Value(CachePass, m, lp, cfg, own)
  {
  }

  // ----- a padded batch

  /** Every field of a batch padded on the right to its own longest row. */
  function PadField(rows: seq<seq<int>>, pad: int): seq<seq<int>> {
    PadRows(rows, Longest(rows), pad)
  }

  function IdRows(pass: Pass, rows: seq<Row>, cfg: Config): (f: seq<seq<int>>)
    ensures |f| == |rows|
  {
    seq(|rows|, i requires 0 <= i < |rows| => Source(pass, rows[i], cfg).ids)
  }

  function MaskRows(pass: Pass, rows: seq<Row>, cfg: Config): (f: seq<seq<int>>)
    ensures |f| == |rows|
  {
    seq(|rows|, i requires 0 <= i < |rows| => Source(pass, rows[i], cfg).mask)
  }

  function LabelRows(pass: Pass, rows: seq<Row>): (f: seq<seq<int>>)
    ensures |f| == |rows|
  {
    seq(|rows|, i requires 0 <= i < |rows| => Target(pass, rows[i]))
  }

  function Collate(pass: Pass, rows: seq<Row>, cfg: Config): Examples {
    Examples(PadField(IdRows(pass, rows, cfg), cfg.paddingValue), PadField(MaskRows(pass, rows, cfg), 0),
             PadField(LabelRows(pass, rows), cfg.labelPad))
  }

  lemma CollateShaped(pass: Pass, rows: seq<Row>, cfg: Config)
    requires ValidRows(rows, cfg)
    ensures Shaped(Collate(pass, rows, cfg), cfg)
    ensures Longest(IdRows(pass, rows, cfg)) == Longest(MaskRows(pass, rows, cfg))
    ensures !cfg.encoderDecoder ==> Longest(IdRows(pass, rows, cfg)) == Longest(LabelRows(pass, rows))
  {
    LongestSame(IdRows(pass, rows, cfg), MaskRows(pass, rows, cfg));
    if !cfg.encoderDecoder { LongestSame(IdRows(pass, rows, cfg), LabelRows(pass, rows)); }
  }

  /** Padding input and labels of a row, each to its own width, changes no value. */
  lemma PaddedValue<L>(m: Model<L>, lp: LogProb<L>, cfg: Config, e: Encoding, labels: seq<int>, n: nat, k: nat)
    requires IgnoresPadding(m) && WellFormed(e) && (!cfg.encoderDecoder ==> |e.ids| == |labels| && n == k)
    ensures RowValue(m, lp, cfg, Encoding(e.ids + Fill(n, cfg.paddingValue), e.mask + Fill(n, 0)),
                     labels + Fill(k, cfg.labelPad))
            == RowValue(m, lp, cfg, e, labels)
  {
    var ids, mask, padded := e.ids + Fill(n, cfg.paddingValue), e.mask + Fill(n, 0), labels + Fill(k, cfg.labelPad);
    if cfg.encoderDecoder {
      assert EncoderIgnores(m, e.ids, e.mask, padded, n, cfg.paddingValue);
    }
    PaddingAddsNothing(lp, RowLogits(m, cfg, e.ids, e.mask, labels), labels, RowLogits(m, cfg, ids, mask, padded), k,
                       false, cfg.labelPad, cfg.encoderDecoder);
  }

  lemma PaddedFieldRow(rows: seq<seq<int>>, pad: int, r: nat)
    requires r < |rows|
    ensures |rows[r]| <= Longest(rows) && PadField(rows, pad)[r] == rows[r] + Fill(Longest(rows) - |rows[r]|, pad)
  {
    PadIsAppend(rows[r], Longest(rows), pad);
  }

  /** How many pads row r gets behind its input and behind its labels. */
  function InputPads(pass: Pass, rows: seq<Row>, cfg: Config, r: nat): nat
    requires r < |rows|
  {
    Longest(IdRows(pass, rows, cfg)) - |IdRows(pass, rows, cfg)[r]|
  }

  function LabelPads(pass: Pass, rows: seq<Row>, r: nat): nat
    requires r < |rows|
  {
    Longest(LabelRows(pass, rows)) - |LabelRows(pass, rows)[r]|
  }

  lemma CollatedIds(pass: Pass, rows: seq<Row>, cfg: Config, r: nat)
    requires r < |rows|
    ensures Collate(pass, rows, cfg).ids[r]
      == Source(pass, rows[r], cfg).ids + Fill(InputPads(pass, rows, cfg, r), cfg.paddingValue)
  {
    PaddedFieldRow(IdRows(pass, rows, cfg), cfg.paddingValue, r);
  }

  lemma CollatedMask(pass: Pass, rows: seq<Row>, cfg: Config, r: nat)
    requires ValidRows(rows, cfg) && r < |rows|
    ensures Collate(pass, rows, cfg).mask[r] == Source(pass, rows[r], cfg).mask + Fill(InputPads(pass, rows, cfg, r), 0)
  {
    CollateShaped(pass, rows, cfg);
    PaddedFieldRow(MaskRows(pass, rows, cfg), 0, r);
  }

  lemma CollatedLabels(pass: Pass, rows: seq<Row>, cfg: Config, r: nat)
    requires r < |rows|
    ensures Collate(pass, rows, cfg).labels[r]
      == Target(pass, rows[r]) + Fill(LabelPads(pass, rows, r), cfg.labelPad)
  {
    PaddedFieldRow(LabelRows(pass, rows), cfg.labelPad, r);
  }

  /** Row r of a padded batch has the value of the row on its own, whatever else is in the batch. */
  lemma CollatedValue<L>(pass: Pass, m: Model<L>, lp: LogProb<L>, cfg: Config, rows: seq<Row>, r: nat)
    requires IgnoresPadding(m) && ValidRows(rows, cfg) && r < |rows|
    ensures Shaped(Collate(pass, rows, cfg), cfg)
    ensures Separate(m, lp, cfg, Collate(pass, rows, cfg), false)[r] == Logp.Value(Value(pass, m, lp, cfg, rows[r]))
  {
    CollateShaped(pass, rows, cfg);
    CollatedIds(pass, rows, cfg, r);
    CollatedMask(pass, rows, cfg, r);
    CollatedLabels(pass, rows, cfg, r);
    PaddedValue(m, lp, cfg, Source(pass, rows[r], cfg), Target(pass, rows[r]),
                InputPads(pass, rows, cfg, r), LabelPads(pass, rows, r));
  }

  /** The reference model on one padded batch. */
  method ReferencePass<L>(pass: Pass, m: Model<L>, lp: LogProb<L>, cfg: Config, rows: seq<Row>)
    returns (values: seq<real>)
    requires IgnoresPadding(m) && ValidRows(rows, cfg)
    ensures values == Values(pass, m, lp, cfg, rows)
  {
    CollateShaped(pass, rows, cfg);
    var all := GetBatchLogps(m, lp, cfg, Collate(pass, rows, cfg), false);
    forall r | 0 <= r < |rows| ensures all[r] == Logp.Value(Value(pass, m, lp, cfg, rows[r])) {
      CollatedValue(pass, m, lp, cfg, rows, r);
    }
    values := seq(|rows|, r requires 0 <= r < |rows| => all[r].v);
  }

  /** The dataset's added columns and the flag that says they are complete. */
  datatype State = State(columns: seq<Column<real>>, precomputed: bool)

  // ----- get_train_dataloader

  /** What one call does, given the values it would compute. An empty dataset has nothing to
      concatenate; if only the KL column's name is taken, the completion column has been added by the
      time this is noticed. */
  ghost function Call(s: State, precompute: bool, calculateKl: bool, completion: seq<real>, kl: seq<real>): State {
    if !precompute || s.precomputed || completion == [] || HasColumn(s.columns, ReferenceLogps) then s
    else
      var columns := s.columns + [Column(ReferenceLogps, completion)];
      if !calculateKl then State(columns, true)
      else if HasColumn(columns, ReferenceKlLogps) then State(columns, false)
      else State(columns + [Column(ReferenceKlLogps, kl)], true)
  }

  /** A call raises exactly when it has to compute and cannot add what it computed. */
  ghost predicate CallRaises(s: State, precompute: bool, calculateKl: bool, completion: seq<real>) {
    && precompute && !s.precomputed
    && (completion == [] || HasColumn(s.columns, ReferenceLogps)
        || (calculateKl && HasColumn(s.columns, ReferenceKlLogps)))
  }

  /** A call completes the columns if and only if it has to compute, has something to concatenate and finds
      the names it needs free; otherwise it raises, unless nothing was to be done. Nothing is ever removed. */
  lemma CompletesOrRaises(s: State, precompute: bool, calculateKl: bool, completion: seq<real>, kl: seq<real>)
    ensures
      var t := Call(s, precompute, calculateKl, completion, kl);
      && s.columns <= t.columns
      && (t.precomputed <==>
           || s.precomputed
           || (precompute && completion != [] && !HasColumn(s.columns, ReferenceLogps)
               && (calculateKl ==> !HasColumn(s.columns, ReferenceKlLogps))))
      && (CallRaises(s, precompute, calculateKl, completion) <==> precompute && !t.precomputed)
      && (!precompute || s.precomputed ==> t == s)
  {
    AppendKeepsOthers(s.columns, Column(ReferenceLogps, completion), ReferenceKlLogps);
  }

  /** If only the name of the KL column is taken, the first call raises after adding the completion column,
      and every later call raises because of that column: the dataset is never completed. */
  lemma TakenKlNameIsFinal(s: State, completion: seq<real>, kl: seq<real>, later: seq<real>, laterKl: seq<real>)
    requires !s.precomputed && completion != []
    requires HasColumn(s.columns, ReferenceKlLogps) && !HasColumn(s.columns, ReferenceLogps)
    ensures
      var t := Call(s, true, true, completion, kl);
      && t == State(s.columns + [Column(ReferenceLogps, completion)], false)
      && CallRaises(s, true, true, completion) && CallRaises(t, true, true, later)
      && Call(t, true, true, later, laterKl) == t
  {
    var columns := s.columns + [Column(ReferenceLogps, completion)];
    AppendKeepsOthers(s.columns, Column(ReferenceLogps, completion), ReferenceKlLogps);
    assert columns[|s.columns|].name == ReferenceLogps;
  }

  class Trainer {
    const precompute: bool
    const calculateKl: bool
    const batchSize: nat
    const cfg: Config
    const rows: seq<Row>
    var columns: seq<Column<real>>
    var precomputed: bool

    constructor (precompute: bool, calculateKl: bool, batchSize: nat, cfg: Config, rows: seq<Row>,
                 columns: seq<Column<real>>)
      ensures this.precompute == precompute && this.calculateKl == calculateKl && this.batchSize == batchSize
      ensures this.cfg == cfg && this.rows == rows && Abstract() == State(columns, false)
    {
      this.precompute, this.calculateKl, this.batchSize := precompute, calculateKl, batchSize;
      this.cfg, this.rows, this.columns, this.precomputed := cfg, rows, columns, false;
    }

    function Abstract(): State
      reads this
    {
      State(columns, precomputed)
    }

    method GetTrainDataloader<L>(m: Model<L>, lp: LogProb<L>) returns (r: Result<()>)
      requires batchSize > 0 && IgnoresPadding(m) && ValidRows(rows, cfg)
      modifies this
      ensures Abstract()
        == Call(old(Abstract()), precompute, calculateKl, Values(CachePass, m, lp, cfg, rows),
                Values(KlPass, m, lp, cfg, rows))
      ensures r.Failure? <==> CallRaises(old(Abstract()), precompute, calculateKl, Values(CachePass, m, lp, cfg, rows))
    {
      if precompute && !precomputed {
        var completion, kl := ReferenceColumns(m, lp);
        if completion == [] {
          return Failure(RuntimeError);
        }
        var added := AddColumn(columns, ReferenceLogps, Concat(completion));
        if added.Failure? { return Failure(added.error); }
        columns := added.value;
        AppendKeepsOthers(old(columns), columns[|columns| - 1], ReferenceKlLogps);
        if calculateKl {
          added := AddColumn(columns, ReferenceKlLogps, Concat(kl));
          if added.Failure? { return Failure(added.error); }
          columns := added.value;
        }
        precomputed := true;
      }
      return Success(());
    }

    /** The loop over the batches; the KL pieces are gathered only when they are wanted. */
    method ReferenceColumns<L>(m: Model<L>, lp: LogProb<L>) returns (completion: seq<seq<real>>, kl: seq<seq<real>>)
      requires batchSize > 0 && IgnoresPadding(m) && ValidRows(rows, cfg)
      ensures completion == [] <==> rows == []
      ensures Concat(completion) == Values(CachePass, m, lp, cfg, rows)
      ensures calculateKl ==> Concat(kl) == Values(KlPass, m, lp, cfg, rows)
    {
      var batches := Batches(rows, batchSize);
      BatchesCoverRows(rows, batchSize);
      BatchesAreValid(batches, cfg);
      completion, kl := [], [];
      for i := 0 to |batches|
        invariant completion == Pieces(CachePass, m, lp, cfg, batches)[..i]
        invariant calculateKl ==> kl == Pieces(KlPass, m, lp, cfg, batches)[..i]
      {
        var out := ReferencePass(CachePass, m, lp, cfg, batches[i]);
        completion := completion + [out];
        if calculateKl {
          out := ReferencePass(KlPass, m, lp, cfg, batches[i]);
          kl := kl + [out];
        }
      }
      PiecesCoverRows(CachePass, m, lp, cfg, batches);
      PiecesCoverRows(KlPass, m, lp, cfg, batches);
      assert completion == Pieces(CachePass, m, lp, cfg, batches);
      assert calculateKl ==> kl == Pieces(KlPass, m, lp, cfg, batches);
    }
  }

  ghost predicate ValidBatches(batches: seq<seq<Row>>, cfg: Config) {
    forall k :: 0 <= k < |batches| ==> ValidRows(batches[k], cfg)
  }

  lemma {:induction false} BatchesAreValid(batches: seq<seq<Row>>, cfg: Config)
    requires ValidRows(Concat(batches), cfg)
    ensures ValidBatches(batches, cfg)
  {
    if batches != [] {
      var first, rest := batches[0], Concat(batches[1..]);
      forall i | 0 <= i < |first| ensures ValidRow(first[i], cfg) { assert Concat(batches)[i] == first[i]; }
      forall i | 0 <= i < |rest| ensures ValidRow(rest[i], cfg) { assert Concat(batches)[|first| + i] == rest[i]; }
      BatchesAreValid(batches[1..], cfg);
    }
  }

  /** The values of a pass, batch by batch. */
  function Pieces<L>(pass: Pass, m: Model<L>, lp: LogProb<L>, cfg: Config, batches: seq<seq<Row>>): (p: seq<seq<real>>)
    requires IgnoresPadding(m) && ValidBatches(batches, cfg)
    ensures |p| == |batches|
  {
    seq(|batches|, k requires 0 <= k < |batches| => Values(pass, m, lp, cfg, batches[k]))
  }

  lemma {:induction false} PiecesCoverRows<L>(pass: Pass, m: Model<L>, lp: LogProb<L>, cfg: Config,
                                              batches: seq<seq<Row>>)
    requires IgnoresPadding(m) && ValidBatches(batches, cfg) && ValidRows(Concat(batches), cfg)
    ensures Concat(Pieces(pass, m, lp, cfg, batches)) == Values(pass, m, lp, cfg, Concat(batches))
  {
    if batches != [] {
      var tail := batches[1..];
      forall i | 0 <= i < |Concat(tail)| ensures ValidRow(Concat(tail)[i], cfg) {
        assert Concat(batches)[|batches[0]| + i] == Concat(tail)[i];
      }
      PiecesCoverRows(pass, m, lp, cfg, tail);
      assert Pieces(pass, m, lp, cfg, batches)[1..] == Pieces(pass, m, lp, cfg, tail);
      ValuesAppend(pass, m, lp, cfg, batches[0], Concat(tail));
    }
  }

  lemma ValuesAppend<L>(pass: Pass, m: Model<L>, lp: LogProb<L>, cfg: Config, a: seq<Row>, b: seq<Row>)
    requires IgnoresPadding(m) && ValidRows(a, cfg) && ValidRows(b, cfg) && ValidRows(a + b, cfg)
    ensures Values(pass, m, lp, cfg, a + b) == Values(pass, m, lp, cfg, a) + Values(pass, m, lp, cfg, b)
  {
  }

  // ----- any number of calls

  /** The state after calls that would compute these values, one entry a call. The reference may be the
      policy itself, so a later call can find other values than an earlier one. */
  ghost function Calls(s: State, precompute: bool, calculateKl: bool, completions: seq<seq<real>>,
                       kls: seq<seq<real>>): State
    requires |completions| == |kls|
  {
    if completions == [] then s
    else
      var n := |completions| - 1;
      var before := Calls(s, precompute, calculateKl, completions[..n], kls[..n]);
      Call(before, precompute, calculateKl, completions[n], kls[n])
  }

  /** A dataset the trainer can complete: some rows, and no reference column yet. */
  ghost predicate Ready(s: State, completion: seq<real>) {
    !s.precomputed && completion != [] && !HasColumn(s.columns, ReferenceLogps)
      && !HasColumn(s.columns, ReferenceKlLogps)
  }

  /** What the columns are from the first call on. */
  function Completed(columns: seq<Column<real>>, calculateKl: bool, completion: seq<real>, kl: seq<real>):
      seq<Column<real>>
  {
    columns + [Column(ReferenceLogps, completion)] + (if calculateKl then [Column(ReferenceKlLogps, kl)] else [])
  }

  /** The state after any positive number of calls is the one after the first, whatever later calls
      would compute: the columns hold the values of the first call, exactly one completion column, plus
      one KL column if and only if KL is estimated. No further call raises or changes anything. */
  lemma {:induction false} CacheAfterAnyCalls(s: State, calculateKl: bool, completions: seq<seq<real>>,
                                              kls: seq<seq<real>>)
    requires |completions| == |kls| > 0 && Ready(s, completions[0])
    ensures
      var t := Calls(s, true, calculateKl, completions, kls);
      && t == State(Completed(s.columns, calculateKl, completions[0], kls[0]), true)
      && CountColumn(t.columns, ReferenceLogps) == 1
      && CountColumn(t.columns, ReferenceKlLogps) == (if calculateKl then 1 else 0)
      && (forall completion, kl :: Call(t, true, calculateKl, completion, kl) == t)
      && (forall completion :: !CallRaises(t, true, calculateKl, completion))
  {
    var n := |completions| - 1;
    if n > 0 {
      CacheAfterAnyCalls(s, calculateKl, completions[..n], kls[..n]);
    } else {
      FirstCall(s, calculateKl, completions[0], kls[0]);
      assert completions[..0] == [] && kls[..0] == [];
    }
  }

  lemma FirstCall(s: State, calculateKl: bool, completion: seq<real>, kl: seq<real>)
    requires Ready(s, completion)
    ensures
      var t := Call(s, true, calculateKl, completion, kl);
      && t == State(Completed(s.columns, calculateKl, completion, kl), true)
      && CountColumn(t.columns, ReferenceLogps) == 1
      && CountColumn(t.columns, ReferenceKlLogps) == (if calculateKl then 1 else 0)
  {
    var first, second := Column(ReferenceLogps, completion), Column(ReferenceKlLogps, kl);
    AppendKeepsOthers(s.columns, first, ReferenceKlLogps);
    NoColumn(s.columns, ReferenceLogps);
    NoColumn(s.columns, ReferenceKlLogps);
    CountCompleted(s.columns, calculateKl, first, second);
  }

  lemma CountCompleted(columns: seq<Column<real>>, calculateKl: bool, first: Column<real>, second: Column<real>)
    requires first.name == ReferenceLogps && second.name == ReferenceKlLogps
    requires CountColumn(columns, ReferenceLogps) == 0 && CountColumn(columns, ReferenceKlLogps) == 0
    ensures CountColumn(columns + [first] + (if calculateKl then [second] else []), ReferenceLogps) == 1
    ensures CountColumn(columns + [first] + (if calculateKl then [second] else []), ReferenceKlLogps)
      == (if calculateKl then 1 else 0)
  {
    var tail := if calculateKl then [second] else [];
    CountColumnAppend(columns + [first], tail, ReferenceLogps);
    CountColumnAppend(columns, [first], ReferenceLogps);
    CountColumnAppend(columns + [first], tail, ReferenceKlLogps);
    CountColumnAppend(columns, [first], ReferenceKlLogps);
  }

  // ----- when the cached value is the value of the forward pass

  /** What a model that ignores padding sees of its input: masked positions at the end cut off. */
  function Visible(e: Encoding): Encoding
    decreases |e.mask|
  {
    var n := |e.mask|;
    if n == 0 || |e.ids| != n || e.mask[n - 1] != 0 then e else Visible(Encoding(e.ids[..n - 1], e.mask[..n - 1]))
  }

  lemma MaskedEndUnseen<L>(m: Model<L>, ids: seq<int>, mask: seq<int>, id: int, labels: seq<int>)
    requires IgnoresPadding(m) && |ids| == |mask|
    ensures m.encoderDecoder(ids + [id], mask + [0], labels) == m.encoderDecoder(ids, mask, labels)
  {
    assert EncoderIgnores(m, ids, mask, labels, 1, id);
    assert Fill(1, id) == [id] && Fill(1, 0) == [0];
  }

  lemma {:induction false} VisibleIsEnough<L>(m: Model<L>, e: Encoding, labels: seq<int>)
    requires IgnoresPadding(m) && WellFormed(e)
    ensures m.encoderDecoder(Visible(e).ids, Visible(e).mask, labels) == m.encoderDecoder(e.ids, e.mask, labels)
    decreases |e.mask|
  {
    var n := |e.mask|;
    if n > 0 && e.mask[n - 1] == 0 {
      var ids, mask := e.ids[..n - 1], e.mask[..n - 1];
      VisibleIsEnough(m, Encoding(ids, mask), labels);
      MaskedEndUnseen(m, ids, mask, e.ids[n - 1], labels);
      assert e.ids == ids + [e.ids[n - 1]] && e.mask == mask + [0];
    }
  }

  lemma {:induction false} PaddingIsInvisible(ids: seq<int>, mask: seq<int>, n: nat, pad: int)
    requires |ids| == |mask|
    ensures Visible(Encoding(ids + Fill(n, pad), mask + Fill(n, 0))) == Visible(Encoding(ids, mask))
  {
    if n == 0 {
      assert ids + Fill(0, pad) == ids && mask + Fill(0, 0) == mask;
    } else {
      var x, y := ids + Fill(n, pad), mask + Fill(n, 0);
      assert x[..|x| - 1] == ids + Fill(n - 1, pad) && y[..|y| - 1] == mask + Fill(n - 1, 0) && y[|y| - 1] == 0;
      PaddingIsInvisible(ids, mask, n - 1, pad);
    }
  }

  predicate NoLabelCounts(labels: seq<int>, cfg: Config) {
    forall j :: 0 <= j < |labels| ==> labels[j] == cfg.labelPad
  }

  /** Both passes score the row from the same input, or there is nothing to score. */
  predicate SameSource(row: Row, cfg: Config) {
    !cfg.encoderDecoder || Visible(row.prompt) == Visible(row.completion) || NoLabelCounts(row.labels, cfg)
  }

  lemma NothingToScore<L>(lp: LogProb<L>, logits: seq<L>, labels: seq<int>, cfg: Config)
    requires |logits| == |labels| && NoLabelCounts(labels, cfg)
    ensures LabelSum(lp, logits, labels, cfg.labelPad, true) == 0.0
  {
    SumZeros(Score(lp, logits, labels, LabelMask(labels, cfg.labelPad)));
  }

  lemma SameSourceSameValue<L>(m: Model<L>, lp: LogProb<L>, cfg: Config, row: Row)
    requires IgnoresPadding(m) && ValidRow(row, cfg) && SameSource(row, cfg)
    ensures Value(CachePass, m, lp, cfg, row) == Value(ForwardPass, m, lp, cfg, row)
  {
    if cfg.encoderDecoder {
      if NoLabelCounts(row.labels, cfg) {
        NothingToScore(lp, RowLogits(m, cfg, row.prompt.ids, row.prompt.mask, row.labels), row.labels, cfg);
        NothingToScore(lp, RowLogits(m, cfg, row.completion.ids, row.completion.mask, row.labels), row.labels, cfg);
      } else {
        VisibleIsEnough(m, row.prompt, row.labels);
        VisibleIsEnough(m, row.completion, row.labels);
      }
    }
  }

  /** A model whose logits tell one input from all others. */
  function Recognise(known: Encoding, e: Encoding): real {
    if Visible(e) == known then 1.0 else 0.0
  }

  function Recogniser(known: Encoding): Model<real> {
    Model((ids, mask) => Fill(|ids|, 0.0), (ids, mask, labels) => Fill(|labels|, Recognise(known, Encoding(ids, mask))))
  }

  function Itself(): LogProb<real> {
    (logit, token) => logit
  }

  lemma RecogniserIgnoresPadding(known: Encoding)
    ensures IgnoresPadding(Recogniser(known))
  {
    forall ids, mask, labels, n: nat, pad ensures EncoderIgnores(Recogniser(known), ids, mask, labels, n, pad) {
      if |ids| == |mask| { PaddingIsInvisible(ids, mask, n, pad); }
    }
  }

  lemma RecogniserTellsApart(cfg: Config, row: Row)
    requires ValidRow(row, cfg) && !SameSource(row, cfg)
    ensures IgnoresPadding(Recogniser(Visible(row.prompt)))
    ensures Value(CachePass, Recogniser(Visible(row.prompt)), Itself(), cfg, row)
            > Value(ForwardPass, Recogniser(Visible(row.prompt)), Itself(), cfg, row)
  {
    RecogniserIgnoresPadding(Visible(row.prompt));
    var n, mask := |row.labels|, LabelMask(row.labels, cfg.labelPad);
    var j :| 0 <= j < n && row.labels[j] != cfg.labelPad;
    SumAtLeast(Score(Itself(), Fill(n, 1.0), row.labels, mask), j);
    SumZeros(Score(Itself(), Fill(n, 0.0), row.labels, mask));
  }

  /** The passes agree on a row for every model that ignores padding if and only if they read the same
      input or no label counts. Decoder-only models always do. */
  lemma PassesAgreeIff(cfg: Config, row: Row)
    requires ValidRow(row, cfg)
    ensures (forall m: Model<real>, lp: LogProb<real> :: IgnoresPadding(m) ==>
              Value(CachePass, m, lp, cfg, row) == Value(ForwardPass, m, lp, cfg, row))
            <==> SameSource(row, cfg)
  {
    if SameSource(row, cfg) {
      forall m: Model<real>, lp: LogProb<real> | IgnoresPadding(m)
        ensures Value(CachePass, m, lp, cfg, row) == Value(ForwardPass, m, lp, cfg, row)
      {
        SameSourceSameValue(m, lp, cfg, row);
      }
    } else {
      RecogniserTellsApart(cfg, row);
    }
  }

  /** One token of prompt, one of completion: enough for an encoder-decoder model to be cached wrong. */
  lemma CacheCanBeWrong()
    ensures
      var one, two := Encoding([1], [1]), Encoding([2], [1]);
      var row, cfg := Row(one, two, [2], one, two, [2]), Config(true, -100, 0);
      ValidRow(row, cfg) && exists m: Model<real>, lp: LogProb<real> ::
        IgnoresPadding(m) && Value(CachePass, m, lp, cfg, row) != Value(ForwardPass, m, lp, cfg, row)
  {
    var one, two := Encoding([1], [1]), Encoding([2], [1]);
    var row, cfg := Row(one, two, [2], one, two, [2]), Config(true, -100, 0);
    assert Visible(one) == one && Visible(two) == two && row.labels[0] != cfg.labelPad;
    RecogniserTellsApart(cfg, row);
  }

  // ----- the batches of training

  lemma DrawnRowsAreValid(rows: seq<Row>, cfg: Config, index: seq<nat>)
    requires ValidRows(rows, cfg) && forall k :: 0 <= k < |index| ==> index[k] < |rows|
    ensures ValidRows(Gather(rows, index), cfg)
  {
  }

  /** Reading a column at drawn rows gives the values of those rows. */
  lemma DrawnValues<L>(pass: Pass, m: Model<L>, lp: LogProb<L>, cfg: Config, rows: seq<Row>, index: seq<nat>)
    requires IgnoresPadding(m) && ValidRows(rows, cfg) && forall k :: 0 <= k < |index| ==> index[k] < |rows|
    ensures ValidRows(Gather(rows, index), cfg)
    ensures Gather(Values(pass, m, lp, cfg, rows), index) == Values(pass, m, lp, cfg, Gather(rows, index))
  {
    DrawnRowsAreValid(rows, cfg, index);
  }

  ghost predicate AllSameSource(rows: seq<Row>, cfg: Config) {
    forall i :: 0 <= i < |rows| ==> SameSource(rows[i], cfg)
  }

  /** For any batch drawn from the dataset, the cached values are those of a forward pass over the
      padded batch, for every model that ignores padding, if and only if the two passes read the same
      input in every row that has something to score. */
  lemma CachedBatchIsDirectIff(cfg: Config, rows: seq<Row>, index: seq<nat>)
    requires ValidRows(rows, cfg) && forall k :: 0 <= k < |index| ==> index[k] < |rows|
    ensures ValidRows(Gather(rows, index), cfg)
    ensures (forall m: Model<real>, lp: LogProb<real> :: IgnoresPadding(m) ==>
              Gather(Values(CachePass, m, lp, cfg, rows), index)
                == Values(ForwardPass, m, lp, cfg, Gather(rows, index)))
            <==> AllSameSource(Gather(rows, index), cfg)
  {
    var batch := Gather(rows, index);
    DrawnRowsAreValid(rows, cfg, index);
    if AllSameSource(batch, cfg) {
      forall m: Model<real>, lp: LogProb<real> | IgnoresPadding(m)
        ensures Gather(Values(CachePass, m, lp, cfg, rows), index) == Values(ForwardPass, m, lp, cfg, batch)
      {
        CachedBatchIsDirect(m, lp, cfg, rows, index);
      }
    } else {
      var i :| 0 <= i < |batch| && !SameSource(batch[i], cfg);
      RecogniserTellsApart(cfg, batch[i]);
      var m := Recogniser(Visible(batch[i].prompt));
      assert Gather(Values(CachePass, m, Itself(), cfg, rows), index)[i]
        != Values(ForwardPass, m, Itself(), cfg, batch)[i];
    }
  }

  lemma CachedBatchIsDirect<L>(m: Model<L>, lp: LogProb<L>, cfg: Config, rows: seq<Row>, index: seq<nat>)
    requires IgnoresPadding(m) && ValidRows(rows, cfg) && forall k :: 0 <= k < |index| ==> index[k] < |rows|
    requires AllSameSource(Gather(rows, index), cfg)
    ensures ValidRows(Gather(rows, index), cfg)
    ensures Gather(Values(CachePass, m, lp, cfg, rows), index) == Values(ForwardPass, m, lp, cfg, Gather(rows, index))
  {
    var batch := Gather(rows, index);
    DrawnValues(CachePass, m, lp, cfg, rows, index);
    forall i | 0 <= i < |batch|
      ensures Values(CachePass, m, lp, cfg, batch)[i] == Values(ForwardPass, m, lp, cfg, batch)[i]
    {
      SameSourceSameValue(m, lp, cfg, batch[i]);
    }
  }

  /** What a batch finds in the dataset after any number of calls: the first call's values. */
  lemma CachedColumns(s: State, calculateKl: bool, completions: seq<seq<real>>, kls: seq<seq<real>>)
    requires |completions| == |kls| > 0 && Ready(s, completions[0])
    ensures
      var columns := Calls(s, true, calculateKl, completions, kls).columns;
      && Lookup(columns, ReferenceLogps) == Some(completions[0])
      && Lookup(columns, ReferenceKlLogps) == if calculateKl then Some(kls[0]) else None
  {
    CacheAfterAnyCalls(s, calculateKl, completions, kls);
    var added := [Column(ReferenceLogps, completions[0])]
      + (if calculateKl then [Column(ReferenceKlLogps, kls[0])] else []);
    assert Completed(s.columns, calculateKl, completions[0], kls[0]) == s.columns + added;
    LookupAppend(s.columns, added, ReferenceLogps);
    LookupAppend(s.columns, added, ReferenceKlLogps);
    assert added[1..] == if calculateKl then [Column(ReferenceKlLogps, kls[0])] else [];
  }

  /** What a batch of drawn rows reads from a column. */
  function Drawn(columns: seq<Column<real>>, name: ColumnName, index: seq<nat>): Option<seq<real>> {
    match Lookup(columns, name)
    case Some(values) =>
      if forall k :: 0 <= k < |index| ==> index[k] < |values| then Some(Gather(values, index)) else None
    case None => None
  }

  /** The reference models of successive calls: all of them ignore padding. */
  ghost predicate AllIgnorePadding<L>(models: seq<Model<L>>) {
    forall i :: 0 <= i < |models| ==> IgnoresPadding(models[i])
  }

  /** What each of the calls would compute. */
  function ValuesOfCalls<L>(pass: Pass, models: seq<Model<L>>, lp: LogProb<L>, cfg: Config, rows: seq<Row>):
      (v: seq<seq<real>>)
    requires AllIgnorePadding(models) && ValidRows(rows, cfg)
    ensures |v| == |models|
  {
    seq(|models|, i requires 0 <= i < |models| => Values(pass, models[i], lp, cfg, rows))
  }

  /** The columns after one call per model. */
  ghost function ColumnsAfter<L>(s: State, calculateKl: bool, models: seq<Model<L>>, lp: LogProb<L>, cfg: Config,
                                 rows: seq<Row>): seq<Column<real>>
    requires AllIgnorePadding(models) && ValidRows(rows, cfg)
  {
    Calls(s, true, calculateKl, ValuesOfCalls(CachePass, models, lp, cfg, rows),
          ValuesOfCalls(KlPass, models, lp, cfg, rows)).columns
  }

  /** A dataset whose columns the first of the models can fill, and a batch drawn from it whose rows both
      passes read alike. */
  ghost predicate Trainable<L>(s: State, models: seq<Model<L>>, lp: LogProb<L>, cfg: Config, rows: seq<Row>,
                               index: seq<nat>)
  {
    && models != [] && AllIgnorePadding(models) && ValidRows(rows, cfg)
    && Ready(s, Values(CachePass, models[0], lp, cfg, rows))
    && (forall k :: 0 <= k < |index| ==> index[k] < |rows|)
    && AllSameSource(Gather(rows, index), cfg) && ValidRows(Gather(rows, index), cfg)
  }

  /** What a batch reads from the cache is what a forward pass over it would have computed with the model
      of the first call, however the model has changed since. */
  lemma CachedColumnsAreDirect<L>(s: State, calculateKl: bool, models: seq<Model<L>>, lp: LogProb<L>, cfg: Config,
                                  rows: seq<Row>, index: seq<nat>)
    requires Trainable(s, models, lp, cfg, rows, index)
    ensures
      var columns, batch := ColumnsAfter(s, calculateKl, models, lp, cfg, rows), Gather(rows, index);
      && Drawn(columns, ReferenceLogps, index) == Some(Values(ForwardPass, models[0], lp, cfg, batch))
      && Drawn(columns, ReferenceKlLogps, index)
         == if calculateKl then Some(Values(KlPass, models[0], lp, cfg, batch)) else None
  {
    CachedColumns(s, calculateKl, ValuesOfCalls(CachePass, models, lp, cfg, rows),
                  ValuesOfCalls(KlPass, models, lp, cfg, rows));
    CachedBatchIsDirect(models[0], lp, cfg, rows, index);
    DrawnValues(KlPass, models[0], lp, cfg, rows, index);
  }

  /** Main result for KTO: after any number of calls, with models that may differ from call to call, the
      losses computed from the cached columns are those computed from a forward pass and a KL pass of
      the first call's reference model over the padded batch. */
  lemma CachedKtoLossesAreDirect<L>(s: State, calculateKl: bool, models: seq<Model<L>>, lp: LogProb<L>, cfg: Config,
                                    rows: seq<Row>, index: seq<nat>, c: KtoConfig, labels: seq<Label>,
                                    policy: seq<real>, policyKl: seq<real>)
    requires Trainable(s, models, lp, cfg, rows, index)
    requires |labels| == |policy| == |index| && (calculateKl ==> |policyKl| == |index| > 0)
    ensures
      var columns, batch := ColumnsAfter(s, calculateKl, models, lp, cfg, rows), Gather(rows, index);
      var cached, cachedKl := Drawn(columns, ReferenceLogps, index), Drawn(columns, ReferenceKlLogps, index);
      && cached.Some? && |cached.value| == |index|
      && (calculateKl ==> cachedKl.Some? && |cachedKl.value| == |index|)
      && KtoTrainerLosses(c, calculateKl, labels, policy, policyKl, cached.value,
                          if calculateKl then cachedKl.value else [])
         == KtoTrainerLosses(c, calculateKl, labels, policy, policyKl, Values(ForwardPass, models[0], lp, cfg, batch),
                             if calculateKl then Values(KlPass, models[0], lp, cfg, batch) else [])
  {
    CachedColumnsAreDirect(s, calculateKl, models, lp, cfg, rows, index);
  }

  /** Main result for BCO, which has no KL column; delta is the running mean of the rewards, which are
      computed from the same reference values. */
  lemma CachedBcoLossesAreDirect<L, E>(s: State, models: seq<Model<L>>, lp: LogProb<L>, cfg: Config, rows: seq<Row>,
                                       index: seq<nat>, c: BcoConfig<E>, runningMean: seq<real> -> real,
                                       labels: seq<Label>, policy: seq<real>, embeddings: seq<E>)
    requires Trainable(s, models, lp, cfg, rows, index)
    requires |labels| == |policy| == |embeddings| == |index|
    ensures
      var cached := Drawn(ColumnsAfter(s, false, models, lp, cfg, rows), ReferenceLogps, index);
      && cached.Some? && |cached.value| == |index|
      && BcoTrainerLosses(c, runningMean, labels, policy, cached.value, embeddings)
         == BcoTrainerLosses(c, runningMean, labels, policy,
                             Values(ForwardPass, models[0], lp, cfg, Gather(rows, index)), embeddings)
  {
    CachedColumnsAreDirect(s, false, models, lp, cfg, rows, index);
  }
}
