/** The DPO trainer's precomputed reference log-probabilities: the first request for the training data
    loader runs the forward pass over the dataset, batch by batch, and stores what it finds for the
    chosen and for the rejected completions as two columns. */
module DpoCache {
  import opened Tensors
  import opened Flush
  import opened DpoForward
  import opened BatchLogps
  import opened DpoTrainer
  import opened Dataset

  /** A tokenised dataset row. */
  datatype Row = Row(prompt: seq<int>, chosen: seq<int>, rejected: seq<int>)

  /** One of the two completions of a pair, and the column its reference values go to. */
  datatype Which = Chosen | Rejected

  function Completion(row: Row, which: Which): seq<int> {
    if which == Chosen then row.chosen else row.rejected
  }

  function NameOf(which: Which): ColumnName {
    if which == Chosen then RefChosenLogps else RefRejectedLogps
  }

  function SideOf(x: Inputs, which: Which): Side {
    if which == Chosen then x.chosen else x.rejected
  }

  // ----- the collator

  /** Rows padded to their longest: prompts on the left, completions on the right. */
  function LeftPadded(rows: seq<seq<int>>, pad: int): (s: Side)
    ensures ValidSide(s, |rows|)
  {
    var w := Longest(rows);
    Side(w, seq(|rows|, i requires 0 <= i < |rows| => Fill(w - |rows[i]|, pad) + rows[i]),
         seq(|rows|, i requires 0 <= i < |rows| => Fill(w - |rows[i]|, false) + Fill(|rows[i]|, true)))
  }

  function RightPadded(rows: seq<seq<int>>, pad: int): (s: Side)
    ensures ValidSide(s, |rows|)
  {
    var w := Longest(rows);
    Side(w, seq(|rows|, i requires 0 <= i < |rows| => rows[i] + Fill(w - |rows[i]|, pad)),
         seq(|rows|, i requires 0 <= i < |rows| => Fill(|rows[i]|, true) + Fill(w - |rows[i]|, false)))
  }

  lemma LeftPaddedRow(rows: seq<seq<int>>, pad: int, i: nat)
    requires i < |rows|
    ensures Count(LeftPadded(rows, pad).mask[i]) == |rows[i]|
    ensures RightAligned(LeftPadded(rows, pad).mask[i], |rows[i]|)
    ensures Select(LeftPadded(rows, pad).mask[i], LeftPadded(rows, pad).ids[i]) == rows[i]
  {
    var s := LeftPadded(rows, pad);
    assert RightAligned(s.mask[i], |rows[i]|);
    SelectRightAligned(s.mask[i], s.ids[i], |rows[i]|);
  }

  lemma RightPaddedRow(rows: seq<seq<int>>, pad: int, i: nat)
    requires i < |rows|
    ensures Count(RightPadded(rows, pad).mask[i]) == |rows[i]|
    ensures LeftAligned(RightPadded(rows, pad).mask[i], |rows[i]|)
    ensures Select(RightPadded(rows, pad).mask[i], RightPadded(rows, pad).ids[i]) == rows[i]
  {
    var s := RightPadded(rows, pad);
    assert LeftAligned(s.mask[i], |rows[i]|);
    SelectLeftAligned(s.mask[i], s.ids[i], |rows[i]|);
  }

  function Prompts(rows: seq<Row>): (p: seq<seq<int>>)
    ensures |p| == |rows|
  {
    seq(|rows|, i requires 0 <= i < |rows| => rows[i].prompt)
  }

  function Completions(rows: seq<Row>, which: Which): (c: seq<seq<int>>)
    ensures |c| == |rows|
  {
    seq(|rows|, i requires 0 <= i < |rows| => Completion(rows[i], which))
  }

  function Collate(rows: seq<Row>, pad: int): (x: Inputs)
    ensures ValidInputs(x) && |x.prompt.ids| == |rows|
  {
    var x := Inputs(LeftPadded(Prompts(rows), pad), RightPadded(Completions(rows, Chosen), pad),
                    RightPadded(Completions(rows, Rejected), pad));
    CollateIsValid(rows, pad, x);
    x
  }

  lemma CollateIsValid(rows: seq<Row>, pad: int, x: Inputs)
    requires x == Inputs(LeftPadded(Prompts(rows), pad), RightPadded(Completions(rows, Chosen), pad),
                         RightPadded(Completions(rows, Rejected), pad))
    ensures ValidInputs(x)
  {
    forall r | 0 <= r < |rows|
      ensures RightAligned(x.prompt.mask[r], Count(x.prompt.mask[r]))
      ensures LeftAligned(x.chosen.mask[r], Count(x.chosen.mask[r]))
      ensures LeftAligned(x.rejected.mask[r], Count(x.rejected.mask[r]))
    {
      LeftPaddedRow(Prompts(rows), pad, r);
      RightPaddedRow(Completions(rows, Chosen), pad, r);
      RightPaddedRow(Completions(rows, Rejected), pad, r);
    }
  }

  /** Whatever batch a row is in, its examples are its own tokens. */
  lemma CollatedExample(rows: seq<Row>, pad: int, which: Which, i: nat)
    requires i < |rows|
    ensures
      var x := Collate(rows, pad);
      && ExampleTokens(x, SideOf(x, which), i) == rows[i].prompt + Completion(rows[i], which)
      && ExampleLoss(x, SideOf(x, which), i) == Fill(|rows[i].prompt|, false) + Fill(|Completion(rows[i], which)|, true)
  {
    LeftPaddedRow(Prompts(rows), pad, i);
    RightPaddedRow(Completions(rows, which), pad, i);
  }

  // ----- the values of a batch

  /** What the forward pass finds for a batch it can score. */
  function BatchValues<L>(cfg: Config, pad: int, which: Which, net: Net<L>, lp: LogProb<L>, batch: seq<Row>):
      (v: seq<Logp>)
    requires IsNet(net)
    ensures |v| == |batch|
  {
    var x := Collate(batch, pad);
    seq(|batch|, i requires 0 <= i < |batch| => ExampleMeaning(cfg, x, SideOf(x, which), i, net, lp))
  }

  /** The forward pass as a map on batches. */
  function Scorer<L>(cfg: Config, pad: int, which: Which, net: Net<L>, lp: LogProb<L>): (f: seq<Row> -> seq<Logp>)
    requires IsNet(net)
    ensures forall batch :: f(batch) == BatchValues(cfg, pad, which, net, lp, batch)
  {
    batch => BatchValues(cfg, pad, which, net, lp, batch)
  }

  /** What is stored for one completion of every pair. */
  function RefColumn<L>(cfg: Config, pad: int, which: Which, net: Net<L>, lp: LogProb<L>, rows: seq<Row>, size: nat):
      seq<Logp>
    requires IsNet(net) && size > 0
  {
    Concat(EachBatch(Scorer(cfg, pad, which, net, lp), Batches(rows, size)))
  }

  /** Whether a batch can be scored does not depend on the model. */
  ghost predicate BatchRaises(cfg: Config, pad: int, batch: seq<Row>) {
    Raises(cfg, ConcatenatedInputs(Collate(batch, pad), pad), |batch|)
  }

  ghost predicate SomeBatchRaises(cfg: Config, pad: int, batches: seq<seq<Row>>) {
    exists k :: 0 <= k < |batches| && BatchRaises(cfg, pad, batches[k])
  }

  /** `compute_ref_log_probs` on one padded batch. */
  method RefPass<L>(cfg: Config, pad: int, net: Net<L>, paddedNet: (seq<int>, seq<bool>) -> seq<L>, lp: LogProb<L>,
                    batch: seq<Row>)
    returns (out: Result<(seq<Logp>, seq<Logp>)>)
    requires IsNet(net) && RespectsAttention(net, paddedNet)
    ensures out.Failure? <==> BatchRaises(cfg, pad, batch)
    ensures out.Success? ==> out.value.0 == Scorer(cfg, pad, Chosen, net, lp)(batch)
    ensures out.Success? ==> out.value.1 == Scorer(cfg, pad, Rejected, net, lp)(batch)
  {
    out := ConcatenatedForward(cfg, Collate(batch, pad), pad, net, paddedNet, lp);
  }

  lemma OneMoreBatch(cfg: Config, pad: int, done: seq<seq<Row>>, batch: seq<Row>)
    requires !SomeBatchRaises(cfg, pad, done) && !BatchRaises(cfg, pad, batch)
    ensures !SomeBatchRaises(cfg, pad, done + [batch])
  {
    var more := done + [batch];
    forall j | 0 <= j < |more| ensures !BatchRaises(cfg, pad, more[j]) {
      if j < |done| { assert more[j] == done[j] && !BatchRaises(cfg, pad, done[j]); }
    }
  }

  lemma RaisesStep(cfg: Config, pad: int, batches: seq<seq<Row>>, k: nat)
    requires k < |batches| && !SomeBatchRaises(cfg, pad, batches[..k])
    ensures if BatchRaises(cfg, pad, batches[k]) then SomeBatchRaises(cfg, pad, batches)
            else !SomeBatchRaises(cfg, pad, batches[..k + 1])
  {
    if !BatchRaises(cfg, pad, batches[k]) {
      OneMoreBatch(cfg, pad, batches[..k], batches[k]);
      assert batches[..k + 1] == batches[..k] + [batches[k]];
    }
  }

  method RefPasses<L>(cfg: Config, pad: int, net: Net<L>, paddedNet: (seq<int>, seq<bool>) -> seq<L>, lp: LogProb<L>,
                      batches: seq<seq<Row>>)
    returns (out: Result<(seq<seq<Logp>>, seq<seq<Logp>>)>)
    requires IsNet(net) && RespectsAttention(net, paddedNet)
    ensures out.Failure? <==> SomeBatchRaises(cfg, pad, batches)
    ensures out.Success? ==> out.value.0 == EachBatch(Scorer(cfg, pad, Chosen, net, lp), batches)
    ensures out.Success? ==> out.value.1 == EachBatch(Scorer(cfg, pad, Rejected, net, lp), batches)
  {
    ghost var f, g := Scorer(cfg, pad, Chosen, net, lp), Scorer(cfg, pad, Rejected, net, lp);
    var chosen, rejected := [], [];
    for k := 0 to |batches|
      invariant !SomeBatchRaises(cfg, pad, batches[..k])
      invariant chosen == EachBatch(f, batches)[..k]
      invariant rejected == EachBatch(g, batches)[..k]
    {
      var one := RefPass(cfg, pad, net, paddedNet, lp, batches[k]);
      RaisesStep(cfg, pad, batches, k);
      if one.Failure? { return Failure(one.error); }
      NextBatch(f, batches, k, chosen, one.value.0);
      NextBatch(g, batches, k, rejected, one.value.1);
      chosen, rejected := chosen + [one.value.0], rejected + [one.value.1];
    }
    assert batches[..|batches|] == batches;
    return Success((chosen, rejected));
  }

  // ----- get_train_dataloader

  /** The dataset's added columns and the flag that says they are complete. */
  datatype State = State(columns: seq<Column<Logp>>, precomputed: bool)

  datatype Computed = Computed(chosen: seq<Logp>, rejected: seq<Logp>)

  /** What a call would compute: nothing for an empty dataset or when some batch raises. */
  ghost function Computes<L>(cfg: Config, pad: int, net: Net<L>, lp: LogProb<L>, rows: seq<Row>, size: nat):
      Option<Computed>
    requires IsNet(net) && size > 0
  {
    if rows == [] || SomeBatchRaises(cfg, pad, Batches(rows, size)) then None
    else Some(Computed(RefColumn(cfg, pad, Chosen, net, lp, rows, size),
                       RefColumn(cfg, pad, Rejected, net, lp, rows, size)))
  }

  ghost function Call(s: State, precompute: bool, computed: Option<Computed>): State {
    if !precompute || s.precomputed || computed.None? || HasColumn(s.columns, RefChosenLogps) then s
    else
      var columns := s.columns + [Column(RefChosenLogps, computed.value.chosen)];
      if HasColumn(columns, RefRejectedLogps) then State(columns, false)
      else State(columns + [Column(RefRejectedLogps, computed.value.rejected)], true)
  }

  ghost predicate CallRaises(s: State, precompute: bool, computed: Option<Computed>) {
    && precompute && !s.precomputed
    && (computed.None? || HasColumn(s.columns, RefChosenLogps) || HasColumn(s.columns, RefRejectedLogps))
  }

  /** A call completes the columns if and only if it has to compute, can, and finds both names free; otherwise
      it raises, unless nothing was to be done. Nothing is ever removed. */
  lemma CompletesOrRaises(s: State, precompute: bool, computed: Option<Computed>)
    ensures
      var t := Call(s, precompute, computed);
      && s.columns <= t.columns
      && (t.precomputed <==>
           || s.precomputed
           || (precompute && computed.Some? && !HasColumn(s.columns, RefChosenLogps)
               && !HasColumn(s.columns, RefRejectedLogps)))
      && (CallRaises(s, precompute, computed) <==> precompute && !t.precomputed)
      && (!precompute || s.precomputed ==> t == s)
  {
    if computed.Some? {
      AppendKeepsOthers(s.columns, Column(RefChosenLogps, computed.value.chosen), RefRejectedLogps);
    }
  }

  /** If only the name of the rejected column is taken, the first call raises after adding the chosen column,
      and every later call raises because of that column: the dataset is never completed. */
  lemma TakenRejectedNameIsFinal(s: State, computed: Computed, later: Option<Computed>)
    requires !s.precomputed && HasColumn(s.columns, RefRejectedLogps) && !HasColumn(s.columns, RefChosenLogps)
    ensures
      var t := Call(s, true, Some(computed));
      && t == State(s.columns + [Column(RefChosenLogps, computed.chosen)], false)
      && CallRaises(s, true, Some(computed)) && CallRaises(t, true, later) && Call(t, true, later) == t
  {
    var columns := s.columns + [Column(RefChosenLogps, computed.chosen)];
    AppendKeepsOthers(s.columns, Column(RefChosenLogps, computed.chosen), RefRejectedLogps);
    assert columns[|s.columns|].name == RefChosenLogps;
  }

  /** `precompute_ref_batch_size or per_device_train_batch_size` */
  function BatchSize(refBatchSize: Option<nat>, perDevice: nat): nat {
    if refBatchSize.Some? && refBatchSize.value > 0 then refBatchSize.value else perDevice
  }

  class Trainer {
    const precompute: bool
    const refBatchSize: Option<nat>
    const perDevice: nat
    const cfg: Config
    const pad: int
    const rows: seq<Row>
    var columns: seq<Column<Logp>>
    var precomputed: bool

    constructor (precompute: bool, refBatchSize: Option<nat>, perDevice: nat, cfg: Config, pad: int, rows: seq<Row>,
                 columns: seq<Column<Logp>>)
      ensures this.precompute == precompute && this.refBatchSize == refBatchSize && this.perDevice == perDevice
      ensures this.cfg == cfg && this.pad == pad && this.rows == rows && Abstract() == State(columns, false)
    {
      this.precompute, this.refBatchSize, this.perDevice := precompute, refBatchSize, perDevice;
      this.cfg, this.pad, this.rows, this.columns, this.precomputed := cfg, pad, rows, columns, false;
    }

    function Abstract(): State
      reads this
    {
      State(columns, precomputed)
    }

    method GetTrainDataloader<L>(net: Net<L>, paddedNet: (seq<int>, seq<bool>) -> seq<L>, lp: LogProb<L>)
      returns (r: Result<()>)
      requires perDevice > 0 && IsNet(net) && RespectsAttention(net, paddedNet)
      modifies this
      ensures
        var computed := Computes(cfg, pad, net, lp, rows, BatchSize(refBatchSize, perDevice));
        && Abstract() == Call(old(Abstract()), precompute, computed)
        && (r.Failure? <==> CallRaises(old(Abstract()), precompute, computed))
      ensures BatchSize(refBatchSize, perDevice) == match refBatchSize
        case Some(size) => if size == 0 then perDevice else size
        case None => perDevice
    {
      if precompute && !precomputed {
        var computed := ComputeColumns(net, paddedNet, lp);
        if computed.Failure? { return Failure(computed.error); }
        var added := AddColumn(columns, RefChosenLogps, computed.value.chosen);
        if added.Failure? { return Failure(added.error); }
        columns := added.value;
        AppendKeepsOthers(old(columns), columns[|columns| - 1], RefRejectedLogps);
        added := AddColumn(columns, RefRejectedLogps, computed.value.rejected);
        if added.Failure? { return Failure(added.error); }
        columns := added.value;
        precomputed := true;
      }
      return Success(());
    }

    /** The loop over the batches and the two concatenations. */
    method ComputeColumns<L>(net: Net<L>, paddedNet: (seq<int>, seq<bool>) -> seq<L>, lp: LogProb<L>)
      returns (r: Result<Computed>)
      requires perDevice > 0 && IsNet(net) && RespectsAttention(net, paddedNet)
      ensures
        var size := BatchSize(refBatchSize, perDevice);
        && (r.Failure? <==> rows == [] || SomeBatchRaises(cfg, pad, Batches(rows, size)))
        && (r.Success? ==> r.value == Computed(RefColumn(cfg, pad, Chosen, net, lp, rows, size),
                                               RefColumn(cfg, pad, Rejected, net, lp, rows, size)))
    {
      var batches := Batches(rows, BatchSize(refBatchSize, perDevice));
      BatchesCoverRows(rows, BatchSize(refBatchSize, perDevice));
      var pieces := RefPasses(cfg, pad, net, paddedNet, lp, batches);
      if pieces.Failure? { return Failure(pieces.error); }
      if pieces.value.0 == [] { return Failure(RuntimeError); }
      return Success(Computed(Concat(pieces.value.0), Concat(pieces.value.1)));
    }
  }

  // ----- any number of calls

  /** The state after calls that would compute these values, one entry a call. */
  ghost function Calls(s: State, precompute: bool, computed: seq<Option<Computed>>): State
    decreases |computed|
  {
    if computed == [] then s else Calls(Call(s, precompute, computed[0]), precompute, computed[1..])
  }

  /** Neither column is there yet. */
  ghost predicate Ready(s: State) {
    !s.precomputed && !HasColumn(s.columns, RefChosenLogps) && !HasColumn(s.columns, RefRejectedLogps)
  }

  function Completed(columns: seq<Column<Logp>>, c: Computed): seq<Column<Logp>> {
    columns + [Column(RefChosenLogps, c.chosen)] + [Column(RefRejectedLogps, c.rejected)]
  }

  function FirstComputed(computed: seq<Option<Computed>>): Option<Computed> {
    if computed == [] then None else if computed[0].Some? then computed[0] else FirstComputed(computed[1..])
  }

  lemma {:induction false} PrecomputedStays(s: State, computed: seq<Option<Computed>>)
    requires s.precomputed
    ensures Calls(s, true, computed) == s
  {
    if computed != [] { PrecomputedStays(s, computed[1..]); }
  }

  /** After any number of calls the dataset has the columns of the first call that could be computed, and
      is as it was if none could. */
  lemma {:induction false} CacheAfterAnyCalls(s: State, computed: seq<Option<Computed>>)
    requires Ready(s)
    ensures Calls(s, true, computed)
            == match FirstComputed(computed)
               case None => s
               case Some(c) => State(Completed(s.columns, c), true)
  {
    if computed != [] {
      if computed[0].Some? {
        AppendKeepsOthers(s.columns, Column(RefChosenLogps, computed[0].value.chosen), RefRejectedLogps);
        PrecomputedStays(Call(s, true, computed[0]), computed[1..]);
      } else {
        CacheAfterAnyCalls(s, computed[1..]);
      }
    }
  }

  lemma CachedColumns(s: State, computed: seq<Option<Computed>>, which: Which)
    requires Ready(s)
    ensures
      var columns, first := Calls(s, true, computed).columns, FirstComputed(computed);
      Lookup(columns, NameOf(which))
      == if first.None? then None else Some(if which == Chosen then first.value.chosen else first.value.rejected)
  {
    CacheAfterAnyCalls(s, computed);
    match FirstComputed(computed)
    case None => LookupAppend(s.columns, [], NameOf(which)); assert s.columns + [] == s.columns;
    case Some(c) =>
      var added := [Column(RefChosenLogps, c.chosen)] + [Column(RefRejectedLogps, c.rejected)];
      assert Completed(s.columns, c) == s.columns + added;
      LookupAppend(s.columns, added, NameOf(which));
      assert added[1..] == [Column(RefRejectedLogps, c.rejected)];
  }

  // ----- where a row's value comes from

  /** Row i of a column is what the forward pass found for it in its batch. */
  lemma ColumnAt<L>(cfg: Config, pad: int, which: Which, net: Net<L>, lp: LogProb<L>, rows: seq<Row>, size: nat, i: nat)
    requires IsNet(net) && size > 0 && i < |rows|
    ensures |RefColumn(cfg, pad, which, net, lp, rows, size)| == |rows|
    ensures RefColumn(cfg, pad, which, net, lp, rows, size)[i]
            == BatchValues(cfg, pad, which, net, lp, BatchOf(rows, size, i))[i % size]
  {
    EachBatchAt(Scorer(cfg, pad, which, net, lp), rows, size, i);
  }

  // ----- the values used in training

  /** Whether the batch a row was precomputed in and the batch it is used in give it the same value. */
  predicate SameInBothBatches(cfg: Config, pad: int, which: Which, rows: seq<Row>, size: nat, index: seq<nat>, j: nat)
    requires size > 0 && j < |index| && forall k :: 0 <= k < |index| ==> index[k] < |rows|
  {
    var x, y := Collate(BatchOf(rows, size, index[j]), pad), Collate(Gather(rows, index), pad);
    DivisorsDoNotMatter(cfg, x, SideOf(x, which), index[j] % size, y)
  }

  lemma StoredIsOnTheFlyIff<L>(cfg: Config, pad: int, which: Which, net: Net<L>, rows: seq<Row>, size: nat,
                               index: seq<nat>, j: nat)
    requires IsNet(net) && size > 0 && j < |index| && forall k :: 0 <= k < |index| ==> index[k] < |rows|
    ensures forall lp: LogProb<L> :: |RefColumn(cfg, pad, which, net, lp, rows, size)| == |rows|
    ensures (forall lp: LogProb<L> :: RefColumn(cfg, pad, which, net, lp, rows, size)[index[j]]
                                      == BatchValues(cfg, pad, which, net, lp, Gather(rows, index))[j])
            <==> SameInBothBatches(cfg, pad, which, rows, size, index, j)
  {
    var i, batch := index[j], BatchOf(rows, size, index[j]);
    var x, y := Collate(batch, pad), Collate(Gather(rows, index), pad);
    CollatedExample(batch, pad, which, i % size);
    CollatedExample(Gather(rows, index), pad, which, j);
    PrecomputedIsOnTheFlyIff(cfg, net, x, SideOf(x, which), i % size, y, SideOf(y, which), j);
    forall lp: LogProb<L>
      ensures |RefColumn(cfg, pad, which, net, lp, rows, size)| == |rows|
      ensures RefColumn(cfg, pad, which, net, lp, rows, size)[i]
              == ExampleMeaning(cfg, x, SideOf(x, which), i % size, net, lp)
    {
      ColumnAt(cfg, pad, which, net, lp, rows, size, i);
    }
  }

  /** What successive calls would compute, with the reference model of each. */
  ghost function ComputedBy<L>(cfg: Config, pad: int, nets: seq<Net<L>>, lp: LogProb<L>, rows: seq<Row>, size: nat):
      (c: seq<Option<Computed>>)
    requires size > 0 && forall k :: 0 <= k < |nets| ==> IsNet(nets[k])
    ensures |c| == |nets|
  {
    seq(|nets|, k requires 0 <= k < |nets| => Computes(cfg, pad, nets[k], lp, rows, size))
  }

  /** What a batch reads from a column after these calls. */
  ghost function Cached<L>(s: State, cfg: Config, pad: int, which: Which, nets: seq<Net<L>>, lp: LogProb<L>,
                           rows: seq<Row>, size: nat): Option<seq<Logp>>
    requires size > 0 && forall k :: 0 <= k < |nets| ==> IsNet(nets[k])
  {
    Lookup(Calls(s, true, ComputedBy(cfg, pad, nets, lp, rows, size)).columns, NameOf(which))
  }

  lemma CachedIsFirstPass<L>(s: State, cfg: Config, pad: int, which: Which, nets: seq<Net<L>>, lp: LogProb<L>,
                             rows: seq<Row>, size: nat)
    requires Ready(s) && size > 0 && rows != [] && nets != [] && forall k :: 0 <= k < |nets| ==> IsNet(nets[k])
    requires !SomeBatchRaises(cfg, pad, Batches(rows, size))
    ensures Cached(s, cfg, pad, which, nets, lp, rows, size)
            == Some(RefColumn(cfg, pad, which, nets[0], lp, rows, size))
  {
    CachedColumns(s, ComputedBy(cfg, pad, nets, lp, rows, size), which);
  }

  /** Main result. After any number of calls, and for any batch drawn from a dataset whose batches can be
      scored, the cached value of a row is the value the first call's model has for it in the drawn
      batch, for every scoring, if and only if padding-free and IPO are not combined or the two batches'
      divisors do not matter. */
  lemma CachedIsOnTheFlyIff<L>(s: State, cfg: Config, pad: int, which: Which, nets: seq<Net<L>>, rows: seq<Row>,
                               size: nat, index: seq<nat>, j: nat)
    requires Ready(s) && size > 0 && nets != [] && forall k :: 0 <= k < |nets| ==> IsNet(nets[k])
    requires !SomeBatchRaises(cfg, pad, Batches(rows, size))
    requires j < |index| && forall k :: 0 <= k < |index| ==> index[k] < |rows|
    ensures forall lp: LogProb<L> ::
              && Cached(s, cfg, pad, which, nets, lp, rows, size).Some?
              && |Cached(s, cfg, pad, which, nets, lp, rows, size).value| == |rows|
    ensures (forall lp: LogProb<L> :: Cached(s, cfg, pad, which, nets, lp, rows, size).value[index[j]]
                                      == BatchValues(cfg, pad, which, nets[0], lp, Gather(rows, index))[j])
            <==> SameInBothBatches(cfg, pad, which, rows, size, index, j)
  {
    StoredIsOnTheFlyIff(cfg, pad, which, nets[0], rows, size, index, j);
    forall lp: LogProb<L>
      ensures Cached(s, cfg, pad, which, nets, lp, rows, size)
              == Some(RefColumn(cfg, pad, which, nets[0], lp, rows, size))
    {
      CachedIsFirstPass(s, cfg, pad, which, nets, lp, rows, size);
    }
  }

  // ----- two batch sizes, two values

  function Pair(): Row {
    Row([1], [2], [3])
  }

  function IpoFlat(): Config {
    Config(None, KeepStart, true, false, true)
  }

  lemma {:induction false} OneLossTokenEach(rows: seq<seq<bool>>)
    requires forall r :: 0 <= r < |rows| ==> Count(rows[r]) == 1
    ensures LossTokens(rows) == |rows|
  {
    if rows != [] { OneLossTokenEach(rows[1..]); }
  }

  lemma PairExample(n: nat, pad: int, which: Which, i: nat)
    requires i < n
    ensures
      var x := Collate(Fill(n, Pair()), pad);
      ExampleTokens(x, SideOf(x, which), i) == [1, if which == Chosen then 2 else 3]
      && ExampleLoss(x, SideOf(x, which), i) == [false, true]
  {
    CollatedExample(Fill(n, Pair()), pad, which, i);
  }

  lemma PairDivisor(n: nat, pad: int)
    ensures LossTokens(KeptLoss(IpoFlat(), Collate(Fill(n, Pair()), pad))) == 2 * n
  {
    var x := Collate(Fill(n, Pair()), pad);
    var rows := KeptLoss(IpoFlat(), x);
    forall r | 0 <= r < |rows| ensures Count(rows[r]) == 1 {
      PairExample(n, pad, if r < n then Chosen else Rejected, RowIndex(x, r));
      OneOfTwo(rows[r]);
    }
    OneLossTokenEach(rows);
  }

  lemma OneOfTwo(row: seq<bool>)
    requires row == [false, true]
    ensures Count(row) == 1
  {
    assert row[1..] == [true];
  }

  lemma PairValue<L>(n: nat, pad: int, net: Net<L>, i: nat)
    requires IsNet(net) && i < n
    ensures BatchValues(IpoFlat(), pad, Chosen, net, One<L>(), Fill(n, Pair()))[i] == Quotient(1.0, 2 * n)
  {
    PairExample(n, pad, Chosen, i);
    PairDivisor(n, pad);
    assert NextTokenLogps(One<L>(), net([1, 2]), [1, 2], [false, true]) == [1.0];
    assert Sum([1.0]) == 1.0 + Sum([]);
  }

  /** Two pairs precomputed one by one and used together: half of the one scored term is stored, a
      quarter of it is what the batch gives. */
  lemma StoredIpoIsTwiceTheBatchs<L>(pad: int, net: Net<L>)
    requires IsNet(net)
    ensures RefColumn(IpoFlat(), pad, Chosen, net, One<L>(), Fill(2, Pair()), 1)[0] == Logp.Value(0.5)
    ensures BatchValues(IpoFlat(), pad, Chosen, net, One<L>(), Fill(2, Pair()))[0] == Logp.Value(0.25)
  {
    ColumnAt(IpoFlat(), pad, Chosen, net, One<L>(), Fill(2, Pair()), 1, 0);
    assert BatchOf(Fill(2, Pair()), 1, 0) == Fill(1, Pair());
    PairValue(1, pad, net, 0);
    PairValue(2, pad, net, 0);
  }
}
