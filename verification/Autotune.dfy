/** The search for the largest batch whose estimated memory stays under the limit. */
module Autotune {
  import opened Tensors

  /** What the estimate depends on besides the batch size. */
  datatype Workload = Workload(totalRows: nat, seqLen: nat, hiddenSize: nat, vocabSize: nat, dtypeBytes: nat)

  const BYTES_TO_GB := 1073741824.0

  function FinalMultiplier(seqLen: nat, multiplier: Option<int>): int {
    match multiplier
    case Some(m) => m
    case None => if seqLen / 4096 > 4 then seqLen / 4096 else 4
  }

  function HiddenGb(w: Workload, b: nat): real {
    (b * w.seqLen * w.hiddenSize * w.dtypeBytes) as real / BYTES_TO_GB
  }

  function LogitsGb(w: Workload, b: nat, m: int): real
    requires w.totalRows > 0 && m != 0
  {
    var baseLogits := (b as real / w.totalRows as real)
      * b as real * w.seqLen as real * w.vocabSize as real * w.dtypeBytes as real / BYTES_TO_GB;
    baseLogits / m as real
  }

  /** A zero multiplier makes the estimate infinite or undefined, which never passes the test. */
  predicate Fits(w: Workload, b: nat, m: int, limitGb: real)
    requires w.totalRows > 0
  {
    m != 0 && HiddenGb(w, b) + LogitsGb(w, b, m) <= limitGb
  }

  function BatchSizes(totalRows: nat): seq<nat> {
    seq(totalRows, i requires 0 <= i < totalRows => totalRows - i)
  }

  function ValidMask(w: Workload, m: int, limitGb: real): seq<bool> {
    var sizes := BatchSizes(w.totalRows);
    seq(|sizes|, i requires 0 <= i < |sizes| => Fits(w, sizes[i], m, limitGb))
  }

  function AutotuneBatchAndChunks(w: Workload, multiplier: Option<int>, limitGb: real): (nat, int) {
    var m := FinalMultiplier(w.seqLen, multiplier);
    var valid := Indices(ValidMask(w, m, limitGb), 0);
    if valid == [] then (4, m) else (BatchSizes(w.totalRows)[valid[0]], m)
  }

  ghost predicate Feasible(w: Workload, m: int, limitGb: real) {
    exists b :: 1 <= b <= w.totalRows && Fits(w, b, m, limitGb)
  }

  /** The result is the largest batch that fits; when none does it is the constant 4, which may
      exceed the number of rows. */
  lemma LargestFittingBatch(w: Workload, multiplier: Option<int>, limitGb: real)
    ensures
      var (b, m) := AutotuneBatchAndChunks(w, multiplier, limitGb);
      && m == FinalMultiplier(w.seqLen, multiplier)
      && (Feasible(w, m, limitGb) ==>
          1 <= b <= w.totalRows && Fits(w, b, m, limitGb) && forall c :: b < c <= w.totalRows ==>
            !Fits(w, c, m, limitGb))
      && (!Feasible(w, m, limitGb) ==> b == 4)
  {
    var m := FinalMultiplier(w.seqLen, multiplier);
    var mask, sizes := ValidMask(w, m, limitGb), BatchSizes(w.totalRows);
    var valid := Indices(mask, 0);
    IndicesOrdered(mask, 0);
    forall c | 1 <= c <= w.totalRows && Fits(w, c, m, limitGb) ensures valid != [] && sizes[valid[0]] >= c {
      assert sizes[w.totalRows - c] == c && mask[w.totalRows - c];
      IndicesComplete(mask, 0, w.totalRows - c);
      var k :| 0 <= k < |valid| && valid[k] == w.totalRows - c;
      assert valid[0] <= valid[k];
    }
    if valid != [] { assert mask[valid[0]]; }
  }

  // ----- what the estimate is

  /** The automatic multiplier is the largest number of chunks, beyond four, that leaves every chunk 4096
      tokens. */
  lemma AutomaticMultiplierIff(seqLen: nat, m: int)
    ensures m <= FinalMultiplier(seqLen, None) <==> m <= 4 || m * 4096 <= seqLen
  {
  }

  /** The estimate in bytes: a hidden vector per token of the batch, and its logits, scaled by the batch's
      share of all rows and divided among the chunks. */
  lemma EstimateInBytes(w: Workload, b: nat, m: int)
    requires 0 < w.totalRows && m != 0
    ensures HiddenGb(w, b) * 1073741824.0 == (b * w.seqLen * w.hiddenSize * w.dtypeBytes) as real
    ensures LogitsGb(w, b, m) * 1073741824.0 * (m * w.totalRows) as real
            == (b * b * w.seqLen * w.vocabSize * w.dtypeBytes) as real
  {
  }

  // ----- how the estimate grows

  lemma MulUp(a: real, b: real, c: real, d: real)
    requires 0.0 <= a <= b && 0.0 <= c <= d
    ensures 0.0 <= a * c <= b * d
  {
    assert a * c <= b * c <= b * d;
  }

  /** Both parts of the estimate grow with the batch; the hidden part grows with the sequence
      length and the logits part with the sequence length per chunk. */
  lemma EstimateGrows(v: Workload, w: Workload, b: nat, c: nat, m: int, n: int)
    requires 0 < v.totalRows && b <= c && 0 < m && 0 < n
    requires w == v.(seqLen := w.seqLen) && v.seqLen <= w.seqLen && v.seqLen * n <= w.seqLen * m
    ensures HiddenGb(v, b) <= HiddenGb(w, c)
    ensures LogitsGb(v, b, m) <= LogitsGb(w, c, n)
  {
    NatMul(b, c, v.seqLen, w.seqLen);
    NatMul(b * v.seqLen, c * w.seqLen, v.hiddenSize, v.hiddenSize);
    NatMul(b * v.seqLen * v.hiddenSize, c * w.seqLen * v.hiddenSize, v.dtypeBytes, v.dtypeBytes);
    LogitsFactor(v, b, m);
    LogitsFactor(w, c, n);
    RatioUp(v.seqLen as real, m as real, w.seqLen as real, n as real);
    var p, q := b as real, c as real;
    MulUp(p, q, p, q);
    MulUp(p * p, q * q, v.seqLen as real / m as real, w.seqLen as real / n as real);
    var k := v.vocabSize as real * v.dtypeBytes as real / (v.totalRows as real * BYTES_TO_GB);
    MulUp(p * p * (v.seqLen as real / m as real), q * q * (w.seqLen as real / n as real), k, k);
  }

  lemma NatMul(a: nat, b: nat, c: nat, d: nat)
    requires a <= b && c <= d
    ensures a * c <= b * d
  {
    assert a * c <= b * c <= b * d;
  }

  lemma RatioUp(s: real, m: real, t: real, n: real)
    requires 0.0 < m && 0.0 < n && s * n <= t * m
    ensures s / m <= t / n
  {
    var x, y := s / m, t / n;
    assert s == x * m && t == y * n;
    assert s * n == x * (m * n) && t * m == y * (m * n);
    assert 0.0 < m * n;
    Cancel(x, y, m * n);
  }

  lemma Cancel(a: real, b: real, c: real)
    requires 0.0 < c && a * c <= b * c
    ensures a <= b
  {
    if b < a { ScaleStrict(b, a, c); }
  }

  lemma ScaleStrict(a: real, b: real, c: real)
    requires a < b && 0.0 < c
    ensures a * c < b * c
  {
  }

  lemma LogitsFactor(w: Workload, b: nat, m: int)
    requires 0 < w.totalRows && 0 < m
    ensures LogitsGb(w, b, m)
            == b as real * b as real * (w.seqLen as real / m as real)
               * (w.vocabSize as real * w.dtypeBytes as real / (w.totalRows as real * BYTES_TO_GB))
  {
    Factor(b as real, w.totalRows as real, w.seqLen as real, w.vocabSize as real, w.dtypeBytes as real, m as real);
  }

  lemma Factor(b: real, total: real, s: real, v: real, d: real, m: real)
    requires total > 0.0 && m > 0.0
    ensures ((b / total) * b * s * v * d / BYTES_TO_GB) / m == b * b * (s / m) * (v * d / (total * BYTES_TO_GB))
  {
    var g := BYTES_TO_GB;
    var x, y, z := b / total, s / m, (v * d) / (total * g);
    assert b == x * total && s == y * m && v * d == z * (total * g);
    assert (x * b * s * v * d) == (x * b * y) * m * (v * d) == (x * b * y * z * total) * (m * g);
    assert (x * b * s * v * d) / g == (x * b * y * z * total) * m;
    assert x * b * y * z * total == (x * total) * b * y * z;
  }

  /** Every batch smaller than one that fits fits too, so the fallback is taken exactly when there
      are no rows or not even one row fits. */
  lemma SmallerBatchesFit(w: Workload, m: int, limitGb: real, b: nat, c: nat)
    requires 0 < w.totalRows && 0 < m && b <= c && Fits(w, c, m, limitGb)
    ensures Fits(w, b, m, limitGb)
  {
    assert w.seqLen * m <= w.seqLen * m;
    EstimateGrows(w, w, b, c, m, m);
  }

  lemma FallbackIffOneRowDoesNotFit(w: Workload, m: int, limitGb: real)
    requires 0 < m
    ensures !Feasible(w, m, limitGb) <==> w.totalRows == 0 || !Fits(w, 1, m, limitGb)
  {
    if Feasible(w, m, limitGb) {
      var b :| 1 <= b <= w.totalRows && Fits(w, b, m, limitGb);
      SmallerBatchesFit(w, m, limitGb, 1, b);
    }
  }

  /** More memory never gives a smaller batch. */
  lemma NeverFallsAsLimitGrows(w: Workload, multiplier: Option<int>, low: real, high: real)
    requires low <= high && Feasible(w, FinalMultiplier(w.seqLen, multiplier), low)
    ensures AutotuneBatchAndChunks(w, multiplier, low).0 <= AutotuneBatchAndChunks(w, multiplier, high).0
  {
    LargestFittingBatch(w, multiplier, low);
    LargestFittingBatch(w, multiplier, high);
    assert Fits(w, AutotuneBatchAndChunks(w, multiplier, low).0, FinalMultiplier(w.seqLen, multiplier), high);
  }

  /** Longer sequences do not give a larger batch on this workload and limit. */
  ghost predicate NeverRises(v: Workload, seqLen: nat, multiplier: Option<int>, limitGb: real) {
    var w := v.(seqLen := seqLen);
    Feasible(v, FinalMultiplier(v.seqLen, multiplier), limitGb)
      && Feasible(w, FinalMultiplier(seqLen, multiplier), limitGb)
    ==> AutotuneBatchAndChunks(w, multiplier, limitGb).0 <= AutotuneBatchAndChunks(v, multiplier, limitGb).0
  }

  lemma LongerSequencesNeverRaise(v: Workload, seqLen: nat, multiplier: Option<int>, limitGb: real)
    requires v.seqLen <= seqLen
    requires 0 < FinalMultiplier(v.seqLen, multiplier) && 0 < FinalMultiplier(seqLen, multiplier)
    requires v.seqLen * FinalMultiplier(seqLen, multiplier) <= seqLen * FinalMultiplier(v.seqLen, multiplier)
    ensures NeverRises(v, seqLen, multiplier, limitGb)
  {
    var w := v.(seqLen := seqLen);
    var m, n := FinalMultiplier(v.seqLen, multiplier), FinalMultiplier(seqLen, multiplier);
    if Feasible(v, m, limitGb) && Feasible(w, n, limitGb) {
      LargestFittingBatch(v, multiplier, limitGb);
      LargestFittingBatch(w, multiplier, limitGb);
      var b := AutotuneBatchAndChunks(w, multiplier, limitGb).0;
      EstimateGrows(v, w, b, b, m, n);
      assert Fits(v, b, m, limitGb);
    }
  }

  /** With a fixed multiplier the batch never rises with the sequence length. */
  lemma FixedMultiplierNeverRises(v: Workload, seqLen: nat, m: int, limitGb: real)
    requires v.seqLen <= seqLen && 0 < m
    ensures NeverRises(v, seqLen, Some(m), limitGb)
  {
    NatMul(v.seqLen, seqLen, m, m);
    LongerSequencesNeverRaise(v, seqLen, Some(m), limitGb);
  }

  /** With the automatic multiplier it is so for every workload and limit if and only if the
      sequence length per chunk does not drop. */
  lemma AutomaticMultiplierNeverRisesIff(shorter: nat, longer: nat)
    requires shorter <= longer
    ensures (forall w: Workload, limitGb: real :: w.seqLen == shorter ==> NeverRises(w, longer, None, limitGb))
            <==> shorter * FinalMultiplier(longer, None) <= longer * FinalMultiplier(shorter, None)
  {
    if shorter * FinalMultiplier(longer, None) <= longer * FinalMultiplier(shorter, None) {
      forall w: Workload, limitGb: real | w.seqLen == shorter ensures NeverRises(w, longer, None, limitGb) {
        LongerSequencesNeverRaise(w, longer, None, limitGb);
      }
    } else {
      var limitGb := RisingLimit(shorter, longer);
      assert !NeverRises(Workload(2, shorter, 0, 1, 1073741824), longer, None, limitGb);
    }
  }

  /** When it drops, two rows and a limit that just admits both at the longer length show a rise. */
  lemma RisingLimit(shorter: nat, longer: nat) returns (limitGb: real)
    requires shorter <= longer
    requires shorter * FinalMultiplier(longer, None) > longer * FinalMultiplier(shorter, None)
    ensures !NeverRises(Workload(2, shorter, 0, 1, 1073741824), longer, None, limitGb)
  {
    var v := Workload(2, shorter, 0, 1, 1073741824);
    var w := v.(seqLen := longer);
    var m, n := FinalMultiplier(shorter, None), FinalMultiplier(longer, None);
    var x, y := shorter as real / m as real, longer as real / n as real;
    limitGb := 2.0 * y;
    forall b: nat ensures HiddenGb(v, b) == HiddenGb(w, b) == 0.0 {}
    LogitsFactor(v, 1, m);
    LogitsFactor(v, 2, m);
    LogitsFactor(w, 1, n);
    LogitsFactor(w, 2, n);
    assert LogitsGb(v, 1, m) == x / 2.0 && LogitsGb(v, 2, m) == 2.0 * x;
    assert LogitsGb(w, 1, n) == y / 2.0 && LogitsGb(w, 2, n) == 2.0 * y;
    RatioDown(shorter, longer);
    assert Fits(v, 1, m, limitGb) && !Fits(v, 2, m, limitGb);
    assert Fits(w, 2, n, limitGb);
    LargestFittingBatch(v, None, limitGb);
    LargestFittingBatch(w, None, limitGb);
  }

  lemma RatioDown(shorter: nat, longer: nat)
    requires shorter <= longer
    requires shorter * FinalMultiplier(longer, None) > longer * FinalMultiplier(shorter, None)
    ensures
      var x := shorter as real / FinalMultiplier(shorter, None) as real;
      var y := longer as real / FinalMultiplier(longer, None) as real;
      0.0 <= y < x <= 4.0 * y
  {
    var m, n := FinalMultiplier(shorter, None), FinalMultiplier(longer, None);
    var x, y := shorter as real / m as real, longer as real / n as real;
    ChunksKeepUp(shorter, longer, m, n);
    RatioUp(shorter as real, m as real, 4.0 * longer as real, n as real);
    assert 4.0 * longer as real / n as real == 4.0 * y;
    assert shorter as real == x * m as real && longer as real == y * n as real;
    assert shorter as real * n as real == x * (m as real * n as real);
    assert longer as real * m as real == y * (m as real * n as real);
    if x <= y { MulUp(x, y, m as real * n as real, m as real * n as real); }
  }

  lemma ChunksKeepUp(shorter: nat, longer: nat, m: nat, n: nat)
    requires shorter <= longer && m == FinalMultiplier(shorter, None) && n == FinalMultiplier(longer, None)
    ensures shorter * n <= 4 * longer * m
  {
    if n == 4 {
      NatMul(shorter, longer, 4, 4 * m);
    } else {
      NatMul(shorter, (m + 1) * 4096, n, n);
      NatMul(m + 1, 4 * m, n * 4096, longer);
      assert (m + 1) * 4096 * n == (m + 1) * (n * 4096);
    }
  }

  /** One token more can double the batch: 20479 tokens use four chunks, 20480 use five. */
  lemma OneMoreTokenCanRaiseTheBatch()
    ensures exists w: Workload, limitGb: real :: w.seqLen == 20479 && !NeverRises(w, 20480, None, limitGb)
  {
    AutomaticMultiplierNeverRisesIff(20479, 20480);
  }
}
