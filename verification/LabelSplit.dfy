/** How the BCO and KTO trainers split a batch by label, score the two halves and concatenate the
    losses again. */
module LabelSplit {
  import opened Tensors

  /** A label as the batch holds it. The split asks `is True` and `is False`, so a number that merely
      equals one of them is neither. */
  datatype Label = Boolean(b: bool) | Number(n: int)

  function TrueMask(labels: seq<Label>): seq<bool> {
    seq(|labels|, i requires 0 <= i < |labels| => labels[i] == Boolean(true))
  }

  function FalseMask(labels: seq<Label>): seq<bool> {
    seq(|labels|, i requires 0 <= i < |labels| => labels[i] == Boolean(false))
  }

  function ChosenIdx(labels: seq<Label>): seq<nat> {
    Indices(TrueMask(labels), 0)
  }

  function RejectedIdx(labels: seq<Label>): seq<nat> {
    Indices(FalseMask(labels), 0)
  }

  predicate AllBoolean(labels: seq<Label>) {
    forall i :: 0 <= i < |labels| ==> labels[i].Boolean?
  }

  predicate Increasing(s: seq<nat>) {
    forall j, k :: 0 <= j < k < |s| ==> s[j] < s[k]
  }

  /** Both lists are ordered and have no index in common; together they cover the batch if and only
      if every label is a boolean. */
  lemma SplitIsPartitionIff(labels: seq<Label>)
    ensures Increasing(ChosenIdx(labels)) && Increasing(RejectedIdx(labels))
    ensures forall i :: i in ChosenIdx(labels) ==> i < |labels| && labels[i] == Boolean(true)
    ensures forall i :: i in RejectedIdx(labels) ==> i < |labels| && labels[i] == Boolean(false)
    ensures (forall i: nat :: i < |labels| ==> i in ChosenIdx(labels) || i in RejectedIdx(labels))
      <==> AllBoolean(labels)
  {
    IndicesOrdered(TrueMask(labels), 0);
    IndicesOrdered(FalseMask(labels), 0);
    IndexedLabels(labels);
    forall i: nat | i < |labels|
      ensures i in ChosenIdx(labels) || i in RejectedIdx(labels) <==> labels[i].Boolean?
    {
      CoveredIffBoolean(labels, i);
    }
  }

  lemma CoveredIffBoolean(labels: seq<Label>, i: nat)
    requires i < |labels|
    ensures i in ChosenIdx(labels) || i in RejectedIdx(labels) <==> labels[i].Boolean?
  {
    IndexedLabels(labels);
    if labels[i] == Boolean(true) {
      IndicesComplete(TrueMask(labels), 0, i);
    } else if labels[i] == Boolean(false) {
      IndicesComplete(FalseMask(labels), 0, i);
    }
  }

  lemma IndexedLabels(labels: seq<Label>)
    ensures forall k :: 0 <= k < |ChosenIdx(labels)| ==> labels[ChosenIdx(labels)[k]] == Boolean(true)
    ensures forall k :: 0 <= k < |RejectedIdx(labels)| ==> labels[RejectedIdx(labels)[k]] == Boolean(false)
  {
    IndicesOrdered(TrueMask(labels), 0);
    IndicesOrdered(FalseMask(labels), 0);
  }

  /** Splitting values by label and concatenating the halves only reorders them. */
  lemma SplitReorders(labels: seq<Label>, values: seq<real>)
    requires |labels| == |values| && AllBoolean(labels)
    ensures multiset(Gather(values, ChosenIdx(labels)) + Gather(values, RejectedIdx(labels))) == multiset(values)
    ensures Sum(Gather(values, ChosenIdx(labels)) + Gather(values, RejectedIdx(labels))) == Sum(values)
    ensures |ChosenIdx(labels)| + |RejectedIdx(labels)| == |labels|
  {
    assert FalseMask(labels) == Not(TrueMask(labels));
    GatherIndices(TrueMask(labels), values);
    GatherIndices(FalseMask(labels), values);
    SelectPartition(TrueMask(labels), values);
    SumPermute(Gather(values, ChosenIdx(labels)) + Gather(values, RejectedIdx(labels)), values);
  }

  // ----- the KTO loss

  datatype LossType = Kto | ApoZeroUnpaired

  datatype KtoConfig = KtoConfig(sigmoid: real -> real, beta: real, lossType: LossType,
                                 desirableWeight: real, undesirableWeight: real)

  function Scale(weight: real, value: real): real {
    weight * value
  }

  function ChosenLoss(c: KtoConfig, logratio: real, kl: real): real {
    if c.lossType == Kto then 1.0 - c.sigmoid(Scale(c.beta, logratio - kl))
    else 1.0 - c.sigmoid(Scale(c.beta, logratio))
  }

  function RejectedLoss(c: KtoConfig, logratio: real, kl: real): real {
    if c.lossType == Kto then 1.0 - c.sigmoid(Scale(c.beta, kl - logratio)) else c.sigmoid(Scale(c.beta, logratio))
  }

  function WeightedChosenLoss(c: KtoConfig, policy: real, reference: real, kl: real): real {
    Scale(c.desirableWeight, ChosenLoss(c, policy - reference, kl))
  }

  function WeightedRejectedLoss(c: KtoConfig, policy: real, reference: real, kl: real): real {
    Scale(c.undesirableWeight, RejectedLoss(c, policy - reference, kl))
  }

  /** Weighted chosen losses followed by weighted rejected losses. */
  function KtoLosses(c: KtoConfig, policyChosen: seq<real>, policyRejected: seq<real>,
                     referenceChosen: seq<real>, referenceRejected: seq<real>, kl: real): seq<real>
    requires |policyChosen| == |referenceChosen| && |policyRejected| == |referenceRejected|
  {
    seq(|policyChosen|, i requires 0 <= i < |policyChosen| =>
      WeightedChosenLoss(c, policyChosen[i], referenceChosen[i], kl))
    + seq(|policyRejected|, i requires 0 <= i < |policyRejected| =>
      WeightedRejectedLoss(c, policyRejected[i], referenceRejected[i], kl))
  }

  /** The loss of one example, from its own label, policy and reference value. */
  function KtoExampleLoss(c: KtoConfig, chosen: bool, policy: real, reference: real, kl: real): real {
    if chosen then WeightedChosenLoss(c, policy, reference, kl) else WeightedRejectedLoss(c, policy, reference, kl)
  }

  function KtoExampleLosses(c: KtoConfig, labels: seq<Label>, policy: seq<real>, reference: seq<real>,
                            kl: real): seq<real>
    requires |labels| == |policy| == |reference| && AllBoolean(labels)
  {
    seq(|labels|, i requires 0 <= i < |labels| => KtoExampleLoss(c, labels[i].b, policy[i], reference[i], kl))
  }

  /** Mean of policy minus reference over the mismatched pairs, clamped at zero; zero when KL is not
      estimated. */
  function KlEstimate(calculateKl: bool, policyKl: seq<real>, referenceKl: seq<real>): real
    requires calculateKl ==> |policyKl| == |referenceKl| > 0
  {
    if !calculateKl then 0.0
    else
      var n := |policyKl|;
      var mean := Sum(Minus(policyKl, referenceKl)) / n as real;
      if mean < 0.0 then 0.0 else mean
  }

  /** The losses of a batch: policy and reference values split by label. */
  function KtoBatchLosses(c: KtoConfig, labels: seq<Label>, policy: seq<real>, reference: seq<real>,
                          kl: real): seq<real>
    requires |labels| == |policy| == |reference|
  {
    var chosen, rejected := ChosenIdx(labels), RejectedIdx(labels);
    KtoLosses(c, Gather(policy, chosen), Gather(policy, rejected), Gather(reference, chosen),
              Gather(reference, rejected), kl)
  }

  /** The same with the KL estimate the trainer computes from the mismatched pairs. */
  function KtoTrainerLosses(c: KtoConfig, calculateKl: bool, labels: seq<Label>, policy: seq<real>, policyKl: seq<real>,
                            reference: seq<real>, referenceKl: seq<real>): seq<real>
    requires |labels| == |policy| == |reference| && (calculateKl ==> |policyKl| == |referenceKl| > 0)
  {
    KtoBatchLosses(c, labels, policy, reference, KlEstimate(calculateKl, policyKl, referenceKl))
  }

  /** Policy and reference stay paired, and every example gets its own side's formula and weight. */
  lemma KtoLossesPairUp(c: KtoConfig, labels: seq<Label>, policy: seq<real>, reference: seq<real>, kl: real)
    requires |labels| == |policy| == |reference| && AllBoolean(labels)
    ensures
      var own := KtoExampleLosses(c, labels, policy, reference, kl);
      KtoBatchLosses(c, labels, policy, reference, kl)
        == Gather(own, ChosenIdx(labels)) + Gather(own, RejectedIdx(labels))
  {
    IndexedLabels(labels);
  }

  /** The losses of the split batch are the per-example losses in another order, so their sum is
      conserved. */
  lemma KtoLossesAreExampleLosses(c: KtoConfig, labels: seq<Label>, policy: seq<real>, reference: seq<real>, kl: real)
    requires |labels| == |policy| == |reference| && AllBoolean(labels)
    ensures
      var own, losses := KtoExampleLosses(c, labels, policy, reference, kl),
        KtoBatchLosses(c, labels, policy, reference, kl);
      multiset(losses) == multiset(own) && Sum(losses) == Sum(own)
  {
    KtoLossesPairUp(c, labels, policy, reference, kl);
    SplitReorders(labels, KtoExampleLosses(c, labels, policy, reference, kl));
  }

  // ----- what a KTO loss depends on

  /** The example whose loss is at position k: the chosen ones come first. */
  function Owner(labels: seq<Label>, k: nat): (i: nat)
    requires k < |ChosenIdx(labels)| + |RejectedIdx(labels)|
    ensures i < |labels| && labels[i] == Boolean(k < |ChosenIdx(labels)|)
  {
    IndexedLabels(labels);
    if k < |ChosenIdx(labels)| then ChosenIdx(labels)[k] else RejectedIdx(labels)[k - |ChosenIdx(labels)|]
  }

  /** The reward of an example is beta times its log-ratio. Under kto it is compared with beta times the
      KL estimate, under apo_zero_unpaired with zero; the loss is the weighted chance of not being on the
      example's own side. */
  lemma KtoLossAt(c: KtoConfig, labels: seq<Label>, policy: seq<real>, reference: seq<real>, kl: real, k: nat)
    requires |labels| == |policy| == |reference| && k < |ChosenIdx(labels)| + |RejectedIdx(labels)|
    ensures |KtoBatchLosses(c, labels, policy, reference, kl)| == |ChosenIdx(labels)| + |RejectedIdx(labels)|
    ensures KtoBatchLosses(c, labels, policy, reference, kl)[k]
            == LossOfReward(c, labels[Owner(labels, k)] == Boolean(true),
                            Scale(c.beta, policy[Owner(labels, k)] - reference[Owner(labels, k)]),
                            if c.lossType == Kto then Scale(c.beta, kl) else 0.0)
  {
    IndexedLabels(labels);
    var i := Owner(labels, k);
    Excess(c.beta, policy[i] - reference[i], kl);
  }

  function LossOfReward(c: KtoConfig, chosen: bool, reward: real, threshold: real): real {
    if chosen then Scale(c.desirableWeight, 1.0 - c.sigmoid(reward - threshold))
    else if c.lossType == Kto then Scale(c.undesirableWeight, 1.0 - c.sigmoid(threshold - reward))
    else Scale(c.undesirableWeight, c.sigmoid(reward))
  }

  lemma Excess(beta: real, logratio: real, kl: real)
    ensures Scale(beta, logratio - kl) == Scale(beta, logratio) - Scale(beta, kl)
    ensures Scale(beta, kl - logratio) == Scale(beta, kl) - Scale(beta, logratio)
  {
  }

  /** Multiplying a weight multiplies exactly the losses of its own side. */
  lemma WeightsScaleTheirSide(c: KtoConfig, factor: real, labels: seq<Label>, policy: seq<real>, reference: seq<real>,
                              kl: real, k: nat)
    requires |labels| == |policy| == |reference| && k < |ChosenIdx(labels)| + |RejectedIdx(labels)|
    ensures
      var loss := KtoBatchLosses(c, labels, policy, reference, kl)[k];
      && KtoBatchLosses(c.(desirableWeight := factor * c.desirableWeight), labels, policy, reference, kl)[k]
         == (if labels[Owner(labels, k)] == Boolean(true) then factor * loss else loss)
      && KtoBatchLosses(c.(undesirableWeight := factor * c.undesirableWeight), labels, policy, reference, kl)[k]
         == (if labels[Owner(labels, k)] == Boolean(true) then loss else factor * loss)
  {
    var i := Owner(labels, k);
    KtoLossAt(c, labels, policy, reference, kl, k);
    KtoLossAt(c.(desirableWeight := factor * c.desirableWeight), labels, policy, reference, kl, k);
    KtoLossAt(c.(undesirableWeight := factor * c.undesirableWeight), labels, policy, reference, kl, k);
    OneSideScales(c, factor, labels[i] == Boolean(true), Scale(c.beta, policy[i] - reference[i]),
                  if c.lossType == Kto then Scale(c.beta, kl) else 0.0);
  }

  lemma OneSideScales(c: KtoConfig, factor: real, chosen: bool, reward: real, threshold: real)
    ensures LossOfReward(c.(desirableWeight := factor * c.desirableWeight), chosen, reward, threshold)
            == if chosen then factor * LossOfReward(c, chosen, reward, threshold)
               else LossOfReward(c, chosen, reward, threshold)
    ensures LossOfReward(c.(undesirableWeight := factor * c.undesirableWeight), chosen, reward, threshold)
            == if chosen then LossOfReward(c, chosen, reward, threshold)
               else factor * LossOfReward(c, chosen, reward, threshold)
  {
    Regroup(factor, c.desirableWeight, 1.0 - c.sigmoid(reward - threshold));
    Regroup(factor, c.undesirableWeight, 1.0 - c.sigmoid(threshold - reward));
    Regroup(factor, c.undesirableWeight, c.sigmoid(reward));
  }

  lemma Regroup(x: real, y: real, z: real)
    ensures Scale(x * y, z) == x * Scale(y, z)
  {
  }

  ghost predicate NonDecreasing(f: real -> real) {
    forall x, y :: x <= y ==> NoMore(f(x), f(y))
  }

  predicate NoMore(x: real, y: real) {
    x <= y
  }

  lemma ScaleUp(k: real, x: real, y: real)
    requires 0.0 <= k && x <= y
    ensures Scale(k, x) <= Scale(k, y)
  {
  }

  /** Raising policy values raises no chosen example's loss and lowers no rejected one's. */
  lemma LossesFollowThePolicy(c: KtoConfig, labels: seq<Label>, policy: seq<real>, higher: seq<real>,
                              reference: seq<real>, kl: real, k: nat)
    requires |labels| == |policy| == |higher| == |reference| && k < |ChosenIdx(labels)| + |RejectedIdx(labels)|
    requires forall i :: 0 <= i < |policy| ==> policy[i] <= higher[i]
    requires NonDecreasing(c.sigmoid) && 0.0 <= c.beta && 0.0 <= c.desirableWeight && 0.0 <= c.undesirableWeight
    ensures
      var before, after := KtoBatchLosses(c, labels, policy, reference, kl)[k],
        KtoBatchLosses(c, labels, higher, reference, kl)[k];
      if labels[Owner(labels, k)] == Boolean(true) then after <= before else before <= after
  {
    var i := Owner(labels, k);
    var x, y := Scale(c.beta, policy[i] - reference[i]), Scale(c.beta, higher[i] - reference[i]);
    KtoLossAt(c, labels, policy, reference, kl, k);
    KtoLossAt(c, labels, higher, reference, kl, k);
    ScaleUp(c.beta, policy[i] - reference[i], higher[i] - reference[i]);
    SidesFollow(c, x, y, if c.lossType == Kto then Scale(c.beta, kl) else 0.0);
  }

  lemma SidesFollow(c: KtoConfig, x: real, y: real, threshold: real)
    requires NonDecreasing(c.sigmoid) && 0.0 <= c.desirableWeight && 0.0 <= c.undesirableWeight && x <= y
    ensures LossOfReward(c, true, y, threshold) <= LossOfReward(c, true, x, threshold)
    ensures LossOfReward(c, false, x, threshold) <= LossOfReward(c, false, y, threshold)
  {
    assert NoMore(c.sigmoid(x - threshold), c.sigmoid(y - threshold));
    assert NoMore(c.sigmoid(threshold - y), c.sigmoid(threshold - x)) && NoMore(c.sigmoid(x), c.sigmoid(y));
    ScaleUp(c.desirableWeight, 1.0 - c.sigmoid(y - threshold), 1.0 - c.sigmoid(x - threshold));
    ScaleUp(c.undesirableWeight, 1.0 - c.sigmoid(threshold - x), 1.0 - c.sigmoid(threshold - y));
    ScaleUp(c.undesirableWeight, c.sigmoid(x), c.sigmoid(y));
  }

  /** The mean of policy minus reference where it is positive, and zero where it is not or where KL is
      not estimated. */
  predicate IsKlEstimate(calculateKl: bool, policyKl: seq<real>, referenceKl: seq<real>, kl: real) {
    var total := Sum(policyKl) - Sum(referenceKl);
    kl >= 0.0
    && if calculateKl then |policyKl| as real * kl >= total && (kl > 0.0 ==> |policyKl| as real * kl == total)
       else kl == 0.0
  }

  /** There is exactly one such number. */
  lemma KlEstimateIsClampedMean(calculateKl: bool, policyKl: seq<real>, referenceKl: seq<real>, kl: real)
    requires calculateKl ==> |policyKl| == |referenceKl| > 0
    ensures IsKlEstimate(calculateKl, policyKl, referenceKl, kl)
      <==> kl == KlEstimate(calculateKl, policyKl, referenceKl)
  {
    if calculateKl {
      SumMinus(policyKl, referenceKl);
      ClampedQuotient(Sum(Minus(policyKl, referenceKl)), |policyKl| as real, kl);
    }
  }

  lemma ClampedQuotient(total: real, n: real, kl: real)
    requires n > 0.0
    ensures kl >= 0.0 && n * kl >= total && (kl > 0.0 ==> n * kl == total)
      <==> kl == if total / n < 0.0 then 0.0 else total / n
  {
    var q := total / n;
    assert q * n == total;
    if kl < q { LessTimes(kl, q, n); }
    if kl > q { LessTimes(q, kl, n); }
    if q < 0.0 { LessTimes(q, 0.0, n); }
  }

  lemma LessTimes(x: real, y: real, n: real)
    requires x < y && n > 0.0
    ensures n * x < n * y
  {
  }

  /** The losses of a training step are computed with it. */
  lemma TrainerUsesKlEstimate(c: KtoConfig, calculateKl: bool, labels: seq<Label>, policy: seq<real>,
                              policyKl: seq<real>, reference: seq<real>, referenceKl: seq<real>, kl: real)
    requires |labels| == |policy| == |reference| && (calculateKl ==> |policyKl| == |referenceKl| > 0)
    requires IsKlEstimate(calculateKl, policyKl, referenceKl, kl)
    ensures KtoTrainerLosses(c, calculateKl, labels, policy, policyKl, reference, referenceKl)
            == KtoBatchLosses(c, labels, policy, reference, kl)
  {
    KlEstimateIsClampedMean(calculateKl, policyKl, referenceKl, kl);
  }

  // ----- the BCO loss

  /** negLogSigmoid stands for the negated log-sigmoid; density is the weight of a rejected example,
      computed from its embedding when the underlying distributions are matched. */
  datatype BcoConfig<!E> = BcoConfig(negLogSigmoid: real -> real, beta: real, matchDistribution: bool,
                                     density: E -> real)

  function BcoLosses<E>(c: BcoConfig<E>, policyChosen: seq<real>, policyRejected: seq<real>, referenceChosen: seq<real>,
                        referenceRejected: seq<real>, rejectedEmbeddings: seq<E>, delta: real): seq<real>
    requires |policyChosen| == |referenceChosen| && |policyRejected| == |referenceRejected| == |rejectedEmbeddings|
  {
    var chosen := seq(|policyChosen|, i requires 0 <= i < |policyChosen| =>
      BcoChosenLoss(c, policyChosen[i], referenceChosen[i], delta));
    var rejected := seq(|policyRejected|, i requires 0 <= i < |policyRejected| =>
      BcoRejectedLoss(c, policyRejected[i], referenceRejected[i], delta));
    if c.matchDistribution then
      seq(|chosen|, i requires 0 <= i < |chosen| => 1.0 * chosen[i])
      + seq(|rejected|, i requires 0 <= i < |rejected| => Scale(c.density(rejectedEmbeddings[i]), rejected[i]))
    else chosen + rejected
  }

  function BcoChosenLoss<E>(c: BcoConfig<E>, policy: real, reference: real, delta: real): real {
    c.negLogSigmoid(Scale(c.beta, policy - reference) - delta)
  }

  function BcoRejectedLoss<E>(c: BcoConfig<E>, policy: real, reference: real, delta: real): real {
    c.negLogSigmoid(-(Scale(c.beta, policy - reference) - delta))
  }

  function BcoExampleLoss<E>(c: BcoConfig<E>, chosen: bool, policy: real, reference: real, embedding: E,
                             delta: real): real {
    if chosen then BcoChosenLoss(c, policy, reference, delta)
    else if c.matchDistribution then Scale(c.density(embedding), BcoRejectedLoss(c, policy, reference, delta))
    else BcoRejectedLoss(c, policy, reference, delta)
  }

  function BcoExampleLosses<E>(c: BcoConfig<E>, labels: seq<Label>, policy: seq<real>, reference: seq<real>,
                               embeddings: seq<E>, delta: real): seq<real>
    requires |labels| == |policy| == |reference| == |embeddings| && AllBoolean(labels)
  {
    seq(|labels|, i requires 0 <= i < |labels| =>
      BcoExampleLoss(c, labels[i].b, policy[i], reference[i], embeddings[i], delta))
  }

  /** Rewards of the chosen examples followed by those of the rejected ones; the running mean over
      them and everything before is the loss's delta. */
  function BcoRewards(beta: real, labels: seq<Label>, policy: seq<real>, reference: seq<real>): seq<real>
    requires |labels| == |policy| == |reference|
  {
    var rewards := seq(|labels|, i requires 0 <= i < |labels| => Scale(beta, policy[i] - reference[i]));
    Gather(rewards, ChosenIdx(labels)) + Gather(rewards, RejectedIdx(labels))
  }

  function BcoBatchLosses<E>(c: BcoConfig<E>, labels: seq<Label>, policy: seq<real>, reference: seq<real>,
                             embeddings: seq<E>, delta: real): seq<real>
    requires |labels| == |policy| == |reference| == |embeddings|
  {
    var chosen, rejected := ChosenIdx(labels), RejectedIdx(labels);
    BcoLosses(c, Gather(policy, chosen), Gather(policy, rejected), Gather(reference, chosen),
              Gather(reference, rejected), Gather(embeddings, rejected), delta)
  }

  /** The same with the delta the trainer computes; runningMean stands for the moments it keeps. */
  function BcoTrainerLosses<E>(c: BcoConfig<E>, runningMean: seq<real> -> real, labels: seq<Label>, policy: seq<real>,
                               reference: seq<real>, embeddings: seq<E>): seq<real>
    requires |labels| == |policy| == |reference| == |embeddings|
  {
    BcoBatchLosses(c, labels, policy, reference, embeddings, runningMean(BcoRewards(c.beta, labels, policy, reference)))
  }

  lemma BcoLossesPairUp<E>(c: BcoConfig<E>, labels: seq<Label>, policy: seq<real>, reference: seq<real>,
                           embeddings: seq<E>, delta: real)
    requires |labels| == |policy| == |reference| == |embeddings| && AllBoolean(labels)
    ensures
      var own := BcoExampleLosses(c, labels, policy, reference, embeddings, delta);
      BcoBatchLosses(c, labels, policy, reference, embeddings, delta)
      == Gather(own, ChosenIdx(labels)) + Gather(own, RejectedIdx(labels))
  {
    IndexedLabels(labels);
  }

  /** The same for the BCO loss, with the density weights on the rejected side. */
  lemma BcoLossesAreExampleLosses<E>(c: BcoConfig<E>, labels: seq<Label>, policy: seq<real>, reference: seq<real>,
                                     embeddings: seq<E>, delta: real)
    requires |labels| == |policy| == |reference| == |embeddings| && AllBoolean(labels)
    ensures
      var own := BcoExampleLosses(c, labels, policy, reference, embeddings, delta);
      var losses := BcoBatchLosses(c, labels, policy, reference, embeddings, delta);
      multiset(losses) == multiset(own) && Sum(losses) == Sum(own)
  {
    BcoLossesPairUp(c, labels, policy, reference, embeddings, delta);
    SplitReorders(labels, BcoExampleLosses(c, labels, policy, reference, embeddings, delta));
  }

  // ----- what a BCO loss depends on

  /** The reward at position k is its owner's. */
  lemma BcoRewardAt(beta: real, labels: seq<Label>, policy: seq<real>, reference: seq<real>, k: nat)
    requires |labels| == |policy| == |reference| && k < |ChosenIdx(labels)| + |RejectedIdx(labels)|
    ensures |BcoRewards(beta, labels, policy, reference)| == |ChosenIdx(labels)| + |RejectedIdx(labels)|
    ensures BcoRewards(beta, labels, policy, reference)[k]
            == Scale(beta, policy[Owner(labels, k)] - reference[Owner(labels, k)])
  {
    IndexedLabels(labels);
  }

  /** A chosen example pays for a reward below delta, a rejected one for a reward above it; the density
      weighs the rejected ones, if the distributions are matched. */
  lemma BcoLossAt<E>(c: BcoConfig<E>, labels: seq<Label>, policy: seq<real>, reference: seq<real>,
                     embeddings: seq<E>, delta: real, k: nat)
    requires |labels| == |policy| == |reference| == |embeddings| && k < |ChosenIdx(labels)| + |RejectedIdx(labels)|
    ensures |BcoBatchLosses(c, labels, policy, reference, embeddings, delta)|
            == |ChosenIdx(labels)| + |RejectedIdx(labels)|
    ensures |BcoRewards(c.beta, labels, policy, reference)| == |ChosenIdx(labels)| + |RejectedIdx(labels)|
    ensures BcoBatchLosses(c, labels, policy, reference, embeddings, delta)[k]
            == BcoLossOfReward(c, labels[Owner(labels, k)] == Boolean(true), embeddings[Owner(labels, k)],
                               BcoRewards(c.beta, labels, policy, reference)[k], delta)
  {
    IndexedLabels(labels);
    BcoRewardAt(c.beta, labels, policy, reference, k);
    var chosen, rejected := ChosenIdx(labels), RejectedIdx(labels);
    if k < |chosen| {
      ChosenAt(c, Gather(policy, chosen), Gather(policy, rejected), Gather(reference, chosen),
               Gather(reference, rejected), Gather(embeddings, rejected), delta, k);
    } else {
      RejectedAt(c, Gather(policy, chosen), Gather(policy, rejected), Gather(reference, chosen),
                 Gather(reference, rejected), Gather(embeddings, rejected), delta, k - |chosen|);
    }
  }

  function BcoLossOfReward<E>(c: BcoConfig<E>, chosen: bool, embedding: E, reward: real, delta: real): real {
    if chosen then c.negLogSigmoid(reward - delta)
    else if c.matchDistribution then Scale(c.density(embedding), c.negLogSigmoid(delta - reward))
    else c.negLogSigmoid(delta - reward)
  }

  lemma ChosenAt<E>(c: BcoConfig<E>, policyChosen: seq<real>, policyRejected: seq<real>, referenceChosen: seq<real>,
                    referenceRejected: seq<real>, rejectedEmbeddings: seq<E>, delta: real, k: nat)
    requires |policyChosen| == |referenceChosen| && |policyRejected| == |referenceRejected| == |rejectedEmbeddings|
    requires k < |policyChosen|
    ensures
      var losses := BcoLosses(c, policyChosen, policyRejected, referenceChosen, referenceRejected, rejectedEmbeddings,
                              delta);
      && |losses| == |policyChosen| + |policyRejected|
      && losses[k] == c.negLogSigmoid(Scale(c.beta, policyChosen[k] - referenceChosen[k]) - delta)
  {
  }

  lemma RejectedAt<E>(c: BcoConfig<E>, policyChosen: seq<real>, policyRejected: seq<real>, referenceChosen: seq<real>,
                      referenceRejected: seq<real>, rejectedEmbeddings: seq<E>, delta: real, k: nat)
    requires |policyChosen| == |referenceChosen| && |policyRejected| == |referenceRejected| == |rejectedEmbeddings|
    requires k < |policyRejected|
    ensures
      var losses := BcoLosses(c, policyChosen, policyRejected, referenceChosen, referenceRejected, rejectedEmbeddings,
                              delta);
      && |losses| == |policyChosen| + |policyRejected|
      && losses[|policyChosen| + k]
         == BcoLossOfReward(c, false, rejectedEmbeddings[k],
                            Scale(c.beta, policyRejected[k] - referenceRejected[k]), delta)
  {
  }

  lemma BcoLossOf<E>(c: BcoConfig<E>, labels: seq<Label>, policy: seq<real>, reference: seq<real>,
                     embeddings: seq<E>, delta: real, k: nat)
    requires |labels| == |policy| == |reference| == |embeddings| && k < |ChosenIdx(labels)| + |RejectedIdx(labels)|
    ensures |BcoBatchLosses(c, labels, policy, reference, embeddings, delta)|
            == |ChosenIdx(labels)| + |RejectedIdx(labels)|
    ensures BcoBatchLosses(c, labels, policy, reference, embeddings, delta)[k]
            == BcoLossOfReward(c, labels[Owner(labels, k)] == Boolean(true), embeddings[Owner(labels, k)],
                               Scale(c.beta, policy[Owner(labels, k)] - reference[Owner(labels, k)]), delta)
  {
    BcoLossAt(c, labels, policy, reference, embeddings, delta, k);
    BcoRewardAt(c.beta, labels, policy, reference, k);
  }

  ghost predicate NonIncreasing(f: real -> real) {
    forall x, y :: x <= y ==> NoMore(f(y), f(x))
  }

  /** For one delta, raising policy values raises no chosen example's loss and lowers no rejected one's. */
  lemma BcoLossesFollowThePolicy<E>(c: BcoConfig<E>, labels: seq<Label>, policy: seq<real>, higher: seq<real>,
                                    reference: seq<real>, embeddings: seq<E>, delta: real, k: nat)
    requires |labels| == |policy| == |higher| == |reference| == |embeddings|
    requires k < |ChosenIdx(labels)| + |RejectedIdx(labels)|
    requires forall i :: 0 <= i < |policy| ==> policy[i] <= higher[i]
    requires NonIncreasing(c.negLogSigmoid) && 0.0 <= c.beta && forall e :: 0.0 <= c.density(e)
    ensures
      var before, after := BcoBatchLosses(c, labels, policy, reference, embeddings, delta)[k],
        BcoBatchLosses(c, labels, higher, reference, embeddings, delta)[k];
      if labels[Owner(labels, k)] == Boolean(true) then after <= before else before <= after
  {
    var i := Owner(labels, k);
    BcoLossOf(c, labels, policy, reference, embeddings, delta, k);
    BcoLossOf(c, labels, higher, reference, embeddings, delta, k);
    BcoSidesFollow(c, labels[i] == Boolean(true), embeddings[i], policy[i] - reference[i], higher[i] - reference[i],
                   delta);
  }

  lemma BcoSidesFollow<E>(c: BcoConfig<E>, chosen: bool, embedding: E, low: real, high: real, delta: real)
    requires NonIncreasing(c.negLogSigmoid) && 0.0 <= c.beta && 0.0 <= c.density(embedding) && low <= high
    ensures
      var before, after := BcoLossOfReward(c, chosen, embedding, Scale(c.beta, low), delta),
        BcoLossOfReward(c, chosen, embedding, Scale(c.beta, high), delta);
      if chosen then after <= before else before <= after
  {
    ScaleUp(c.beta, low, high);
    var x, y := Scale(c.beta, low), Scale(c.beta, high);
    assert NoMore(c.negLogSigmoid(y - delta), c.negLogSigmoid(x - delta));
    assert NoMore(c.negLogSigmoid(delta - x), c.negLogSigmoid(delta - y));
    ScaleUp(c.density(embedding), c.negLogSigmoid(delta - x), c.negLogSigmoid(delta - y));
  }

  /** In a training step delta is the running mean over exactly the rewards of the batch. */
  lemma BcoTrainerUsesOwnRewards<E>(c: BcoConfig<E>, runningMean: seq<real> -> real, labels: seq<Label>,
                                    policy: seq<real>, reference: seq<real>, embeddings: seq<E>, rewards: seq<real>)
    requires |labels| == |policy| == |reference| == |embeddings|
    requires |rewards| == |ChosenIdx(labels)| + |RejectedIdx(labels)|
    requires forall k: nat :: k < |rewards| ==>
      rewards[k] == Scale(c.beta, policy[Owner(labels, k)] - reference[Owner(labels, k)])
    ensures BcoTrainerLosses(c, runningMean, labels, policy, reference, embeddings)
            == BcoBatchLosses(c, labels, policy, reference, embeddings, runningMean(rewards))
  {
    var own := BcoRewards(c.beta, labels, policy, reference);
    forall k: nat | k < |rewards| ensures |own| == |rewards| && own[k] == rewards[k] {
      BcoRewardAt(c.beta, labels, policy, reference, k);
    }
    if rewards == [] { IndexedLabels(labels); }
    assert own == rewards;
  }

  // ----- what the KTO trainer counts

  /** `labels.sum()` counts a number as what it is. */
  function LabelValue(l: Label): int {
    match l
    case Boolean(b) => if b then 1 else 0
    case Number(n) => n
  }

  function NumChosen(labels: seq<Label>): int {
    if labels == [] then 0 else LabelValue(labels[0]) + NumChosen(labels[1..])
  }

  function NumRejected(labels: seq<Label>): int {
    |labels| - NumChosen(labels)
  }

  /** What the log makes of one batch: the sum over the split's examples divided by the count, if the
      count is positive. */
  function LoggedQuotient(rewards: seq<real>, idx: seq<nat>, count: int): Option<real>
    requires forall k :: 0 <= k < |idx| ==> idx[k] < |rewards|
  {
    if count > 0 then Some(Sum(Gather(rewards, idx)) / count as real) else None
  }

  /** The average over the split's examples, if there are any. */
  function SplitAverage(rewards: seq<real>, idx: seq<nat>): Option<real>
    requires forall k :: 0 <= k < |idx| ==> idx[k] < |rewards|
  {
    if |idx| > 0 then Some(Sum(Gather(rewards, idx)) / |idx| as real) else None
  }

  ghost predicate QuotientsAreAverages(labels: seq<Label>, rewards: seq<real>)
    requires |labels| == |rewards|
  {
    && LoggedQuotient(rewards, ChosenIdx(labels), NumChosen(labels)) == SplitAverage(rewards, ChosenIdx(labels))
    && LoggedQuotient(rewards, RejectedIdx(labels), NumRejected(labels)) == SplitAverage(rewards, RejectedIdx(labels))
  }

  lemma {:induction false} BooleansCount(labels: seq<Label>)
    requires AllBoolean(labels)
    ensures NumChosen(labels) == Count(TrueMask(labels))
  {
    if labels != [] {
      assert TrueMask(labels)[1..] == TrueMask(labels[1..]);
      BooleansCount(labels[1..]);
    }
  }

  /** The two masks miss exactly the labels that are no booleans. */
  lemma {:induction false} MissedLabels(labels: seq<Label>)
    ensures Count(TrueMask(labels)) + Count(FalseMask(labels)) <= |labels|
    ensures Count(TrueMask(labels)) + Count(FalseMask(labels)) == |labels| <==> AllBoolean(labels)
  {
    if labels != [] {
      var tail := labels[1..];
      assert TrueMask(labels)[1..] == TrueMask(tail) && FalseMask(labels)[1..] == FalseMask(tail);
      MissedLabels(tail);
      assert AllBoolean(labels) <==> labels[0].Boolean? && AllBoolean(tail) by {
        assert forall i :: 0 < i < |labels| ==> labels[i] == tail[i - 1];
      }
    }
  }

  lemma {:induction false} SumOfOnes(ones: seq<real>)
    requires forall i :: 0 <= i < |ones| ==> ones[i] == 1.0
    ensures Sum(ones) == |ones| as real
  {
    if ones != [] { SumOfOnes(ones[1..]); }
  }

  /** The KTO trainer divides sums over the split by counts over the labels. The quotients are the
      averages of both splits, for all rewards, if and only if every label is a boolean. */
  lemma KtoQuotientsAreAveragesIff(labels: seq<Label>)
    ensures (forall rewards: seq<real> :: |rewards| == |labels| ==> QuotientsAreAverages(labels, rewards))
      <==> AllBoolean(labels)
  {
    MissedLabels(labels);
    if AllBoolean(labels) {
      BooleansCount(labels);
    } else {
      var ones := seq(|labels|, _ => 1.0);
      CountTooHigh(ones, ChosenIdx(labels), NumChosen(labels));
      CountTooHigh(ones, RejectedIdx(labels), NumRejected(labels));
      assert !QuotientsAreAverages(labels, ones);
    }
  }

  /** A count above the number of examples gives no average of ones. */
  lemma CountTooHigh(ones: seq<real>, idx: seq<nat>, count: int)
    requires forall i :: 0 <= i < |ones| ==> ones[i] == 1.0
    requires forall k :: 0 <= k < |idx| ==> idx[k] < |ones|
    ensures count > |idx| ==> LoggedQuotient(ones, idx, count) != SplitAverage(ones, idx)
  {
    SumOfOnes(Gather(ones, idx));
    if count > |idx| > 0 {
      var q := |idx| as real / count as real;
      assert q * count as real == |idx| as real;
    }
  }
}
