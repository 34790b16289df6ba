# Sequence bookkeeping of the preference trainers, and graceful shutdown

The preference trainers in `unsloth_compiled_cache/` repack, flatten, chunk, roll, slice, stack and
cache token sequences so that training is cheap. Each of these forms is meant to give every example
the value it would have on its own. This project models that bookkeeping and proves where it does so.
It also models the shutdown protocol of the HTTP server as a state machine over signals and promises.

The neural network, the log-probability of a token under a logit vector, the scalar loss shapes and the
tokenizer are parameters: every result holds for all of them. Real numbers stand for floats.

| module | what it covers |
|---|---|
| `Tensors` | rows, boolean masks, clipping Python slices, sums, concatenation |
| `Packing` | left-packing, completion masks, scatter alignment, tool masks |
| `Chunking` | the two chunked log-probability loops |
| `Autotune` | the search for the largest batch that fits in memory |
| `Aot` | the two optimal-transport losses |
| `Flush` | the flush-and-truncate block shared by the DPO forward pass and its Liger path |
| `DpoForward` | rolled labels, padding-free flattening, `logits_to_keep`, the split index, the IPO divisor |
| `DpoTrainer` | the DPO forward pass from collated batch to per-example log-probabilities |
| `BatchLogps` | `get_batch_logps` and its relation to the rolled form |
| `CpoTokenize` | tokenising and truncating one CPO row |
| `CpoForward` | the stacked CPO batch and its single forward pass |
| `LabelSplit` | the KTO and BCO split by label and the losses over it |
| `Dataset` | the unshuffled loader and columns added by name, shared by the two caches |
| `DpoCache` | the two precomputed reference columns of the DPO trainer |
| `RefCache` | the precomputed reference columns of the KTO and BCO trainers |
| `Metrics` | stored and logged training metrics |
| `Shutdown` | `waitForServerShutdown` |

The end-to-end results are `DpoTrainer.ConcatenatedForward` (whatever the padding, the neighbours in the batch
and the optimisation, an example's log-probability is that of its own truncated tokens, up to the IPO divisor
named below), `CpoForward.ConcatenatedForward` (one stacked pass equals two separate ones),
`CpoTokenize.ProducedRowsFit`, `Aot.OptimalIffExchange` with `Aot.AotDeltasAreSortedPairing` and
`Aot.AotLossesAreCheapest`, `Packing.RepackSelectsCompletion`, `DpoCache.CachedIsOnTheFlyIff`,
`RefCache.CachedBatchIsDirectIff` with `RefCache.CachedKtoLossesAreDirect` and
`RefCache.CachedBcoLossesAreDirect`, `Metrics.MetricStore.Log` with `Metrics.EachBatchLoggedOnce` and
`Metrics.AveragesIgnoreBatching`, and `Shutdown.ShutdownSafety` with `Shutdown.OutcomeIsDecided`.

## Where the code does not do what it is for

The model follows the code. In these places the intended property holds only under a condition, which is
proved to be exact:

- A slice `[-k:]` with k = 0 keeps everything. With `keep_end`, a `max_length` of 0 truncates nothing
  (`Flush.KeepEndKeepsLastTokensIff`) and a CPO `max_prompt_length` of 0 lets rows exceed `max_length`
  (`CpoTokenize.EveryRowFitsIff`); with `logits_to_keep` = 0 and no left pads the repacked window is the
  whole row (`Packing.RepackSelectsCompletion`).
- The equal-shape shortcut of the tool mask agrees with the general alignment for every tool mask only on
  rows that are not left-padded (`Packing.ShortcutAgreesIffNotLeftPadded`), and raw entries are read back
  at their own tokens only when the completion's pads trail (`Packing.ToolMaskReadsBackIffPadsTrail`).
- In the encoder-decoder branch of the DPO pass the labels are not rolled, but the scores are, so the last
  column of every row is dropped (`DpoForward.EncoderDecoderKeepsSumIff`,
  `DpoForward.FullRowLosesItsLastLabel`).
- The precomputed reference values of an encoder-decoder model are computed from the prompt, the values of the
  forward pass from the completion (`RefCache.PassesAgreeIff`, `RefCache.CacheCanBeWrong`).
- A dataset in which only the second of the two cache columns has its name taken is never completed: the first
  call adds the first column before it fails, and every later call fails on that one
  (`RefCache.TakenKlNameIsFinal`, `DpoCache.TakenRejectedNameIsFinal`).
- In padding-free mode the IPO normalisation divides by the loss tokens of the whole batch
  (`DpoForward.IpoAverageKeptIff`, `DpoForward.IpoHalvesTwoRows`), and the split index is off as soon as one of
  the first rows attends no token, or no later one does (`DpoForward.SplitIndexIff`,
  `DpoForward.EmptyRowMovesSplit`). A precomputed IPO reference value then depends on the batch it was computed
  in, so on `precompute_ref_batch_size` (`DpoTrainer.PrecomputedIsOnTheFlyIff`, `DpoCache.CachedIsOnTheFlyIff`,
  `DpoCache.StoredIpoIsTwiceTheBatchs`).
- In padded mode the IPO divisor counts a loss token at the start of a row, which nothing scores. An example
  without a prompt has such a row, and so has one that `keep_end` truncates to completion tokens alone
  (`BatchLogps.PaddedAverageIff`, `DpoTrainer.FirstKeptTokenCountsIff`, `DpoTrainer.PaddedIpoIsAverageIff`,
  `DpoTrainer.KeepEndHalvesCompletion`).
- The prompt check of a CPO row says chosen and rejected prompts differ only in their last token; it accepts
  a difference at any one position (`CpoTokenize.AcceptedIffOneDifference`).
- With the automatic multiplier a longer sequence can get a larger batch: 20479 tokens use four chunks,
  20480 use five (`Autotune.AutomaticMultiplierNeverRisesIff`, `Autotune.OneMoreTokenCanRaiseTheBatch`).
- The label split asks `is True` and `is False`: labels 1 and 0 end up in neither half
  (`LabelSplit.SplitIsPartitionIff`). The KTO trainer counts them all the same, so its logged quotients are
  no averages then (`LabelSplit.KtoQuotientsAreAveragesIff`).
- Rolling and slicing agree under every scoring only if the pad mark is not itself a loss token
  (`BatchLogps.RollRefinesSliceIff`). The CPO version of `get_batch_logps` overwrites the caller's labels
  in the encoder-decoder case, so a second call counts every column
  (`BatchLogps.SecondCallCountsEveryColumn`).
- If `beginDrain` throws instead of returning a promise, the shutdown promise never settles and the
  listeners stay (`Shutdown.SettledRunsEndIffNoThrow`, `Shutdown.ThrowingDrainNeverEnds`).

## Model

| member | source | states |
|---|---|---|
| `Packing.PadsInPrompt` | unsloth_compiled_cache/UnslothBCOTrainer.py:260-275 | the count raises if and only if no column would be left for the prompt; it is zero when nothing is kept, and otherwise what the prompt section has besides tokens |
| `Packing.ArgsortMeetsContract` | unsloth_compiled_cache/UnslothBCOTrainer.py:304-306 | the index used for packing is a stable descending argsort of the non-pad mask: a permutation, tokens before pads, ties in their old order |
| `Packing.ArgsortUnique` | unsloth_compiled_cache/UnslothBCOTrainer.py:304-306 | only one index meets that contract, so any library sort packs the same way |
| `Packing.LeftPackShape` | unsloth_compiled_cache/UnslothBCOTrainer.py:302-308 | a packed row is its tokens in their order followed by as many pads as the row had, and no token is a pad |
| `Packing.LeftPackPermutes` | unsloth_compiled_cache/UnslothBCOTrainer.py:302-308 | packing loses and duplicates nothing |
| `Packing.RepackSelectsCompletion` | unsloth_compiled_cache/UnslothBCOTrainer.py:260-308 | pack, keep the last columns, mask: for every pad placement the selection is exactly the non-pad completion tokens in order if and only if `max_left_pad` lies between the row's left pads and the prompt width (or the completion is all pads); the exact condition for `logits_to_keep` = 0 is given too |
| `Packing.BatchMaximumServesEveryRow` | unsloth_compiled_cache/UnslothBCOTrainer.py:277-300 | with `max_left_pad` the batch's largest pad count, every row's completion is selected |
| `Packing.AlignLogprobsWithMask` | unsloth_compiled_cache/UnslothBCOTrainer.py:310-343 | the in-place scatter puts value j of a row at its mask's first set column plus j, drops what is out of bounds and leaves the fill everywhere else |
| `Packing.AlignCompletionToolMask` | unsloth_compiled_cache/UnslothBCOTrainer.py:345-364 | it raises exactly when a tool mask has another number of rows; otherwise every entry off the completion mask is zero, and every one on it is one without a tool mask, the tool entry at its column if the shapes agree, and else the tool entry counted from the row's first completion token |
| `Packing.ShortcutAgreesIffNotLeftPadded` | unsloth_compiled_cache/UnslothBCOTrainer.py:356-364 | the equal-shape shortcut agrees with the scatter for every tool mask if and only if the row's mask starts at column 0 or is empty |
| `Packing.RepackedWithoutShiftStartsAtZero` | unsloth_compiled_cache/UnslothBCOTrainer.py:291-300 | a repacked row whose shape equals the raw completion's is never left-padded |
| `Packing.AlignedToolReadsPrefix` | unsloth_compiled_cache/UnslothBCOTrainer.py:345-364 | at the selected columns the aligned tool mask reads the raw mask's first entries in order; it is zero at all others |
| `Packing.BatchToolMaskIsRowwise` | unsloth_compiled_cache/UnslothBCOTrainer.py:345-364 | on a repacked batch the function gives every row its own alignment, on the shortcut path and on the general one |
| `Packing.ToolMaskReadsBackIffPadsTrail` | unsloth_compiled_cache/UnslothBCOTrainer.py:345-364 | every unmasked token reads its own raw entry, for all tool masks, if and only if the completion's pads are trailing |
| `Chunking.PiecesShareBorders` | unsloth_compiled_cache/UnslothBCOTrainer.py:194-199 | cutting two equally long lists by one size gives equally long pieces at equal offsets, none above the size, that concatenate to the list |
| `Chunking.ChunksShareBorders` | unsloth_compiled_cache/UnslothBCOTrainer.py:194-199 | hidden and index chunks always share their borders, also for an empty batch |
| `Chunking.EffectiveChunksIsLeast` | unsloth_compiled_cache/UnslothBCOTrainer.py:189-195 | with a cap the number of chunks is the least that is no smaller than asked for and within the cap, but at most one a row; without one it is the number asked for |
| `Chunking.CapBoundsEveryChunk` | unsloth_compiled_cache/UnslothBCOTrainer.py:182-195 | with a positive cap no chunk exceeds it, without one the borders are those of the plain call, and there are never more chunks than asked for |
| `Chunking.ChunkedScores` | unsloth_compiled_cache/UnslothBCOTrainer.py:189-231 | the loop over zipped chunks equals the unchunked row map and fails only if asked for no chunk at all |
| `Chunking.ChunkedSelectiveLogSoftmax` | unsloth_compiled_cache/UnslothBCOTrainer.py:179-234 | after reshaping, entry [b, t] is the score of position [b, t] for any chunk count and cap |
| `Autotune.LargestFittingBatch` | unsloth_compiled_cache/UnslothBCOTrainer.py:374-413 | the result is the largest batch in 1..total that fits whenever any fits, and 4 otherwise |
| `Autotune.AutomaticMultiplierIff` | unsloth_compiled_cache/UnslothBCOTrainer.py:374-377 | the automatic multiplier is the largest number of chunks beyond four that leaves every chunk 4096 tokens |
| `Autotune.EstimateInBytes` | unsloth_compiled_cache/UnslothBCOTrainer.py:394-399 | the two parts of the estimate in bytes, without quotients |
| `Autotune.SmallerBatchesFit` | unsloth_compiled_cache/UnslothBCOTrainer.py:394-403 | every batch smaller than a fitting one fits |
| `Autotune.FallbackIffOneRowDoesNotFit` | unsloth_compiled_cache/UnslothBCOTrainer.py:403-408 | the fallback is taken exactly when there are no rows or one row does not fit |
| `Autotune.NeverFallsAsLimitGrows` | unsloth_compiled_cache/UnslothBCOTrainer.py:394-413 | more memory never gives a smaller batch |
| `Autotune.FixedMultiplierNeverRises` | unsloth_compiled_cache/UnslothBCOTrainer.py:394-413 | with a fixed multiplier longer sequences never give a larger batch |
| `Autotune.AutomaticMultiplierNeverRisesIff` | unsloth_compiled_cache/UnslothBCOTrainer.py:374-413 | with the automatic multiplier that holds for every workload and limit if and only if the sequence length per chunk does not drop |
| `Autotune.OneMoreTokenCanRaiseTheBatch` | unsloth_compiled_cache/UnslothBCOTrainer.py:374-375 | a concrete rise between 20479 and 20480 tokens exists |
| `Aot.SortSorts` | unsloth_compiled_cache/UnslothDPOTrainer.py:1942-1943 | sorting gives a sorted list with the same entries |
| `Aot.SortUnique` | unsloth_compiled_cache/UnslothDPOTrainer.py:1942-1943 | that determines the sorted list, so any library sort agrees |
| `Aot.OptimalIffExchange` | unsloth_compiled_cache/UnslothDPOTrainer.py:1939-1959 | pairing sorted with sorted costs no more than any pairing of the two samples, for all samples, if and only if the loss satisfies the exchange inequality |
| `Aot.ConvexExchanges` | unsloth_compiled_cache/UnslothDPOTrainer.py:1945-1948 | every convex loss satisfies the exchange inequality |
| `Aot.SmoothedLossConvex` | unsloth_compiled_cache/UnslothDPOTrainer.py:1945-1948 | label smoothing in [0, 1] and scaling by beta keep the loss convex |
| `Aot.SmoothingFlipsPreferences` | unsloth_compiled_cache/UnslothDPOTrainer.py:1945-1948 | without smoothing the loss is that of the preferred answer, a complementary smoothing is the flipped preference, and the loss is the mixture of both |
| `Aot.AotDeltasAreSortedPairing` | unsloth_compiled_cache/UnslothDPOTrainer.py:1939-1955 | the deltas of both variants are the differences within the one pairing that lists either sample in increasing order |
| `Aot.AotLossesAreCheapest` | unsloth_compiled_cache/UnslothDPOTrainer.py:1939-1959 | for every loss with the exchange inequality the total of both variants is attained by a pairing of the two samples they compare, and no pairing has a smaller one |
| `Aot.SmoothedAotLossesAreCheapest` | unsloth_compiled_cache/UnslothDPOTrainer.py:1945-1959 | so it is for the smoothed loss the trainer applies |
| `Aot.AotDeltasConserveMargin` | unsloth_compiled_cache/UnslothDPOTrainer.py:1939-1959 | in both variants the deltas sum to the unsorted reward margin |
| `Aot.AotPairIgnoresOrder` | unsloth_compiled_cache/UnslothDPOTrainer.py:1939-1944 | reordering the chosen or the rejected examples changes no delta |
| `Aot.AotIgnoresOrder` | unsloth_compiled_cache/UnslothDPOTrainer.py:1950-1955 | reordering the pairs, or policy and reference margins against each other, changes no delta |
| `Flush.FlushAndTruncate` | unsloth_compiled_cache/UnslothDPOTrainer.py:2318-2367 | the three matrices keep one shape, and the block raises exactly when the limit is exceeded under an unknown mode |
| `Flush.FlushLeftRow` | unsloth_compiled_cache/UnslothDPOTrainer.py:2136-2139 | flushing left keeps every row's attended tokens and their loss flags, in order, from column 0 on |
| `Flush.FlushRightRow` | unsloth_compiled_cache/UnslothDPOTrainer.py:2122-2125 | the same at the right edge |
| `Flush.FlushAndTruncateRow` | unsloth_compiled_cache/UnslothDPOTrainer.py:2111-2139 | a row keeps the first or the last of its attended tokens, in order, left-aligned, with the loss mask on the same tokens |
| `Flush.FlushAndTruncateCompacts` | unsloth_compiled_cache/UnslothDPOTrainer.py:2318-2367 | no all-empty column is left and the loss mask stays inside the attention mask |
| `Flush.KeepEndKeepsLastTokensIff` | unsloth_compiled_cache/UnslothDPOTrainer.py:2333-2352 | `keep_end` keeps the last `max_length` tokens if and only if the limit is positive or the row empty; `keep_start` always keeps the first |
| `Flush.JoinedRow` | unsloth_compiled_cache/UnslothDPOTrainer.py:2306-2316 | left-padded prompts beside right-padded completions give one attended block per row: prompt tokens, then completion tokens, which alone count |
| `DpoForward.RollIsShift` | unsloth_compiled_cache/UnslothDPOTrainer.py:2397-2431 | roll back, score, roll forward and drop column 0 scores every loss token under the logits before it; the wrapped term is the one dropped |
| `DpoForward.EncoderDecoderLosesLastColumn` | unsloth_compiled_cache/UnslothDPOTrainer.py:2294-2304 | without the first roll the same steps lose exactly the last column's term |
| `DpoForward.EncoderDecoderKeepsSumIff` | unsloth_compiled_cache/UnslothDPOTrainer.py:2294-2304 | nothing is lost, for every scoring, if and only if the last column is masked |
| `DpoForward.FullRowLosesItsLastLabel` | unsloth_compiled_cache/UnslothDPOTrainer.py:2294-2304 | a row of two counting labels whose sum is one instead of two |
| `DpoForward.PaddedRowLogp` | unsloth_compiled_cache/UnslothDPOTrainer.py:2391-2431 | the padded row's sum is that of its own tokens, whatever the logits at the pads are |
| `DpoForward.LogitsReachFirstLoss` | unsloth_compiled_cache/UnslothDPOTrainer.py:2372-2379 | `logits_to_keep` is an error if and only if no row has a loss token, and otherwise starts one column before the first that holds one |
| `DpoForward.KeptLogitsSameSum` | unsloth_compiled_cache/UnslothDPOTrainer.py:2372-2379 | computing only the last `logits_to_keep` logits changes no row's sum |
| `DpoForward.OneLogitLessLosesATerm` | unsloth_compiled_cache/UnslothDPOTrainer.py:2378 | the "+1" is needed: with one logit less the first loss token's term is missing |
| `DpoForward.PositionsCountUp` | unsloth_compiled_cache/UnslothDPOTrainer.py:2389 | the position ids of a row's attended tokens are 0, 1, 2, ... for every mask |
| `DpoForward.FlatNetIsRowwise` | unsloth_compiled_cache/UnslothDPOTrainer.py:2383-2395 | telling sequences apart by their positions runs the network on each row's own tokens |
| `DpoForward.UnflattenRow` | unsloth_compiled_cache/UnslothDPOTrainer.py:2422-2429 | the boolean-mask assignment gives every row its own stretch of the flattened scores |
| `DpoForward.PaddingFreeRowLogp` | unsloth_compiled_cache/UnslothDPOTrainer.py:2383-2431 | flatten, roll, score, roll back, unflatten, sum from column 1: every row gets the sum of its own tokens; terms that cross a border land in column 0 |
| `DpoForward.SplitIndexIff` | unsloth_compiled_cache/UnslothDPOTrainer.py:2485-2492 | the `num_examples`-th zero of the flattened positions is the number of tokens of the first rows if and only if each of them, and some later row, attends a token |
| `DpoForward.SplitExistsIff` | unsloth_compiled_cache/UnslothDPOTrainer.py:2490 | there is such a zero if and only if more than `num_examples` rows attend a token; otherwise the lookup raises |
| `DpoForward.EmptyRowMovesSplit` | unsloth_compiled_cache/UnslothDPOTrainer.py:2490 | a batch of four rows, the first empty, whose split is found at 2 instead of 1 |
| `DpoForward.PaddedDivisor` | unsloth_compiled_cache/UnslothDPOTrainer.py:2456-2457 | on the padded path the rolled and sliced loss mask still counts the row's loss tokens |
| `DpoForward.IpoAverageKeptIff` | unsloth_compiled_cache/UnslothDPOTrainer.py:2456-2457 | the row's padding-free sum divided by the flattened mask is the row's own average, for every scoring, if and only if no other row has a loss token or the row has none behind its first token |
| `DpoForward.IpoHalvesTwoRows` | unsloth_compiled_cache/UnslothDPOTrainer.py:2456-2457 | two equal rows with one loss token each, whose sums of one are divided by two |
| `DpoTrainer.ConcatenatedRow` | unsloth_compiled_cache/UnslothDPOTrainer.py:1748-1788 | row i holds prompt i and chosen completion i, row n + i prompt i and rejected completion i, and only the completion counts |
| `DpoTrainer.ScoreInPlace` | unsloth_compiled_cache/UnslothDPOTrainer.py:2417-2420 | dummy token, scoring, zeroing and rolling in place score exactly the masked labels |
| `DpoTrainer.ScatterInto` | unsloth_compiled_cache/UnslothDPOTrainer.py:2422-2429 | the running scatter of a row equals the mask assignment of its stretch |
| `DpoTrainer.SumFromColumnOne` | unsloth_compiled_cache/UnslothDPOTrainer.py:2431 | the loop sums every column but the first |
| `DpoTrainer.AllLogpsPadded` | unsloth_compiled_cache/UnslothDPOTrainer.py:2391-2431 | the padded path, with or without kept logits, gives every row the value of its own tokens |
| `DpoTrainer.AllLogpsPaddingFree` | unsloth_compiled_cache/UnslothDPOTrainer.py:2383-2431 | the flattened path gives the same values; it fails exactly when fewer logits are kept than there are tokens |
| `DpoTrainer.Normalise` | unsloth_compiled_cache/UnslothDPOTrainer.py:2456-2457 | IPO divides by the row's own loss tokens on the padded path, whether or not logits were kept, and by those of all rows on the flattened one |
| `DpoTrainer.ConcatenatedForward` | unsloth_compiled_cache/UnslothDPOTrainer.py:2268-2490 | chosen and rejected log-probabilities are those of each example's own truncated tokens, independent of padding, neighbours and optimisations; only the padding-free IPO divisor is the whole batch's; the cases that raise, the split lookup included, are exactly those named |
| `DpoTrainer.PassRaisesIff` | unsloth_compiled_cache/UnslothDPOTrainer.py:2318-2431 | in terms of the truncated examples: a pass raises if and only if it needs an unknown truncation mode, keeps logits and no loss token, keeps fewer logits than tokens without padding, or without padding has at most half of its examples keep a token |
| `DpoTrainer.FirstKeptTokenCountsIff` | unsloth_compiled_cache/UnslothDPOTrainer.py:2333-2352 | the first token an example keeps is a loss token if and only if its prompt is empty or `keep_end` leaves completion tokens only |
| `DpoTrainer.PaddedIpoIsAverageIff` | unsloth_compiled_cache/UnslothDPOTrainer.py:2456-2457 | a padded example's IPO value is the average over its scored terms, for every scoring, if and only if it has a prompt and `keep_end` does not leave completion tokens only |
| `DpoTrainer.KeepEndHalvesCompletion` | unsloth_compiled_cache/UnslothDPOTrainer.py:2333-2352 | a prompt token, two completion tokens and room for two: the one scored term is divided by two |
| `DpoTrainer.PrecomputedIsOnTheFlyIff` | unsloth_compiled_cache/UnslothDPOTrainer.py:1692-1703 | a reference value computed in one batch is the one computed in another that holds the same example, for every scoring, if and only if padding-free and IPO are not combined, both batches have equally many loss tokens, or nothing of the example is scored while both have some |
| `BatchLogps.ReplaceMarks` | unsloth_compiled_cache/UnslothCPOTrainer.py:1479-1480 | in place, exactly the pad marks become the dummy token |
| `BatchLogps.MaskedSum` | unsloth_compiled_cache/UnslothCPOTrainer.py:1484-1487 | the accumulated sum and count are those of the unmasked labels |
| `BatchLogps.GetRowLogp` | unsloth_compiled_cache/UnslothCPOTrainer.py:1471-1487 | the sum or average over the unmarked labels of the original row; a length mismatch raises; a decoder-only call leaves the caller's labels alone, an encoder-decoder call leaves them without marks |
| `BatchLogps.OneMoreLabel` | unsloth_compiled_cache/UnslothCPOTrainer.py:1471-1487 | one more label adds its score under the logits at its own position for an encoder-decoder, one position earlier for a decoder, and nothing if it is marked or the first of a decoder's row |
| `BatchLogps.OneMoreCount` | unsloth_compiled_cache/UnslothCPOTrainer.py:1471-1487 | the same for the number of counting labels |
| `BatchLogps.RowLogpOfSum` | unsloth_compiled_cache/UnslothCPOTrainer.py:1484-1487 | a row without labels sums to nothing, and an average times the number of counting labels is the sum |
| `BatchLogps.SecondCallCountsEveryColumn` | unsloth_compiled_cache/UnslothCPOTrainer.py:1474-1480 | a second encoder-decoder call on the same labels counts every column unless the mark is the dummy token |
| `BatchLogps.RollRefinesSlice` | unsloth_compiled_cache/UnslothBCOTrainer.py:1554-1571 | the rolled DPO sum equals the sliced one when the labels carry the loss mask as marks |
| `BatchLogps.RollRefinesSliceIff` | unsloth_compiled_cache/UnslothBCOTrainer.py:1554-1571 | they agree under every scoring if and only if no loss token after column 0 is the mark |
| `BatchLogps.RolledCount` | unsloth_compiled_cache/UnslothDPOTrainer.py:2456-2457 | the rolled mask counts one label more than the sliced labels do exactly when the row's first token is a loss token |
| `BatchLogps.PaddedAverageIff` | unsloth_compiled_cache/UnslothDPOTrainer.py:2456-2457 | the padded IPO quotient is the average of the scored terms, as `get_batch_logps` computes it, for every scoring, if and only if the row's first token is no loss token |
| `CpoTokenize.BuildTokenizedAnswer` | unsloth_compiled_cache/UnslothCPOTrainer.py:1109-1157 | prompt and response part make up the joint tokenisation; the prompt part is the prompt's own tokens if and only if the joint tokenisation starts with them, and has one token less otherwise; an unmerged answer comes back whole; the length errors are exact |
| `CpoTokenize.PromptPartIsOwnPrefixIff` | unsloth_compiled_cache/UnslothCPOTrainer.py:1132-1143 | the prompt part agrees with the prompt tokenised alone if and only if no token before its last was merged, and is all of it if and only if none was |
| `CpoTokenize.AcceptedIffOneDifference` | unsloth_compiled_cache/UnslothCPOTrainer.py:1205-1215 | two prompts pass the check if and only if their lengths differ by at most one and at most one common position differs; an accepted pair may differ in its first token |
| `CpoTokenize.FinishedRowShape` | unsloth_compiled_cache/UnslothCPOTrainer.py:1253-1267 | ids, mask and labels are equally long; labels are the pad label on the prompt and the ids on the response, which is a prefix of the untruncated one |
| `CpoTokenize.WhatTruncationKeeps` | unsloth_compiled_cache/UnslothCPOTrainer.py:1233-1251 | a prompt that is too long keeps its first tokens or, for a positive limit, its last, ids and mask alike; a response that is still too long keeps its first; everything else is untouched |
| `CpoTokenize.EveryRowFitsIff` | unsloth_compiled_cache/UnslothCPOTrainer.py:1233-1251 | every row fits `max_length` if and only if `keep_end` is not combined with a prompt limit of zero |
| `CpoTokenize.ShortRowsUntouched` | unsloth_compiled_cache/UnslothCPOTrainer.py:1233-1251 | a row that fits is left alone, and a response is cut only if cutting the prompt was not enough |
| `CpoTokenize.TruncatePrompts` | unsloth_compiled_cache/UnslothCPOTrainer.py:1235-1245 | the first loop cuts ids and mask of exactly the too long prompts and leaves the responses; an unknown mode fails only if some prompt is too long |
| `CpoTokenize.TruncateResponses` | unsloth_compiled_cache/UnslothCPOTrainer.py:1247-1251 | the second loop cuts exactly the responses still too long and leaves the prompts |
| `CpoTokenize.SequenceTokens` | unsloth_compiled_cache/UnslothCPOTrainer.py:1253-1267 | overwriting the prompt's part of a copy of the ids gives the labels and leaves ids and mask |
| `CpoTokenize.TokenizeRow` | unsloth_compiled_cache/UnslothCPOTrainer.py:1194-1277 | both sides and the prompt come out truncated by the same rule and labelled; both sides fit `max_length` except for `keep_end` with a zero prompt limit, and are well-formed whenever the special-token functions keep shapes; it raises exactly when the prompts disagree or a needed mode is unknown |
| `CpoTokenize.ProducedRowsFit` | unsloth_compiled_cache/UnslothCPOTrainer.py:1233-1267 | for 0 < `max_prompt_length` < `max_length` every produced row fits and is well-formed, in both modes and on both sides |
| `CpoForward.PadChosen` | unsloth_compiled_cache/UnslothCPOTrainer.py:1338-1347 | after the first loop the dict has exactly the chosen tensors, padded with their field's value |
| `CpoForward.AppendRejected` | unsloth_compiled_cache/UnslothCPOTrainer.py:1348-1363 | the second loop appends each rejected tensor to its chosen one; it raises exactly when a rejected tensor has no counterpart |
| `CpoForward.WhatIsStacked` | unsloth_compiled_cache/UnslothCPOTrainer.py:1331-1371 | which keys must be there, which fields are the prompt's, and whose width the rows are padded to, for both kinds of models |
| `CpoForward.ConcatenatedInputs` | unsloth_compiled_cache/UnslothCPOTrainer.py:1331-1371 | chosen rows above rejected rows at one width, for any order of the keys; an encoder-decoder batch repeats the prompt; it raises exactly when a needed key is missing |
| `CpoForward.PaddingAddsNothing` | unsloth_compiled_cache/UnslothCPOTrainer.py:1471-1487 | right-padding with the label mark changes neither sum nor average of a row |
| `CpoForward.PaddedSideScoresAlike` | unsloth_compiled_cache/UnslothCPOTrainer.py:1338-1363 | padding a whole side changes no score |
| `CpoForward.SeparateOnTop` | unsloth_compiled_cache/UnslothCPOTrainer.py:1357-1363 | stacking two sides stacks their scores |
| `CpoForward.GetBatchLogps` | unsloth_compiled_cache/UnslothCPOTrainer.py:1446-1487 | the batch is scored row by row |
| `CpoForward.ConcatenatedForward` | unsloth_compiled_cache/UnslothCPOTrainer.py:1489-1562 | one stacked pass cut at the chosen count gives both sides the log-probabilities, summed or averaged, of two separate passes |
| `LabelSplit.SplitIsPartitionIff` | unsloth_compiled_cache/UnslothKTOTrainer.py:1609-1616 | both index lists are ordered, disjoint and correct; they cover the batch if and only if every label is a boolean |
| `LabelSplit.SplitReorders` | unsloth_compiled_cache/UnslothKTOTrainer.py:1609-1616 | splitting values and concatenating the halves only reorders them |
| `LabelSplit.KtoLossesPairUp` | unsloth_compiled_cache/UnslothKTOTrainer.py:1659-1698 | policy and reference values stay paired, and each example gets its side's formula and weight |
| `LabelSplit.KtoLossesAreExampleLosses` | unsloth_compiled_cache/UnslothKTOTrainer.py:1659-1698 | the concatenated losses are a permutation of the per-example weighted losses and have their sum |
| `LabelSplit.KtoLossAt` | unsloth_compiled_cache/UnslothKTOTrainer.py:1653-1698 | the loss at a position is its owner's: the weight of its own side times the complement of the sigmoid of reward minus threshold, or threshold minus reward, or the sigmoid of the reward for a rejected example under apo_zero_unpaired |
| `LabelSplit.WeightsScaleTheirSide` | unsloth_compiled_cache/UnslothKTOTrainer.py:1693-1696 | multiplying a weight multiplies exactly the losses of the examples with its label |
| `LabelSplit.LossesFollowThePolicy` | unsloth_compiled_cache/UnslothKTOTrainer.py:1661-1691 | raising policy values raises no chosen example's loss and lowers no rejected one's |
| `LabelSplit.KlEstimateIsClampedMean` | unsloth_compiled_cache/UnslothKTOTrainer.py:1653-1657 | the KL estimate is the one number that is the mean log-ratio of the mismatched pairs where that is positive, and zero otherwise |
| `LabelSplit.TrainerUsesKlEstimate` | unsloth_compiled_cache/UnslothKTOTrainer.py:1653-1698 | the losses of a training step are computed with that number |
| `LabelSplit.BcoLossesPairUp` | unsloth_compiled_cache/UnslothBCOTrainer.py:1664-1685 | the same pairing for BCO, with each rejected example's own density weight |
| `LabelSplit.BcoLossesAreExampleLosses` | unsloth_compiled_cache/UnslothBCOTrainer.py:1664-1685 | the BCO losses are a permutation of the per-example losses and have their sum |
| `LabelSplit.BcoLossAt` | unsloth_compiled_cache/UnslothBCOTrainer.py:1664-1685 | a chosen example's loss falls on its reward minus delta, a rejected one's on delta minus its reward, weighed by the density of its own embedding |
| `LabelSplit.BcoLossesFollowThePolicy` | unsloth_compiled_cache/UnslothBCOTrainer.py:1664-1685 | for one delta, raising policy values raises no chosen example's loss and lowers no rejected one's |
| `LabelSplit.BcoTrainerUsesOwnRewards` | unsloth_compiled_cache/UnslothBCOTrainer.py:1664-1672 | delta is the running mean over exactly the rewards of the batch |
| `LabelSplit.KtoQuotientsAreAveragesIff` | unsloth_compiled_cache/UnslothKTOTrainer.py:1878-1880 | sums over the split divided by counts over the labels are the averages of both splits, for all rewards, if and only if every label is a boolean |
| `Dataset.BatchesCoverRows` | unsloth_compiled_cache/UnslothDPOTrainer.py:1589-1599 | the unshuffled batches are non-empty, within the batch size, and concatenate to the dataset |
| `Dataset.EachBatchAt` | unsloth_compiled_cache/UnslothDPOTrainer.py:1601-1616 | what is collected batch by batch and concatenated has one entry a row, and row i's comes from row i's own batch, for every batch size |
| `Dataset.AddColumn` | unsloth_compiled_cache/UnslothDPOTrainer.py:1618-1621 | a column is appended, or its name is taken and nothing happens |
| `DpoCache.CollatedExample` | unsloth_compiled_cache/UnslothDPOTrainer.py:1589-1599 | whatever batch a row is collated into, its two examples are its prompt followed by the completion, of which only the completion counts |
| `DpoCache.RefPass` | unsloth_compiled_cache/UnslothDPOTrainer.py:1692-1703 | the pass over one batch gives both completions of every row the value its tokens have in that batch, and raises exactly when the forward pass does |
| `DpoCache.RefPasses` | unsloth_compiled_cache/UnslothDPOTrainer.py:1601-1609 | the loop collects those values batch by batch and raises exactly when some batch does |
| `DpoCache.Trainer.ComputeColumns` | unsloth_compiled_cache/UnslothDPOTrainer.py:1601-1616 | the two concatenated columns, or an error for an empty dataset or a batch that raises |
| `DpoCache.Trainer.GetTrainDataloader` | unsloth_compiled_cache/UnslothDPOTrainer.py:1581-1625 | the dataset's columns and the flag after one call, and exactly when it raises |
| `DpoCache.ColumnAt` | unsloth_compiled_cache/UnslothDPOTrainer.py:1601-1616 | a stored column has one value a row, and row i's is the one the forward pass has for it in the batch it was precomputed in, for any `precompute_ref_batch_size` |
| `DpoCache.CompletesOrRaises` | unsloth_compiled_cache/UnslothDPOTrainer.py:1588-1625 | from any state a call completes the columns, raises, or had nothing to do, and exactly when each; it removes nothing |
| `DpoCache.TakenRejectedNameIsFinal` | unsloth_compiled_cache/UnslothDPOTrainer.py:1618-1623 | with only the rejected column's name taken the first call adds the chosen column and raises, and so does every later call without adding anything |
| `DpoCache.CacheAfterAnyCalls` | unsloth_compiled_cache/UnslothDPOTrainer.py:1581-1625 | after any number of calls, each of which may compute other values or none, the dataset has the two columns of the first call that could be computed, or is unchanged |
| `DpoCache.CachedColumns` | unsloth_compiled_cache/UnslothDPOTrainer.py:2522-2525 | a batch finds that call's chosen and rejected values under their names |
| `DpoCache.CachedIsOnTheFlyIff` | unsloth_compiled_cache/UnslothDPOTrainer.py:2522-2527 | after any number of calls, and for any batch drawn from the dataset, the stored value of a row is the one the first call's reference model has for it in that batch, for every scoring, if and only if padding-free and IPO are not combined or the two batches' divisors do not matter |
| `DpoCache.StoredIpoIsTwiceTheBatchs` | unsloth_compiled_cache/UnslothDPOTrainer.py:1589-1609 | two pairs precomputed one by one and used together: the stored value is twice the batch's |
| `RefCache.PaddedValue` | unsloth_compiled_cache/UnslothKTOTrainer.py:1438-1515 | padding a row's input and labels, each to its own width, changes no value |
| `RefCache.CollatedValue` | unsloth_compiled_cache/UnslothKTOTrainer.py:1496-1511 | row r of a padded batch has the value the row has on its own, whatever else is in the batch |
| `RefCache.ReferencePass` | unsloth_compiled_cache/UnslothKTOTrainer.py:1438-1515 | one pass over a padded batch gives every row its own value, for the cache, the forward and the KL pass |
| `RefCache.PassesReadTheirSequence` | unsloth_compiled_cache/UnslothKTOTrainer.py:1443-1511 | each of the three passes sums the scores of its own sequence's labels under the logits of the input it reads, for both kinds of models |
| `RefCache.KlIsMismatchedCompletion` | unsloth_compiled_cache/UnslothKTOTrainer.py:1443-1511 | a row's KL value is the completion value of the row that has the mismatched prompt, completion and labels for its own |
| `RefCache.Trainer.GetTrainDataloader` | unsloth_compiled_cache/UnslothKTOTrainer.py:1346-1381 | the dataset's columns and the flag after one call, and exactly when it raises |
| `RefCache.Trainer.ReferenceColumns` | unsloth_compiled_cache/UnslothKTOTrainer.py:1357-1368 | the collected pieces concatenate to the value of every row, whatever the batch size and the padding it brings |
| `RefCache.CompletesOrRaises` | unsloth_compiled_cache/UnslothKTOTrainer.py:1346-1381 | from any state a call completes the columns, raises, or had nothing to do, and exactly when each; it removes nothing |
| `RefCache.TakenKlNameIsFinal` | unsloth_compiled_cache/UnslothKTOTrainer.py:1370-1379 | with only the KL column's name taken the first call adds the completion column and raises, and every later call raises without adding anything |
| `RefCache.CacheAfterAnyCalls` | unsloth_compiled_cache/UnslothKTOTrainer.py:1346-1381 | after any number of calls, each of which may compute other values, there is exactly one reference column, one KL column if and only if KL is estimated, holding the values of the first call; no further call raises or changes anything |
| `RefCache.VisibleIsEnough` | unsloth_compiled_cache/UnslothKTOTrainer.py:1443-1449 | an encoder-decoder model that ignores padding sees of its input what is left when masked positions at the end are cut off |
| `RefCache.PassesAgreeIff` | unsloth_compiled_cache/UnslothKTOTrainer.py:1588-1592 | cache pass and forward pass agree on a row, for every model that ignores padding, if and only if the model is decoder-only, prompt and completion are the same visible input, or no label counts |
| `RefCache.CacheCanBeWrong` | unsloth_compiled_cache/UnslothKTOTrainer.py:1470-1476 | a row of one prompt and one completion token, and an encoder-decoder model, with two different reference values |
| `RefCache.CachedBatchIsDirectIff` | unsloth_compiled_cache/UnslothKTOTrainer.py:1906-1935 | for any batch drawn from the dataset, cached values equal those of a forward pass, for every model that ignores padding, if and only if that holds of each of its rows |
| `RefCache.CachedColumns` | unsloth_compiled_cache/UnslothKTOTrainer.py:1907-1916 | after any number of calls a batch finds the first call's completion values, and its KL values if and only if KL is estimated, under their names |
| `RefCache.CachedKtoLossesAreDirect` | unsloth_compiled_cache/UnslothKTOTrainer.py:1906-1944 | for such batches the KTO losses, the clamped KL estimate included, computed from the cached columns are those computed from direct passes of the first call's reference model, however the model has changed since |
| `RefCache.CachedBcoLossesAreDirect` | unsloth_compiled_cache/UnslothBCOTrainer.py:1707-1742 | and so are the BCO losses, with delta computed from the rewards |
| `Metrics.BatchLossMetrics` | unsloth_compiled_cache/UnslothBCOTrainer.py:1745-1773 | a batch reports sums and count of a split exactly when it has such examples, and nothing else of that split |
| `Metrics.StoredSums` | unsloth_compiled_cache/UnslothBCOTrainer.py:1751-1773 | stored lists sum to the sums over all examples; sum and count lists stay equally long |
| `Metrics.AverageIsQuotient` | unsloth_compiled_cache/UnslothBCOTrainer.py:1975-1981 | the logged quotient is the average over the examples and its divisor is positive |
| `Metrics.OneMoreExample` | unsloth_compiled_cache/UnslothBCOTrainer.py:1751-1773 | an example adds its own values to the sums and the count of its own split, and nothing to the other's |
| `Metrics.MarginReported` | unsloth_compiled_cache/UnslothBCOTrainer.py:1985-1987 | the margin is the chosen reward average less the rejected one |
| `Metrics.OtherReported` | unsloth_compiled_cache/UnslothBCOTrainer.py:1988-1990 | every other metric is the mean over the batches that reported it |
| `Metrics.EachBatchLoggedOnce` | unsloth_compiled_cache/UnslothBCOTrainer.py:1959-1992 | over every interleaving each stored batch is in exactly one log of its side or still waiting |
| `Metrics.SidesAreIndependent` | unsloth_compiled_cache/UnslothBCOTrainer.py:1970-1972 | what happens on one side changes nothing on the other |
| `Metrics.AveragesIgnoreBatching` | unsloth_compiled_cache/UnslothBCOTrainer.py:1973-1987 | averages and margin depend on the examples alone, not on their batches or order |
| `Metrics.MetricStore.StoreMetrics` | unsloth_compiled_cache/UnslothBCOTrainer.py:1805-1807 | the side's lists are those of its batches since its last log, including this one |
| `Metrics.MetricStore.Log` | unsloth_compiled_cache/UnslothBCOTrainer.py:1959-1992 | with a "loss" among the given logs they come back with the report of the batches waiting on the training side under unprefixed names, the training side is empty and the evaluation side untouched; without one it is the other way round, under the prefix; nothing else is added |
| `Shutdown.ConsistentStep` | packages/cli/src/server-shutdown.ts:16-33 | every step keeps each promise of the chain where its inputs put it: `Promise.all` fulfils after both inputs, close runs after it, the report after close, the finally after the report |
| `Shutdown.CountStep` | packages/cli/src/server-shutdown.ts:16-33 | every step keeps the number of times each effect has occurred what the promises say it is |
| `Shutdown.JustifiedStep` | packages/cli/src/server-shutdown.ts:16-33 | every effect a step makes has its reason earlier in the trace |
| `Shutdown.SafeStep` | packages/cli/src/server-shutdown.ts:16-33 | the three together are kept by every step |
| `Shutdown.EveryRunIsSafe` | packages/cli/src/server-shutdown.ts:14-36 | so every run keeps these invariants, in any interleaving |
| `Shutdown.ShutdownSafety` | packages/cli/src/server-shutdown.ts:14-36 | drain, HTTP close and `close()` start at most once, `close()` only after both fulfilled; resolve is called at most once; a set outcome is 0 only if all three fulfilled and 1 only if one rejected; the listeners stay until it is set. Nothing of this is assumed of the steps: a promise settles once and its reaction is queued once |
| `Shutdown.EffectsComeInOrder` | packages/cli/src/server-shutdown.ts:16-32 | in every run draining is announced before the HTTP close is called and that before the drain begins; the result is announced before the promise resolves with it, and the listeners go last |
| `Shutdown.OutcomeIsDecided` | packages/cli/src/server-shutdown.ts:23-32 | whenever no callback is queued, the outcome is 1 if one promise has rejected, even while others are pending, 0 if all three have fulfilled, and open otherwise or if `beginDrain` threw; the listeners are there exactly while it is open |
| `Shutdown.QueueDrains` | packages/cli/src/server-shutdown.ts:23-32 | every run can be continued by queued callbacks alone until none is left, and no settlement is undone by them |
| `Shutdown.SettlementsDecide` | packages/cli/src/server-shutdown.ts:23-32 | so a run in which a close or the drain has rejected can be continued by callbacks alone to the outcome 1, and one in which all three have fulfilled to the outcome 0 |
| `Shutdown.LaterSignalsChangeNothing` | packages/cli/src/server-shutdown.ts:16-18 | a signal after the first is absorbed |
| `Shutdown.ReactionsAreTimely` | packages/cli/src/server-shutdown.ts:23-32 | when a callback is about to run, stores have not been closed, no outcome has been reported, or the outcome is set, as the callback needs |
| `Shutdown.StepsUseUpRank` | packages/cli/src/server-shutdown.ts:18-33 | every step makes progress but absorbed signals and repeated settlements |
| `Shutdown.RunsAreBounded` | packages/cli/src/server-shutdown.ts:18-33 | no run has more than ten steps that do anything |
| `Shutdown.SettledRunsEndIffNoThrow` | packages/cli/src/server-shutdown.ts:20-32 | a stopped run with nothing left to do has its outcome set and its listeners removed if and only if `beginDrain` did not throw |
| `Shutdown.ThrowingDrainNeverEnds` | packages/cli/src/server-shutdown.ts:20-23 | one signal with a throwing `beginDrain` and a clean HTTP close: nothing is left to do and the outcome is open |
| `Shutdown.BothOutcomesHappen` | packages/cli/src/server-shutdown.ts:24-28 | there are runs that end with 0 and runs that end with 1 |
| `Shutdown.Waiter.OnSignal` | packages/cli/src/server-shutdown.ts:16-22 | a signal extends the object's run by one safe step; only the first starts anything |
| `Shutdown.Waiter.OnSettled` | packages/cli/src/server-shutdown.ts:20-23 | so does a settlement; a repeated one changes nothing |
| `Shutdown.Waiter.OnReaction` | packages/cli/src/server-shutdown.ts:23-32 | so does a queued callback: `close()` is called for the first time and after both inputs fulfilled, the outcome is set when it was open, the listeners go when it is set |

## Left out

- The forward pass, log-softmax, gradients, devices, dtypes, `torch.compile` and multi-process gathering: the network and the scoring of a token are parameters, the process is the only one.
- Floating point: sums and quotients are over the reals, so NaN, rounding and `nansum` are not modelled, except that an average over no label is not a number.
- `flush_left`, `flush_right`, `pad_to_length`, `torch.chunk`, `argsort`, `sort`, boolean-mask indexing and the dataset's batching are library calls, written here from the contract their uses and comments give.
- A zero-width mask, on which `argmax` raises, and ragged tensors, which do not exist.
- Flush.FlushAndTruncate: works on values, because the source rebinds the tensors and never writes into them; negative limits and the `token_type_ids` branch are not modelled.
- DpoTrainer.ConcatenatedForward: decoder-only; vision inputs, LLaVA's longer logits, `ld_alpha`, WPO weights, the NLL term, the values of the mean logits and the auxiliary loss are not modelled; prompts arrive left-padded and completions right-padded, as the collator, which is not part of this model, delivers them.
- Autotune.FallbackIffOneRowDoesNotFit: with a zero or negative chunk multiplier, which no caller passes, the estimate does not grow with the batch; the monotonicity results are for positive ones.
- The Liger loss beyond the flush-and-truncate block it shares.
- The other DPO losses: single formulas without sequence bookkeeping.
- The combination of `logits_to_keep` with padding-free: only shown to raise or to keep every logit.
- BatchLogps.GetRowLogp: one row; the BCO and KTO versions also copy the labels of an encoder-decoder call, so only the CPO version leaves them changed, and the KTO version cuts logits and labels to a common length instead of raising.
- CpoTokenize.TokenizeRow: the tokenizer's results and the library's special-token functions are parameters; the check that the texts are strings and the encoder-decoder branch are not modelled.
- CpoForward.ConcatenatedForward: the batch has the tensors a collator delivers, with equally many chosen and rejected rows of one width each; the NLL term and the auxiliary loss are not modelled.
- CpoForward.ConcatenatedInputs: keys are a side and one of the four fields the collator uses; the leftover pad value a tensor under another name would get is not modelled.
- LabelSplit.KtoLossesAreExampleLosses: the KL estimate is any number; `LabelSplit.KlEstimate` is what the trainer passes.
- LabelSplit.BcoLossesAreExampleLosses: the density ratio and the moments behind delta are parameters.
- DpoCache.Trainer.GetTrainDataloader: the train side only, in one process; the evaluation variant runs the same loop. Prompts are padded on the left and completions on the right to their longest row, which stands for the collator.
- RefCache.Trainer.GetTrainDataloader: the train side only; the evaluation variant shares one flag among several datasets. Batches are padded on the right, field by field, to their longest row, which stands for the collator; the decoder input ids it derives from the labels are part of the model.
- Metrics.MetricStore.Log: the caller's own entries are assumed not to use the names of stored metrics, as the training loop's do.
- Shutdown.Waiter.OnSignal: writes to the output streams do not throw, and a `close` that throws instead of returning a promise is a promise that rejects at once. Neither an unwatched rejection nor the exception of a throwing `beginDrain`, which escapes the signal listener, ends the process; without a handler of its own the process would end there.
- The GKD and Nash-MD trainers, which repeat the shared helpers, the configuration classes, generation, the agent adapters and the command line.
