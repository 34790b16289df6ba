/** Tokenising one row for the CPO trainer: splitting the joint tokenisation into prompt and answer,
    truncating prompts and answers, and labelling. The tokenizer's results are parameters. */
module CpoTokenize {
  import opened Tensors

  datatype Encoding = Encoding(ids: seq<int>, mask: seq<int>)

  datatype Answer = Answer(prompt: Encoding, response: Encoding)

  datatype Sequence = Sequence(ids: seq<int>, mask: seq<int>, labels: seq<int>)

  datatype Row = Row(chosen: Sequence, rejected: Sequence, prompt: Encoding)

  datatype Config = Config(maxLength: nat, maxPromptLength: nat, mode: TruncationMode, labelPad: int)

  predicate WellFormed(e: Encoding) {
    |e.ids| == |e.mask|
  }

  // ----- build_tokenized_answer

  /** Where the answer starts in the joint tokenisation: one token earlier when the prompt's last
      token was merged into it. */
  function ResponseStart(joint: seq<int>, prompt: seq<int>): nat {
    if prompt <= joint || prompt == [] then |prompt| else |prompt| - 1
  }

  /** Prompt and response part split the joint tokenisation in two. If the joint tokenisation starts
      with the prompt's own tokens, they are the prompt part; otherwise it is one token shorter. */
  method BuildTokenizedAnswer(joint: Encoding, promptIds: seq<int>) returns (r: Result<Answer>)
    ensures r.Failure? <==>
      |joint.ids| < |promptIds| || |joint.mask| < |promptIds| - (if promptIds <= joint.ids then 0 else 1)
    ensures r.Success? ==> r.value.prompt.ids + r.value.response.ids == joint.ids
    ensures r.Success? ==> r.value.prompt.mask + r.value.response.mask == joint.mask
    ensures r.Success? ==> WellFormed(r.value.prompt) && |r.value.prompt.ids| == ResponseStart(joint.ids, promptIds)
    ensures r.Success? ==> (r.value.prompt.ids == promptIds <==> promptIds <= joint.ids)
    ensures r.Success? && !(promptIds <= joint.ids) ==> |r.value.prompt.ids| == |promptIds| - 1
    ensures r.Success? ==> forall answer :: joint.ids == promptIds + answer ==> r.value.response.ids == answer
    ensures r.Success? && WellFormed(joint) ==> WellFormed(r.value.response)
  {
    var answerIds := if |promptIds| <= |joint.ids| then joint.ids[|promptIds|..] else [];
    var concatenated := promptIds + answerIds;
    if |joint.ids| != |concatenated| {
      return Failure(ValueError);
    }
    var start := |promptIds|;
    if promptIds != First(joint.ids, start) {
      start := start - 1;
    }
    var prompt := Encoding(joint.ids[..start], First(joint.mask, start));
    if |prompt.ids| != |prompt.mask| {
      return Failure(ValueError);
    }
    return Success(Answer(prompt, Encoding(joint.ids[start..], joint.mask[start..])));
  }

  /** The prompt part is what the prompt tokenised alone and the joint tokenisation agree on, in
      full or up to its last token, if and only if no earlier token was merged. */
  lemma PromptPartIsOwnPrefixIff(joint: seq<int>, prompt: seq<int>)
    requires |prompt| <= |joint|
    ensures joint[..ResponseStart(joint, prompt)] <= prompt <==> prompt == [] || prompt[..|prompt| - 1] <= joint
    ensures joint[..ResponseStart(joint, prompt)] == prompt <==> prompt <= joint
    ensures !(prompt <= joint) ==> ResponseStart(joint, prompt) == |prompt| - 1
  {
    if prompt != [] {
      var k := |prompt| - 1;
      if prompt <= joint {
        assert joint[..|prompt|] == prompt;
        assert prompt[..k] == joint[..k];
      }
    }
  }

  // ----- truncation and labels as functions of one side

  predicate TooLong(cfg: Config, promptLength: nat, longer: nat) {
    promptLength + longer > cfg.maxLength
  }

  /** Both entries of the prompt are cut by the same rule. */
  function CutPrompt(cfg: Config, p: Encoding, longer: nat): Encoding {
    if !TooLong(cfg, |p.ids|, longer) then p
    else match cfg.mode
      case KeepStart => Encoding(First(p.ids, cfg.maxPromptLength), First(p.mask, cfg.maxPromptLength))
      case KeepEnd => Encoding(Last(p.ids, cfg.maxPromptLength), Last(p.mask, cfg.maxPromptLength))
      case UnknownMode => p
  }

  function CutResponse(cfg: Config, e: Encoding, promptLength: nat, longer: nat): Encoding
    requires cfg.maxPromptLength < cfg.maxLength
  {
    var room := cfg.maxLength - cfg.maxPromptLength;
    if TooLong(cfg, promptLength, longer) then Encoding(First(e.ids, room), First(e.mask, room)) else e
  }

  function Assemble(cfg: Config, a: Answer): Sequence {
    Sequence(a.prompt.ids + a.response.ids, a.prompt.mask + a.response.mask,
             Fill(|a.prompt.ids|, cfg.labelPad) + a.response.ids)
  }

  /** One side of the row after truncation, given the longer of the two responses. */
  function Finish(cfg: Config, a: Answer, longer: nat): Answer
    requires cfg.maxPromptLength < cfg.maxLength
  {
    var p := CutPrompt(cfg, a.prompt, longer);
    Answer(p, CutResponse(cfg, a.response, |p.ids|, longer))
  }

  /** What is left of one entry of a prompt or response: a limit of its first, or of its last entries. */
  predicate IsStart(part: seq<int>, whole: seq<int>, limit: nat) {
    part <= whole && |part| == Min(limit, |whole|)
  }

  predicate IsEnd(part: seq<int>, whole: seq<int>, limit: nat) {
    |part| == Min(limit, |whole|) && part == whole[|whole| - |part|..]
  }

  /** A prompt that is too long keeps its first tokens or, for a positive limit, its last ones, ids and mask
      alike; a response that is still too long keeps its first tokens. */
  lemma WhatTruncationKeeps(cfg: Config, a: Answer, longer: nat)
    requires cfg.maxPromptLength < cfg.maxLength
    ensures
      var p, long := CutPrompt(cfg, a.prompt, longer), |a.prompt.ids| + longer > cfg.maxLength;
      && (long && cfg.mode == KeepStart ==>
           IsStart(p.ids, a.prompt.ids, cfg.maxPromptLength) && IsStart(p.mask, a.prompt.mask, cfg.maxPromptLength))
      && (long && cfg.mode == KeepEnd && cfg.maxPromptLength > 0 ==>
           IsEnd(p.ids, a.prompt.ids, cfg.maxPromptLength) && IsEnd(p.mask, a.prompt.mask, cfg.maxPromptLength))
      && (!long || (cfg.mode == KeepEnd && cfg.maxPromptLength == 0) ==> p == a.prompt)
    ensures
      var f, room := Finish(cfg, a, longer), cfg.maxLength - cfg.maxPromptLength;
      && f.prompt == CutPrompt(cfg, a.prompt, longer)
      && if |f.prompt.ids| + longer > cfg.maxLength then
           IsStart(f.response.ids, a.response.ids, room) && IsStart(f.response.mask, a.response.mask, room)
         else f.response == a.response
  {
  }

  /** Ids, mask and labels are equally long, prompt first; labels are the pad label on the prompt and the
      ids on the response; the response is a prefix of the untruncated one. */
  lemma FinishedRowShape(cfg: Config, a: Answer, longer: nat)
    requires cfg.maxPromptLength < cfg.maxLength && WellFormed(a.prompt) && WellFormed(a.response)
    ensures
      var f := Finish(cfg, a, longer);
      var s, p := Assemble(cfg, f), |f.prompt.ids|;
      && |s.ids| == |s.mask| == |s.labels|
      && (forall i :: 0 <= i < p ==> s.labels[i] == cfg.labelPad)
      && (forall i :: p <= i < |s.ids| ==> s.labels[i] == s.ids[i])
      && s.ids[..p] == f.prompt.ids && s.mask[..p] == f.prompt.mask
      && s.ids[p..] == f.response.ids <= a.response.ids && s.mask[p..] == f.response.mask <= a.response.mask
  {
    var f := Finish(cfg, a, longer);
    var s, p := Assemble(cfg, f), |f.prompt.ids|;
    assert s.ids[..p] == f.prompt.ids && s.mask[..p] == f.prompt.mask;
    assert s.ids[p..] == f.response.ids && s.mask[p..] == f.response.mask;
  }

  /** A row fits its length limit. */
  predicate Fits(cfg: Config, a: Answer, longer: nat)
    requires cfg.maxPromptLength < cfg.maxLength
  {
    |Assemble(cfg, Finish(cfg, a, longer)).ids| <= cfg.maxLength
  }

  /** Every row fits if and only if keep_end is not combined with a prompt limit of zero, whose
      slice `[-0:]` keeps the whole prompt. */
  lemma EveryRowFitsIff(cfg: Config)
    requires cfg.maxPromptLength < cfg.maxLength && cfg.mode != UnknownMode
    ensures (forall a: Answer, longer: nat :: |a.response.ids| <= longer ==> Fits(cfg, a, longer))
            <==> cfg.mode == KeepStart || cfg.maxPromptLength > 0
  {
    if cfg.mode == KeepStart || cfg.maxPromptLength > 0 {
      forall a: Answer, longer: nat | |a.response.ids| <= longer ensures Fits(cfg, a, longer) {
        var f := Finish(cfg, a, longer);
        assert |Assemble(cfg, f).ids| == |f.prompt.ids| + |f.response.ids|;
      }
    } else {
      var a := Answer(Encoding([0], [1]), Encoding(Fill(cfg.maxLength, 0), Fill(cfg.maxLength, 1)));
      assert Finish(cfg, a, cfg.maxLength) == a;
      assert !Fits(cfg, a, cfg.maxLength);
    }
  }

  /** A row that already fits is left alone, and one that does not loses prompt before response. */
  lemma ShortRowsUntouched(cfg: Config, a: Answer, longer: nat)
    requires cfg.maxPromptLength < cfg.maxLength
    ensures |a.prompt.ids| + longer <= cfg.maxLength ==> Finish(cfg, a, longer) == a
    ensures Finish(cfg, a, longer).response != a.response ==>
      TooLong(cfg, |CutPrompt(cfg, a.prompt, longer).ids|, longer)
  {
  }

  // ----- tokenize_row

  /** The token dict of one side; the prompt's own dict has no response. */
  class TokenDict {
    var promptIds: seq<int>
    var promptMask: seq<int>
    var ids: seq<int>
    var mask: seq<int>

    constructor (prompt: Encoding, response: Encoding)
      ensures Prompt() == prompt && Response() == response
    {
      promptIds, promptMask, ids, mask := prompt.ids, prompt.mask, response.ids, response.mask;
    }

    function Prompt(): Encoding
      reads this
    {
      Encoding(promptIds, promptMask)
    }

    function Response(): Encoding
      reads this
    {
      Encoding(ids, mask)
    }
  }

  /** `sum(a != b for a, b in zip(...))`. */
  function DifferingTokens(a: seq<int>, b: seq<int>): nat {
    if a == [] || b == [] then 0 else (if a[0] != b[0] then 1 else 0) + DifferingTokens(a[1..], b[1..])
  }

  predicate PromptsDisagree(a: seq<int>, b: seq<int>) {
    DifferingTokens(a, b) > 1 || |a| > |b| + 1 || |b| > |a| + 1
  }

  /** No two positions both differ. */
  predicate OneDifferenceAtMost(a: seq<int>, b: seq<int>) {
    forall i, j :: 0 <= i < j < |a| && j < |b| ==> a[i] == b[i] || a[j] == b[j]
  }

  predicate SameSoFar(a: seq<int>, b: seq<int>) {
    forall i :: 0 <= i < |a| && i < |b| ==> a[i] == b[i]
  }

  lemma {:induction false} NoDifference(a: seq<int>, b: seq<int>)
    ensures DifferingTokens(a, b) == 0 <==> SameSoFar(a, b)
  {
    if a != [] && b != [] {
      NoDifference(a[1..], b[1..]);
      assert forall i :: 0 < i < |a| && i < |b| ==> a[i] == a[1..][i - 1] && b[i] == b[1..][i - 1];
      if SameSoFar(a, b) { assert SameSoFar(a[1..], b[1..]); }
    }
  }

  lemma {:induction false} OneDifference(a: seq<int>, b: seq<int>)
    ensures DifferingTokens(a, b) <= 1 <==> OneDifferenceAtMost(a, b)
  {
    if a != [] && b != [] {
      var x, y := a[1..], b[1..];
      OneDifference(x, y);
      NoDifference(x, y);
      assert forall i :: 0 < i < |a| && i < |b| ==> a[i] == x[i - 1] && b[i] == y[i - 1];
      if OneDifferenceAtMost(a, b) {
        forall i, j | 0 <= i < j < |x| && j < |y| ensures x[i] == y[i] || x[j] == y[j] {
          assert a[i + 1] == b[i + 1] || a[j + 1] == b[j + 1];
        }
        if a[0] != b[0] {
          forall i | 0 <= i < |x| && i < |y| ensures x[i] == y[i] { assert a[0] == b[0] || a[i + 1] == b[i + 1]; }
        }
      }
    }
  }

  /** The two prompts are accepted if and only if their lengths differ by at most one and at most one
      common position does. That position need not be the last one, as the message has it. */
  lemma AcceptedIffOneDifference(a: seq<int>, b: seq<int>)
    ensures !PromptsDisagree(a, b) <==> |a| <= |b| + 1 && |b| <= |a| + 1 && OneDifferenceAtMost(a, b)
    ensures !PromptsDisagree([1, 2, 3], [0, 2, 3])
  {
    OneDifference(a, b);
    OneDifference([1, 2, 3], [0, 2, 3]);
  }

  ghost predicate Distinct(dicts: seq<TokenDict>) {
    forall i, j :: 0 <= i < j < |dicts| ==> dicts[i] != dicts[j]
  }

  /** First loop: cut the prompts that are too long; a mode it does not know is an error only then. */
  method TruncatePrompts(cfg: Config, dicts: seq<TokenDict>, longer: nat) returns (ok: bool)
    requires Distinct(dicts)
    modifies dicts
    ensures ok <==>
      cfg.mode != UnknownMode || forall i :: 0 <= i < |dicts| ==> !TooLong(cfg, |old(dicts[i].promptIds)|, longer)
    ensures ok ==> forall i :: 0 <= i < |dicts| ==> dicts[i].Prompt() == CutPrompt(cfg, old(dicts[i].Prompt()), longer)
    ensures forall i :: 0 <= i < |dicts| ==> dicts[i].Response() == old(dicts[i].Response())
  {
    for i := 0 to |dicts|
      invariant cfg.mode != UnknownMode || forall j :: 0 <= j < i ==> !TooLong(cfg, |old(dicts[j].promptIds)|, longer)
      invariant forall j :: 0 <= j < i ==> dicts[j].Prompt() == CutPrompt(cfg, old(dicts[j].Prompt()), longer)
      invariant forall j :: i <= j < |dicts| ==> dicts[j].Prompt() == old(dicts[j].Prompt())
      invariant forall j :: 0 <= j < |dicts| ==> dicts[j].Response() == old(dicts[j].Response())
    {
      var d := dicts[i];
      if |d.promptIds| + longer > cfg.maxLength {
        match cfg.mode {
          case KeepStart =>
            d.promptIds := First(d.promptIds, cfg.maxPromptLength);
            d.promptMask := First(d.promptMask, cfg.maxPromptLength);
          case KeepEnd =>
            d.promptIds := Last(d.promptIds, cfg.maxPromptLength);
            d.promptMask := Last(d.promptMask, cfg.maxPromptLength);
          case UnknownMode =>
            return false;
        }
      }
    }
    return true;
  }

  /** Second loop: cut the responses of the sides that are still too long. */
  method TruncateResponses(cfg: Config, dicts: seq<TokenDict>, longer: nat)
    requires Distinct(dicts) && cfg.maxPromptLength < cfg.maxLength
    modifies dicts
    ensures forall i :: 0 <= i < |dicts| ==> dicts[i].Prompt() == old(dicts[i].Prompt())
    ensures forall i :: 0 <= i < |dicts| ==>
      dicts[i].Response() == CutResponse(cfg, old(dicts[i].Response()), |old(dicts[i].promptIds)|, longer)
  {
    for i := 0 to |dicts|
      invariant forall j :: 0 <= j < |dicts| ==> dicts[j].Prompt() == old(dicts[j].Prompt())
      invariant forall j :: 0 <= j < i ==>
        dicts[j].Response() == CutResponse(cfg, old(dicts[j].Response()), |old(dicts[j].promptIds)|, longer)
      invariant forall j :: i <= j < |dicts| ==> dicts[j].Response() == old(dicts[j].Response())
    {
      var d := dicts[i];
      if |d.promptIds| + longer > cfg.maxLength {
        d.ids := First(d.ids, cfg.maxLength - cfg.maxPromptLength);
        d.mask := First(d.mask, cfg.maxLength - cfg.maxPromptLength);
      }
    }
  }

  /** Overwrite the prompt's part of a copy of the ids. */
  method SequenceTokens(cfg: Config, d: TokenDict) returns (s: Sequence)
    ensures s == Assemble(cfg, Answer(d.Prompt(), d.Response()))
  {
    var ids := d.promptIds + d.ids;
    var labels := new int[|ids|](i requires 0 <= i < |ids| => ids[i]);
    for i := 0 to |d.promptIds|
      invariant forall k :: 0 <= k < i ==> labels[k] == cfg.labelPad
      invariant forall k :: i <= k < |ids| ==> labels[k] == ids[k]
    {
      labels[i] := cfg.labelPad;
    }
    assert labels[..] == Fill(|d.promptIds|, cfg.labelPad) + d.ids;
    return Sequence(ids, d.promptMask + d.mask, labels[..]);
  }

  /** For 0 < max_prompt_length < max_length every decoder-only row that is produced fits the limit
      and is labelled as it should be, on both sides and in both truncation modes. */
  lemma ProducedRowsFit(cfg: Config, c: Answer, j: Answer)
    requires 0 < cfg.maxPromptLength < cfg.maxLength && cfg.mode != UnknownMode
    requires WellFormed(c.prompt) && WellFormed(c.response) && WellFormed(j.prompt) && WellFormed(j.response)
    ensures
      var longer := Max(|c.response.ids|, |j.response.ids|);
      var s, t := Assemble(cfg, Finish(cfg, c, longer)), Assemble(cfg, Finish(cfg, j, longer));
      && |s.ids| == |s.mask| == |s.labels| <= cfg.maxLength
      && |t.ids| == |t.mask| == |t.labels| <= cfg.maxLength
  {
    var longer := Max(|c.response.ids|, |j.response.ids|);
    EveryRowFitsIff(cfg);
    assert Fits(cfg, c, longer) && Fits(cfg, j, longer);
    FinishedRowShape(cfg, c, longer);
    FinishedRowShape(cfg, j, longer);
  }

  predicate ValidAnswer(a: Answer) {
    WellFormed(a.prompt) && WellFormed(a.response)
  }

  /** Adding special tokens keeps ids and mask equally long. */
  ghost predicate KeepsShape(f: Encoding -> Encoding) {
    forall e :: WellFormed(e) ==> WellFormed(f(e))
  }

  /** The one combination whose slice keeps a prompt that is too long. */
  predicate NoZeroSlice(cfg: Config) {
    cfg.mode == KeepEnd ==> cfg.maxPromptLength > 0
  }

  /** Equally long; pad labels on a prompt of p tokens, the ids behind it. */
  predicate Labelled(cfg: Config, s: Sequence, p: nat) {
    && p <= |s.ids| == |s.mask| == |s.labels|
    && (forall i :: 0 <= i < p ==> s.labels[i] == cfg.labelPad)
    && (forall i :: p <= i < |s.ids| ==> s.labels[i] == s.ids[i])
  }

  lemma FinishedSide(cfg: Config, a: Answer, longer: nat)
    requires cfg.maxPromptLength < cfg.maxLength && |a.response.ids| <= longer
    ensures NoZeroSlice(cfg) && (cfg.mode == UnknownMode ==> !TooLong(cfg, |a.prompt.ids|, longer)) ==>
      |Assemble(cfg, Finish(cfg, a, longer)).ids| <= cfg.maxLength
    ensures ValidAnswer(a) ==>
      Labelled(cfg, Assemble(cfg, Finish(cfg, a, longer)), |CutPrompt(cfg, a.prompt, longer).ids|)
  {
    if cfg.mode != UnknownMode && NoZeroSlice(cfg) {
      EveryRowFitsIff(cfg);
      assert Fits(cfg, a, longer);
    }
    if ValidAnswer(a) { FinishedRowShape(cfg, a, longer); }
  }

  /** Steps of the row after the two answers were built. bos and eos stand for the library's special
      tokens: bos may lengthen a prompt, eos a response. */
  method TokenizeRow(cfg: Config, prompt: Encoding, chosen: Answer, rejected: Answer,
                     bos: Encoding -> Encoding, eos: Encoding -> Encoding)
    returns (r: Result<Row>)
    requires cfg.maxPromptLength < cfg.maxLength
    ensures
      var n := Min(|chosen.prompt.ids|, |rejected.prompt.ids|);
      var p := bos(Encoding(First(prompt.ids, n), First(prompt.mask, n)));
      var c, j := Answer(bos(chosen.prompt), eos(chosen.response)),
        Answer(bos(rejected.prompt), eos(rejected.response));
      var longer := Max(|c.response.ids|, |j.response.ids|);
      && (r.Failure? <==>
           || PromptsDisagree(chosen.prompt.ids, rejected.prompt.ids)
           || (cfg.mode == UnknownMode
               && (TooLong(cfg, |c.prompt.ids|, longer) || TooLong(cfg, |j.prompt.ids|, longer)
                   || TooLong(cfg, |p.ids|, longer))))
      && (r.Success? ==> r.value == Row(Assemble(cfg, Finish(cfg, c, longer)), Assemble(cfg, Finish(cfg, j, longer)),
                                        CutPrompt(cfg, p, longer)))
      && (r.Success? && NoZeroSlice(cfg) ==>
           |r.value.chosen.ids| <= cfg.maxLength && |r.value.rejected.ids| <= cfg.maxLength)
      && (r.Success? && KeepsShape(bos) && KeepsShape(eos) && ValidAnswer(chosen) && ValidAnswer(rejected) ==>
           && Labelled(cfg, r.value.chosen, |CutPrompt(cfg, c.prompt, longer).ids|)
           && Labelled(cfg, r.value.rejected, |CutPrompt(cfg, j.prompt, longer).ids|))
  {
    var n := Min(|chosen.prompt.ids|, |rejected.prompt.ids|);
    if PromptsDisagree(chosen.prompt.ids, rejected.prompt.ids) {
      return Failure(ValueError);
    }
    var promptTokens := new TokenDict(bos(Encoding(First(prompt.ids, n), First(prompt.mask, n))), Encoding([], []));
    var chosenTokens := new TokenDict(bos(chosen.prompt), eos(chosen.response));
    var rejectedTokens := new TokenDict(bos(rejected.prompt), eos(rejected.response));
    var longer := Max(|chosenTokens.ids|, |rejectedTokens.ids|);
    var all := [chosenTokens, rejectedTokens, promptTokens];
    var ok := TruncatePrompts(cfg, all, longer);
    assert all[0] == chosenTokens && all[1] == rejectedTokens && all[2] == promptTokens;
    if !ok {
      return Failure(ValueError);
    }
    var sides := [chosenTokens, rejectedTokens];
    TruncateResponses(cfg, sides, longer);
    assert sides[0] == chosenTokens && sides[1] == rejectedTokens;
    FinishedSide(cfg, Answer(bos(chosen.prompt), eos(chosen.response)), longer);
    FinishedSide(cfg, Answer(bos(rejected.prompt), eos(rejected.response)), longer);
    var c := SequenceTokens(cfg, chosenTokens);
    var j := SequenceTokens(cfg, rejectedTokens);
    return Success(Row(c, j, promptTokens.Prompt()));
  }
}
