/** The metric accumulation of the BCO trainer, and of the KTO trainer when its labels are booleans:
    LabelSplit says what it counts otherwise. Batches store sums and counts per split; a log call turns
    what its side has stored into averages and clears that side. */
module Metrics {
  import opened Tensors

  datatype Side = Train | Eval

  datatype Split = Chosen | Rejected

  datatype Metric = Rewards | Logps | Logits

  /** "count/chosen", "rewards/chosen_sum", ..., and anything else a batch reports, such as "kl". */
  datatype Key = CountKey(split: Split) | SumKey(metric: Metric, split: Split) | OtherKey(name: string)

  /** What one example contributes. */
  datatype Example = Example(split: Split, rewards: real, logps: real, logits: real)

  datatype Batch = Batch(examples: seq<Example>, others: map<string, real>)

  datatype LogName = Averaged(metric: Metric, split: Split) | Margins | Stored(key: Key) | Given(name: string)

  /** A log entry; eval entries carry the prefix "eval_". */
  datatype LogKey = LogKey(eval: bool, name: LogName)

  // ----- the values behind the metrics

  function ValueOf(e: Example, metric: Metric): real {
    match metric
    case Rewards => e.rewards
    case Logps => e.logps
    case Logits => e.logits
  }

  function Own(metric: Metric, split: Split, e: Example): seq<real> {
    if e.split == split then [ValueOf(e, metric)] else []
  }

  /** The metric's values of the examples of a split, in order. */
  function Values(metric: Metric, split: Split, examples: seq<Example>): seq<real> {
    if examples == [] then [] else Own(metric, split, examples[0]) + Values(metric, split, examples[1..])
  }

  function Number(split: Split, examples: seq<Example>): nat {
    |Values(Rewards, split, examples)|
  }

  lemma {:induction false} NumberSame(metric: Metric, split: Split, examples: seq<Example>)
    ensures |Values(metric, split, examples)| == Number(split, examples)
  {
    if examples != [] { NumberSame(metric, split, examples[1..]); }
  }

  lemma ValuesCons(metric: Metric, split: Split, e: Example, s: seq<Example>)
    ensures Values(metric, split, [e] + s) == Own(metric, split, e) + Values(metric, split, s)
  {
    assert ([e] + s)[1..] == s;
  }

  lemma {:induction false} ValuesAppend(metric: Metric, split: Split, a: seq<Example>, b: seq<Example>)
    ensures Values(metric, split, a + b) == Values(metric, split, a) + Values(metric, split, b)
  {
    if a == [] {
      assert a + b == b;
    } else {
      assert a + b == [a[0]] + (a[1..] + b);
      ValuesAppend(metric, split, a[1..], b);
      ValuesCons(metric, split, a[0], a[1..] + b);
    }
  }

  // ----- get_batch_loss_metrics

  /** What a batch reports under a key: sums and count of a split only if it has such examples. */
  function Reported(b: Batch, key: Key): Option<real> {
    match key
    case CountKey(split) =>
      if Number(split, b.examples) > 0 then Some(Number(split, b.examples) as real) else None
    case SumKey(metric, split) =>
      if Number(split, b.examples) > 0 then Some(Sum(Values(metric, split, b.examples))) else None
    case OtherKey(name) =>
      if name in b.others then Some(b.others[name]) else None
  }

  ghost predicate Reports(metrics: map<Key, real>, b: Batch) {
    forall key :: (key in metrics <==> Reported(b, key).Some?)
      && (key in metrics ==> Some(metrics[key]) == Reported(b, key))
  }

  function OtherMetrics(b: Batch): map<Key, real> {
    map key: Key | key in (set name | name in b.others :: OtherKey(name)) :: b.others[key.name]
  }

  predicate BelongsTo(key: Key, split: Split) {
    !key.OtherKey? && key.split == split
  }

  /** The dict is filled split by split. */
  method BatchLossMetrics(b: Batch) returns (metrics: map<Key, real>)
    ensures Reports(metrics, b)
  {
    metrics := OtherMetrics(b);
    metrics := AddSplit(metrics, b, Chosen);
    metrics := AddSplit(metrics, b, Rejected);
  }

  method AddSplit(metrics: map<Key, real>, b: Batch, split: Split) returns (out: map<Key, real>)
    requires forall key :: BelongsTo(key, split) ==> key !in metrics
    ensures forall key :: !BelongsTo(key, split) ==>
      (key in out <==> key in metrics) && (key in out ==> out[key] == metrics[key])
    ensures forall key :: BelongsTo(key, split) ==>
      (key in out <==> Reported(b, key).Some?) && (key in out ==> Some(out[key]) == Reported(b, key))
  {
    out := metrics;
    var number := Number(split, b.examples);
    if number > 0 {
      out := out[SumKey(Rewards, split) := Sum(Values(Rewards, split, b.examples))];
      out := out[SumKey(Logps, split) := Sum(Values(Logps, split, b.examples))];
      out := out[SumKey(Logits, split) := Sum(Values(Logits, split, b.examples))];
      out := out[CountKey(split) := number as real];
    }
    forall key | BelongsTo(key, split)
      ensures (key in out <==> Reported(b, key).Some?) && (key in out ==> Some(out[key]) == Reported(b, key))
    {
      match key
      case CountKey(_) =>
      case SumKey(metric, _) =>
        assert metric == Rewards || metric == Logps || metric == Logits;
        assert key == SumKey(metric, split);
    }
  }

  // ----- what is stored after some batches

  /** The list a key has accumulated. */
  function ListOf(key: Key, batches: seq<Batch>): seq<real> {
    if batches == [] then []
    else
      var last, before := batches[|batches| - 1], ListOf(key, batches[..|batches| - 1]);
      if Reported(last, key).Some? then before + [Reported(last, key).value] else before
  }

  function Get(lists: map<Key, seq<real>>, key: Key): seq<real> {
    if key in lists then lists[key] else []
  }

  /** The dict of a side holds exactly the lists of its batches. */
  ghost predicate Holds(lists: map<Key, seq<real>>, batches: seq<Batch>) {
    forall key :: Get(lists, key) == ListOf(key, batches) && (key in lists ==> lists[key] != [])
  }

  function ExamplesOf(batches: seq<Batch>): seq<Example> {
    if batches == [] then [] else ExamplesOf(batches[..|batches| - 1]) + batches[|batches| - 1].examples
  }

  lemma ListSnoc(key: Key, before: seq<Batch>, last: Batch)
    ensures ListOf(key, before + [last])
            == ListOf(key, before) + (if Reported(last, key).Some? then [Reported(last, key).value] else [])
  {
    assert (before + [last])[..|before|] == before;
  }

  lemma ExamplesSnoc(before: seq<Batch>, last: Batch)
    ensures ExamplesOf(before + [last]) == ExamplesOf(before) + last.examples
  {
    assert (before + [last])[..|before|] == before;
  }

  /** Sums over the stored lists are sums over the examples, whatever the batches were. */
  lemma {:induction false} StoredSums(metric: Metric, split: Split, batches: seq<Batch>)
    ensures Sum(ListOf(SumKey(metric, split), batches)) == Sum(Values(metric, split, ExamplesOf(batches)))
    ensures |ListOf(SumKey(metric, split), batches)| == |ListOf(CountKey(split), batches)|
  {
    if batches != [] {
      var before, last := batches[..|batches| - 1], batches[|batches| - 1];
      assert batches == before + [last];
      StoredSums(metric, split, before);
      ListSnoc(SumKey(metric, split), before, last);
      ListSnoc(CountKey(split), before, last);
      ExamplesSnoc(before, last);
      SumWithLast(metric, split, before, last);
    }
  }

  lemma SumWithLast(metric: Metric, split: Split, before: seq<Batch>, last: Batch)
    ensures Sum(Values(metric, split, ExamplesOf(before) + last.examples))
            == Sum(Values(metric, split, ExamplesOf(before))) + Sum(Values(metric, split, last.examples))
    ensures Number(split, last.examples) == 0 ==> Sum(Values(metric, split, last.examples)) == 0.0
    ensures Sum(ListOf(SumKey(metric, split), before) + [Sum(Values(metric, split, last.examples))])
            == Sum(ListOf(SumKey(metric, split), before)) + Sum(Values(metric, split, last.examples))
  {
    ValuesAppend(metric, split, ExamplesOf(before), last.examples);
    SumAppend(Values(metric, split, ExamplesOf(before)), Values(metric, split, last.examples));
    NumberSame(metric, split, last.examples);
    SumSnoc(ListOf(SumKey(metric, split), before), Sum(Values(metric, split, last.examples)));
  }

  /** The stored counts add up to the number of examples; no count is stored when there are none. */
  lemma {:induction false} StoredCounts(split: Split, batches: seq<Batch>)
    ensures Sum(ListOf(CountKey(split), batches)) == Number(split, ExamplesOf(batches)) as real
    ensures ListOf(CountKey(split), batches) == [] <==> Number(split, ExamplesOf(batches)) == 0
  {
    if batches != [] {
      var before, last := batches[..|batches| - 1], batches[|batches| - 1];
      assert batches == before + [last];
      StoredCounts(split, before);
      ListSnoc(CountKey(split), before, last);
      ExamplesSnoc(before, last);
      ValuesAppend(Rewards, split, ExamplesOf(before), last.examples);
      SumSnoc(ListOf(CountKey(split), before), Number(split, last.examples) as real);
    }
  }

  // ----- what a log call reports

  function Mean(values: seq<real>): (mean: real)
    requires values != []
    ensures mean * |values| as real == Sum(values)
  {
    Sum(values) / |values| as real
  }

  /** The mean of a metric over the examples of a split, if there are any. */
  function Average(metric: Metric, split: Split, examples: seq<Example>): Option<real> {
    NumberSame(metric, split, examples);
    if Number(split, examples) > 0 then Some(Mean(Values(metric, split, examples))) else None
  }

  /** What a side's examples since its last log come to; the batches do not matter for averages. */
  function Report(name: LogName, batches: seq<Batch>): Option<real> {
    var examples := ExamplesOf(batches);
    match name
    case Averaged(metric, split) => Average(metric, split, examples)
    case Margins =>
      if Average(Rewards, Chosen, examples).Some? && Average(Rewards, Rejected, examples).Some? then
        Some(Average(Rewards, Chosen, examples).value - Average(Rewards, Rejected, examples).value)
      else None
    case Stored(key) =>
      if key.OtherKey? && ListOf(key, batches) != [] then Some(Mean(ListOf(key, batches))) else None
    case Given(_) => None
  }

  function SideOf(logs: map<LogKey, real>): Side {
    if LogKey(false, Given("loss")) in logs then Train else Eval
  }

  /** The logs as passed, plus the report of one side under its prefix. */
  ghost predicate LogsReport(out: map<LogKey, real>, given: map<LogKey, real>, side: Side, batches: seq<Batch>) {
    forall key: LogKey ::
      Overlays(out, given, key, if key.eval == (side == Eval) then Report(key.name, batches) else None)
  }

  /** At this key the logs are the old ones unless there is something to report. */
  predicate Overlays(out: map<LogKey, real>, given: map<LogKey, real>, key: LogKey, report: Option<real>) {
    && (key in out <==> key in given || report.Some?)
    && (key in out ==> out[key] == if report.Some? then report.value else given[key])
  }

  /** One more example adds its own value to the sums of its own split, and to no other. */
  lemma OneMoreExample(split: Split, s: seq<Example>, e: Example)
    ensures Number(split, []) == 0 && Number(split, s + [e]) == Number(split, s) + (if e.split == split then 1 else 0)
    ensures Sum(Values(Rewards, split, s + [e]))
            == Sum(Values(Rewards, split, s)) + (if e.split == split then e.rewards else 0.0)
    ensures Sum(Values(Logps, split, s + [e]))
            == Sum(Values(Logps, split, s)) + (if e.split == split then e.logps else 0.0)
    ensures Sum(Values(Logits, split, s + [e]))
            == Sum(Values(Logits, split, s)) + (if e.split == split then e.logits else 0.0)
  {
    ValuesSnoc(Rewards, split, s, e);
    ValuesSnoc(Logps, split, s, e);
    ValuesSnoc(Logits, split, s, e);
  }

  lemma ValuesSnoc(metric: Metric, split: Split, s: seq<Example>, e: Example)
    ensures Values(metric, split, s + [e]) == Values(metric, split, s) + Own(metric, split, e)
    ensures Sum(Values(metric, split, s + [e])) == Sum(Values(metric, split, s)) + Sum(Own(metric, split, e))
    ensures Sum(Own(metric, split, e)) == if e.split == split then ValueOf(e, metric) else 0.0
  {
    ValuesAppend(metric, split, s, [e]);
    ValuesCons(metric, split, e, []);
    assert [e] + [] == [e];
    SumAppend(Values(metric, split, s), Own(metric, split, e));
    if e.split == split { SumSnoc([], ValueOf(e, metric)); }
  }

  /** The margin is the chosen average less the rejected one. */
  lemma MarginReported(batches: seq<Batch>)
    ensures
      var chosen, rejected := Report(Averaged(Rewards, Chosen), batches), Report(Averaged(Rewards, Rejected), batches);
      Report(Margins, batches)
      == if chosen.Some? && rejected.Some? then Some(chosen.value - rejected.value) else None
  {
  }

  /** Every other metric is the mean over the batches that reported it. */
  lemma OtherReported(name: string, batches: seq<Batch>)
    ensures
      var own, mean := OthersOf(name, batches), Report(Stored(OtherKey(name)), batches);
      && (mean.Some? <==> own != [])
      && (mean.Some? ==> mean.value * |own| as real == Sum(own))
  {
    OthersListed(name, batches);
  }

  /** What the batches reported under a name, in order. */
  function OthersOf(name: string, batches: seq<Batch>): seq<real> {
    if batches == [] then [] else OtherOf(name, batches[0]) + OthersOf(name, batches[1..])
  }

  function OtherOf(name: string, b: Batch): seq<real> {
    if name in b.others then [b.others[name]] else []
  }

  lemma {:induction false} OthersListed(name: string, batches: seq<Batch>)
    ensures ListOf(OtherKey(name), batches) == OthersOf(name, batches)
  {
    if batches != [] {
      var before, last := batches[..|batches| - 1], batches[|batches| - 1];
      assert batches == before + [last];
      OthersListed(name, before);
      OthersSnoc(name, before, last);
    }
  }

  lemma OthersCons(name: string, b: Batch, rest: seq<Batch>)
    ensures OthersOf(name, [b] + rest) == OtherOf(name, b) + OthersOf(name, rest)
  {
    assert ([b] + rest)[1..] == rest;
  }

  lemma {:induction false} OthersSnoc(name: string, before: seq<Batch>, last: Batch)
    ensures OthersOf(name, before + [last]) == OthersOf(name, before) + OtherOf(name, last)
  {
    if before == [] {
      OthersCons(name, last, []);
      assert before + [last] == [last] + [];
    } else {
      assert before + [last] == [before[0]] + (before[1..] + [last]);
      OthersSnoc(name, before[1..], last);
      OthersCons(name, before[0], before[1..] + [last]);
    }
  }

  // ----- runs

  /** A batch stored on a side, or a log call whose arguments decide the side. */
  datatype Event = StoreEvent(side: Side, batch: Batch) | LogEvent(side: Side)

  /** The batches every log call of a side reports, in order, and those still waiting. */
  function LogContents(events: seq<Event>, side: Side): seq<seq<Batch>> {
    if events == [] then []
    else
      var before, last := events[..|events| - 1], events[|events| - 1];
      if last == LogEvent(side) then LogContents(before, side) + [Waiting(before, side)] else LogContents(before, side)
  }

  function Waiting(events: seq<Event>, side: Side): seq<Batch> {
    if events == [] then []
    else
      var before, last := events[..|events| - 1], events[|events| - 1];
      if last == LogEvent(side) then []
      else if last.StoreEvent? && last.side == side then Waiting(before, side) + [last.batch]
      else Waiting(before, side)
  }

  lemma WaitingAfter(events: seq<Event>, last: Event, side: Side)
    ensures Waiting(events + [last], side)
            == if last == LogEvent(side) then []
               else if last.StoreEvent? && last.side == side then Waiting(events, side) + [last.batch]
               else Waiting(events, side)
  {
    assert (events + [last])[..|events|] == events;
  }

  /** All batches ever stored on a side. */
  function StoredOn(events: seq<Event>, side: Side): seq<Batch> {
    if events == [] then []
    else
      var before, last := events[..|events| - 1], events[|events| - 1];
      if last.StoreEvent? && last.side == side then StoredOn(before, side) + [last.batch] else StoredOn(before, side)
  }

  /** Over every interleaving, each stored batch is reported by exactly one log call of its side or is
      still waiting: the reports and the waiting batches, in order, are all that was stored. */
  lemma {:induction false} EachBatchLoggedOnce(events: seq<Event>, side: Side)
    ensures Concat(LogContents(events, side)) + Waiting(events, side) == StoredOn(events, side)
  {
    if events != [] {
      var before, last := events[..|events| - 1], events[|events| - 1];
      EachBatchLoggedOnce(before, side);
      if last == LogEvent(side) {
        ConcatAppend(LogContents(before, side), [Waiting(before, side)]);
        assert Concat([Waiting(before, side)]) == Waiting(before, side) + Concat([]);
      }
    }
  }

  function OnlySide(events: seq<Event>, side: Side): (own: seq<Event>)
    ensures forall i :: 0 <= i < |own| ==> own[i].side == side
  {
    if events == [] then []
    else
      var before, last := OnlySide(events[..|events| - 1], side), events[|events| - 1];
      if last.side == side then before + [last] else before
  }

  /** What happens on the other side changes nothing. */
  lemma {:induction false} SidesAreIndependent(events: seq<Event>, side: Side)
    ensures LogContents(events, side) == LogContents(OnlySide(events, side), side)
    ensures Waiting(events, side) == Waiting(OnlySide(events, side), side)
  {
    if events != [] {
      SidesAreIndependent(events[..|events| - 1], side);
      var own := OnlySide(events, side);
      if events[|events| - 1].side == side {
        assert own[..|own| - 1] == OnlySide(events[..|events| - 1], side);
      }
    }
  }

  lemma ValuesAround(metric: Metric, split: Split, front: seq<Example>, e: Example, back: seq<Example>)
    ensures multiset(Values(metric, split, front + ([e] + back)))
            == multiset(Own(metric, split, e)) + multiset(Values(metric, split, front + back))
  {
    ValuesAppend(metric, split, front, [e] + back);
    ValuesCons(metric, split, e, back);
    ValuesAppend(metric, split, front, back);
  }

  lemma {:induction false} ValuesPermute(metric: Metric, split: Split, a: seq<Example>, b: seq<Example>)
    requires multiset(a) == multiset(b)
    ensures multiset(Values(metric, split, a)) == multiset(Values(metric, split, b))
  {
    SameLength(a, b);
    if a != [] {
      var front, back := TakeHead(a, b);
      ValuesPermute(metric, split, a[1..], front + back);
      ValuesAround(metric, split, front, a[0], back);
    }
  }

  /** Averages and margin depend on the examples alone: not on how they were cut into batches, nor on
      their order. */
  lemma AveragesIgnoreBatching(name: LogName, a: seq<Batch>, b: seq<Batch>)
    requires name.Averaged? || name.Margins?
    requires multiset(ExamplesOf(a)) == multiset(ExamplesOf(b))
    ensures Report(name, a) == Report(name, b)
  {
    var x, y := ExamplesOf(a), ExamplesOf(b);
    if name.Averaged? {
      SameAverage(name.metric, name.split, x, y);
    } else {
      SameAverage(Rewards, Chosen, x, y);
      SameAverage(Rewards, Rejected, x, y);
    }
  }

  lemma SameAverage(metric: Metric, split: Split, x: seq<Example>, y: seq<Example>)
    requires multiset(x) == multiset(y)
    ensures Average(metric, split, x) == Average(metric, split, y)
  {
    ValuesPermute(metric, split, x, y);
    SumPermute(Values(metric, split, x), Values(metric, split, y));
    SameLength(Values(metric, split, x), Values(metric, split, y));
    NumberSame(metric, split, x);
    NumberSame(metric, split, y);
  }

  // ----- store_metrics and log

  function ListsOf(stored: map<Side, map<Key, seq<real>>>, side: Side): map<Key, seq<real>> {
    if side in stored then stored[side] else map[]
  }

  class MetricStore {
    var stored: map<Side, map<Key, seq<real>>>
    /** Everything that has been stored and logged. */
    ghost var history: seq<Event>

    /** Each side holds exactly the lists of its batches since its last log. */
    ghost predicate Valid()
      reads this
    {
      && Holds(ListsOf(stored, Train), Waiting(history, Train))
      && Holds(ListsOf(stored, Eval), Waiting(history, Eval))
    }

    constructor ()
      ensures Valid() && history == []
    {
      stored := map[];
      history := [];
    }

    /** Append every reported value to its key's list on one side. */
    method StoreMetrics(metrics: map<Key, real>, side: Side, ghost b: Batch)
      requires Valid() && Reports(metrics, b)
      modifies this
      ensures Valid() && history == old(history) + [StoreEvent(side, b)]
    {
      var lists := AppendAll(ListsOf(stored, side), metrics);
      HoldsNext(ListsOf(stored, side), lists, metrics, Waiting(history, side), b);
      WaitingAfter(history, StoreEvent(side, b), Train);
      WaitingAfter(history, StoreEvent(side, b), Eval);
      stored := stored[side := lists];
      history := history + [StoreEvent(side, b)];
    }

    /** Averages of both splits, the reward margin, means of everything else; then the side is empty. */
    method Log(given: map<LogKey, real>) returns (out: map<LogKey, real>)
      requires Valid() && forall key :: key in given ==> key.name.Given?
      modifies this
      ensures Valid() && history == old(history) + [LogEvent(SideOf(given))]
      ensures LogKey(false, Given("loss")) in given ==>
        && (forall key: LogKey ::
             Overlays(out, given, key, if key.eval then None else Report(key.name, Waiting(old(history), Train))))
        && Waiting(history, Train) == [] && Waiting(history, Eval) == Waiting(old(history), Eval)
      ensures LogKey(false, Given("loss")) !in given ==>
        && (forall key: LogKey ::
             Overlays(out, given, key, if key.eval then Report(key.name, Waiting(old(history), Eval)) else None))
        && Waiting(history, Eval) == [] && Waiting(history, Train) == Waiting(old(history), Train)
    {
      var side := SideOf(given);
      out := ReportSide(ListsOf(stored, side), given, side == Eval, Waiting(history, side));
      EntriesOfSide(out, given, side, Waiting(history, side));
      WaitingAfter(history, LogEvent(side), Train);
      WaitingAfter(history, LogEvent(side), Eval);
      stored := stored - {side};
      history := history + [LogEvent(side)];
    }
  }

  lemma EntriesOfSide(out: map<LogKey, real>, given: map<LogKey, real>, side: Side, batches: seq<Batch>)
    requires LogsReport(out, given, side, batches)
    ensures side == Train ==>
      forall key: LogKey :: Overlays(out, given, key, if key.eval then None else Report(key.name, batches))
    ensures side == Eval ==>
      forall key: LogKey :: Overlays(out, given, key, if key.eval then Report(key.name, batches) else None)
  {
  }

  method ReportSide(stored: map<Key, seq<real>>, given: map<LogKey, real>, eval: bool, ghost batches: seq<Batch>)
    returns (out: map<LogKey, real>)
    requires Holds(stored, batches) && forall key :: key in given ==> key.name.Given?
    ensures LogsReport(out, given, if eval then Eval else Train, batches)
  {
    var lists;
    out, lists := AverageBothSplits(stored, given, eval, batches);
    var c, r := LogKey(eval, Averaged(Rewards, Chosen)), LogKey(eval, Averaged(Rewards, Rejected));
    assert Overlays(out, given, c, Report(c.name, batches)) && Overlays(out, given, r, Report(r.name, batches));
    ghost var averaged := out;
    if c in out && r in out {
      out := out[LogKey(eval, Margins) := out[c] - out[r]];
    }
    ghost var before := out;
    forall key: LogKey
      ensures Overlays(before, given, key,
                       if key.eval == eval && !key.name.Stored? then Report(key.name, batches) else None)
    {
      MarginOverlay(averaged, before, given, eval, key, batches);
    }
    out := AddMeans(lists, out, eval);
    forall key: LogKey
      ensures Overlays(out, given, key, if key.eval == eval then Report(key.name, batches) else None)
    {
      MeansOverlay(before, out, given, eval, key, stored, lists, batches);
    }
  }

  method AverageBothSplits(stored: map<Key, seq<real>>, given: map<LogKey, real>, eval: bool, ghost batches: seq<Batch>)
    returns (out: map<LogKey, real>, lists: map<Key, seq<real>>)
    requires Holds(stored, batches) && forall key :: key in given ==> key.name.Given?
    ensures forall key :: key in lists <==> key in stored && key.OtherKey?
    ensures forall key :: key in lists ==> lists[key] == stored[key]
    ensures forall key: LogKey ::
      Overlays(out, given, key, if key.eval == eval && key.name.Averaged? then Report(key.name, batches) else None)
  {
    var first;
    first, lists := AverageSplit(stored, given, eval, Chosen, batches);
    forall metric ensures LogKey(eval, Averaged(metric, Rejected)) !in first {
      assert Overlays(first, given, LogKey(eval, Averaged(metric, Rejected)), None);
    }
    out, lists := AverageSplit(lists, first, eval, Rejected, batches);
    forall key: LogKey
      ensures Overlays(out, given, key,
                       if key.eval == eval && key.name.Averaged? then Report(key.name, batches) else None)
    {
      assert Overlays(first, given, key,
        if key.eval == eval && key.name.Averaged? && key.name.split == Chosen then Report(key.name, batches) else None);
      assert Overlays(out, first, key,
        if key.eval == eval && key.name.Averaged? && key.name.split == Rejected
        then Report(key.name, batches) else None);
    }
  }

  lemma MarginOverlay(averaged: map<LogKey, real>, out: map<LogKey, real>, given: map<LogKey, real>, eval: bool,
                      key: LogKey, batches: seq<Batch>)
    requires forall k :: k in given ==> k.name.Given?
    requires forall k: LogKey ::
      Overlays(averaged, given, k, if k.eval == eval && k.name.Averaged? then Report(k.name, batches) else None)
    requires
      var c, r, m := LogKey(eval, Averaged(Rewards, Chosen)), LogKey(eval, Averaged(Rewards, Rejected)),
        LogKey(eval, Margins);
      out == if c in averaged && r in averaged then averaged[m := averaged[c] - averaged[r]] else averaged
    ensures Overlays(out, given, key, if key.eval == eval && !key.name.Stored? then Report(key.name, batches) else None)
  {
    var c, r, m := LogKey(eval, Averaged(Rewards, Chosen)), LogKey(eval, Averaged(Rewards, Rejected)),
      LogKey(eval, Margins);
    assert Overlays(averaged, given, c, Report(c.name, batches))
      && Overlays(averaged, given, r, Report(r.name, batches));
    assert Overlays(averaged, given, key,
                    if key.eval == eval && key.name.Averaged? then Report(key.name, batches) else None);
    if key.eval == eval && key.name.Margins? { assert key == m; }
  }

  lemma MeansOverlay(before: map<LogKey, real>, out: map<LogKey, real>, given: map<LogKey, real>, eval: bool,
                     key: LogKey, stored: map<Key, seq<real>>, lists: map<Key, seq<real>>, batches: seq<Batch>)
    requires Holds(stored, batches) && forall k :: k in given ==> k.name.Given?
    requires forall k :: k in lists <==> k in stored && k.OtherKey?
    requires forall k :: k in lists ==> lists[k] == stored[k] != []
    requires Overlays(before, given, key,
                      if key.eval == eval && !key.name.Stored? then Report(key.name, batches) else None)
    requires Overlays(out, before, key, MeanFor(key, lists, eval, {}))
    ensures Overlays(out, given, key, if key.eval == eval then Report(key.name, batches) else None)
  {
    if key.eval == eval && key.name.Stored? {
      var k := key.name.key;
      assert Get(stored, k) == ListOf(k, batches);
      assert k in lists <==> k.OtherKey? && ListOf(k, batches) != [];
    }
  }

  method AppendAll(lists: map<Key, seq<real>>, metrics: map<Key, real>) returns (out: map<Key, seq<real>>)
    requires forall key :: key in lists ==> lists[key] != []
    ensures forall key :: key in out <==> key in lists || key in metrics
    ensures forall key :: key in out ==>
      out[key] == if key in metrics then Get(lists, key) + [metrics[key]] else Get(lists, key)
  {
    out := lists;
    var todo := metrics.Keys;
    while todo != {}
      invariant todo <= metrics.Keys
      invariant forall key :: key in out <==> key in lists || (key in metrics && key !in todo)
      invariant forall key :: key in out ==>
        out[key] == if key in metrics && key !in todo then Get(lists, key) + [metrics[key]] else Get(lists, key)
      decreases todo
    {
      var key :| key in todo;
      out := out[key := Get(out, key) + [metrics[key]]];
      todo := todo - {key};
    }
  }

  lemma HoldsNext(lists: map<Key, seq<real>>, out: map<Key, seq<real>>, metrics: map<Key, real>, batches: seq<Batch>,
                  b: Batch)
    requires Holds(lists, batches) && Reports(metrics, b)
    requires forall key :: key in out <==> key in lists || key in metrics
    requires forall key :: key in out ==>
      out[key] == if key in metrics then Get(lists, key) + [metrics[key]] else Get(lists, key)
    ensures Holds(out, batches + [b])
  {
    var more := batches + [b];
    assert more[..|more| - 1] == batches;
    forall key ensures Get(out, key) == ListOf(key, more) && (key in out ==> out[key] != []) {
      assert Get(lists, key) == ListOf(key, batches);
      assert ListOf(key, more)
        == ListOf(key, batches) + if Reported(b, key).Some? then [Reported(b, key).value] else [];
    }
  }

  /** One split: the three sums divided by the count, all four lists deleted. */
  method AverageSplit(lists: map<Key, seq<real>>, logs: map<LogKey, real>, eval: bool, split: Split,
                      ghost batches: seq<Batch>)
    returns (out: map<LogKey, real>, rest: map<Key, seq<real>>)
    requires forall metric :: Get(lists, SumKey(metric, split)) == ListOf(SumKey(metric, split), batches)
    requires Get(lists, CountKey(split)) == ListOf(CountKey(split), batches)
    requires forall key :: key in lists ==> lists[key] != []
    requires forall metric :: LogKey(eval, Averaged(metric, split)) !in logs
    ensures forall key :: key in rest <==> key in lists && !BelongsTo(key, split)
    ensures forall key :: key in rest ==> rest[key] == lists[key]
    ensures forall key: LogKey ::
      Overlays(out, logs, key,
               if key.eval == eval && key.name.Averaged? && key.name.split == split
               then Report(key.name, batches) else None)
  {
    out, rest := logs, lists;
    AverageIsQuotient(Rewards, split, batches);
    AverageIsQuotient(Logps, split, batches);
    AverageIsQuotient(Logits, split, batches);
    if CountKey(split) in rest {
      var countSum := Sum(rest[CountKey(split)]);
      var x, y, z := Sum(Get(rest, SumKey(Rewards, split))), Sum(Get(rest, SumKey(Logps, split))),
        Sum(Get(rest, SumKey(Logits, split)));
      out := WithAverages(out, eval, split, x / countSum, y / countSum, z / countSum);
      rest := rest - {SumKey(Rewards, split), SumKey(Logps, split), SumKey(Logits, split), CountKey(split)};
      KeysOfSplit(split);
    } else {
      NoCountNoSums(lists, split, batches);
    }
    forall key: LogKey
      ensures Overlays(out, logs, key,
                if key.eval == eval && key.name.Averaged? && key.name.split == split
                then Report(key.name, batches) else None)
    {
      AveragesOverlay(out, logs, eval, split, Report(Averaged(Rewards, split), batches),
                      Report(Averaged(Logps, split), batches),
                      Report(Averaged(Logits, split), batches), key, batches);
    }
  }

  function WithAverages(logs: map<LogKey, real>, eval: bool, split: Split, rewards: real, logps: real,
                        logits: real): map<LogKey, real> {
    logs[LogKey(eval, Averaged(Rewards, split)) := rewards]
        [LogKey(eval, Averaged(Logps, split)) := logps][LogKey(eval, Averaged(Logits, split)) := logits]
  }

  lemma AveragesOverlay(out: map<LogKey, real>, logs: map<LogKey, real>, eval: bool, split: Split,
                        rewards: Option<real>, logps: Option<real>, logits: Option<real>, key: LogKey,
                        batches: seq<Batch>)
    requires rewards == Report(Averaged(Rewards, split), batches) && logps == Report(Averaged(Logps, split), batches)
    requires logits == Report(Averaged(Logits, split), batches)
    requires rewards.Some? == logps.Some? == logits.Some?
    requires out == if rewards.Some? then WithAverages(logs, eval, split, rewards.value, logps.value, logits.value)
      else logs
    ensures Overlays(out, logs, key,
              if key.eval == eval && key.name.Averaged? && key.name.split == split
              then Report(key.name, batches) else None)
  {
    if key.eval == eval && key.name.Averaged? && key.name.split == split {
      var metric := key.name.metric;
      assert metric == Rewards || metric == Logps || metric == Logits;
      assert key.name == Averaged(metric, split) && key == LogKey(eval, Averaged(metric, split));
    }
  }

  lemma KeysOfSplit(split: Split)
    ensures forall key :: BelongsTo(key, split) <==>
      key in {SumKey(Rewards, split), SumKey(Logps, split), SumKey(Logits, split), CountKey(split)}
  {
    forall key | BelongsTo(key, split)
      ensures key in {SumKey(Rewards, split), SumKey(Logps, split), SumKey(Logits, split), CountKey(split)}
    {
      match key
      case CountKey(_) =>
      case SumKey(metric, _) => assert metric == Rewards || metric == Logps || metric == Logits;
    }
  }

  /** A side without a count of a split has no sums of it either. */
  lemma NoCountNoSums(lists: map<Key, seq<real>>, split: Split, batches: seq<Batch>)
    requires forall metric :: Get(lists, SumKey(metric, split)) == ListOf(SumKey(metric, split), batches)
    requires Get(lists, CountKey(split)) == ListOf(CountKey(split), batches)
    requires CountKey(split) !in lists && forall key :: key in lists ==> lists[key] != []
    ensures forall key :: BelongsTo(key, split) ==> key !in lists
  {
    forall key | BelongsTo(key, split) ensures key !in lists {
      if key.SumKey? {
        StoredSums(key.metric, split, batches);
        assert Get(lists, SumKey(key.metric, split)) == [];
      }
    }
  }

  lemma AverageIsQuotient(metric: Metric, split: Split, batches: seq<Batch>)
    ensures ListOf(CountKey(split), batches) == [] ==> Report(Averaged(metric, split), batches) == None
    ensures ListOf(CountKey(split), batches) != [] ==>
      && Sum(ListOf(CountKey(split), batches)) > 0.0
      && Report(Averaged(metric, split), batches)
         == Some(Sum(ListOf(SumKey(metric, split), batches)) / Sum(ListOf(CountKey(split), batches)))
  {
    StoredSums(metric, split, batches);
    StoredCounts(split, batches);
    NumberSame(metric, split, ExamplesOf(batches));
  }

  /** `logs[prefix + key] = mean(list)` for every list that is left. */
  method AddMeans(lists: map<Key, seq<real>>, logs: map<LogKey, real>, eval: bool) returns (out: map<LogKey, real>)
    requires forall key :: key in lists ==> lists[key] != []
    ensures forall key: LogKey :: Overlays(out, logs, key, MeanFor(key, lists, eval, {}))
  {
    out := logs;
    var todo := lists.Keys;
    while todo != {}
      invariant todo <= lists.Keys
      invariant forall key: LogKey :: Overlays(out, logs, key, MeanFor(key, lists, eval, todo))
      decreases todo
    {
      var key :| key in todo;
      ghost var before, left := out, todo;
      out := out[LogKey(eval, Stored(key)) := Mean(lists[key])];
      todo := todo - {key};
      forall k: LogKey ensures Overlays(out, logs, k, MeanFor(k, lists, eval, todo)) {
        assert Overlays(before, logs, k, MeanFor(k, lists, eval, left));
        if k.eval == eval && k.name == Stored(key) { assert k == LogKey(eval, Stored(key)); }
      }
    }
  }

  /** The mean to log under a key, for the lists already visited. */
  function MeanFor(key: LogKey, lists: map<Key, seq<real>>, eval: bool, todo: set<Key>): Option<real>
    requires forall k :: k in lists ==> lists[k] != []
  {
    if key.eval == eval && key.name.Stored? && key.name.key in lists && key.name.key !in todo then
      Some(Mean(lists[key.name.key]))
    else None
  }
}
