/** Graceful shutdown of the server as a protocol over signals and promises. The chain of promises
    the listener builds is a row of cells under one rule: a promise settles once, and its reaction is
    queued once, when it settles. Queued reactions run in any order, so all interleavings of signals,
    settlements and reactions are runs. */
module Shutdown {
  import opened Tensors

  /** The drain, the HTTP close and the store close come from outside; `Promise.all`, the `.then` that
      calls close and the `.then` that reports are built from them. */
  datatype Promise = Drain | Http | All | StoreClose | Closed | Reported

  /** Only a promise somebody watches queues a reaction when it settles. */
  datatype Cell = Absent | Pending(watched: bool) | Settled(ok: bool, queued: bool)

  /** What is observable: the effects of the code and the settlements it reacts to. */
  datatype Entry =
    | WroteDraining | CalledHttpClose | CalledBeginDrain | CalledClose | WroteClosed | WroteNotDrained
    | Resolved(code: int) | RemovedListeners | DrainThrew
    | Settles(promise: Promise, ok: bool) | Absorbed | Unhandled

  datatype State = State(
    stopping: bool, listening: bool, threw: bool, outcome: Option<int>, missing: int,
    cells: map<Promise, Cell>, trace: seq<Entry>)

  /** A signal (beginDrain may throw instead of returning a promise), an attempt to settle a promise
      from outside, or a queued reaction that runs. */
  datatype Event = Signal(drainThrows: bool) | Settle(promise: Promise, ok: bool) | React(promise: Promise)

  const INITIAL := State(false, true, false, None, 2, map[], [])

  function CellIn(cells: map<Promise, Cell>, p: Promise): Cell {
    if p in cells then cells[p] else Absent
  }

  function CellOf(s: State, p: Promise): Cell {
    CellIn(s.cells, p)
  }

  function WithCell(s: State, p: Promise, c: Cell): State {
    s.(cells := s.cells[p := c])
  }

  predicate FromOutside(p: Promise) {
    p == Drain || p == Http || p == StoreClose
  }

  /** Anything that exists can be settled again, to no effect; a reaction runs if it is queued. */
  predicate Enabled(s: State, e: Event) {
    match e
    case Signal(_) => true
    case Settle(p, _) => FromOutside(p) && CellOf(s, p) != Absent
    case React(p) => CellOf(s, p).Settled? && CellOf(s, p).queued
  }

  // ----- the rule for promises

  function Emit(s: State, x: Entry): State {
    s.(trace := s.trace + [x])
  }

  /** A promise settles once. */
  function SettlePromise(s: State, p: Promise, ok: bool): State {
    match CellOf(s, p)
    case Pending(watched) => Emit(WithCell(s, p, Settled(ok, watched)), Settles(p, ok))
    case _ => s
  }

  /** `resolve(code)`: the promise handed out keeps the first code. */
  function Resolve(s: State, code: int): State {
    Emit(s.(outcome := if s.outcome == None then Some(code) else s.outcome), Resolved(code))
  }

  // ----- the code

  /** The listener: everything up to the first wait. When beginDrain throws, nothing watches the HTTP
      close and no further promise exists. */
  function Listen(s: State, drainThrows: bool): State {
    var draining := Emit(s.(stopping := true), WroteDraining);
    var closing := Emit(WithCell(draining, Http, Pending(!drainThrows)), CalledHttpClose);
    var begun := Emit(closing, CalledBeginDrain);
    if drainThrows then Emit(begun.(threw := true), DrainThrew)
    else
      var cells := begun.cells[Drain := Pending(true)][All := Pending(true)];
      begun.(cells := cells[Closed := Pending(true)][Reported := Pending(true)])
  }

  /** What a promise's reaction does when it runs. */
  function Reaction(s: State, p: Promise, ok: bool): State {
    match p
    case Drain => Counted(s, ok)
    case Http => Counted(s, ok)
    case All =>
      if ok then Emit(WithCell(s, StoreClose, Pending(true)), CalledClose) else SettlePromise(s, Closed, false)
    case StoreClose => SettlePromise(s, Closed, ok)
    case Closed => SettlePromise(Told(s, ok), Reported, true)
    case Reported => Emit(s.(listening := false), RemovedListeners)
  }

  /** The two callbacks of the reporting `.then`. */
  function Told(s: State, ok: bool): State {
    if ok then Resolve(Emit(s, WroteClosed), 0) else Resolve(Emit(s, WroteNotDrained), 1)
  }

  /** An input of `Promise.all`: it counts fulfilments down and rejects at the first rejection. */
  function Counted(s: State, ok: bool): State {
    if !ok then SettlePromise(s, All, false)
    else if s.missing == 1 then SettlePromise(s.(missing := 0), All, true)
    else s.(missing := s.missing - 1)
  }

  function Step(s: State, e: Event): State
    requires Enabled(s, e)
  {
    match e
    case Signal(drainThrows) =>
      if !s.listening then Emit(s, Unhandled) else if s.stopping then Emit(s, Absorbed) else Listen(s, drainThrows)
    case Settle(p, ok) => SettlePromise(s, p, ok)
    case React(p) => Reaction(WithCell(s, p, Settled(CellOf(s, p).ok, false)), p, CellOf(s, p).ok)
  }

  /** The state after a run; a sequence with a step that is not enabled is no run. */
  function After(events: seq<Event>): Option<State> {
    if events == [] then Some(INITIAL)
    else
      var before := After(events[..|events| - 1]);
      var last := events[|events| - 1];
      if before.Some? && Enabled(before.value, last) then Some(Step(before.value, last)) else None
  }

  lemma AfterNext(events: seq<Event>, e: Event)
    requires After(events).Some? && Enabled(After(events).value, e)
    ensures After(events + [e]) == Some(Step(After(events).value, e))
  {
    assert (events + [e])[..|events|] == events;
  }

  // ----- the invariant

  predicate Is(c: Cell, ok: bool) {
    c.Settled? && c.ok == ok
  }

  /** Settled this way, and the reaction has run. */
  predicate Ran(c: Cell, ok: bool) {
    c == Settled(ok, false)
  }

  function Bit(b: bool): nat {
    if b then 1 else 0
  }

  predicate Watched(c: Cell) {
    c != Absent && (c.Pending? ==> c.watched)
  }

  /** What the chain looks like once it is built: every promise stands where its inputs put it. */
  predicate Chain(s: State) {
    && Watched(CellOf(s, Drain)) && Watched(CellOf(s, Http))
    && Watched(CellOf(s, All)) && Watched(CellOf(s, Closed)) && Watched(CellOf(s, Reported))
    && s.missing == 2 - Bit(Ran(CellOf(s, Drain), true)) - Bit(Ran(CellOf(s, Http), true))
    && (Is(CellOf(s, All), true) <==> s.missing == 0)
    && (Is(CellOf(s, All), false) <==> Ran(CellOf(s, Drain), false) || Ran(CellOf(s, Http), false))
    && (CellOf(s, StoreClose) != Absent <==> Ran(CellOf(s, All), true))
    && (CellOf(s, StoreClose) != Absent ==> Watched(CellOf(s, StoreClose)))
    && (Is(CellOf(s, Closed), true) <==> Ran(CellOf(s, StoreClose), true))
    && (Is(CellOf(s, Closed), false) <==> Ran(CellOf(s, StoreClose), false) || Ran(CellOf(s, All), false))
    && (Is(CellOf(s, Reported), true) <==> Ran(CellOf(s, Closed), true) || Ran(CellOf(s, Closed), false))
    && !Is(CellOf(s, Reported), false)
    && (s.outcome == if Ran(CellOf(s, Closed), true) then Some(0)
                     else if Ran(CellOf(s, Closed), false) then Some(1) else None)
    && (s.listening <==> !Ran(CellOf(s, Reported), true))
  }

  predicate Unwatched(c: Cell) {
    c != Absent && (c.Pending? ==> !c.watched) && (c.Settled? ==> !c.queued)
  }

  predicate NoChain(s: State) {
    && CellOf(s, Drain) == Absent && CellOf(s, All) == Absent && CellOf(s, StoreClose) == Absent
    && CellOf(s, Closed) == Absent && CellOf(s, Reported) == Absent
    && s.outcome == None && s.listening && s.missing == 2
  }

  predicate Consistent(s: State) {
    if !s.stopping then NoChain(s) && CellOf(s, Http) == Absent && !s.threw
    else if s.threw then NoChain(s) && Unwatched(CellOf(s, Http))
    else Chain(s)
  }

  lemma SettleKeepsConsistent(s: State, p: Promise, ok: bool)
    requires Consistent(s) && FromOutside(p)
    ensures Consistent(SettlePromise(s, p, ok))
  {
    match p
    case Drain =>
    case Http =>
    case StoreClose =>
  }

  lemma ListenBuildsChain(s: State, drainThrows: bool)
    requires Consistent(s) && !s.stopping
    ensures Consistent(Listen(s, drainThrows))
  {
  }

  /** The state in which a queued reaction starts. */
  function Taken(s: State, p: Promise): State
    requires Enabled(s, React(p))
  {
    WithCell(s, p, Settled(CellOf(s, p).ok, false))
  }

  lemma DrainFulfils(s: State)
    requires Consistent(s) && CellOf(s, Drain) == Settled(true, true)
    ensures Consistent(Counted(Taken(s, Drain), true))
  {
  }

  lemma DrainRejects(s: State)
    requires Consistent(s) && CellOf(s, Drain) == Settled(false, true)
    ensures Consistent(Counted(Taken(s, Drain), false))
  {
  }

  lemma HttpFulfils(s: State)
    requires Consistent(s) && CellOf(s, Http) == Settled(true, true)
    ensures Consistent(Counted(Taken(s, Http), true))
  {
  }

  lemma HttpRejects(s: State)
    requires Consistent(s) && CellOf(s, Http) == Settled(false, true)
    ensures Consistent(Counted(Taken(s, Http), false))
  {
  }

  lemma AllKeepsChain(s: State)
    requires Consistent(s) && Enabled(s, React(All))
    ensures Consistent(Reaction(Taken(s, All), All, CellOf(s, All).ok))
  {
  }

  lemma StoreCloseKeepsChain(s: State)
    requires Consistent(s) && Enabled(s, React(StoreClose))
    ensures Consistent(Reaction(Taken(s, StoreClose), StoreClose, CellOf(s, StoreClose).ok))
  {
  }

  lemma ClosedKeepsChain(s: State)
    requires Consistent(s) && Enabled(s, React(Closed))
    ensures Consistent(Reaction(Taken(s, Closed), Closed, CellOf(s, Closed).ok))
  {
  }

  lemma ReportedKeepsChain(s: State)
    requires Consistent(s) && Enabled(s, React(Reported))
    ensures Consistent(Reaction(Taken(s, Reported), Reported, CellOf(s, Reported).ok))
  {
  }

  lemma ConsistentStep(s: State, e: Event)
    requires Consistent(s) && Enabled(s, e)
    ensures Consistent(Step(s, e))
  {
    match e
    case Signal(drainThrows) =>
      if s.listening && !s.stopping { ListenBuildsChain(s, drainThrows); }
    case Settle(p, ok) => SettleKeepsConsistent(s, p, ok);
    case React(Drain) => if CellOf(s, Drain).ok { DrainFulfils(s); } else { DrainRejects(s); }
    case React(Http) => if CellOf(s, Http).ok { HttpFulfils(s); } else { HttpRejects(s); }
    case React(All) => AllKeepsChain(s);
    case React(StoreClose) => StoreCloseKeepsChain(s);
    case React(Closed) => ClosedKeepsChain(s);
    case React(Reported) => ReportedKeepsChain(s);
  }

  // ----- how often each entry occurs

  function Times(trace: seq<Entry>, x: Entry): nat {
    multiset(trace)[x]
  }

  /** How often an entry has occurred, read off the cells. */
  function Expected(s: State, x: Entry): nat {
    match x
    case WroteDraining | CalledHttpClose | CalledBeginDrain => Bit(s.stopping)
    case CalledClose => Bit(CellOf(s, StoreClose) != Absent)
    case WroteClosed => Bit(Ran(CellOf(s, Closed), true))
    case WroteNotDrained => Bit(Ran(CellOf(s, Closed), false))
    case Resolved(code) =>
      if code == 0 then Bit(Ran(CellOf(s, Closed), true))
      else if code == 1 then Bit(Ran(CellOf(s, Closed), false)) else 0
    case RemovedListeners => Bit(!s.listening)
    case DrainThrew => Bit(s.threw)
    case Settles(p, ok) => Bit(Is(CellOf(s, p), ok))
    case Absorbed | Unhandled => Times(s.trace, x)
  }

  predicate CountsAt(s: State, x: Entry) {
    Times(s.trace, x) == Expected(s, x)
  }

  ghost predicate Counts(s: State) {
    forall x :: CountsAt(s, x)
  }

  lemma TimesEmit(trace: seq<Entry>, x: Entry, y: Entry)
    ensures Times(trace + [x], y) == Times(trace, y) + Bit(x == y)
  {
  }

  lemma SettleCounts(s: State, p: Promise, ok: bool, x: Entry)
    requires CountsAt(s, x) && (CellOf(s, Closed) != Absent ==> Watched(CellOf(s, Closed)))
    ensures CountsAt(SettlePromise(s, p, ok), x)
  {
    TimesEmit(s.trace, Settles(p, ok), x);
  }

  lemma TimesThree(trace: seq<Entry>, a: Entry, b: Entry, c: Entry, y: Entry)
    ensures Times(trace + [a] + [b] + [c], y) == Times(trace, y) + Bit(a == y) + Bit(b == y) + Bit(c == y)
  {
    TimesEmit(trace, a, y);
    TimesEmit(trace + [a], b, y);
    TimesEmit(trace + [a] + [b], c, y);
  }

  /** The trace after the first signal. */
  lemma ListenTimes(s: State, drainThrows: bool, x: Entry)
    ensures Times(Listen(s, drainThrows).trace, x) == Times(s.trace, x) + Bit(WroteDraining == x)
            + Bit(CalledHttpClose == x) + Bit(CalledBeginDrain == x) + Bit(drainThrows && DrainThrew == x)
  {
    TimesThree(s.trace, WroteDraining, CalledHttpClose, CalledBeginDrain, x);
    TimesEmit(s.trace + [WroteDraining] + [CalledHttpClose] + [CalledBeginDrain], DrainThrew, x);
  }

  /** What the first signal makes expected. */
  lemma ListenExpected(s: State, drainThrows: bool, x: Entry)
    requires Consistent(s) && !s.stopping && !x.Absorbed? && !x.Unhandled?
    ensures Expected(Listen(s, drainThrows), x) == Expected(s, x) + Bit(WroteDraining == x)
            + Bit(CalledHttpClose == x) + Bit(CalledBeginDrain == x) + Bit(drainThrows && DrainThrew == x)
  {
  }

  lemma ListenCounts(s: State, drainThrows: bool, x: Entry)
    requires Consistent(s) && !s.stopping && CountsAt(s, x)
    ensures CountsAt(Listen(s, drainThrows), x)
  {
    if !x.Absorbed? && !x.Unhandled? {
      ListenTimes(s, drainThrows, x);
      ListenExpected(s, drainThrows, x);
    }
  }

  /** A reaction that starts changes no count, except that of the reporting promise. */
  lemma TakenCounts(s: State, p: Promise, x: Entry)
    requires Enabled(s, React(p)) && p != Closed && CountsAt(s, x)
    ensures CountsAt(Taken(s, p), x)
  {
  }

  lemma CountedCounts(s: State, p: Promise, ok: bool, x: Entry)
    requires Consistent(s) && CellOf(s, p) == Settled(ok, true) && (p == Drain || p == Http) && CountsAt(s, x)
    ensures CountsAt(Counted(Taken(s, p), ok), x)
  {
    TakenCounts(s, p, x);
    var t := Taken(s, p);
    if !ok {
      SettleCounts(t, All, false, x);
    } else if t.missing == 1 {
      SettleCounts(t.(missing := 0), All, true, x);
    }
  }

  lemma CloseCounts(s: State, ok: bool, x: Entry)
    requires Consistent(s) && CellOf(s, All) == Settled(ok, true) && CountsAt(s, x)
    ensures CountsAt(Reaction(Taken(s, All), All, ok), x)
  {
    TakenCounts(s, All, x);
    if ok {
      TimesEmit(s.trace, CalledClose, x);
    } else {
      SettleCounts(Taken(s, All), Closed, false, x);
    }
  }

  lemma ToldTimes(s: State, ok: bool, x: Entry)
    ensures Times(Told(s, ok).trace, x)
            == Times(s.trace, x) + Bit((if ok then WroteClosed else WroteNotDrained) == x)
               + Bit(Resolved(if ok then 0 else 1) == x)
  {
    var line := if ok then WroteClosed else WroteNotDrained;
    TimesEmit(s.trace, line, x);
    TimesEmit(s.trace + [line], Resolved(if ok then 0 else 1), x);
  }

  lemma ToldExpected(s: State, ok: bool, x: Entry)
    requires CellOf(s, Closed) == Settled(ok, true) && !x.Absorbed? && !x.Unhandled?
    ensures Expected(Told(Taken(s, Closed), ok), x)
            == Expected(s, x) + Bit((if ok then WroteClosed else WroteNotDrained) == x)
               + Bit(Resolved(if ok then 0 else 1) == x)
  {
  }

  lemma ToldCounts(s: State, ok: bool, x: Entry)
    requires CellOf(s, Closed) == Settled(ok, true) && CountsAt(s, x)
    ensures CountsAt(Told(Taken(s, Closed), ok), x)
  {
    if !x.Absorbed? && !x.Unhandled? {
      ToldTimes(Taken(s, Closed), ok, x);
      ToldExpected(s, ok, x);
    }
  }

  lemma ReportCounts(s: State, ok: bool, x: Entry)
    requires Consistent(s) && CellOf(s, Closed) == Settled(ok, true) && CountsAt(s, x)
    ensures CountsAt(Reaction(Taken(s, Closed), Closed, ok), x)
  {
    ToldCounts(s, ok, x);
    SettleCounts(Told(Taken(s, Closed), ok), Reported, true, x);
  }

  lemma CountSignal(s: State, drainThrows: bool, x: Entry)
    requires Consistent(s) && CountsAt(s, x)
    ensures CountsAt(Step(s, Signal(drainThrows)), x)
  {
    if !s.listening {
      TimesEmit(s.trace, Unhandled, x);
    } else if s.stopping {
      TimesEmit(s.trace, Absorbed, x);
    } else {
      ListenCounts(s, drainThrows, x);
    }
  }

  lemma StoreCloseCounts(s: State, x: Entry)
    requires Consistent(s) && Enabled(s, React(StoreClose)) && CountsAt(s, x)
    ensures CountsAt(Reaction(Taken(s, StoreClose), StoreClose, CellOf(s, StoreClose).ok), x)
  {
    TakenCounts(s, StoreClose, x);
    SettleCounts(Taken(s, StoreClose), Closed, CellOf(s, StoreClose).ok, x);
  }

  lemma FinallyCounts(s: State, x: Entry)
    requires Consistent(s) && Enabled(s, React(Reported)) && CountsAt(s, x)
    ensures CountsAt(Reaction(Taken(s, Reported), Reported, CellOf(s, Reported).ok), x)
  {
    TakenCounts(s, Reported, x);
    TimesEmit(s.trace, RemovedListeners, x);
  }

  lemma CountStep(s: State, e: Event, x: Entry)
    requires Consistent(s) && Enabled(s, e) && CountsAt(s, x)
    ensures CountsAt(Step(s, e), x)
  {
    match e
    case Signal(drainThrows) => CountSignal(s, drainThrows, x);
    case Settle(p, ok) => SettleCounts(s, p, ok, x);
    case React(Drain) => CountedCounts(s, Drain, CellOf(s, Drain).ok, x);
    case React(Http) => CountedCounts(s, Http, CellOf(s, Http).ok, x);
    case React(All) => CloseCounts(s, CellOf(s, All).ok, x);
    case React(StoreClose) => StoreCloseCounts(s, x);
    case React(Closed) => ReportCounts(s, CellOf(s, Closed).ok, x);
    case React(Reported) => FinallyCounts(s, x);
  }

  // ----- what each effect presupposes

  /** What an entry presupposes of the entries before it. */
  ghost predicate Justified(before: seq<Entry>, x: Entry) {
    match x
    case CalledHttpClose => WroteDraining in before
    case CalledBeginDrain => CalledHttpClose in before
    case DrainThrew => CalledBeginDrain in before
    case CalledClose => Settles(Drain, true) in before && Settles(Http, true) in before
    case WroteClosed => AllFulfilledIn(before)
    case WroteNotDrained => SomeRejectedIn(before)
    case Resolved(code) =>
      if code == 0 then AllFulfilledIn(before) && WroteClosed in before
      else code == 1 && SomeRejectedIn(before) && WroteNotDrained in before
    case Absorbed => RemovedListeners !in before && WroteDraining in before
    case Unhandled => RemovedListeners in before
    case RemovedListeners => Resolved(0) in before || Resolved(1) in before
    case Settles(StoreClose, _) => CalledClose in before
    case _ => true
  }

  predicate AllFulfilledIn(trace: seq<Entry>) {
    Settles(Drain, true) in trace && Settles(Http, true) in trace && Settles(StoreClose, true) in trace
  }

  predicate SomeRejectedIn(trace: seq<Entry>) {
    Settles(Drain, false) in trace || Settles(Http, false) in trace || Settles(StoreClose, false) in trace
  }

  ghost predicate AllJustified(trace: seq<Entry>) {
    forall i :: 0 <= i < |trace| ==> Justified(trace[..i], trace[i])
  }

  lemma JustifiedEmit(trace: seq<Entry>, x: Entry)
    requires AllJustified(trace) && Justified(trace, x)
    ensures AllJustified(trace + [x])
  {
    var t := trace + [x];
    forall i | 0 <= i < |t| ensures Justified(t[..i], t[i]) {
      assert t[..i] == if i < |trace| then trace[..i] else trace;
    }
  }

  ghost predicate Safe(s: State) {
    Consistent(s) && Counts(s) && AllJustified(s.trace)
  }

  /** An entry is in the trace if and only if it is expected there. */
  lemma InTrace(s: State, x: Entry)
    requires Counts(s)
    ensures x in s.trace <==> Expected(s, x) > 0
  {
    assert CountsAt(s, x);
    assert x in s.trace <==> x in multiset(s.trace);
  }

  lemma SettleJustified(s: State, p: Promise, ok: bool)
    requires AllJustified(s.trace)
    requires p == StoreClose && CellOf(s, p) != Absent ==> CalledClose in s.trace
    ensures AllJustified(SettlePromise(s, p, ok).trace)
  {
    if CellOf(s, p).Pending? { JustifiedEmit(s.trace, Settles(p, ok)); }
  }

  lemma ListenJustified(s: State, drainThrows: bool)
    requires AllJustified(s.trace)
    ensures AllJustified(Listen(s, drainThrows).trace)
  {
    var t := s.trace;
    JustifiedEmit(t, WroteDraining);
    JustifiedEmit(t + [WroteDraining], CalledHttpClose);
    JustifiedEmit(t + [WroteDraining] + [CalledHttpClose], CalledBeginDrain);
    JustifiedEmit(t + [WroteDraining] + [CalledHttpClose] + [CalledBeginDrain], DrainThrew);
  }

  lemma CloseJustified(s: State)
    requires Safe(s) && CellOf(s, All) == Settled(true, true)
    ensures AllJustified(s.trace + [CalledClose])
  {
    InTrace(s, Settles(Drain, true));
    InTrace(s, Settles(Http, true));
    JustifiedEmit(s.trace, CalledClose);
  }

  lemma InputsOfReport(s: State, ok: bool)
    requires Safe(s) && Is(CellOf(s, Closed), ok)
    ensures if ok then AllFulfilledIn(s.trace) else SomeRejectedIn(s.trace)
  {
    forall p | FromOutside(p)
      ensures Settles(p, ok) in s.trace <==> Is(CellOf(s, p), ok)
    {
      InTrace(s, Settles(p, ok));
    }
  }

  lemma ReportJustified(s: State, ok: bool)
    requires Safe(s) && CellOf(s, Closed) == Settled(ok, true)
    ensures AllJustified(Reaction(Taken(s, Closed), Closed, ok).trace)
  {
    InputsOfReport(s, ok);
    var line, code := if ok then WroteClosed else WroteNotDrained, if ok then 0 else 1;
    JustifiedEmit(s.trace, line);
    JustifiedEmit(s.trace + [line], Resolved(code));
    SettleJustified(Resolve(Emit(Taken(s, Closed), line), code), Reported, true);
  }

  lemma JustifiedStep(s: State, e: Event)
    requires Safe(s) && Enabled(s, e)
    ensures AllJustified(Step(s, e).trace)
  {
    match e
    case Signal(drainThrows) =>
      InTrace(s, RemovedListeners);
      InTrace(s, WroteDraining);
      if !s.listening {
        JustifiedEmit(s.trace, Unhandled);
      } else if s.stopping {
        JustifiedEmit(s.trace, Absorbed);
      } else {
        ListenJustified(s, drainThrows);
      }
    case Settle(p, ok) =>
      InTrace(s, CalledClose);
      SettleJustified(s, p, ok);
    case React(Drain) => CountedJustified(Taken(s, Drain), CellOf(s, Drain).ok);
    case React(Http) => CountedJustified(Taken(s, Http), CellOf(s, Http).ok);
    case React(All) =>
      if CellOf(s, All).ok { CloseJustified(s); } else { SettleJustified(Taken(s, All), Closed, false); }
    case React(StoreClose) => SettleJustified(Taken(s, StoreClose), Closed, CellOf(s, StoreClose).ok);
    case React(Closed) => ReportJustified(s, CellOf(s, Closed).ok);
    case React(Reported) =>
      InTrace(s, Resolved(0));
      InTrace(s, Resolved(1));
      JustifiedEmit(s.trace, RemovedListeners);
  }

  lemma CountedJustified(s: State, ok: bool)
    requires AllJustified(s.trace)
    ensures AllJustified(Counted(s, ok).trace)
  {
    SettleJustified(s, All, false);
    SettleJustified(s.(missing := 0), All, true);
  }

  // ----- safety over all runs

  /** Every step keeps the invariant. */
  lemma SafeStep(s: State, e: Event)
    requires Safe(s) && Enabled(s, e)
    ensures Safe(Step(s, e))
  {
    ConsistentStep(s, e);
    forall x ensures CountsAt(Step(s, e), x) {
      assert CountsAt(s, x);
      CountStep(s, e, x);
    }
    JustifiedStep(s, e);
  }

  lemma {:induction false} EveryRunIsSafe(events: seq<Event>)
    requires After(events).Some?
    ensures Safe(After(events).value)
  {
    if events != [] {
      EveryRunIsSafe(events[..|events| - 1]);
      SafeStep(After(events[..|events| - 1]).value, events[|events| - 1]);
    }
  }

  predicate AllFulfilled(s: State) {
    Is(CellOf(s, Drain), true) && Is(CellOf(s, Http), true) && Is(CellOf(s, StoreClose), true)
  }

  predicate SomeRejected(s: State) {
    Is(CellOf(s, Drain), false) || Is(CellOf(s, Http), false) || Is(CellOf(s, StoreClose), false)
  }

  /** Drain and HTTP close start at most once; close starts at most once, and only after both have
      fulfilled; resolve is called at most once, so the outcome is never overruled; the outcome is 0
      only if all three have fulfilled and 1 only if one has rejected, and these exclude each other; the
      listeners stay until the outcome is set. */
  ghost predicate ShutsDownSafely(s: State) {
    && Times(s.trace, CalledBeginDrain) <= 1 && Times(s.trace, CalledHttpClose) <= 1 && Times(s.trace, CalledClose) <= 1
    && Times(s.trace, Resolved(0)) + Times(s.trace, Resolved(1)) == Bit(s.outcome.Some?)
    && (forall i :: 0 <= i < |s.trace| && s.trace[i] == CalledClose ==>
         Settles(Drain, true) in s.trace[..i] && Settles(Http, true) in s.trace[..i])
    && (s.outcome == Some(0) <==> s.outcome.Some? && AllFulfilled(s))
    && (s.outcome == Some(1) <==> s.outcome.Some? && SomeRejected(s))
    && (s.outcome == None ==> s.listening)
  }

  /** Main result, for any number and order of signals, any order of settlements, repeated ones
      included, and any order in which queued reactions run. */
  lemma ShutdownSafety(events: seq<Event>)
    requires After(events).Some?
    ensures ShutsDownSafely(After(events).value)
  {
    EveryRunIsSafe(events);
    SafeShutsDownSafely(After(events).value);
  }

  lemma SafeShutsDownSafely(s: State)
    requires Safe(s)
    ensures ShutsDownSafely(s)
  {
    assert CountsAt(s, CalledBeginDrain) && CountsAt(s, CalledHttpClose) && CountsAt(s, CalledClose);
    assert CountsAt(s, Resolved(0)) && CountsAt(s, Resolved(1));
    forall i | 0 <= i < |s.trace| && s.trace[i] == CalledClose
      ensures Settles(Drain, true) in s.trace[..i] && Settles(Http, true) in s.trace[..i]
    {
      assert Justified(s.trace[..i], s.trace[i]);
    }
  }

  /** In every run the effects come in the listener's order: draining is announced, then the HTTP close is
      called, then the drain begun; the result is announced before the promise is resolved with it, and
      the listeners go last. */
  lemma EffectsComeInOrder(events: seq<Event>, i: nat)
    requires After(events).Some? && i < |After(events).value.trace|
    ensures
      var x, before := After(events).value.trace[i], After(events).value.trace[..i];
      && (x == CalledHttpClose ==> WroteDraining in before)
      && (x == CalledBeginDrain ==> CalledHttpClose in before)
      && (x == DrainThrew ==> CalledBeginDrain in before)
      && (x == WroteClosed ==>
           Settles(Drain, true) in before && Settles(Http, true) in before && Settles(StoreClose, true) in before)
      && (x == WroteNotDrained ==>
           Settles(Drain, false) in before || Settles(Http, false) in before || Settles(StoreClose, false) in before)
      && (x.Resolved? ==> (if x.code == 0 then WroteClosed else WroteNotDrained) in before)
      && (x == RemovedListeners ==> Resolved(0) in before || Resolved(1) in before)
  {
    EveryRunIsSafe(events);
    assert Justified(After(events).value.trace[..i], After(events).value.trace[i]);
  }

  /** A later signal changes nothing but the record that it was absorbed. */
  lemma LaterSignalsChangeNothing(events: seq<Event>, drainThrows: bool)
    requires After(events).Some? && After(events).value.stopping && After(events).value.outcome == None
    ensures Step(After(events).value, Signal(drainThrows)) == Emit(After(events).value, Absorbed)
  {
    EveryRunIsSafe(events);
  }

  lemma SignalStep(s: State, drainThrows: bool)
    ensures s.stopping || !s.listening ==>
      Step(s, Signal(drainThrows)).cells == s.cells && Step(s, Signal(drainThrows)).outcome == s.outcome
    ensures !s.listening ==> Step(s, Signal(drainThrows)) == Emit(s, Unhandled)
  {
  }

  /** A run goes on safely. */
  lemma NextRun(events: seq<Event>, e: Event)
    requires After(events).Some? && Enabled(After(events).value, e)
    ensures After(events + [e]) == Some(Step(After(events).value, e)) && ShutsDownSafely(Step(After(events).value, e))
  {
    AfterNext(events, e);
    ShutdownSafety(events + [e]);
  }

  /** Nothing has been started before the first signal. */
  lemma StartsOnce(events: seq<Event>)
    requires After(events).Some?
    ensures !After(events).value.stopping ==>
      CalledHttpClose !in After(events).value.trace && CalledBeginDrain !in After(events).value.trace
    ensures !After(events).value.listening ==> After(events).value.stopping
  {
    EveryRunIsSafe(events);
    InTrace(After(events).value, CalledHttpClose);
    InTrace(After(events).value, CalledBeginDrain);
  }

  /** What holds when a queued reaction is about to run: the stores have not been closed before and
      both inputs have fulfilled; no outcome has been reported before; the listeners go last. */
  lemma ReactionsAreTimely(events: seq<Event>, p: Promise)
    requires After(events).Some? && Enabled(After(events).value, React(p))
    ensures
      var s := After(events).value;
      && (p == All && CellOf(s, p).ok ==>
           CalledClose !in s.trace && Settles(Drain, true) in s.trace && Settles(Http, true) in s.trace)
      && (p == Closed ==> s.outcome == None && Resolved(0) !in s.trace && Resolved(1) !in s.trace)
      && (p == Reported ==> s.outcome.Some? && RemovedListeners !in s.trace)
  {
    EveryRunIsSafe(events);
    var s := After(events).value;
    if p == All {
      CloseIsTimely(s);
    } else if p == Closed {
      ReportIsTimely(s);
    } else if p == Reported {
      InTrace(s, RemovedListeners);
    }
  }

  lemma CloseIsTimely(s: State)
    requires Safe(s) && CellOf(s, All).Settled? && CellOf(s, All).queued
    ensures CellOf(s, All).ok ==>
      CalledClose !in s.trace && Settles(Drain, true) in s.trace && Settles(Http, true) in s.trace
  {
    InTrace(s, CalledClose);
    InTrace(s, Settles(Drain, true));
    InTrace(s, Settles(Http, true));
  }

  lemma ReportIsTimely(s: State)
    requires Safe(s) && CellOf(s, Closed).Settled? && CellOf(s, Closed).queued
    ensures s.outcome == None && Resolved(0) !in s.trace && Resolved(1) !in s.trace
  {
    InTrace(s, Resolved(0));
    InTrace(s, Resolved(1));
  }

  // ----- progress

  /** Steps without effect on the protocol: signals after the first, and settling what has settled. */
  predicate Idle(s: State, e: Event) {
    (e.Signal? && s.stopping) || (e.Settle? && CellOf(s, e.promise).Settled?)
  }

  function CellRank(c: Cell): nat {
    if c == Absent || c.Pending? then 2 else if c.queued then 1 else 0
  }

  /** What an outside promise can still do is settle and react; one of the chain's own, react. */
  function Weight(p: Promise, c: Cell): nat {
    if FromOutside(p) then CellRank(c) else Bit(CellRank(c) > 0)
  }

  function WeightIn(cells: map<Promise, Cell>, p: Promise): nat {
    Weight(p, CellIn(cells, p))
  }

  function CellsRank(cells: map<Promise, Cell>): nat {
    WeightIn(cells, Drain) + WeightIn(cells, Http) + WeightIn(cells, StoreClose)
    + WeightIn(cells, All) + WeightIn(cells, Closed) + WeightIn(cells, Reported)
  }

  function Rank(s: State): nat {
    CellsRank(s.cells) + Bit(!s.stopping)
  }

  lemma RankWithCell(cells: map<Promise, Cell>, p: Promise, c: Cell)
    ensures CellsRank(cells[p := c]) == CellsRank(cells) - WeightIn(cells, p) + Weight(p, c)
  {
    match p
    case Drain =>
    case Http =>
    case All =>
    case StoreClose =>
    case Closed =>
    case Reported =>
  }

  lemma SettleRank(s: State, p: Promise, ok: bool)
    ensures Rank(SettlePromise(s, p, ok)) <= Rank(s)
    ensures CellOf(s, p).Pending? && FromOutside(p) ==> Rank(SettlePromise(s, p, ok)) < Rank(s)
  {
    if CellOf(s, p).Pending? { RankWithCell(s.cells, p, Settled(ok, CellOf(s, p).watched)); }
  }

  lemma TakenRank(s: State, p: Promise)
    requires Enabled(s, React(p))
    ensures Rank(Taken(s, p)) < Rank(s)
  {
    RankWithCell(s.cells, p, Settled(CellOf(s, p).ok, false));
  }

  lemma CountedRank(s: State, ok: bool)
    ensures Rank(Counted(s, ok)) <= Rank(s)
  {
    SettleRank(s, All, false);
    SettleRank(s.(missing := 0), All, true);
  }

  lemma ReactionRank(s: State, p: Promise, ok: bool)
    requires p == All && ok ==> CellOf(s, StoreClose) == Absent
    ensures Rank(Reaction(s, p, ok)) <= Rank(s)
  {
    match p
    case Drain => CountedRank(s, ok);
    case Http => CountedRank(s, ok);
    case All => if ok { RankWithCell(s.cells, StoreClose, Pending(true)); } else { SettleRank(s, Closed, false); }
    case StoreClose => SettleRank(s, Closed, ok);
    case Closed =>
      SettleRank(Told(s, ok), Reported, true);
    case Reported =>
  }

  lemma StepsUseUpRank(s: State, e: Event)
    requires Consistent(s) && Enabled(s, e)
    ensures Idle(s, e) ==> Rank(Step(s, e)) == Rank(s)
    ensures !Idle(s, e) ==> Rank(Step(s, e)) < Rank(s)
  {
    match e
    case Signal(drainThrows) => if !s.stopping { ListenRank(s, drainThrows); }
    case Settle(p, ok) => SettleRank(s, p, ok);
    case React(p) =>
      TakenRank(s, p);
      ReactionRank(Taken(s, p), p, CellOf(s, p).ok);
  }

  lemma ListenRank(s: State, drainThrows: bool)
    requires Consistent(s) && !s.stopping
    ensures Rank(Listen(s, drainThrows)) < Rank(s)
  {
  }

  /** The steps of a run that are not idle. */
  function Progressing(events: seq<Event>): nat {
    if events == [] then 0
    else
      var front, last := events[..|events| - 1], events[|events| - 1];
      Progressing(front) + (if After(front).Some? && Idle(After(front).value, last) then 0 else 1)
  }

  /** No run has more than ten steps that do anything. */
  lemma {:induction false} RunsAreBounded(events: seq<Event>)
    requires After(events).Some?
    ensures Progressing(events) + Rank(After(events).value) <= 10
  {
    if events != [] {
      var front, last := events[..|events| - 1], events[|events| - 1];
      EveryRunIsSafe(front);
      RunsAreBounded(front);
      StepsUseUpRank(After(front).value, last);
    }
  }

  /** Nothing is left to settle or to react to. */
  ghost predicate Quiescent(s: State) {
    forall e: Event :: !e.Signal? && Enabled(s, e) ==> Idle(s, e)
  }

  /** Every queued callback has run. */
  ghost predicate NothingQueued(s: State) {
    forall p :: !Enabled(s, React(p))
  }

  /** Main result, on the outcome: whenever every queued callback has run, the outcome is what the
      promises say: 1 if one of them has rejected, whatever the others do, 0 if all three have
      fulfilled, and open otherwise. It stays open if beginDrain threw. The listeners are there exactly
      as long as it is open. */
  lemma OutcomeIsDecided(events: seq<Event>)
    requires After(events).Some? && NothingQueued(After(events).value)
    ensures
      var s := After(events).value;
      && s.outcome == (if !s.stopping || s.threw then None
                       else if SomeRejected(s) then Some(1) else if AllFulfilled(s) then Some(0) else None)
      && (s.listening <==> s.outcome == None)
  {
    EveryRunIsSafe(events);
    Decided(After(events).value);
  }

  lemma Decided(s: State)
    requires Consistent(s) && NothingQueued(s)
    ensures s.outcome == (if !s.stopping || s.threw then None
                          else if SomeRejected(s) then Some(1) else if AllFulfilled(s) then Some(0) else None)
    ensures s.listening <==> s.outcome == None
  {
    assert !Enabled(s, React(Drain)) && !Enabled(s, React(Http)) && !Enabled(s, React(StoreClose));
    assert !Enabled(s, React(All)) && !Enabled(s, React(Closed)) && !Enabled(s, React(Reported));
  }

  /** The code settles none of the promises from outside. */
  lemma SettlesInside(s: State, p: Promise, ok: bool, q: Promise)
    requires !FromOutside(p) && FromOutside(q)
    ensures CellOf(SettlePromise(s, p, ok), q) == CellOf(s, q)
  {
  }

  lemma ReactionStaysInside(s: State, p: Promise, ok: bool, q: Promise)
    requires FromOutside(q) && CellOf(s, q).Settled? && (p == All && ok ==> CellOf(s, StoreClose) == Absent)
    ensures CellOf(Reaction(s, p, ok), q) == CellOf(s, q)
  {
    match p
    case Drain | Http =>
      SettlesInside(s, All, false, q);
      SettlesInside(s.(missing := 0), All, true, q);
    case All => SettlesInside(s, Closed, false, q);
    case StoreClose => SettlesInside(s, Closed, ok, q);
    case Closed => SettlesInside(Told(s, ok), Reported, true, q);
    case Reported =>
  }

  /** A callback undoes no settlement. */
  lemma SettlementStays(s: State, p: Promise, q: Promise, ok: bool)
    requires Consistent(s) && Enabled(s, React(p)) && FromOutside(q) && Is(CellOf(s, q), ok)
    ensures Is(CellOf(Step(s, React(p)), q), ok)
  {
    ReactionStaysInside(Taken(s, p), p, CellOf(s, p).ok, q);
  }

  lemma SettlementsStay(s: State, p: Promise)
    requires Consistent(s) && Enabled(s, React(p))
    ensures
      var t := Step(s, React(p));
      && t.stopping == s.stopping && t.threw == s.threw
      && (SomeRejected(s) ==> SomeRejected(t)) && (AllFulfilled(s) ==> AllFulfilled(t))
  {
    FlagsStay(s, p);
    forall q, ok | FromOutside(q) && Is(CellOf(s, q), ok) ensures Is(CellOf(Step(s, React(p)), q), ok) {
      SettlementStays(s, p, q, ok);
    }
  }

  lemma FlagsStay(s: State, p: Promise)
    requires Enabled(s, React(p))
    ensures Step(s, React(p)).stopping == s.stopping && Step(s, React(p)).threw == s.threw
  {
  }

  /** A run continued by queued callbacks alone: no signal and no settlement in between. */
  ghost predicate OnlyReactions(events: seq<Event>, more: seq<Event>) {
    events <= more && forall i :: |events| <= i < |more| ==> more[i].React?
  }

  /** From any point of a run, the queued callbacks, and those they queue, can all run; nothing else has
      to happen. */
  lemma {:induction false} QueueDrains(events: seq<Event>) returns (more: seq<Event>)
    requires After(events).Some?
    ensures OnlyReactions(events, more) && After(more).Some? && NothingQueued(After(more).value)
    ensures After(more).value.stopping == After(events).value.stopping
    ensures After(more).value.threw == After(events).value.threw
    ensures SomeRejected(After(events).value) ==> SomeRejected(After(more).value)
    ensures AllFulfilled(After(events).value) ==> AllFulfilled(After(more).value)
    decreases Rank(After(events).value)
  {
    var s := After(events).value;
    more := events;
    if p :| Enabled(s, React(p)) {
      EveryRunIsSafe(events);
      AfterNext(events, React(p));
      StepsUseUpRank(s, React(p));
      SettlementsStay(s, p);
      more := QueueDrains(events + [React(p)]);
    }
  }

  /** So a rejection alone brings the outcome 1, even if the other promises never settle, and three
      fulfilments bring 0. */
  lemma SettlementsDecide(events: seq<Event>) returns (more: seq<Event>)
    requires After(events).Some? && After(events).value.stopping && !After(events).value.threw
    ensures OnlyReactions(events, more) && After(more).Some?
    ensures SomeRejected(After(events).value) ==> After(more).value.outcome == Some(1)
    ensures AllFulfilled(After(events).value) ==> After(more).value.outcome == Some(0)
  {
    more := QueueDrains(events);
    OutcomeIsDecided(more);
    EveryRunIsSafe(more);
  }

  /** A run that was asked to stop and has nothing left to do has set its outcome and removed its
      listeners, if and only if beginDrain did not throw in the listener: the throw leaves the outcome
      unset for good. */
  lemma SettledRunsEndIffNoThrow(events: seq<Event>)
    requires After(events).Some? && After(events).value.stopping && Quiescent(After(events).value)
    ensures After(events).value.outcome.Some? && !After(events).value.listening <==> !After(events).value.threw
    ensures After(events).value.threw ==> After(events).value.outcome == None && After(events).value.listening
  {
    EveryRunIsSafe(events);
    QuiescentEnds(After(events).value);
  }

  lemma QuiescentEnds(s: State)
    requires Consistent(s) && s.stopping && Quiescent(s)
    ensures s.outcome.Some? && !s.listening <==> !s.threw
    ensures s.threw ==> s.outcome == None && s.listening
  {
    if !s.threw {
      forall p | CellOf(s, p) != Absent ensures FromOutside(p) ==> CellOf(s, p).Settled? && !CellOf(s, p).queued {
        assert !(Enabled(s, Settle(p, true)) && !Idle(s, Settle(p, true))) && !Enabled(s, React(p));
      }
      assert !Enabled(s, React(All)) && !Enabled(s, React(Closed)) && !Enabled(s, React(Reported));
    }
  }

  /** The shortest such run: one signal, and the HTTP close fulfils unwatched. */
  lemma ThrowingDrainNeverEnds()
    ensures After([Signal(true), Settle(Http, true)]).Some?
    ensures
      var s := After([Signal(true), Settle(Http, true)]).value;
      Quiescent(s) && s.stopping && s.outcome == None && s.listening
  {
    AfterNext([], Signal(true));
    assert [] + [Signal(true)] == [Signal(true)];
    AfterNext([Signal(true)], Settle(Http, true));
    assert [Signal(true)] + [Settle(Http, true)] == [Signal(true), Settle(Http, true)];
  }

  /** Both outcomes happen: when everything fulfils, and when the HTTP close fails first. */
  lemma BothOutcomesHappen()
    ensures exists events :: After(events).Some? && After(events).value.outcome == Some(0)
    ensures exists events :: After(events).Some? && After(events).value.outcome == Some(1)
  {
    var begun := [Signal(false)];
    AfterNext([], Signal(false));
    assert [] + [Signal(false)] == begun;
    HttpFails(begun);
    var waited := BothFulfil(begun);
    var closed := StoresClose(waited);
    Reports(closed, true);
  }

  lemma HttpFails(begun: seq<Event>)
    requires After(begun) == Some(Listen(INITIAL, false))
    ensures exists events :: After(events).Some? && After(events).value.outcome == Some(1)
  {
    AfterNext(begun, Settle(Http, false));
    AfterNext(begun + [Settle(Http, false)], React(Http));
    AfterNext(begun + [Settle(Http, false)] + [React(Http)], React(All));
    Reports(begun + [Settle(Http, false)] + [React(Http)] + [React(All)], false);
  }

  lemma Reports(events: seq<Event>, ok: bool)
    requires After(events).Some? && After(events).value.outcome == None
    requires CellOf(After(events).value, Closed) == Settled(ok, true)
    ensures exists more :: After(more).Some? && After(more).value.outcome == Some(if ok then 0 else 1)
  {
    AfterNext(events, React(Closed));
  }

  lemma BothFulfil(begun: seq<Event>) returns (events: seq<Event>)
    requires After(begun) == Some(Listen(INITIAL, false))
    ensures After(events).Some? && After(events).value.outcome == None
    ensures CellOf(After(events).value, All) == Settled(true, true)
      && CellOf(After(events).value, Closed) == Pending(true)
  {
    AfterNext(begun, Settle(Drain, true));
    AfterNext(begun + [Settle(Drain, true)], React(Drain));
    AfterNext(begun + [Settle(Drain, true)] + [React(Drain)], Settle(Http, true));
    AfterNext(begun + [Settle(Drain, true)] + [React(Drain)] + [Settle(Http, true)], React(Http));
    events := begun + [Settle(Drain, true)] + [React(Drain)] + [Settle(Http, true)] + [React(Http)];
  }

  lemma StoresClose(events: seq<Event>) returns (more: seq<Event>)
    requires After(events).Some? && After(events).value.outcome == None
    requires CellOf(After(events).value, All) == Settled(true, true)
    requires CellOf(After(events).value, Closed) == Pending(true)
    ensures After(more).Some? && After(more).value.outcome == None
    ensures CellOf(After(more).value, Closed) == Settled(true, true)
  {
    AfterNext(events, React(All));
    AfterNext(events + [React(All)], Settle(StoreClose, true));
    AfterNext(events + [React(All)] + [Settle(StoreClose, true)], React(StoreClose));
    more := events + [React(All)] + [Settle(StoreClose, true)] + [React(StoreClose)];
  }

  // ----- the closure as an object

  /** What the closure captures and the promises it builds. Every call a waiter makes is a step of the
      run it has been through, so each of them is made as safely as the run. */
  class Waiter {
    var stopping: bool
    var listening: bool
    var outcome: Option<int>
    var missing: int
    var cells: map<Promise, Cell>
    ghost var threw: bool
    ghost var trace: seq<Entry>
    ghost var history: seq<Event>

    ghost function Abstract(): State
      reads this
    {
      State(stopping, listening, threw, outcome, missing, cells, trace)
    }

    ghost predicate Valid()
      reads this
    {
      After(history) == Some(Abstract())
    }

    constructor ()
      ensures Valid() && history == []
    {
      stopping, listening, outcome, missing, cells := false, true, None, 2, map[];
      threw, trace, history := false, [], [];
    }

    /** A signal reaches the process. Nothing is written and nothing is called after the first. */
    method OnSignal(drainThrows: bool)
      requires Valid()
      modifies this
      ensures Valid() && history == old(history) + [Signal(drainThrows)]
      ensures ShutsDownSafely(Abstract())
      ensures old(stopping) ==> cells == old(cells) && outcome == old(outcome)
      ensures !old(stopping) ==> CalledHttpClose !in old(trace) && CalledBeginDrain !in old(trace)
    {
      StartsOnce(history);
      SignalStep(Abstract(), drainThrows);
      Deliver(drainThrows);
      NextRun(history, Signal(drainThrows));
      history := history + [Signal(drainThrows)];
    }

    /** Without listeners a signal is the process's own business. */
    method Deliver(drainThrows: bool)
      modifies this
      ensures Abstract() == Step(old(Abstract()), Signal(drainThrows)) && history == old(history)
    {
      if listening {
        Shutdown(drainThrows);
      } else {
        trace := trace + [Unhandled];
      }
    }

    /** The listener. */
    method Shutdown(drainThrows: bool)
      requires listening
      modifies this
      ensures Abstract() == Step(old(Abstract()), Signal(drainThrows)) && history == old(history)
    {
      if stopping {
        trace := trace + [Absorbed];
        return;
      }
      stopping := true;
      trace := trace + [WroteDraining];
      cells := cells[Http := Pending(!drainThrows)];
      trace := trace + [CalledHttpClose];
      trace := trace + [CalledBeginDrain];
      if drainThrows {
        threw, trace := true, trace + [DrainThrew];
        return;
      }
      cells := cells[Drain := Pending(true)];
      cells := cells[All := Pending(true)][Closed := Pending(true)][Reported := Pending(true)];
    }

    /** The runtime's rule: the first settlement counts. */
    method Put(p: Promise, ok: bool)
      modifies this
      ensures Abstract() == SettlePromise(old(Abstract()), p, ok) && history == old(history)
    {
      if p in cells && cells[p].Pending? {
        cells := cells[p := Settled(ok, cells[p].watched)];
        trace := trace + [Settles(p, ok)];
      }
    }

    /** A promise from outside settles, or is settled again: only the first time anything changes. */
    method OnSettled(p: Promise, ok: bool)
      requires Valid() && Enabled(Abstract(), Settle(p, ok))
      modifies this
      ensures Valid() && history == old(history) + [Settle(p, ok)]
      ensures ShutsDownSafely(Abstract())
      ensures old(cells[p].Settled?) ==> Abstract() == old(Abstract())
    {
      Put(p, ok);
      NextRun(history, Settle(p, ok));
      history := history + [Settle(p, ok)];
    }

    /** A queued reaction runs. Each callback finds what it relies on: the stores are closed for the
        first time and after both inputs fulfilled; the outcome is still open and then stays; the
        listeners go when the outcome is set. */
    method OnReaction(p: Promise)
      requires Valid() && Enabled(Abstract(), React(p))
      modifies this
      ensures Valid() && history == old(history) + [React(p)]
      ensures ShutsDownSafely(Abstract())
      ensures p == All && old(cells[p].ok) ==>
        CalledClose !in old(trace) && Settles(Drain, true) in old(trace) && Settles(Http, true) in old(trace)
      ensures p == Closed ==> old(outcome) == None && outcome == Some(if old(cells[p].ok) then 0 else 1)
      ensures p == Reported ==> old(outcome).Some? && outcome == old(outcome) && !listening
    {
      ReactionsAreTimely(history, p);
      var ok := Take(p);
      Run(p, ok);
      NextRun(history, React(p));
      history := history + [React(p)];
    }

    /** The reaction leaves the queue. */
    method Take(p: Promise) returns (ok: bool)
      requires Enabled(Abstract(), React(p))
      modifies this
      ensures Abstract() == Taken(old(Abstract()), p) && ok == old(cells[p].ok) && history == old(history)
    {
      ok := cells[p].ok;
      cells := cells[p := Settled(ok, false)];
    }

    /** The callback of a promise. */
    method Run(p: Promise, ok: bool)
      modifies this
      ensures Abstract() == Reaction(old(Abstract()), p, ok) && history == old(history)
    {
      match p {
        case Drain => Count(ok);
        case Http => Count(ok);
        case All => CloseStores(ok);
        case StoreClose => Put(Closed, ok);
        case Closed => Report(ok);
        case Reported => RemoveListeners();
      }
    }

    /** One input of `Promise.all`. */
    method Count(ok: bool)
      modifies this
      ensures Abstract() == Counted(old(Abstract()), ok) && history == old(history)
    {
      if !ok {
        Put(All, false);
      } else {
        missing := missing - 1;
        if missing == 0 { Put(All, true); }
      }
    }

    /** `.then(() => options.close())` */
    method CloseStores(ok: bool)
      modifies this
      ensures Abstract() == Reaction(old(Abstract()), All, ok) && history == old(history)
    {
      if ok {
        cells := cells[StoreClose := Pending(true)];
        trace := trace + [CalledClose];
      } else {
        Put(Closed, false);
      }
    }

    /** The two callbacks of the last `.then`. */
    method Report(ok: bool)
      modifies this
      ensures Abstract() == Reaction(old(Abstract()), Closed, ok) && history == old(history)
    {
      trace := trace + [if ok then WroteClosed else WroteNotDrained];
      var code := if ok then 0 else 1;
      if outcome == None { outcome := Some(code); }
      trace := trace + [Resolved(code)];
      Put(Reported, true);
    }

    /** `.finally(...)` */
    method RemoveListeners()
      modifies this
      ensures forall ok :: Abstract() == Reaction(old(Abstract()), Reported, ok)
      ensures history == old(history)
    {
      listening := false;
      trace := trace + [RemovedListeners];
    }
  }
}
