/** The log writer's watchdog: one lock guards which write is active and whether it was cancelled. */
module WriteWatchdog {
  import opened Wrappers

  /** Milliseconds. */
  type Instant = int

  const WRITE_TIMEOUT := 25
  const U64_MAX := 0xFFFF_FFFF_FFFF_FFFF

  datatype ActiveWrite = ActiveWrite(generation: nat, startedAt: Instant, timedOut: bool)

  /** The state under the lock. */
  datatype Watch = Watch(nextGeneration: nat, active: Option<ActiveWrite>, shutdown: bool)

  /** What one pass of the watchdog's loop does before it waits or passes again. */
  datatype Turn = Exits | Waits | WaitsFor(remaining: nat) | Cancels

  function SaturatingIncrement(n: nat): nat {
    if n >= U64_MAX then U64_MAX else n + 1
  }

  // ---------- the four critical sections as functions ----------

  function Begun(s: Watch, now: Instant): Watch {
    var generation := SaturatingIncrement(s.nextGeneration);
    Watch(generation, Some(ActiveWrite(generation, now, false)), s.shutdown)
  }

  predicate IsActive(s: Watch, generation: nat) {
    s.active.Some? && s.active.value.generation == generation
  }

  predicate TimedOut(s: Watch, generation: nat) {
    IsActive(s, generation) && s.active.value.timedOut
  }

  function Finished(s: Watch, generation: nat): Watch {
    if IsActive(s, generation) then s.(active := None) else s
  }

  function ShutDown(s: Watch): Watch {
    s.(active := None, shutdown := true)
  }

  function TurnOf(s: Watch, now: Instant): Turn {
    match s.active
    case None => if s.shutdown then Exits else Waits
    case Some(w) =>
      if w.timedOut then Waits
      else if now < w.startedAt + WRITE_TIMEOUT then WaitsFor(w.startedAt + WRITE_TIMEOUT - now)
      else Cancels
  }

  function AfterTurn(s: Watch, now: Instant): Watch {
    if TurnOf(s, now).Cancels? then s.(active := Some(s.active.value.(timedOut := true))) else s
  }

  class WriteWatch {
    var nextGeneration: nat
    var active: Option<ActiveWrite>
    var shutdown: bool

    constructor ()
      ensures State() == Watch(0, None, false)
    {
      nextGeneration, active, shutdown := 0, None, false;
    }

    function State(): Watch
      reads this
    {
      Watch(nextGeneration, active, shutdown)
    }

    method BeginWrite(now: Instant) returns (generation: nat)
      modifies this
      ensures State() == Begun(old(State()), now)
      ensures generation == nextGeneration && IsActive(State(), generation)
    {
      nextGeneration := SaturatingIncrement(nextGeneration);
      generation := nextGeneration;
      active := Some(ActiveWrite(generation, now, false));
    }

    method FinishWrite(generation: nat) returns (timedOut: bool)
      modifies this
      ensures State() == Finished(old(State()), generation)
      ensures timedOut == TimedOut(old(State()), generation)
    {
      timedOut := active.Some? && active.value.generation == generation && active.value.timedOut;
      if active.Some? && active.value.generation == generation {
        active := None;
      }
    }

    method Shutdown()
      modifies this
      ensures State() == ShutDown(old(State()))
    {
      active := None;
      shutdown := true;
    }

    /** One pass with the lock held; the caller cancels exactly when the answer is Cancels. */
    method Pass(now: Instant) returns (turn: Turn)
      modifies this
      ensures State() == AfterTurn(old(State()), now)
      ensures turn == TurnOf(old(State()), now)
    {
      if active.None? {
        return if shutdown then Exits else Waits;
      }
      if active.value.timedOut {
        return Waits;
      }
      var deadline := active.value.startedAt + WRITE_TIMEOUT;
      var remaining := if deadline <= now then 0 else deadline - now;
      if remaining != 0 {
        return WaitsFor(remaining);
      }
      active := Some(active.value.(timedOut := true));
      turn := Cancels;
    }
  }

  // ---------- all interleavings of one writer and one watchdog ----------

  /** The writer thread: the write it is in is known by its number, counted from 0, and its generation. */
  datatype Writer = Between | Writing(index: nat, generation: nat) | Stopped

  /** What happened under the lock, in order. */
  datatype Entry = Begin(index: nat, at: Instant) | Cancel(at: Instant) | Finish(index: nat, reported: bool)

  datatype World = World(watch: Watch, writer: Writer, writes: nat, watching: bool, log: seq<Entry>)

  datatype Action = WriterBegins(at: Instant) | WriterFinishes | WriterStops | WatchdogPasses(at: Instant)

  const Init := World(Watch(0, None, false), Between, 0, true, [])

  function Step(w: World, act: Action): World {
    match act
    case WriterBegins(at) =>
      if w.writer.Between?
      then
        var watch := Begun(w.watch, at);
        World(watch, Writing(w.writes, watch.nextGeneration), w.writes + 1, w.watching, w.log + [Begin(w.writes, at)])
      else w
    case WriterFinishes =>
      if w.writer.Writing?
      then
        var timedOut := TimedOut(w.watch, w.writer.generation);
        World(Finished(w.watch, w.writer.generation), Between, w.writes, w.watching, w.log + [Finish(w.writer.index, timedOut)])
      else w
    case WriterStops =>
      if w.writer.Between? then w.(watch := ShutDown(w.watch), writer := Stopped) else w
    case WatchdogPasses(at) =>
      if !w.watching then w
      else match TurnOf(w.watch, at)
        case Exits => w.(watching := false)
        case Cancels => w.(watch := AfterTurn(w.watch, at), log := w.log + [Cancel(at)])
        case _ => w
  }

  function Run(acts: seq<Action>): World {
    if acts == [] then Init else Step(Run(acts[..|acts| - 1]), acts[|acts| - 1])
  }

  // ---------- the shape of the log ----------

  /** A cancellation directly follows the begin of the write it hits and is no earlier than its deadline. */
  predicate CancelOk(log: seq<Entry>, j: nat)
    requires j < |log|
  {
    log[j].Cancel? ==>
      && j > 0 && log[j - 1].Begin? && log[j].at >= log[j - 1].at + 25
      && (j + 1 < |log| ==> log[j + 1] == Finish(log[j - 1].index, true))
  }

  /** A finish follows its own begin, or its own begin and one cancellation, and reports which. */
  predicate FinishOk(log: seq<Entry>, j: nat)
    requires j < |log|
  {
    log[j].Finish? ==>
      && j > 0
      && (log[j].reported <==> log[j - 1].Cancel?)
      && var b := if log[j].reported then j - 2 else j - 1;
      && b >= 0 && log[b].Begin? && log[b].index == log[j].index
  }

  /** Writes are numbered in the order they begin, and each begins after the one before has finished. */
  predicate BeginOk(log: seq<Entry>, j: nat)
    requires j < |log|
  {
    log[j].Begin? ==>
      if j == 0 then log[j].index == 0
      else log[j - 1].Finish? && log[j].index == log[j - 1].index + 1
  }

  predicate LogOk(log: seq<Entry>) {
    forall j: nat | j < |log| :: CancelOk(log, j) && FinishOk(log, j) && BeginOk(log, j)
  }

  /** The lock-protected state says where the writer is and whether its write has been cancelled. */
  predicate StateOk(w: World) {
    match w.writer
    case Between => w.watch.active.None? && !w.watch.shutdown && (w.log != [] ==> w.log[|w.log| - 1].Finish?)
    case Stopped => w.watch.active.None? && w.watch.shutdown && (w.log != [] ==> w.log[|w.log| - 1].Finish?)
    case Writing(index, generation) =>
      && !w.watch.shutdown && index + 1 == w.writes
      && w.watch.active.Some? && w.watch.active.value.generation == generation
      && var n := |w.log|;
      && if w.watch.active.value.timedOut
         then n > 1 && w.log[n - 1].Cancel? && w.log[n - 2] == Begin(index, w.watch.active.value.startedAt)
         else n > 0 && w.log[n - 1] == Begin(index, w.watch.active.value.startedAt)
  }

  predicate Inv(w: World) {
    && LogOk(w.log)
    && StateOk(w)
    && (!w.writer.Writing? && w.log != [] ==> w.log[|w.log| - 1].Finish? && w.log[|w.log| - 1].index + 1 == w.writes)
    && (w.log == [] ==> w.writes == 0)
    && (!w.watching ==> w.writer.Stopped?)
  }

  lemma ExtendLog(log: seq<Entry>, e: Entry)
    requires LogOk(log)
    requires log != [] && log[|log| - 1].Cancel? ==>
               |log| > 1 && log[|log| - 2].Begin? && e == Finish(log[|log| - 2].index, true)
    requires CancelOk(log + [e], |log|) && FinishOk(log + [e], |log|) && BeginOk(log + [e], |log|)
    ensures LogOk(log + [e])
  {
    var longer := log + [e];
    forall j: nat | j < |longer| ensures CancelOk(longer, j) && FinishOk(longer, j) && BeginOk(longer, j) {
      if j < |log| {
        assert CancelOk(log, j) && FinishOk(log, j) && BeginOk(log, j);
      }
    }
  }

  lemma StepKeeps(w: World, act: Action)
    requires Inv(w)
    ensures Inv(Step(w, act))
  {
    hide LogOk;
    match act
    case WriterBegins(at) => if w.writer.Between? { ExtendLog(w.log, Begin(w.writes, at)); }
    case WriterFinishes =>
      if w.writer.Writing? { ExtendLog(w.log, Finish(w.writer.index, TimedOut(w.watch, w.writer.generation))); }
    case WriterStops =>
    case WatchdogPasses(at) => if w.watching && TurnOf(w.watch, at).Cancels? { ExtendLog(w.log, Cancel(at)); }
  }

  lemma {:induction false} Reached(acts: seq<Action>)
    ensures Inv(Run(acts))
  {
    hide Inv, Step;
    if acts == [] {
      assert Inv(Init) by { InitOk(); }
    } else {
      Reached(acts[..|acts| - 1]);
      StepKeeps(Run(acts[..|acts| - 1]), acts[|acts| - 1]);
    }
  }

  lemma InitOk()
    ensures Inv(Init)
  {
  }

  // ---------- main results ----------

  /** In every interleaving the log of begins, cancellations and finishes has this shape, whether or not the
      generation counter has saturated. */
  lemma LogShape(acts: seq<Action>)
    ensures LogOk(Run(acts).log)
  {
    hide LogOk, StateOk, Step, Run;
    Reached(acts);
  }

  /** A write is cancelled at most once. */
  lemma CancelledAtMostOnce(acts: seq<Action>, i: nat, j: nat)
    requires var log := Run(acts).log;
             && i <= j < |log| && log[i].Cancel? && log[j].Cancel?
             && i > 0 && j > 0 && log[i - 1].Begin? && log[j - 1].Begin? && log[i - 1].index == log[j - 1].index
    ensures i == j
  {
    hide StateOk, Step, Run, LogOk;
    LogShape(acts);
    var log := Run(acts).log;
    if i < j {
      IndicesGrow(log, i - 1, j - 1);
    }
  }

  lemma {:induction false} IndicesGrow(log: seq<Entry>, i: nat, j: nat)
    requires LogOk(log) && i < j < |log| && log[i].Begin? && log[j].Begin?
    ensures log[i].index < log[j].index
    decreases j
  {
    assert BeginOk(log, j);
    assert FinishOk(log, j - 1);
    var b := if log[j - 1].reported then j - 3 else j - 2;
    if i < b {
      IndicesGrow(log, i, b);
    }
  }

  /** A finish reports a timeout exactly when its own write was cancelled. */
  lemma ReportedMeansCancelled(acts: seq<Action>, f: nat)
    requires f < |Run(acts).log| && Run(acts).log[f].Finish?
    ensures var log := Run(acts).log;
            log[f].reported <==>
              exists c: nat :: 0 < c < f && log[c].Cancel? && log[c - 1].Begin? && log[c - 1].index == log[f].index
  {
    hide StateOk, Step, Run;
    LogShape(acts);
    var log := Run(acts).log;
    assert FinishOk(log, f);
    if log[f].reported {
      assert log[f - 1].Cancel? && log[f - 1 - 1].Begin?;
    } else {
      forall c: nat | 0 < c < f && log[c].Cancel? && log[c - 1].Begin? ensures log[c - 1].index != log[f].index {
        IndicesGrow(log, c - 1, f - 1);
      }
    }
  }

  /** While a write is running, a pass at or after its deadline cancels it unless that has been done. */
  lemma OverdueWriteIsCancelled(acts: seq<Action>, at: Instant)
    requires var w := Run(acts); w.writer.Writing? && w.watch.active.Some? && at >= w.watch.active.value.startedAt + 25
    ensures var w := Run(acts);
            var v := Step(w, WatchdogPasses(at));
            && TimedOut(v.watch, w.writer.generation)
            && Step(v, WriterFinishes).log == v.log + [Finish(w.writer.index, true)]
  {
    hide LogOk, Run;
    Reached(acts);
  }

  /** The watchdog leaves its loop only after the writer has stopped, and the first pass after that does. */
  lemma WatchdogOutlivesTheWriter(acts: seq<Action>, at: Instant)
    ensures var w := Run(acts);
            && (!w.watching ==> w.writer.Stopped?)
            && (w.writer.Stopped? ==> !Step(w, WatchdogPasses(at)).watching)
  {
    hide LogOk, Run;
    Reached(acts);
  }

  /** Main result: in every run, what a pass of a watchdog that has not left does. It cancels a running write exactly if
      25 ms have gone by since its begin and it is not cancelled yet; before that it waits for the rest of them; and it
      leaves exactly if the writer has stopped. */
  lemma PassesExactly(acts: seq<Action>, at: Instant)
    requires Run(acts).watching
    ensures var w := Run(acts);
            var v := Step(w, WatchdogPasses(at));
            var turn := TurnOf(w.watch, at);
            && (turn.Exits? <==> w.writer.Stopped?) && (v.watching <==> !turn.Exits?)
            && (turn.Cancels? <==> w.writer.Writing? && w.watch.active.Some? && !w.watch.active.value.timedOut
                                   && at >= w.watch.active.value.startedAt + 25)
            && (turn.Cancels? ==> v.log == w.log + [Cancel(at)])
            && (turn.WaitsFor? <==> w.writer.Writing? && w.watch.active.Some? && !w.watch.active.value.timedOut
                                    && at < w.watch.active.value.startedAt + 25)
            && (turn.WaitsFor? ==> at + turn.remaining == w.watch.active.value.startedAt + 25)
            && (!turn.Cancels? ==> v.watch == w.watch && v.log == w.log)
  {
    hide LogOk, Run;
    Reached(acts);
  }

  /** Finishing a write that is not the active one changes nothing and reports no timeout. */
  lemma OtherGeneration(s: Watch, generation: nat)
    requires s.active.Some? ==> s.active.value.generation != generation
    ensures Finished(s, generation) == s && !TimedOut(s, generation)
  {
  }
}
