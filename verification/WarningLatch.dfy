/** The abuse runtime row: the warning latch and the issuance brake, written by compare-and-set. */
module WarningLatch {
  import opened Wrappers

  type Instant = int

  const MAX_ATTEMPTS := 3

  datatype BrakeReason = GlobalThreshold | AsnFastPath | Manual
  datatype BrakeAuthor = System | Operator

  datatype Brake = Brake(
    active: bool, reason: Option<BrakeReason>, changedAt: Option<Instant>, changedBy: Option<BrakeAuthor>)

  datatype Latch = Latch(warning: bool, observedAt: Option<Instant>)

  datatype Runtime = Runtime(brake: Brake, latch: Latch)

  const DefaultRuntime := Runtime(Brake(false, None, None, None), Latch(false, None))

  /** One evaluation of the last hour's issuances. */
  datatype Sample = Sample(at: Instant, count: nat, warningThreshold: nat, brakeThreshold: nat)
  {
    predicate Warns() {
      count > warningThreshold
    }

    predicate Brakes() {
      count > brakeThreshold
    }
  }

  /** What a reader sees: a missing row reads as the default. */
  function Seen(row: Option<Runtime>): Runtime {
    if row.Some? then row.value else DefaultRuntime
  }

  predicate Stale(latch: Latch, s: Sample) {
    && latch.observedAt.Some?
    && (|| latch.observedAt.value > s.at
        || (latch.observedAt.value == s.at && latch.warning && !s.Warns()))
  }

  function Merge(latch: Latch, s: Sample): Latch {
    if Stale(latch, s) then latch else Latch(s.Warns(), Some(s.at))
  }

  function Braked(brake: Brake, s: Sample): Brake {
    if s.Brakes() && !brake.active then Brake(true, Some(GlobalThreshold), Some(s.at), Some(System)) else brake
  }

  function Evaluate(before: Runtime, s: Sample): Runtime {
    Runtime(Braked(before.brake, s), Merge(before.latch, s))
  }

  predicate WarningRises(before: Runtime, s: Sample) {
    !Stale(before.latch, s) && s.Warns() && !before.latch.warning
  }

  predicate BrakeRises(before: Runtime, s: Sample) {
    s.Brakes() && !before.brake.active
  }

  /** Only the sections that changed are guarded and written; with none changed the write succeeds idly. */
  predicate WriteSucceeds(row: Option<Runtime>, before: Runtime, after: Runtime) {
    || before == after
    || (&& row.Some?
        && (before.brake != after.brake ==> row.value.brake == before.brake)
        && (before.latch != after.latch ==> row.value.latch == before.latch))
  }

  function Written(row: Option<Runtime>, before: Runtime, after: Runtime): Option<Runtime> {
    if before == after || !WriteSucceeds(row, before, after) then row
    else Some(Runtime(if before.brake != after.brake then after.brake else row.value.brake,
                      if before.latch != after.latch then after.latch else row.value.latch))
  }

  datatype Outcome = Outcome(state: Runtime, warningTransition: bool, brakeTransition: bool)

  /** What others leave in the row before each read and before each write of the retry loop. */
  datatype Moment = Moment(atRead: Option<Runtime>, atWrite: Option<Runtime>)

  predicate AttemptSucceeds(m: Moment, s: Sample) {
    WriteSucceeds(m.atWrite, Seen(m.atRead), Evaluate(Seen(m.atRead), s))
  }

  class RuntimeRow {
    var row: Option<Runtime>

    constructor (initial: Option<Runtime>)
      ensures row == initial
    {
      row := initial;
    }

    method Persist(before: Runtime, after: Runtime) returns (ok: bool)
      modifies this
      ensures row == Written(old(row), before, after)
      ensures ok == WriteSucceeds(old(row), before, after)
    {
      var sections := 0;
      var guard := true;
      if before.brake != after.brake {
        sections := sections + 1;
        guard := guard && row.Some? && row.value.brake == before.brake;
      }
      if before.latch != after.latch {
        sections := sections + 1;
        guard := guard && row.Some? && row.value.latch == before.latch;
      }
      if sections == 0 {
        return true;
      }
      if guard {
        var brake := if before.brake != after.brake then after.brake else row.value.brake;
        var latch := if before.latch != after.latch then after.latch else row.value.latch;
        row := Some(Runtime(brake, latch));
      }
      ok := guard;
    }

    /** The retry loop, among writes of others: the first attempt that succeeds is the one reported, and
        when none does nothing is reported. */
    method Apply(s: Sample, env: seq<Moment>, afterwards: Option<Runtime>) returns (out: Outcome, attempts: nat)
      requires |env| == 3
      modifies this
      ensures attempts <= 3
      ensures forall i :: 0 <= i < attempts ==> !AttemptSucceeds(env[i], s)
      ensures attempts < 3 ==>
                var before := Seen(env[attempts].atRead);
                && AttemptSucceeds(env[attempts], s)
                && row == Written(env[attempts].atWrite, before, Evaluate(before, s))
                && out == Outcome(Evaluate(before, s), WarningRises(before, s), BrakeRises(before, s))
      ensures attempts == 3 ==> row == afterwards && out == Outcome(Seen(afterwards), false, false)
    {
      attempts := 0;
      while attempts < MAX_ATTEMPTS
        invariant attempts <= MAX_ATTEMPTS
        invariant forall i :: 0 <= i < attempts ==> !AttemptSucceeds(env[i], s)
      {
        row := env[attempts].atRead;
        var before := Seen(row);
        var after := before;
        var stale := before.latch.observedAt.Some?
                     && (|| before.latch.observedAt.value > s.at
                         || (before.latch.observedAt.value == s.at && before.latch.warning && !s.Warns()));
        var warningTransition := !stale && s.Warns() && !before.latch.warning;
        if !stale {
          after := after.(latch := Latch(s.Warns(), Some(s.at)));
        }
        var brakeTransition := false;
        if s.Brakes() && !before.brake.active {
          after := after.(brake := Brake(true, Some(GlobalThreshold), Some(s.at), Some(System)));
          brakeTransition := true;
        }
        row := env[attempts].atWrite;
        var ok := Persist(before, after);
        if ok {
          return Outcome(after, warningTransition, brakeTransition), attempts;
        }
        attempts := attempts + 1;
      }
      row := afterwards;
      out := Outcome(Seen(row), false, false);
    }
  }

  // ---------- all interleavings ----------

  type WorkerId = nat

  /** A worker between its read and its write holds the state it read. */
  datatype Worker = Starting(sample: Sample, failed: nat) | Holding(sample: Sample, before: Runtime, failed: nat)

  /** `persisted` lists the samples whose write succeeded, `reported` counts the warning transitions they
      returned and `rises` the changes of the stored warning from false to true. */
  datatype World = World(
    row: Option<Runtime>, workers: map<WorkerId, Worker>, persisted: seq<Sample>, reported: nat, rises: nat)

  datatype Event =
    | Begin(w: WorkerId, s: Sample)
    | Read(w: WorkerId)
    | Write(w: WorkerId)
    | OperatorSetsBrake(brake: Brake)

  function Drop(workers: map<WorkerId, Worker>, w: WorkerId): map<WorkerId, Worker> {
    map v | v in workers && v != w :: workers[v]
  }

  function Rises(before: Option<Runtime>, after: Option<Runtime>): nat {
    if !Seen(before).latch.warning && Seen(after).latch.warning then 1 else 0
  }

  function WriteStep(world: World, w: WorkerId, k: Worker): World
    requires k.Holding?
  {
    var after := Evaluate(k.before, k.sample);
    if WriteSucceeds(world.row, k.before, after)
    then
      var row := Written(world.row, k.before, after);
      World(row, Drop(world.workers, w), world.persisted + [k.sample],
            world.reported + (if WarningRises(k.before, k.sample) then 1 else 0),
            world.rises + Rises(world.row, row))
    else if k.failed + 1 < MAX_ATTEMPTS
    then world.(workers := world.workers[w := Starting(k.sample, k.failed + 1)])
    else world.(workers := Drop(world.workers, w))
  }

  function Next(world: World, e: Event): World {
    match e
    case Begin(w, s) => if w in world.workers then world else world.(workers := world.workers[w := Starting(s, 0)])
    case Read(w) =>
      if w in world.workers && world.workers[w].Starting?
      then world.(workers := world.workers[w := Holding(world.workers[w].sample, Seen(world.row), world.workers[w].failed)])
      else world
    case Write(w) => if w in world.workers && world.workers[w].Holding? then WriteStep(world, w, world.workers[w]) else world
    case OperatorSetsBrake(brake) => if world.row.Some? then world.(row := Some(world.row.value.(brake := brake))) else world
  }

  function Run(world: World, events: seq<Event>): World
    decreases |events|
  {
    if events == [] then world else Run(Next(world, events[0]), events[1..])
  }

  function Start(row: Option<Runtime>): World {
    World(row, map[], [], 0, 0)
  }

  // ---------- the merge ----------

  predicate AtMost(x: Latch, y: Latch) {
    || x == y
    || (&& y.observedAt.Some?
        && (|| x.observedAt.None?
            || x.observedAt.value < y.observedAt.value
            || (x.observedAt == y.observedAt && (x.warning ==> y.warning))))
  }

  function Fold(latch: Latch, samples: seq<Sample>): Latch {
    if samples == [] then latch else Merge(Fold(latch, samples[..|samples| - 1]), samples[|samples| - 1])
  }

  /** Some observation, the initial one or a sample, was made at this time. */
  predicate ObservedAt(initial: Latch, samples: seq<Sample>, t: Instant) {
    initial.observedAt == Some(t) || exists s <- samples :: s.at == t
  }

  predicate WarnedAt(initial: Latch, samples: seq<Sample>, t: Instant) {
    (initial.observedAt == Some(t) && initial.warning) || exists s <- samples :: s.at == t && s.count > s.warningThreshold
  }

  /** The latest observation time, and whether any observation of that time warns. */
  predicate IsLatest(latch: Latch, initial: Latch, samples: seq<Sample>) {
    && latch.observedAt.Some?
    && var t := latch.observedAt.value;
    && ObservedAt(initial, samples, t)
    && (initial.observedAt.Some? ==> initial.observedAt.value <= t)
    && (forall s <- samples :: s.at <= t)
    && (latch.warning <==> WarnedAt(initial, samples, t))
  }

  lemma {:induction false} FoldIsLatest(initial: Latch, samples: seq<Sample>)
    requires initial.observedAt.Some? || samples != []
    ensures IsLatest(Fold(initial, samples), initial, samples)
  {
    if samples != [] {
      var front := samples[..|samples| - 1];
      assert samples == front + [samples[|samples| - 1]];
      if initial.observedAt.Some? || front != [] {
        FoldIsLatest(initial, front);
        MergeIsLatest(Fold(initial, front), initial, front, samples[|samples| - 1]);
      } else {
        assert samples[0] in samples;
      }
    }
  }

  lemma MergeIsLatest(latch: Latch, initial: Latch, front: seq<Sample>, last: Sample)
    requires IsLatest(latch, initial, front)
    ensures IsLatest(Merge(latch, last), initial, front + [last])
  {
    var samples := front + [last];
    var t := latch.observedAt.value;
    var u := Merge(latch, last).observedAt.value;
    assert last in samples;
    assert forall s :: s in samples <==> s in front || s == last;
    assert WarnedAt(initial, front, t) ==> WarnedAt(initial, samples, t);
    assert ObservedAt(initial, samples, t);
    assert last.Warns() ==> WarnedAt(initial, samples, last.at);
    if WarnedAt(initial, samples, u) && !(initial.observedAt == Some(u) && initial.warning) {
      var s :| s in samples && s.at == u && s.count > s.warningThreshold;
      assert s in front ==> exists x <- front :: x.at == u && x.count > x.warningThreshold;
    }
  }

  lemma LatestIsUnique(x: Latch, y: Latch, initial: Latch, xs: seq<Sample>, ys: seq<Sample>)
    requires IsLatest(x, initial, xs) && IsLatest(y, initial, ys) && forall s :: s in xs <==> s in ys
    ensures x == y
  {
    assert ObservedAt(initial, ys, x.observedAt.value);
    assert ObservedAt(initial, xs, y.observedAt.value);
    assert WarnedAt(initial, xs, x.observedAt.value) <==> WarnedAt(initial, ys, x.observedAt.value);
  }

  lemma StaleStaysStale(x: Latch, y: Latch, s: Sample)
    requires AtMost(x, y) && Merge(x, s) == x
    ensures Merge(y, s) == y
  {
  }

  lemma AtMostTransitive(x: Latch, y: Latch, z: Latch)
    requires AtMost(x, y) && AtMost(y, z)
    ensures AtMost(x, z)
  {
  }

  // ---------- invariant ----------

  predicate WorkerOk(row: Option<Runtime>, k: Worker) {
    k.Holding? ==> AtMost(k.before.latch, Seen(row).latch) && (row.None? ==> k.before == DefaultRuntime)
  }

  ghost predicate Inv(world: World, initial: Option<Runtime>) {
    && (world.row.None? <==> initial.None?)
    && Seen(world.row).latch == Fold(Seen(initial).latch, world.persisted)
    && world.reported == world.rises
    && (forall w <- world.workers.Keys :: WorkerOk(world.row, world.workers[w]))
  }

  lemma WrittenLatch(row: Option<Runtime>, before: Runtime, s: Sample)
    requires AtMost(before.latch, Seen(row).latch) && (row.None? ==> before == DefaultRuntime)
    requires WriteSucceeds(row, before, Evaluate(before, s))
    ensures Seen(Written(row, before, Evaluate(before, s))).latch == Merge(Seen(row).latch, s)
    ensures row.Some? && Written(row, before, Evaluate(before, s)).Some?
    ensures WarningRises(before, s) <==> Rises(row, Written(row, before, Evaluate(before, s))) == 1
    ensures AtMost(Seen(row).latch, Merge(Seen(row).latch, s))
  {
    if before.latch == Evaluate(before, s).latch {
      StaleStaysStale(before.latch, Seen(row).latch, s);
    }
  }

  lemma WriteKeeps(world: World, w: WorkerId, initial: Option<Runtime>)
    requires Inv(world, initial) && w in world.workers && world.workers[w].Holding?
    ensures Inv(WriteStep(world, w, world.workers[w]), initial)
  {
    hide Merge, Stale, AtMost, WarningRises;
    var k := world.workers[w];
    var after := Evaluate(k.before, k.sample);
    if WriteSucceeds(world.row, k.before, after) {
      assert WorkerOk(world.row, k);
      WrittenLatch(world.row, k.before, k.sample);
      var next := WriteStep(world, w, k);
      assert next.persisted[..|next.persisted| - 1] == world.persisted;
      forall v <- next.workers.Keys ensures WorkerOk(next.row, next.workers[v]) {
        assert WorkerOk(world.row, world.workers[v]);
        if next.workers[v].Holding? {
          AtMostTransitive(next.workers[v].before.latch, Seen(world.row).latch, Seen(next.row).latch);
        }
      }
    }
  }

  lemma NextKeeps(world: World, e: Event, initial: Option<Runtime>)
    requires Inv(world, initial)
    ensures Inv(Next(world, e), initial)
  {
    hide WriteStep, Fold;
    if e.Write? && e.w in world.workers && world.workers[e.w].Holding? {
      WriteKeeps(world, e.w, initial);
    } else {
      var next := Next(world, e);
      forall v <- next.workers.Keys ensures WorkerOk(next.row, next.workers[v]) {
        assert v in world.workers ==> WorkerOk(world.row, world.workers[v]);
      }
    }
  }

  lemma {:induction false} RunKeeps(world: World, events: seq<Event>, initial: Option<Runtime>)
    requires Inv(world, initial)
    ensures Inv(Run(world, events), initial)
    decreases |events|
  {
    hide Inv, Next;
    if events != [] {
      NextKeeps(world, events[0], initial);
      RunKeeps(Next(world, events[0]), events[1..], initial);
    }
  }

  // ---------- main results ----------

  /** After any interleaving the latch holds the latest time of the initial observation and the persisted
      samples, and it warns exactly if one of that time does. */
  lemma LatchHoldsTheLatest(row: Option<Runtime>, events: seq<Event>)
    ensures var world := Run(Start(row), events);
            && (world.persisted == [] ==> Seen(world.row).latch == Seen(row).latch)
            && (world.persisted != [] ==> IsLatest(Seen(world.row).latch, Seen(row).latch, world.persisted))
  {
    hide Run, Next, Merge, IsLatest;
    RunKeeps(Start(row), events, row);
    var world := Run(Start(row), events);
    if world.persisted != [] {
      FoldIsLatest(Seen(row).latch, world.persisted);
    }
  }

  lemma EmptyOrNot(samples: seq<Sample>)
    ensures samples == [] || exists s :: s in samples
  {
    if samples != [] {
      assert samples[0] in samples;
    }
  }

  /** Two interleavings that persist the same samples, in any order and any number of times, end alike. */
  lemma OrderDoesNotMatter(row: Option<Runtime>, one: seq<Event>, other: seq<Event>)
    requires forall s :: s in Run(Start(row), one).persisted <==> s in Run(Start(row), other).persisted
    ensures Seen(Run(Start(row), one).row).latch == Seen(Run(Start(row), other).row).latch
  {
    hide Run, Next, IsLatest;
    LatchHoldsTheLatest(row, one);
    LatchHoldsTheLatest(row, other);
    var x, y := Run(Start(row), one), Run(Start(row), other);
    if x.persisted == [] {
      EmptyOrNot(y.persisted);
    } else {
      EmptyOrNot(x.persisted);
      LatestIsUnique(Seen(x.row).latch, Seen(y.row).latch, Seen(row).latch, x.persisted, y.persisted);
    }
  }

  /** Warning transitions returned and stored rises of the warning match, in number and write by write. */
  lemma TransitionsAreRises(row: Option<Runtime>, events: seq<Event>, w: WorkerId)
    ensures var world := Run(Start(row), events);
            && world.reported == world.rises
            && (w in world.workers && world.workers[w].Holding? ==>
                  var k := world.workers[w];
                  var next := Next(world, Write(w));
                  next.reported - world.reported == Rises(world.row, next.row))
  {
    hide Run;
    RunKeeps(Start(row), events, row);
    var world := Run(Start(row), events);
    NextKeeps(world, Write(w), row);
  }

  /** No step of a worker clears or rewrites an active brake. A brake transition is returned exactly by the write that
      engages it, which a count above the threshold does, in the name of the system and at the time of its sample. */
  lemma WorkersNeverReleaseTheBrake(world: World, e: Event)
    requires !e.OperatorSetsBrake?
    ensures Seen(world.row).brake.active ==> Seen(Next(world, e).row).brake == Seen(world.row).brake
    ensures e.Write? && e.w in world.workers && world.workers[e.w].Holding? && world.row.Some? ==>
              var k := world.workers[e.w];
              var wins := WriteSucceeds(world.row, k.before, Evaluate(k.before, k.sample));
              var after := Seen(Next(world, e).row).brake;
              && (wins && BrakeRises(k.before, k.sample) <==> !Seen(world.row).brake.active && after.active)
              && (wins && k.sample.count > k.sample.brakeThreshold && !k.before.brake.active ==>
                    after == Brake(true, Some(GlobalThreshold), Some(k.sample.at), Some(System)))
              && (!wins || k.sample.count <= k.sample.brakeThreshold ==> after == Seen(world.row).brake)
              && (!wins ==> Next(world, e).row == world.row)
  {
    hide Merge;
  }

  /** Main result: in every run a write succeeds exactly if none of the sections it changes was changed since it was
      read; a failed one starts over, at most twice. */
  lemma WritesExactly(row: Option<Runtime>, events: seq<Event>, w: WorkerId)
    requires var world := Run(Start(row), events); w in world.workers && world.workers[w].Holding?
    ensures var world := Run(Start(row), events);
            var k := world.workers[w];
            var next := Next(world, Write(w));
            var fits := && (Evaluate(k.before, k.sample).brake != k.before.brake ==> world.row.Some? && world.row.value.brake == k.before.brake)
                        && (Evaluate(k.before, k.sample).latch != k.before.latch ==> world.row.Some? && world.row.value.latch == k.before.latch);
            && k.failed <= 2
            && next.persisted == (if fits then world.persisted + [k.sample] else world.persisted)
            && (w in next.workers <==> !fits && k.failed < 2)
            && (w in next.workers ==> next.workers[w] == Starting(k.sample, k.failed + 1) && next.row == world.row)
  {
    hide Run;
    FailuresRun(Start(row), events);
  }

  predicate FewFailures(world: World) {
    forall w <- world.workers.Keys :: world.workers[w].failed <= 2
  }

  lemma {:induction false} FailuresRun(world: World, events: seq<Event>)
    requires FewFailures(world)
    ensures FewFailures(Run(world, events))
    decreases |events|
  {
    if events != [] {
      FailuresStep(world, events[0]);
      FailuresRun(Next(world, events[0]), events[1..]);
    }
  }

  lemma FailuresStep(world: World, e: Event)
    requires FewFailures(world)
    ensures FewFailures(Next(world, e))
  {
    hide Written, WriteSucceeds, Evaluate;
  }
}
