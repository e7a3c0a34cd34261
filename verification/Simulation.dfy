/** The stepping loop of a simulation (Simulation.cpp): in each step the due events, then a step of the
    solver, then the loggers whose turn it is. Times are reals. Events may be scheduled and loggers added
    at any moment between steps. */
module Simulation {
  import opened Events
  import opened MnaSolver
  import Arith

  /** When step `k` starts. */
  function Start(k: nat, dt: real): real { k as real * dt }

  lemma StartsIncrease(j: nat, k: nat, dt: real)
    requires j < k && dt > 0.0
    ensures Start(j, dt) < Start(k, dt)
  {
    assert (k - j) as real >= 1.0;
    assert (k - j) as real * dt >= dt by { assert ((k - j) as real - 1.0) * dt >= 0.0; }
    assert Start(k, dt) == Start(j, dt) + (k - j) as real * dt;
  }

  lemma StartNext(k: nat, dt: real)
    ensures Start(k + 1, dt) == Start(k, dt) + dt
  {}

  // ---------------------------------------------------------------- when an event is due

  /** None of the steps made between scheduling and step `n` had reached the event's time. */
  ghost predicate Waits(e: Event, n: nat, dt: real) { forall j: nat :: e.since <= j < n ==> Start(j, dt) < e.time }

  /** Step `k` is the first one after scheduling that starts at or after the event's time. */
  ghost predicate Due(e: Event, k: nat, dt: real) { e.since <= k && Start(k, dt) >= e.time && Waits(e, k, dt) }

  lemma DueOnce(e: Event, j: nat, k: nat, dt: real)
    requires Due(e, j, dt) && Due(e, k, dt)
    ensures j == k
  {}

  /** For an event scheduled before the run: the step after the last one that starts before its time. */
  lemma DueStep(e: Event, k: nat, dt: real)
    requires dt > 0.0 && e.since == 0
    ensures Due(e, k, dt) <==> Start(k, dt) >= e.time && (k == 0 || Start(k - 1, dt) < e.time)
  {
    if k > 0 && Start(k - 1, dt) < e.time {
      forall j: nat | j < k ensures Start(j, dt) < e.time { if j < k - 1 { StartsIncrease(j, k - 1, dt); } }
    }
  }

  /** What has become of the events after some steps: `batches[k]` are those executed in step `k`. */
  ghost predicate History(added: multiset<Event>, pending: multiset<Event>, batches: seq<seq<Event>>, dt: real) {
    && (forall e :: e in added ==> e.since <= |batches|)
    && (forall e :: pending[e] == if Waits(e, |batches|, dt) then added[e] else 0)
    && (forall k, e :: 0 <= k < |batches| ==> multiset(batches[k])[e] == if Due(e, k, dt) then added[e] else 0)
    && (forall k :: 0 <= k < |batches| ==> Ordered(batches[k]))
  }

  lemma Scheduled(added: multiset<Event>, pending: multiset<Event>, batches: seq<seq<Event>>, dt: real, e: Event)
    requires History(added, pending, batches, dt) && e.since == |batches|
    ensures History(added + multiset{e}, pending + multiset{e}, batches, dt)
  {}

  lemma BatchDone(added: multiset<Event>, pending: multiset<Event>, batches: seq<seq<Event>>, dt: real,
                  executed: seq<Event>, pending': multiset<Event>)
    requires History(added, pending, batches, dt) && Ordered(executed)
    requires Split(pending, Start(|batches|, dt), executed, pending')
    ensures History(added, pending', batches + [executed], dt)
  {
    var n := |batches|;
    forall e
      ensures pending'[e] == if Waits(e, n + 1, dt) then added[e] else 0
      ensures multiset(executed)[e] == if Due(e, n, dt) then added[e] else 0
    {
      assert added[e] > 0 ==> e in added;
      assert Waits(e, n + 1, dt) ==> Waits(e, n, dt);
      assert e.since <= n && Waits(e, n + 1, dt) ==> Start(n, dt) < e.time;
    }
  }

  // ---------------------------------------------------------------- what the history says

  function Flat(batches: seq<seq<Event>>): seq<Event> {
    if batches == [] then [] else Flat(batches[..|batches| - 1]) + batches[|batches| - 1]
  }

  /** Every scheduled event is executed in the step it is due in and in no other, as often as it was
      scheduled, or else is still waiting because no step so far was late enough. */
  lemma ExecutedWhenDue(added: multiset<Event>, pending: multiset<Event>, batches: seq<seq<Event>>, dt: real, e: Event)
    requires History(added, pending, batches, dt) && e in added
    ensures forall k :: 0 <= k < |batches| ==> multiset(batches[k])[e] == if Due(e, k, dt) then added[e] else 0
    ensures e in pending <==> forall k: nat :: k < |batches| ==> !Due(e, k, dt)
    ensures e in pending ==> pending[e] == added[e]
  {
    if !Waits(e, |batches|, dt) {
      var j := FirstDue(e, |batches|, dt);
      assert Due(e, j, dt);
    }
  }

  lemma {:induction false} FirstDue(e: Event, n: nat, dt: real) returns (j: nat)
    requires !Waits(e, n, dt)
    ensures j < n && Due(e, j, dt)
  {
    if Waits(e, n - 1, dt) { j := n - 1; } else { j := FirstDue(e, n - 1, dt); }
  }

  lemma {:induction false} CountFlat(batches: seq<seq<Event>>, e: Event, k: nat)
    requires forall i :: 0 <= i < |batches| && i != k ==> multiset(batches[i])[e] == 0
    ensures multiset(Flat(batches))[e] == if k < |batches| then multiset(batches[k])[e] else 0
  {
    if batches != [] {
      var n := |batches| - 1;
      forall i | 0 <= i < n && i != k ensures multiset(batches[..n][i])[e] == 0 { assert batches[..n][i] == batches[i]; }
      CountFlat(batches[..n], e, k);
      assert multiset(Flat(batches)) == multiset(Flat(batches[..n])) + multiset(batches[n]);
    }
  }

  /** Executed and waiting events together are the scheduled ones. */
  lemma NothingLostOrRepeated(added: multiset<Event>, pending: multiset<Event>, batches: seq<seq<Event>>, dt: real)
    requires History(added, pending, batches, dt)
    ensures multiset(Flat(batches)) + pending == added
  {
    forall e ensures multiset(Flat(batches))[e] + pending[e] == added[e] {
      if Waits(e, |batches|, dt) {
        forall k | 0 <= k < |batches| ensures multiset(batches[k])[e] == 0 {
          assert Start(k, dt) < e.time || k < e.since;
        }
        CountFlat(batches, e, |batches|);
      } else {
        var j := FirstDue(e, |batches|, dt);
        forall k | 0 <= k < |batches| && k != j ensures multiset(batches[k])[e] == 0 {
          if Due(e, k, dt) { DueOnce(e, j, k, dt); }
        }
        CountFlat(batches, e, j);
      }
    }
  }

  lemma {:induction false} InSomeBatch(batches: seq<seq<Event>>, e: Event) returns (k: nat)
    requires e in Flat(batches)
    ensures k < |batches| && e in batches[k]
  {
    var n := |batches| - 1;
    if e in batches[n] { k := n; } else { k := InSomeBatch(batches[..n], e); }
  }

  /** A later batch holds only later events, among those scheduled by the time of the earlier batch. */
  lemma LaterBatchLater(added: multiset<Event>, pending: multiset<Event>, batches: seq<seq<Event>>, dt: real,
                        j: nat, k: nat, e: Event, f: Event)
    requires History(added, pending, batches, dt) && j < k < |batches|
    requires e in batches[j] && f in batches[k] && f.since <= j
    ensures e.time < f.time
  {
    assert multiset(batches[j])[e] > 0 && multiset(batches[k])[f] > 0;
    assert Due(e, j, dt) && Due(f, k, dt);
  }

  /** If everything was scheduled before the run, the events are executed in order of time. */
  lemma {:induction false} ExecutedInOrder(added: multiset<Event>, pending: multiset<Event>, batches: seq<seq<Event>>, dt: real, n: nat)
    requires History(added, pending, batches, dt) && n <= |batches|
    requires forall e :: e in added ==> e.since == 0
    ensures Ordered(Flat(batches[..n]))
  {
    if n > 0 {
      ExecutedInOrder(added, pending, batches, dt, n - 1);
      assert batches[..n][..n - 1] == batches[..n - 1];
      var before, last := Flat(batches[..n - 1]), batches[n - 1];
      forall i, j | 0 <= i < |before| && 0 <= j < |last| ensures before[i].time <= last[j].time {
        var e, f := before[i], last[j];
        var k := InSomeBatch(batches[..n - 1], e);
        assert multiset(last)[f] > 0;
        assert f in added;
        LaterBatchLater(added, pending, batches, dt, k, n - 1, e, f);
      }
    }
  }

  // ---------------------------------------------------------------- loggers

  /** A logger with its downsampling, and the times of the rows it has written. */
  datatype Logger = Logger(downsampling: nat, since: nat, rows: seq<real>)

  /** The rows of a logger added after `since` steps, when `n` steps have been made. */
  ghost function Rows(d: nat, since: nat, n: nat, dt: real): seq<real>
    requires d >= 1
  {
    if n <= since then [] else Rows(d, since, n - 1, dt) + if (n - 1) % d == 0 then [Start(n - 1, dt)] else []
  }

  function CeilDiv(n: nat, d: nat): nat
    requires d >= 1
  {
    (n + d - 1) / d
  }

  lemma CeilDivNext(n: nat, d: nat)
    requires d >= 1
    ensures CeilDiv(n + 1, d) == CeilDiv(n, d) + if n % d == 0 then 1 else 0
  {
    var q, r := n / d, n % d;
    assert n == q * d + r;
    if r == 0 {
      Arith.DivModUnique(n + d - 1, d, q, d - 1);
      assert n + 1 + d - 1 == (q + 1) * d + 0;
      Arith.DivModUnique(n + 1 + d - 1, d, q + 1, 0);
    } else {
      assert n + d - 1 == (q + 1) * d + (r - 1);
      Arith.DivModUnique(n + d - 1, d, q + 1, r - 1);
      assert n + 1 + d - 1 == (q + 1) * d + r;
      Arith.DivModUnique(n + 1 + d - 1, d, q + 1, r);
    }
  }

  /** How often a logger fires: in `n` steps from the start, `n / d` rounded up. */
  lemma {:induction false} RowCount(d: nat, since: nat, n: nat, dt: real)
    requires d >= 1 && since <= n
    ensures |Rows(d, since, n, dt)| == CeilDiv(n, d) - CeilDiv(since, d)
    ensures since == 0 ==> |Rows(d, since, n, dt)| == CeilDiv(n, d)
  {
    Arith.DivModUnique(d - 1, d, 0, d - 1);
    if n > since {
      RowCount(d, since, n - 1, dt);
      CeilDivNext(n - 1, d);
    }
  }

  /** And which steps it logs: every `d`-th one, beginning with the first. */
  lemma {:induction false} RowAt(d: nat, n: nat, dt: real, i: nat)
    requires d >= 1 && i < |Rows(d, 0, n, dt)|
    ensures Rows(d, 0, n, dt)[i] == Start(i * d, dt)
  {
    RowCount(d, 0, n - 1, dt);
    if i < |Rows(d, 0, n - 1, dt)| {
      RowAt(d, n - 1, dt, i);
    } else {
      var q := (n - 1) / d;
      assert n - 1 == q * d;
      Arith.DivModUnique(n - 1 + d - 1, d, q, d - 1);
    }
  }

  // ---------------------------------------------------------------- the simulation

  /** The positions of the switches when step `k` starts. */
  ghost function PositionsAt(initial: seq<bool>, batches: seq<seq<Event>>, k: nat): seq<bool>
    requires k <= |batches|
  {
    ClosedAfter(initial, Flat(batches[..k]))
  }

  /** What the solves have used: in step `k` the positions from before that step's events. */
  ghost predicate SolvesOk(initial: seq<bool>, batches: seq<seq<Event>>, solved: seq<Factor>) {
    && |initial| <= SWITCH_NUM && |solved| == |batches|
    && forall k :: 0 <= k < |solved| ==> solved[k] == Used(|initial|, Padded(PositionsAt(initial, batches, k)))
  }

  ghost predicate LoggersOk(loggers: seq<Logger>, n: nat, dt: real) {
    forall i :: 0 <= i < |loggers| ==>
      loggers[i].downsampling >= 1 && loggers[i].since <= n
      && loggers[i].rows == Rows(loggers[i].downsampling, loggers[i].since, n, dt)
  }

  lemma SolvesStep(initial: seq<bool>, batches: seq<seq<Event>>, solved: seq<Factor>, executed: seq<Event>, f: Factor)
    requires SolvesOk(initial, batches, solved)
    requires f == Used(|initial|, Padded(PositionsAt(initial, batches, |batches|)))
    ensures SolvesOk(initial, batches + [executed], solved + [f])
    ensures PositionsAt(initial, batches + [executed], |batches| + 1)
         == ClosedAfter(PositionsAt(initial, batches, |batches|), executed)
  {
    var b := batches + [executed];
    forall k | 0 <= k <= |batches| ensures PositionsAt(initial, b, k) == PositionsAt(initial, batches, k) {
      assert b[..k] == batches[..k];
    }
    assert b[..|b|] == b && b[..|b| - 1] == batches[..|batches|];
    ClosedAfterConcat(initial, Flat(batches[..|batches|]), executed);
  }

  lemma FlatAppend(attributes: map<nat, real>, batches: seq<seq<Event>>, executed: seq<Event>)
    ensures Flat(batches + [executed]) == Flat(batches) + executed
    ensures AttributesAfter(attributes, Flat(batches + [executed])) == AttributesAfter(AttributesAfter(attributes, Flat(batches)), executed)
  {
    assert (batches + [executed])[..|batches|] == batches;
    AttributesAfterConcat(attributes, Flat(batches), executed);
  }

  /** The loggers stay the same, but for their rows. */
  predicate SameLoggers(a: seq<Logger>, b: seq<Logger>) {
    |a| == |b| && forall i :: 0 <= i < |a| ==> a[i].downsampling == b[i].downsampling && a[i].since == b[i].since
  }

  class Simulation {
    const timeStep: real
    const finalTime: real
    const queue: EventQueue
    const plant: Plant
    const solver: Solver
    var time: real
    var timeStepCount: nat
    var loggers: seq<Logger>

    // The history, for the proof.
    ghost const initial: seq<bool>
    ghost const attributes: map<nat, real>
    ghost var added: multiset<Event>
    ghost var batches: seq<seq<Event>>
    ghost var solved: seq<Factor>

    ghost predicate Valid()
      reads this, queue, plant, solver
    {
      && timeStep > 0.0 && time == Start(timeStepCount, timeStep) && |batches| == timeStepCount
      && History(added, queue.pending, batches, timeStep)
      && solver.plant == plant && solver.Valid()
      && |plant.closed| == |initial| == solver.count && SolvesOk(initial, batches, solved)
      && plant.closed == PositionsAt(initial, batches, |batches|)
      && plant.attributes == AttributesAfter(attributes, Flat(batches))
      && solver.status == Padded(plant.closed)
      && LoggersOk(loggers, timeStepCount, timeStep)
    }

    constructor (timeStep: real, finalTime: real, plant: Plant, solver: Solver)
      requires timeStep > 0.0 && solver.plant == plant && solver.Valid() && solver.count == |plant.closed| && solver.status == Padded(plant.closed)
      ensures Valid() && fresh(queue) && this.plant == plant && this.solver == solver
      ensures this.timeStep == timeStep && this.finalTime == finalTime && initial == plant.closed && attributes == plant.attributes
      ensures added == multiset{} && timeStepCount == 0 && loggers == []
    {
      this.timeStep, this.finalTime, this.plant, this.solver := timeStep, finalTime, plant, solver;
      queue := new EventQueue();
      time, timeStepCount, loggers := 0.0, 0, [];
      initial, attributes := plant.closed, plant.attributes;
      added, batches, solved := multiset{}, [], [];
    }

    method AddEvent(time: real, action: Action)
      requires Valid()
      modifies this`added, queue
      ensures Valid() && added == old(added) + multiset{Event(time, action, timeStepCount)}
    {
      var e := Event(time, action, timeStepCount);
      Scheduled(added, queue.pending, batches, timeStep, e);
      queue.AddEvent(e);
      added := added + multiset{e};
    }

    method AddLogger(downsampling: nat)
      requires Valid() && downsampling >= 1
      modifies this`loggers
      ensures Valid() && loggers == old(loggers) + [Logger(downsampling, timeStepCount, [])]
    {
      loggers := loggers + [Logger(downsampling, timeStepCount, [])];
    }

    method LogRows()
      requires timeStep > 0.0 && time == Start(timeStepCount, timeStep) && LoggersOk(loggers, timeStepCount, timeStep)
      modifies this`loggers
      ensures SameLoggers(loggers, old(loggers)) && LoggersOk(loggers, timeStepCount + 1, timeStep)
    {
      for i := 0 to |loggers|
        invariant |loggers| == |old(loggers)| && loggers[i..] == old(loggers)[i..]
        invariant LoggersOk(loggers[..i], timeStepCount + 1, timeStep)
        invariant SameLoggers(loggers, old(loggers))
      {
        var lg := loggers[i];
        assert lg == old(loggers)[i];
        if timeStepCount % lg.downsampling == 0 { loggers := loggers[i := lg.(rows := lg.rows + [time])]; }
        assert loggers[i].rows == Rows(lg.downsampling, lg.since, timeStepCount + 1, timeStep);
        assert loggers[..i + 1] == loggers[..i] + [loggers[i]];
      }
      assert loggers[..|loggers|] == loggers;
    }

    /** One time step. */
    method Step()
      requires Valid()
      modifies this`time, this`timeStepCount, this`loggers, this`batches, this`solved, queue, plant, solver
      ensures Valid() && timeStepCount == old(timeStepCount) + 1
      ensures old(batches) <= batches && old(solved) <= solved && SameLoggers(loggers, old(loggers))
    {
      hide History, SolvesOk, LoggersOk, Split, Ordered, PositionsAt, Start, Padded, Used, ClosedAfter, AttributesAfter, Flat, Solver.Valid;
      ghost var n := timeStepCount;
      var executed := queue.HandleEvents(time, plant);
      BatchDone(added, old(queue.pending), batches, timeStep, executed, queue.pending);
      var next, f := solver.Step(time, timeStep);
      SolvesStep(initial, batches, solved, executed, f);
      FlatAppend(attributes, batches, executed);
      batches, solved := batches + [executed], solved + [f];
      LogRows();
      time := next;
      StartNext(n, timeStep);
      timeStepCount := timeStepCount + 1;
    }

    /** The loop of run: it makes just as many steps as it takes to reach the final time. */
    method Run()
      requires Valid()
      modifies this`time, this`timeStepCount, this`loggers, this`batches, this`solved, queue, plant, solver
      ensures Valid() && Start(timeStepCount, timeStep) >= finalTime && timeStepCount >= old(timeStepCount)
      ensures timeStepCount > old(timeStepCount) ==> Start(timeStepCount - 1, timeStep) < finalTime
      ensures old(batches) <= batches && old(solved) <= solved && SameLoggers(loggers, old(loggers))
    {
      hide History, SolvesOk, LoggersOk, PositionsAt, Padded, Solver.Valid;
      while time < finalTime
        invariant Valid() && timeStepCount >= old(timeStepCount)
        invariant timeStepCount > old(timeStepCount) ==> Start(timeStepCount - 1, timeStep) < finalTime
        invariant old(batches) <= batches && old(solved) <= solved && SameLoggers(loggers, old(loggers))
        decreases (finalTime - time) / timeStep
      {
        ghost var before := time;
        Step();
        Closer(finalTime - before, finalTime - time, timeStep);
      }
    }
  }

  lemma Closer(before: real, after: real, dt: real)
    requires dt > 0.0 && before > 0.0 && after == before - dt
    ensures before / dt > 0.0 && after / dt == before / dt - 1.0
  {
    var x, y := before / dt, after / dt;
    assert x * dt == before && y * dt == after;
    assert (x - 1.0 - y) * dt == 0.0;
    ProductSign(x - 1.0 - y, dt);
  }

  lemma ProductSign(d: real, dt: real)
    requires dt > 0.0
    ensures d > 0.0 ==> d * dt > 0.0
    ensures d < 0.0 ==> d * dt < 0.0
  {
    if d < 0.0 { assert (-d) * dt > 0.0; }
  }

  // ---------------------------------------------------------------- solves over a whole run

  /** Whatever the run, every solve uses the matrix of the positions at the start of its step exactly
      if these spell a number below twice the number of switches. */
  lemma SolveIsRightExactly(initial: seq<bool>, batches: seq<seq<Event>>, solved: seq<Factor>, k: nat)
    requires SolvesOk(initial, batches, solved) && k < |solved|
    ensures var now := PositionsAt(initial, batches, k);
            solved[k] == LU(Stamped(now)) <==> initial == [] || Key(now) < 2 * |initial|
  {
    SolvesRightExactly(PositionsAt(initial, batches, k));
  }

  /** With at most two switches every solve is right, in every run. */
  lemma FewSwitchesAlwaysRight(initial: seq<bool>, batches: seq<seq<Event>>, solved: seq<Factor>, k: nat)
    requires SolvesOk(initial, batches, solved) && k < |solved| && |initial| <= 2
    ensures solved[k] == LU(Stamped(PositionsAt(initial, batches, k)))
  {
    CoveredExactly(|initial|);
  }

  /** The events of a step do not affect its own solve, whatever they are: two runs that agree before
      step `k` solve it alike. A corollary: the substance is `SolvesOk`, which `Simulation.Step` keeps and
      `Simulate` establishes of every run. */
  lemma EventsActOneStepLate(initial: seq<bool>, batches: seq<seq<Event>>, solved: seq<Factor>,
                             batches': seq<seq<Event>>, solved': seq<Factor>, k: nat)
    requires SolvesOk(initial, batches, solved) && SolvesOk(initial, batches', solved')
    requires k < |solved| && k < |solved'| && batches[..k] == batches'[..k]
    ensures solved[k] == solved'[k]
  {
    assert PositionsAt(initial, batches, k) == PositionsAt(initial, batches', k);
  }

  // ---------------------------------------------------------------- a simulation from beginning to end

  /** What a finished simulation has done with events scheduled before it: executed or kept each, exactly
      once and in its step, in order of time. */
  ghost predicate AllAsScheduled(events: seq<Event>, pending: multiset<Event>, batches: seq<seq<Event>>, dt: real) {
    && multiset(Flat(batches)) + pending == multiset(events) && Ordered(Flat(batches))
    && (forall e, k :: e in events && 0 <= k < |batches| ==>
          multiset(batches[k])[e] == if Due(e, k, dt) then multiset(events)[e] else 0)
    && forall e :: e in events ==> (e in pending <==> forall k: nat :: k < |batches| ==> !Due(e, k, dt))
  }

  lemma HistorySaysAll(events: seq<Event>, pending: multiset<Event>, batches: seq<seq<Event>>, dt: real)
    requires History(multiset(events), pending, batches, dt) && forall e :: e in events ==> e.since == 0
    ensures AllAsScheduled(events, pending, batches, dt)
  {
    NothingLostOrRepeated(multiset(events), pending, batches, dt);
    ExecutedInOrder(multiset(events), pending, batches, dt, |batches|);
    assert batches[..|batches|] == batches;
    forall e | e in events
      ensures e in pending <==> forall k: nat :: k < |batches| ==> !Due(e, k, dt)
      ensures forall k :: 0 <= k < |batches| ==> multiset(batches[k])[e] == if Due(e, k, dt) then multiset(events)[e] else 0
    {
      ExecutedWhenDue(multiset(events), pending, batches, dt, e);
    }
  }

  /** A row for the first of every `d` steps, with the time that step started. */
  ghost predicate RowsOf(rows: seq<real>, d: nat, n: nat, dt: real) {
    d >= 1 && |rows| == CeilDiv(n, d) && forall j :: 0 <= j < |rows| ==> rows[j] == Start(j * d, dt)
  }

  ghost predicate RowsRight(loggers: seq<Logger>, downsampling: seq<nat>, n: nat, dt: real) {
    |loggers| == |downsampling| && forall i :: 0 <= i < |loggers| ==> RowsOf(loggers[i].rows, downsampling[i], n, dt)
  }

  lemma RowsAreRight(loggers: seq<Logger>, downsampling: seq<nat>, n: nat, dt: real)
    requires |loggers| == |downsampling| && LoggersOk(loggers, n, dt)
    requires forall i :: 0 <= i < |loggers| ==> loggers[i].downsampling == downsampling[i] && loggers[i].since == 0
    ensures RowsRight(loggers, downsampling, n, dt)
  {
    forall i | 0 <= i < |loggers| ensures RowsOf(loggers[i].rows, downsampling[i], n, dt) {
      var d := downsampling[i];
      RowCount(d, 0, n, dt);
      forall j | 0 <= j < |loggers[i].rows| ensures loggers[i].rows[j] == Start(j * d, dt) { RowAt(d, n, dt, j); }
    }
  }

  method ScheduleAll(sim: Simulation, events: seq<(real, Action)>)
    requires sim.Valid() && sim.timeStepCount == 0 && sim.added == multiset{}
    modifies sim`added, sim.queue
    ensures sim.Valid() && sim.added == multiset(Scheduling(events))
  {
    hide History, SolvesOk, LoggersOk, Start, Solver.Valid, PositionsAt, Padded;
    for i := 0 to |events|
      invariant sim.Valid() && sim.added == multiset(Scheduling(events[..i]))
    {
      sim.AddEvent(events[i].0, events[i].1);
      assert Scheduling(events[..i + 1]) == Scheduling(events[..i]) + [Event(events[i].0, events[i].1, 0)];
    }
    assert events[..|events|] == events;
  }

  method AddLoggers(sim: Simulation, downsampling: seq<nat>)
    requires sim.Valid() && sim.timeStepCount == 0 && sim.loggers == []
    requires forall i :: 0 <= i < |downsampling| ==> downsampling[i] >= 1
    modifies sim`loggers
    ensures sim.Valid() && |sim.loggers| == |downsampling|
    ensures forall i :: 0 <= i < |downsampling| ==> sim.loggers[i].downsampling == downsampling[i] && sim.loggers[i].since == 0
  {
    hide History, SolvesOk, LoggersOk, Start, Solver.Valid, PositionsAt, Padded;
    for i := 0 to |downsampling|
      invariant sim.Valid() && |sim.loggers| == i
      invariant forall j :: 0 <= j < i ==> sim.loggers[j].downsampling == downsampling[j] && sim.loggers[j].since == 0
    {
      sim.AddLogger(downsampling[i]);
    }
  }

  /** Set up a system with these switches, schedule the events, add the loggers and run. */
  method Simulate(timeStep: real, finalTime: real, closed: seq<bool>, events: seq<(real, Action)>, downsampling: seq<nat>)
    returns (sim: Simulation)
    requires timeStep > 0.0 && |closed| <= SWITCH_NUM && forall i :: 0 <= i < |downsampling| ==> downsampling[i] >= 1
    ensures sim.timeStep == timeStep && sim.initial == closed
    ensures var n := sim.timeStepCount;
      && |sim.batches| == n && Start(n, timeStep) >= finalTime && (n > 0 ==> Start(n - 1, timeStep) < finalTime)
      && RowsRight(sim.loggers, downsampling, n, timeStep)
    ensures AllAsScheduled(Scheduling(events), sim.queue.pending, sim.batches, timeStep)
    ensures SolvesOk(closed, sim.batches, sim.solved)
    ensures sim.plant.closed == ClosedAfter(closed, Flat(sim.batches)) && sim.plant.attributes == AttributesAfter(map[], Flat(sim.batches))
  {
    hide History, SolvesOk, LoggersOk, AllAsScheduled, RowsRight, Start, Solver.Valid;
    var plant := new Plant(closed);
    var solver := new Solver(plant);
    var ok := solver.Initialize();
    sim := new Simulation(timeStep, finalTime, plant, solver);
    ScheduleAll(sim, events);
    AddLoggers(sim, downsampling);
    sim.Run();
    HistorySaysAll(Scheduling(events), sim.queue.pending, sim.batches, timeStep);
    RowsAreRight(sim.loggers, downsampling, sim.timeStepCount, timeStep);
    assert sim.batches[..|sim.batches|] == sim.batches;
  }

  /** The events as they are before the first step. */
  function Scheduling(events: seq<(real, Action)>): (r: seq<Event>)
    ensures |r| == |events| && forall i :: 0 <= i < |r| ==> r[i] == Event(events[i].0, events[i].1, 0)
  {
    seq(|events|, i requires 0 <= i < |events| => Event(events[i].0, events[i].1, 0))
  }
}
