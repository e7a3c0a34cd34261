/** The handshake between the Python controller and the simulation thread (Python/Simulation.cpp): the
    shared `state` and `singleStepping`, one step per section under the mutex and per unguarded read.
    `failOnOverrun` is off. */
module Handshake {

  datatype SimState = Stopped | Starting | Running | Pausing | Paused | Resuming | Stopping | Done

  /** threadFunction, named after what is about to happen. */
  datatype Worker =
    | WLoop          // while (time < finalTime)
    | WFirst         // is this the first step ever?
    | WReadState     // state == pausing ?
    | WReadSingle    // || singleStepping ?
    | WPause         // newState(paused)
    | WWait          // while (state == paused) wait
    | WReadStop      // state == stopping ?
    | WStop          // newState(stopped)
    | WDone          // newState(done)
    | WGone

  /** The call the controller is in, waiting for the state to change. */
  datatype Controller = CIdle | CPause | CStart | CStep | CStop

  datatype State = State(st: SimState, single: bool, ctl: Controller, workers: seq<Worker>, count: nat)

  datatype Event = TimeStep | PausedNow | Quiet | CallPause | CallStart | CallStep | CallStop | Returned | Raised(call: Controller)

  ghost predicate Initial(s: State) { s.st == Stopped && !s.single && s.ctl == CIdle && s.workers == [] && s.count == 0 }

  // ---------------------------------------------------------------- steps

  ghost predicate ControllerStep(s: State, e: Event, s': State) {
    match s.ctl
    case CIdle =>
      || (if s.st == Running then e == CallPause && s' == s.(st := Pausing, ctl := CPause)
          else e == Raised(CPause) && s' == s)
      || (if s.st == Running || s.st == Done then e == Raised(CStart) && s' == s.(single := false)
          else if s.st == Paused then e == CallStart && s' == s.(single := false, st := Resuming, ctl := CStart)
          else e == CallStart && s' == s.(single := false, st := Starting, ctl := CStart, workers := s.workers + [WLoop]))
      || (if s.st == Stopped then e == CallStep && s' == s.(single := true, st := Starting, ctl := CStep, workers := s.workers + [WLoop])
          else if s.st == Paused then e == CallStep && s' == s.(single := true, st := Resuming, ctl := CStep)
          else e == Raised(CStep) && s' == s.(single := true))
      || (if s.st == Running || s.st == Paused then e == CallStop && s' == s.(st := Stopping, ctl := CStop)
          else e == Raised(CStop) && s' == s)
    case CPause => s.st == Paused && e == Returned && s' == s.(ctl := CIdle)
    case CStart => s.st == Running && e == Returned && s' == s.(ctl := CIdle)
    case CStep => s.st != Running && e == Returned && s' == s.(ctl := CIdle)
    case CStop => s.st == Stopped && e == Returned && s' == s.(ctl := CIdle)
  }

  function SetWorker(s: State, i: nat, w: Worker): State
    requires i < |s.workers|
  {
    s.(workers := s.workers[i := w])
  }

  ghost predicate WorkerStep(s: State, i: nat, e: Event, s': State)
    requires i < |s.workers|
  {
    match s.workers[i]
    case WLoop =>
      || (e == TimeStep && s' == SetWorker(s, i, WFirst).(count := s.count + 1))
      || (e == Quiet && s' == SetWorker(s, i, WDone))
    case WFirst => e == Quiet && s' == SetWorker(s, i, WReadState).(st := if s.count == 1 then Running else s.st)
    case WReadState => e == Quiet && s' == SetWorker(s, i, if s.st == Pausing then WPause else WReadSingle)
    case WReadSingle => e == Quiet && s' == SetWorker(s, i, if s.single then WPause else WReadStop)
    case WPause => e == PausedNow && s' == SetWorker(s, i, WWait).(st := Paused)
    case WWait =>
      s.st != Paused && e == Quiet && s' == SetWorker(s, i, WReadStop).(st := if s.st == Resuming then Running else s.st)
    case WReadStop => e == Quiet && s' == SetWorker(s, i, if s.st == Stopping then WStop else WLoop)
    case WStop => e == Quiet && s' == SetWorker(s, i, WGone).(st := Stopped)
    case WDone => e == Quiet && s' == SetWorker(s, i, WGone).(st := Done)
    case WGone => false
  }

  ghost predicate Step(s: State, e: Event, s': State) {
    ControllerStep(s, e, s') || exists i: nat :: i < |s.workers| && WorkerStep(s, i, e, s')
  }

  /** What the caller must keep to: start() is not called while an earlier start or step takes effect. */
  predicate Allowed(s: State, e: Event) { e == CallStart ==> s.st != Starting && s.st != Resuming }

  // ---------------------------------------------------------------- invariant

  /** At most the last thread is alive, and none exactly when stopped or done; a paused simulation has its thread
      waiting; a state asked for by a call belongs to a controller still in that call. */
  ghost predicate Inv(s: State) {
    && (forall i :: 0 <= i < |s.workers| - 1 ==> s.workers[i] == WGone)
    && (s.st == Stopped || s.st == Done <==> Current(s) == WGone)
    && (s.st == Paused ==> Current(s) == WWait)
    && (s.st == Pausing ==> s.ctl == CPause) && (s.st == Stopping ==> s.ctl == CStop)
    && (s.st == Resuming ==> Current(s) == WWait)
  }

  function Current(s: State): Worker { if s.workers == [] then WGone else s.workers[|s.workers| - 1] }

  lemma ControllerKeeps(s: State, e: Event, s': State)
    requires Inv(s) && ControllerStep(s, e, s') && Allowed(s, e)
    ensures Inv(s')
  {}

  lemma WorkerKeeps(s: State, i: nat, e: Event, s': State)
    requires Inv(s) && i < |s.workers| && WorkerStep(s, i, e, s')
    ensures Inv(s') && i == |s.workers| - 1
  {
    assert i == |s.workers| - 1;
    match s.workers[i] {
      case WLoop =>
      case WFirst =>
      case WReadState =>
      case WReadSingle =>
      case WPause =>
      case WWait =>
      case WReadStop =>
      case WStop =>
      case WDone =>
    }
  }

  lemma StepKeeps(s: State, e: Event, s': State)
    requires Inv(s) && Step(s, e, s') && Allowed(s, e)
    ensures Inv(s')
  {
    hide ControllerStep, WorkerStep, Inv, Allowed;
    if ControllerStep(s, e, s') {
      ControllerKeeps(s, e, s');
    } else {
      var i: nat :| i < |s.workers| && WorkerStep(s, i, e, s');
      WorkerKeeps(s, i, e, s');
    }
  }

  /** Calling start() leaves at most one thread alive exactly if no earlier start or step is taking effect. */
  lemma OneThreadExactly(s: State, s': State)
    requires Inv(s) && Step(s, CallStart, s')
    ensures (forall i :: 0 <= i < |s'.workers| - 1 ==> s'.workers[i] == WGone) <==> Allowed(s, CallStart)
  {
    assert ControllerStep(s, CallStart, s');
    if !Allowed(s, CallStart) { assert s'.workers[|s.workers| - 1] == Current(s) != WGone; }
  }

  // ---------------------------------------------------------------- whole runs

  ghost predicate Run(r: seq<State>, ev: seq<Event>) {
    && |r| == |ev| + 1 && Initial(r[0])
    && forall i {:trigger ev[i]} :: 0 <= i < |ev| ==> Step(r[i], ev[i], r[i + 1])
  }

  ghost predicate Disciplined(r: seq<State>, ev: seq<Event>) {
    Run(r, ev) && forall i {:trigger ev[i]} :: 0 <= i < |ev| ==> Allowed(r[i], ev[i])
  }

  lemma {:induction false} RunInvariant(r: seq<State>, ev: seq<Event>, i: nat)
    requires Disciplined(r, ev) && i < |r|
    ensures Inv(r[i])
  {
    if i > 0 {
      RunInvariant(r, ev, i - 1);
      StepKeeps(r[i - 1], ev[i - 1], r[i]);
    }
  }

  /** A paused simulation, whose thread waits, does nothing unless told to. */
  lemma PausedStep(s: State, e: Event, s': State)
    requires Inv(s) && Step(s, e, s') && s.st == Paused
    requires e != CallStart && e != CallStep && e != CallStop
    ensures e != TimeStep && s'.st == Paused
  {
    if !ControllerStep(s, e, s') {
      var i: nat :| i < |s.workers| && WorkerStep(s, i, e, s');
      WorkerKeeps(s, i, e, s');
    }
  }

  /** Once paused, no time step runs before start(), step() or stop() is called. */
  lemma {:induction false} PausedMeansStill(r: seq<State>, ev: seq<Event>, i: nat, j: nat)
    requires Disciplined(r, ev) && i <= j < |r| && r[i].st == Paused
    requires forall k :: i <= k < j ==> ev[k] != CallStart && ev[k] != CallStep && ev[k] != CallStop
    ensures r[j].st == Paused && forall k :: i <= k < j ==> ev[k] != TimeStep
  {
    hide Step, Inv, Allowed;
    if i < j {
      PausedMeansStill(r, ev, i, j - 1);
      RunInvariant(r, ev, j - 1);
      PausedStep(r[j - 1], ev[j - 1], r[j]);
    }
  }

  /** After pause() has returned, the simulation is paused and no time step runs until start(), step() or
      stop() is called. */
  lemma StillAfterPause(r: seq<State>, ev: seq<Event>, i: nat, j: nat)
    requires Disciplined(r, ev) && i < j < |r| && ev[i] == Returned && r[i].ctl == CPause
    requires forall k :: i < k < j ==> ev[k] != CallStart && ev[k] != CallStep && ev[k] != CallStop
    ensures r[j].st == Paused && forall k :: i <= k < j ==> ev[k] != TimeStep
  {
    assert Step(r[i], ev[i], r[i + 1]);
    PausedMeansStill(r, ev, i + 1, j);
  }

  // Single stepping.

  function Steps(ev: seq<Event>, i: nat, j: nat): nat
    requires i <= j <= |ev|
  {
    if i == j then 0 else Steps(ev, i, j - 1) + if ev[j - 1] == TimeStep then 1 else 0
  }

  /** Whether the thread is between a time step and the pause after it. */
  predicate After(w: Worker) { w.WFirst? || w.WReadState? || w.WReadSingle? || w.WPause? }

  lemma PhaseStep(s: State, e: Event, s': State)
    requires Inv(s) && Step(s, e, s') && Allowed(s, e) && (s.st != Paused ==> s.single)
    requires e != PausedNow
    ensures if e == TimeStep then !After(Current(s)) && After(Current(s')) else After(Current(s)) == After(Current(s'))
  {
    if ControllerStep(s, e, s') {
      PhaseOfCall(s, e, s');
    } else {
      var i: nat :| i < |s.workers| && WorkerStep(s, i, e, s');
      WorkerKeeps(s, i, e, s');
    }
  }

  lemma PhaseOfCall(s: State, e: Event, s': State)
    requires Inv(s) && ControllerStep(s, e, s') && Allowed(s, e)
    ensures e != TimeStep && After(Current(s)) == After(Current(s'))
  {}

  lemma PauseStep(s: State, e: Event, s': State)
    requires Inv(s) && Step(s, e, s') && e == PausedNow
    ensures After(Current(s)) && !After(Current(s'))
  {
    if !ControllerStep(s, e, s') {
      var i: nat :| i < |s.workers| && WorkerStep(s, i, e, s');
      WorkerKeeps(s, i, e, s');
    }
  }

  lemma {:induction false} StepsSincePause(r: seq<State>, ev: seq<Event>, i: nat, j: nat)
    requires Disciplined(r, ev) && i < j < |r| && ev[i] == PausedNow
    requires forall k :: i < k < j ==> ev[k] != PausedNow && (r[k].st != Paused ==> r[k].single)
    ensures Steps(ev, i + 1, j) == if After(Current(r[j])) then 1 else 0
  {
    hide Step, Inv, Allowed, After;
    RunInvariant(r, ev, j - 1);
    if i + 1 == j {
      PauseStep(r[i], ev[i], r[j]);
    } else {
      StepsSincePause(r, ev, i, j - 1);
      PhaseStep(r[j - 1], ev[j - 1], r[j]);
    }
  }

  /** While single stepping, exactly one time step lies between one pause and the next. */
  lemma OneStepBetweenPauses(r: seq<State>, ev: seq<Event>, i: nat, j: nat)
    requires Disciplined(r, ev) && i < j < |ev| && ev[i] == PausedNow && ev[j] == PausedNow
    requires forall k :: i < k < j ==> ev[k] != PausedNow && (r[k].st != Paused ==> r[k].single)
    ensures Steps(ev, i + 1, j) == 1
  {
    hide Step, Inv, Allowed, After;
    StepsSincePause(r, ev, i, j);
    RunInvariant(r, ev, j);
    PauseStep(r[j], ev[j], r[j + 1]);
  }

  // Stopping.

  /** What the thread still has to do before it is stopped. */
  function Rank(w: Worker): nat {
    match w case WWait => 3 case WReadStop => 2 case WStop => 1 case _ => 0
  }

  lemma StoppingStep(s: State, e: Event, s': State)
    requires Inv(s) && Step(s, e, s') && s.st == Stopping && s.ctl == CStop && Rank(Current(s)) > 0
    ensures e != TimeStep && s'.ctl == CStop && Rank(Current(s')) == Rank(Current(s)) - 1
    ensures s'.st == if Rank(Current(s')) == 0 then Stopped else Stopping
  {
    assert !ControllerStep(s, e, s');
    var i: nat :| i < |s.workers| && WorkerStep(s, i, e, s');
    WorkerKeeps(s, i, e, s');
  }

  /** stop() called when the thread is past its last look at `pausing` and `singleStepping`, in particular
      while paused: the simulation is stopped after what the thread has left to do, none of it a time step. */
  lemma {:induction false} StopWorks(r: seq<State>, ev: seq<Event>, i: nat, j: nat)
    requires Disciplined(r, ev) && i < j < |r| && ev[i] == CallStop && 0 < Rank(Current(r[i]))
    requires j <= i + 1 + Rank(Current(r[i]))
    ensures ev[j - 1] != TimeStep && Rank(Current(r[j])) == i + 1 + Rank(Current(r[i])) - j && r[j].ctl == CStop
    ensures r[j].st == if Rank(Current(r[j])) == 0 then Stopped else Stopping
  {
    hide Step, Inv, Allowed;
    RunInvariant(r, ev, j - 1);
    if i + 1 == j {
      StopCalled(r[i], ev[i], r[j]);
    } else {
      StopWorks(r, ev, i, j - 1);
      StoppingStep(r[j - 1], ev[j - 1], r[j]);
    }
  }

  lemma StopFromPaused(r: seq<State>, ev: seq<Event>, i: nat, j: nat)
    requires Disciplined(r, ev) && i < j < |r| && j <= i + 4 && ev[i] == CallStop && r[i].st == Paused
    ensures ev[j - 1] != TimeStep && r[j].ctl == CStop
    ensures r[j].st == if j == i + 4 then Stopped else Stopping
  {
    RunInvariant(r, ev, i);
    StopWorks(r, ev, i, j);
  }

  /** A stop() that the thread will not see before it pauses again or ends. */
  ghost predicate Lost(s: State) {
    && s.ctl == CStop && s.single && s.st != Stopped
    && match Current(s)
       case WWait => s.st == Paused
       case WGone => s.st == Done
       case WReadStop => false
       case WStop => false
       case _ => true
  }

  lemma LostStep(s: State, e: Event, s': State)
    requires Inv(s) && Lost(s) && Step(s, e, s')
    ensures Lost(s')
  {
    assert !ControllerStep(s, e, s');
    var i: nat :| i < |s.workers| && WorkerStep(s, i, e, s');
    WorkerKeeps(s, i, e, s');
  }

  /** While single stepping, stop() called at any other moment never takes effect. */
  lemma {:induction false} StopNeverWorks(r: seq<State>, ev: seq<Event>, i: nat, j: nat)
    requires Disciplined(r, ev) && i < j < |r| && ev[i] == CallStop && r[i].single && Rank(Current(r[i])) == 0
    ensures Lost(r[j])
  {
    hide Step, Inv, Allowed, Lost;
    RunInvariant(r, ev, j - 1);
    if i + 1 == j {
      StopCalledLate(r[i], ev[i], r[j]);
    } else {
      StopNeverWorks(r, ev, i, j - 1);
      LostStep(r[j - 1], ev[j - 1], r[j]);
    }
  }

  lemma StopCalledLate(s: State, e: Event, s': State)
    requires Inv(s) && Step(s, e, s') && e == CallStop && s.single && Rank(Current(s)) == 0
    ensures Lost(s')
  {
    CallIsController(s, e, s');
  }

  lemma CallIsController(s: State, e: Event, s': State)
    requires Step(s, e, s') && e == CallStop
    ensures ControllerStep(s, e, s')
  {}

  lemma StopCalled(s: State, e: Event, s': State)
    requires Inv(s) && Step(s, e, s') && e == CallStop
    ensures s'.st == Stopping && s'.ctl == CStop && Current(s') == Current(s)
  {
    CallIsController(s, e, s');
  }

  // Starting.

  /** Nothing is about to make the thread pause. */
  ghost predicate Unchecked(s: State) { !s.single && s.st != Pausing && Current(s) != WPause }

  lemma UncheckedStep(s: State, e: Event, s': State)
    requires Inv(s) && Step(s, e, s') && Unchecked(s) && e != CallPause && e != CallStep && e != Raised(CStep)
    ensures Unchecked(s') && e != PausedNow
  {
    if ControllerStep(s, e, s') {
      UncheckedCall(s, e, s');
    } else {
      hide ControllerStep;
      var i: nat :| i < |s.workers| && WorkerStep(s, i, e, s');
      WorkerKeeps(s, i, e, s');
    }
  }

  lemma UncheckedCall(s: State, e: Event, s': State)
    requires Inv(s) && ControllerStep(s, e, s') && Unchecked(s) && e != CallPause && e != CallStep && e != Raised(CStep)
    ensures Unchecked(s') && e != PausedNow
  {}

  lemma StartUnchecks(s: State, e: Event, s': State)
    requires Inv(s) && Step(s, e, s') && e == CallStart && Allowed(s, e)
    ensures Unchecked(s')
  {
    assert ControllerStep(s, e, s');
  }

  /** start() ends single stepping: after it the simulation does not pause before pause() or step() is called. */
  lemma {:induction false} StartEndsStepping(r: seq<State>, ev: seq<Event>, i: nat, j: nat)
    requires Disciplined(r, ev) && i < j < |r| && ev[i] == CallStart
    requires forall k :: i < k < j ==> ev[k] != CallPause && ev[k] != CallStep && ev[k] != Raised(CStep)
    ensures Unchecked(r[j]) && forall k :: i <= k < j ==> ev[k] != PausedNow
  {
    hide Step, Inv, Allowed, Unchecked;
    RunInvariant(r, ev, j - 1);
    if i + 1 == j {
      StartUnchecks(r[i], ev[i], r[j]);
    } else {
      StartEndsStepping(r, ev, i, j - 1);
      UncheckedStep(r[j - 1], ev[j - 1], r[j]);
    }
  }

  // Pausing and stepping take effect.

  /** A simulation past its start has made a time step, and the thread does not take a later one for the first;
      a running one has its thread neither waiting nor about to stop. */
  ghost predicate Counted(s: State) {
    && (s.st != Starting && s.st != Stopped && s.st != Done ==> s.count >= 1)
    && (Current(s) != WLoop && Current(s) != WDone && Current(s) != WGone ==> s.count >= 1)
    && (Current(s) == WFirst && s.st != Starting ==> s.count >= 2)
    && (Current(s) == WWait ==> s.st == Paused || s.st == Resuming || s.st == Stopping)
    && (Current(s) == WStop ==> s.st == Stopping)
  }

  lemma CountedStep(s: State, e: Event, s': State)
    requires Inv(s) && Step(s, e, s') && Allowed(s, e) && Counted(s)
    ensures Counted(s')
  {
    hide ControllerStep, WorkerStep, Allowed;
    if ControllerStep(s, e, s') {
      CountedCall(s, e, s');
    } else {
      var i: nat :| i < |s.workers| && WorkerStep(s, i, e, s');
      CountedWork(s, i, e, s');
    }
  }

  lemma CountedWork(s: State, i: nat, e: Event, s': State)
    requires Inv(s) && i < |s.workers| && WorkerStep(s, i, e, s') && Counted(s)
    ensures Counted(s')
  {
    WorkerKeeps(s, i, e, s');
  }

  lemma CountedCall(s: State, e: Event, s': State)
    requires Inv(s) && ControllerStep(s, e, s') && Allowed(s, e) && Counted(s)
    ensures Counted(s')
  {}

  lemma {:induction false} RunCounted(r: seq<State>, ev: seq<Event>, i: nat)
    requires Disciplined(r, ev) && i < |r|
    ensures Counted(r[i])
  {
    if i > 0 {
      hide Step, Inv, Allowed, Counted;
      RunCounted(r, ev, i - 1);
      RunInvariant(r, ev, i - 1);
      CountedStep(r[i - 1], ev[i - 1], r[i]);
    }
  }

  /** How far the thread is from its next pause if one has been asked for; 0 if it will not come to one. */
  function ToPause(w: Worker): nat {
    match w
    case WReadSingle => 6
    case WReadStop => 5
    case WLoop => 4
    case WFirst => 3
    case WReadState => 2
    case WPause => 1
    case _ => 0
  }

  lemma PausingStep(s: State, e: Event, s': State)
    requires Inv(s) && Counted(s) && Step(s, e, s') && s.st == Pausing && ToPause(Current(s)) > 0 && e != PausedNow
    ensures s'.st == Pausing && (ToPause(Current(s')) < ToPause(Current(s)) || Current(s') == WDone)
    ensures e == TimeStep <==> Current(s) == WLoop && Current(s') == WFirst
  {
    hide ControllerStep, WorkerStep;
    PausingWaits(s, e, s');
    var i: nat :| i < |s.workers| && WorkerStep(s, i, e, s');
    PausingWork(s, i, e, s');
  }

  lemma PausingWaits(s: State, e: Event, s': State)
    requires Inv(s) && s.st == Pausing
    ensures !ControllerStep(s, e, s')
  {}

  lemma PausingWork(s: State, i: nat, e: Event, s': State)
    requires Inv(s) && Counted(s) && i < |s.workers| && WorkerStep(s, i, e, s') && s.st == Pausing && ToPause(Current(s)) > 0 && e != PausedNow
    ensures s'.st == Pausing && (ToPause(Current(s')) < ToPause(Current(s)) || Current(s') == WDone)
    ensures e == TimeStep <==> Current(s) == WLoop && Current(s') == WFirst
  {
    WorkerKeeps(s, i, e, s');
  }

  lemma PauseCalled(s: State, e: Event, s': State)
    requires Inv(s) && Counted(s) && Step(s, e, s') && e == CallPause
    ensures s'.st == Pausing && Current(s') == Current(s) && (ToPause(Current(s)) > 0 || Current(s) == WDone)
  {
    assert ControllerStep(s, e, s');
  }

  /** pause() takes effect after the current time step: unless the run is over, the thread pauses within six
      of its own steps, among them at most one time step. */
  lemma {:induction false} PauseTakesEffect(r: seq<State>, ev: seq<Event>, i: nat, j: nat)
    requires Disciplined(r, ev) && i < j < |r| && ev[i] == CallPause && Current(r[i]) != WDone
    requires forall k :: i < k < j ==> ev[k] != PausedNow
    requires forall k :: i < k <= j ==> Current(r[k]) != WDone
    ensures r[j].st == Pausing && 0 < ToPause(Current(r[j])) <= 7 - (j - i)
    ensures Steps(ev, i, j) <= 1 && (Steps(ev, i, j) == 1 ==> ToPause(Current(r[j])) <= 3)
  {
    hide Step, Inv, Allowed, Counted;
    RunInvariant(r, ev, j - 1);
    RunCounted(r, ev, j - 1);
    if i + 1 == j {
      PauseCalled(r[i], ev[i], r[j]);
    } else {
      PauseTakesEffect(r, ev, i, j - 1);
      PausingStep(r[j - 1], ev[j - 1], r[j]);
      NotYetPaused(r[j - 1], ev[j - 1], r[j]);
    }
  }

  /** The thread has a pause behind it only through PausedNow. */
  lemma NotYetPaused(s: State, e: Event, s': State)
    requires Inv(s) && Step(s, e, s') && s.st == Pausing && ToPause(Current(s)) > 0 && e != PausedNow && Current(s') != WDone
    ensures ToPause(Current(s')) > 0
  {
    assert !ControllerStep(s, e, s');
    var i: nat :| i < |s.workers| && WorkerStep(s, i, e, s');
    WorkerKeeps(s, i, e, s');
  }

  /** How far a single-stepping thread is from its next pause. */
  function ToNextPause(w: Worker): nat {
    match w
    case WWait => 7
    case WReadStop => 6
    case WLoop => 5
    case WFirst => 4
    case WReadState => 3
    case WReadSingle => 2
    case WPause => 1
    case _ => 0
  }

  /** What the thread, not the controller, has done from `i` to `j`. */
  function OwnSteps(ev: seq<Event>, i: nat, j: nat): nat
    requires i <= j <= |ev|
  {
    if i == j then 0 else OwnSteps(ev, i, j - 1) + if ev[j - 1] == Returned then 0 else 1
  }

  /** The simulation is on its way through one time step. */
  ghost predicate Stepping(s: State) {
    s.single && (s.st == Resuming || s.st == Running) && (s.st == Resuming <==> Current(s) == WWait) && ToNextPause(Current(s)) > 0
  }

  lemma SteppingStep(s: State, e: Event, s': State)
    requires Inv(s) && Step(s, e, s') && Stepping(s) && (e == TimeStep || e == Quiet || e == Returned) && Current(s') != WDone
    ensures Stepping(s') && ToNextPause(Current(s')) == ToNextPause(Current(s)) - if e == Returned then 0 else 1
  {
    if ControllerStep(s, e, s') {
      hide WorkerStep;
    } else {
      hide ControllerStep, WorkerStep;
      var i: nat :| i < |s.workers| && WorkerStep(s, i, e, s');
      SteppingWork(s, i, e, s');
    }
  }

  lemma SteppingWork(s: State, i: nat, e: Event, s': State)
    requires Inv(s) && i < |s.workers| && WorkerStep(s, i, e, s') && Stepping(s) && e != PausedNow && Current(s') != WDone
    ensures Stepping(s') && e != Returned && ToNextPause(Current(s')) == ToNextPause(Current(s)) - 1
  {
    WorkerKeeps(s, i, e, s');
  }

  lemma StepCalled(s: State, e: Event, s': State)
    requires Inv(s) && Step(s, e, s') && e == CallStep && s.st == Paused
    ensures Stepping(s') && Current(s') == WWait
  {
    assert ControllerStep(s, e, s');
  }

  /** step() on a paused simulation takes effect: unless the run is over or another call comes, the thread is
      paused again after exactly seven steps of its own; by OneStepBetweenPauses one of them is a time step. */
  lemma {:induction false} StepTakesEffect(r: seq<State>, ev: seq<Event>, i: nat, j: nat)
    requires Disciplined(r, ev) && i < j < |r| && ev[i] == CallStep && r[i].st == Paused
    requires forall k :: i < k < j ==> ev[k] == TimeStep || ev[k] == Quiet || ev[k] == Returned
    requires forall k :: i < k <= j ==> Current(r[k]) != WDone
    ensures Stepping(r[j]) && ToNextPause(Current(r[j])) == 7 - OwnSteps(ev, i + 1, j)
  {
    hide Step, Inv, Allowed, Stepping;
    RunInvariant(r, ev, j - 1);
    if i + 1 == j {
      StepCalled(r[i], ev[i], r[j]);
    } else {
      StepTakesEffect(r, ev, i, j - 1);
      SteppingStep(r[j - 1], ev[j - 1], r[j]);
    }
  }

  /** The thread, unless it waits to be resumed or is gone, can always take a step. */
  lemma ThreadGoesOn(s: State, i: nat) returns (e: Event, s': State)
    requires i < |s.workers| && s.workers[i] != WGone && (s.workers[i] == WWait ==> s.st != Paused)
    ensures WorkerStep(s, i, e, s') && (s.workers[i] == WLoop ==> e == TimeStep)
  {
    e := Quiet;
    match s.workers[i] {
      case WLoop => e, s' := TimeStep, SetWorker(s, i, WFirst).(count := s.count + 1);
      case WFirst => s' := SetWorker(s, i, WReadState).(st := if s.count == 1 then Running else s.st);
      case WReadState => s' := SetWorker(s, i, if s.st == Pausing then WPause else WReadSingle);
      case WReadSingle => s' := SetWorker(s, i, if s.single then WPause else WReadStop);
      case WPause => e, s' := PausedNow, SetWorker(s, i, WWait).(st := Paused);
      case WWait => s' := SetWorker(s, i, WReadStop).(st := if s.st == Resuming then Running else s.st);
      case WReadStop => s' := SetWorker(s, i, if s.st == Stopping then WStop else WLoop);
      case WStop => s' := SetWorker(s, i, WGone).(st := Stopped);
      case WDone => s' := SetWorker(s, i, WGone).(st := Done);
    }
  }

  // What has been reached when a call returns.

  /** When start() returns the simulation runs, with its thread at work; when stop() returns there is none. */
  lemma ReturnsReached(r: seq<State>, ev: seq<Event>, i: nat)
    requires Disciplined(r, ev) && i < |ev| && ev[i] == Returned
    ensures r[i].ctl == CStart ==> r[i + 1].st == Running && Current(r[i + 1]) != WGone && Current(r[i + 1]) != WWait
    ensures r[i].ctl == CStop ==> r[i + 1].st == Stopped && NoThread(r[i + 1].workers)
    ensures r[i].ctl == CStep ==> r[i + 1].st != Running
  {
    RunInvariant(r, ev, i);
    RunCounted(r, ev, i);
    assert Step(r[i], ev[i], r[i + 1]);
    ReturnIsController(r[i], r[i + 1]);
  }

  predicate NoThread(workers: seq<Worker>) { forall k :: 0 <= k < |workers| ==> workers[k] == WGone }

  lemma ReturnIsController(s: State, s': State)
    requires Step(s, Returned, s')
    ensures ControllerStep(s, Returned, s') && s'.workers == s.workers
  {}

  lemma NoThreadNoStep(s: State, e: Event, s': State)
    requires Inv(s) && Step(s, e, s') && s.st == Stopped && e != CallStart && e != CallStep
    ensures s'.st == Stopped && e != TimeStep
  {
    NoThreadWorks(s, e, s');
    hide WorkerStep;
  }

  lemma NoThreadWorks(s: State, e: Event, s': State)
    requires Inv(s) && s.st == Stopped
    ensures !exists i: nat :: i < |s.workers| && WorkerStep(s, i, e, s')
  {
    hide ControllerStep;
    forall i: nat | i < |s.workers| ensures s.workers[i] == WGone {}
  }

  /** After stop() has returned no time step runs until start() or step() is called. */
  lemma {:induction false} StillAfterStop(r: seq<State>, ev: seq<Event>, i: nat, j: nat)
    requires Disciplined(r, ev) && i < j < |r| && ev[i] == Returned && r[i].ctl == CStop
    requires forall k :: i < k < j ==> ev[k] != CallStart && ev[k] != CallStep
    ensures r[j].st == Stopped && forall k :: i <= k < j ==> ev[k] != TimeStep
  {
    if i + 1 == j {
      ReturnsReached(r, ev, i);
    } else {
      hide Step, Inv, Allowed, ControllerStep, WorkerStep;
      StillAfterStop(r, ev, i, j - 1);
      RunInvariant(r, ev, j - 1);
      NoThreadNoStep(r[j - 1], ev[j - 1], r[j]);
    }
  }

  // ---------------------------------------------------------------- where the discipline ends

  /** The states of disciplined runs. */
  ghost predicate Reached(s: State) { exists r: seq<State>, ev: seq<Event> :: Disciplined(r, ev) && r[|ev|] == s }

  lemma Extend(r: seq<State>, ev: seq<Event>, e: Event, s': State)
    requires Disciplined(r, ev) && Step(r[|ev|], e, s') && Allowed(r[|ev|], e)
    ensures Disciplined(r + [s'], ev + [e])
  {
    hide Step, Allowed, Initial;
    var r', ev' := r + [s'], ev + [e];
    forall i {:trigger ev'[i]} | 0 <= i < |ev'| ensures Step(r'[i], ev'[i], r'[i + 1]) && Allowed(r'[i], ev'[i]) {
      if i < |ev| { assert ev'[i] == ev[i]; }
    }
  }

  lemma ByController(s: State, e: Event, s': State)
    requires Reached(s) && ControllerStep(s, e, s') && Allowed(s, e)
    ensures Reached(s')
  {
    hide ControllerStep, Allowed;
    var r: seq<State>, ev: seq<Event> :| Disciplined(r, ev) && r[|ev|] == s;
    Extend(r, ev, e, s');
    RunLength(r, ev);
  }

  lemma ByWorker(s: State, e: Event, s': State)
    requires Reached(s) && |s.workers| == 1 && WorkerStep(s, 0, e, s') && e != CallStart
    ensures Reached(s')
  {
    hide WorkerStep;
    var r: seq<State>, ev: seq<Event> :| Disciplined(r, ev) && r[|ev|] == s;
    Extend(r, ev, e, s');
    RunLength(r, ev);
  }

  lemma RunLength(r: seq<State>, ev: seq<Event>)
    requires Disciplined(r, ev)
    ensures |r| == |ev| + 1
  {}

  lemma Begin() returns (s: State)
    ensures s == State(Stopped, false, CIdle, [], 0) && Reached(s)
  {
    s := State(Stopped, false, CIdle, [], 0);
    var r, ev := [s], [];
    assert Disciplined(r, ev);
  }

  /** The first time step of a simulation begun with step(). */
  lemma FirstSingleStep() returns (s: State)
    ensures s == State(Running, true, CIdle, [WReadState], 1) && Reached(s)
  {
    hide Reached;
    s := Begin();
    var s1 := State(Starting, true, CStep, [WLoop], 0);
    ByController(s, CallStep, s1);
    var s2 := s1.(ctl := CIdle);
    ByController(s1, Returned, s2);
    var s3 := State(Starting, true, CIdle, [WFirst], 1);
    ByWorker(s2, TimeStep, s3);
    s := State(Running, true, CIdle, [WReadState], 1);
    ByWorker(s3, Quiet, s);
  }

  /** A stop() called while single stepping but not paused is lost: the thread overwrites it with
      `paused` and waits, stop() waits for `stopped`, and nothing can happen any more. */
  lemma StopLost() returns (s: State)
    ensures Reached(s) && s.ctl == CStop && s.st == Paused && forall e, s' :: !Step(s, e, s')
  {
    hide Reached;
    s := FirstSingleStep();
    var s1 := State(Stopping, true, CStop, [WReadState], 1);
    ByController(s, CallStop, s1);
    var s2 := s1.(workers := [WReadSingle]);
    ByWorker(s1, Quiet, s2);
    var s3 := s1.(workers := [WPause]);
    ByWorker(s2, Quiet, s3);
    s := State(Paused, true, CStop, [WWait], 1);
    ByWorker(s3, PausedNow, s);
  }

  /** start() called right after step(), before the thread has taken notice, begins a second thread
      beside the first. */
  lemma SecondThread() returns (s: State, s': State)
    ensures Reached(s) && s.st == Resuming && Step(s, CallStart, s') && s'.workers == [WWait, WLoop]
  {
    hide Reached;
    var s0 := FirstSingleStep();
    var s1 := s0.(workers := [WReadSingle]);
    ByWorker(s0, Quiet, s1);
    var s2 := s0.(workers := [WPause]);
    ByWorker(s1, Quiet, s2);
    var s3 := State(Paused, true, CIdle, [WWait], 1);
    ByWorker(s2, PausedNow, s3);
    var s4 := s3.(st := Resuming, ctl := CStep);
    ByController(s3, CallStep, s4);
    s := s4.(ctl := CIdle);
    ByController(s4, Returned, s);
    s' := State(Starting, false, CStart, [WWait, WLoop], 1);
    assert ControllerStep(s, CallStart, s');
  }

  /** step() on a running simulation raises an error, and yet makes it pause, because the flag is set first. */
  lemma RefusedStepPauses() returns (s: State, a: State, b: State, s': State)
    ensures Reached(s) && s.st == Running && !s.single && s.ctl == CIdle
    ensures Step(s, Raised(CStep), a) && Step(a, Quiet, b) && Step(b, PausedNow, s') && s'.st == Paused
  {
    hide Reached;
    var s0 := Begin();
    var s1 := State(Starting, false, CStart, [WLoop], 0);
    ByController(s0, CallStart, s1);
    var s2 := State(Starting, false, CStart, [WFirst], 1);
    ByWorker(s1, TimeStep, s2);
    var s3 := State(Running, false, CStart, [WReadState], 1);
    ByWorker(s2, Quiet, s3);
    var s4 := s3.(ctl := CIdle);
    ByController(s3, Returned, s4);
    s := s4.(workers := [WReadSingle]);
    ByWorker(s4, Quiet, s);
    a := s.(single := true);
    assert ControllerStep(s, Raised(CStep), a);
    b := a.(workers := [WPause]);
    assert WorkerStep(a, 0, Quiet, b);
    s' := b.(st := Paused, workers := [WWait]);
    assert WorkerStep(b, 0, PausedNow, s');
  }
}
