/**
 * The door state machine ("door" state handler): the door lock of the
 * process chamber.
 *
 * Output 1 of the digital output module 114KF24 releases the lock. The
 * door is closed when inputs 3 and 4 of the safety input module 115KF51
 * are both high; input 1 of the input module 113KF20 is the release
 * button. A release holds for 10 s through the off-delay timer
 * fbDelayUnlockDoor. The PC can send the signals "releasedoor" and
 * "lockdoor" (the latter with a bool parameter "doorstate").
 *
 * Each state's Execute is modelled by a function from the cycle's inputs
 * and the door's data (the output module's image and the timer) to the
 * setNextState requests it makes, the new data and the signals it
 * finishes; the class CDoor carries the same steps as methods that update
 * the output module and the timer in place.
 */
module Door {
  import opened Wrappers
  import opened Bytes
  import opened Framework
  import opened Application
  import X20DO6322

  const INIT: string := "init"
  const LOCKED_WAITFORRELEASE: string := "locked_waitforrelease"
  const LOCKED_CLOSED: string := "locked_closed"
  const UNLOCKED_CLOSED: string := "unlocked_closed"
  const UNLOCKED_OPEN: string := "unlocked_open"

  /** The states CDoorStateHandler adds. */
  const DOOR_STATES: set<string> := {INIT, LOCKED_WAITFORRELEASE, UNLOCKED_OPEN, UNLOCKED_CLOSED, LOCKED_CLOSED}

  const RELEASE_DOOR_SIGNAL: string := "releasedoor"
  const LOCK_DOOR_SIGNAL: string := "lockdoor"

  /** The output channel that releases the lock, and how long a release holds. */
  const RELEASE_CHANNEL: uint32 := 1
  const RELEASE_HOLD_MS: int := 10000

  /** The off-delay timer block (TOF): input IN, preset time PT, output Q. */
  datatype Timer = Timer(input: bool, preset: int, output: bool)

  /**
   * One call of the off-delay timer: Q rises with IN at once and falls
   * once PT has run out after IN fell. The clock is outside the model:
   * `expired` says whether PT has run out since IN last fell.
   */
  function Tof(t: Timer, expired: bool): (r: Timer)
    ensures r.input == t.input && r.preset == t.preset
    ensures t.input ==> r.output
    ensures !t.output ==> r.output == t.input
    ensures !t.input && expired ==> !r.output
  {
    t.(output := t.input || (t.output && !expired))
  }

  /** What the door's states read in one cycle. */
  datatype DoorInputs = DoorInputs(
    releaseButton: bool,         // input 1 of 113KF20
    contact3: bool,              // input 3 of 115KF51
    contact4: bool,              // input 4 of 115KF51
    releaseSignal: bool,         // checkSignal("releasedoor") returned a signal
    lockSignal: Option<bool>,    // checkSignal("lockdoor") returned a signal, with its doorstate
    delayExpired: bool)          // the release hold time has run out

  predicate Closed(i: DoorInputs)
  {
    i.contact3 && i.contact4
  }

  /** The door's data outside the state handler: the image of 114KF24 and the timer. */
  datatype DoorData = DoorData(outputs: X20DO6322.Mapping, timer: Timer)

  /** Whether the lock is released (output 1 is on). */
  predicate Released(d: DoorData)
  {
    d.outputs.digitalOutputs[RELEASE_CHANNEL - 1]
  }

  /** setOutput(1, v) on the door's output module. */
  function SetRelease(d: DoorData, v: bool): (r: DoorData)
    ensures Released(r) == v && r.timer == d.timer
  {
    d.(outputs := X20DO6322.WithOutput(d.outputs, RELEASE_CHANNEL, v).value)
  }

  /** What one Execute did: the setNextState requests in order, the new data and the finished signals. */
  datatype DoorCycle = DoorCycle(requests: seq<string>, data: DoorData, finished: seq<string>)

  /** init: forces the release off and waits for the door to be closed. */
  function InitStep(i: DoorInputs, d: DoorData): DoorCycle
  {
    DoorCycle([if Closed(i) then LOCKED_WAITFORRELEASE else INIT], SetRelease(d, false), [])
  }

  /**
   * locked_waitforrelease: the button or a releasedoor signal releases the
   * lock for RELEASE_HOLD_MS; otherwise a lockdoor signal moves to
   * locked_closed when its doorstate is set.
   */
  function LockedWaitForReleaseStep(i: DoorInputs, d: DoorData): DoorCycle
  {
    if i.releaseButton || i.releaseSignal then
      var released := SetRelease(d, true);
      var timer := Tof(Timer(true, RELEASE_HOLD_MS, d.timer.output), i.delayExpired);
      DoorCycle([UNLOCKED_CLOSED], released.(timer := timer), if i.releaseSignal then [RELEASE_DOOR_SIGNAL] else [])
    else if i.lockSignal.Some? then
      DoorCycle([if i.lockSignal.value then LOCKED_CLOSED else LOCKED_WAITFORRELEASE], d, [LOCK_DOOR_SIGNAL])
    else
      DoorCycle([LOCKED_WAITFORRELEASE], d, [])
  }

  /** locked_closed: a lockdoor signal without doorstate returns to locked_waitforrelease. */
  function LockedClosedStep(i: DoorInputs, d: DoorData): DoorCycle
  {
    if i.lockSignal.Some? then
      DoorCycle([if !i.lockSignal.value then LOCKED_WAITFORRELEASE else LOCKED_CLOSED], d, [LOCK_DOOR_SIGNAL])
    else
      DoorCycle([LOCKED_CLOSED], d, [])
  }

  /**
   * unlocked_closed: an opened door moves to unlocked_open; a closed door
   * stays released while the timer holds and locks once it has run out.
   */
  function UnlockedClosedStep(i: DoorInputs, d: DoorData): DoorCycle
  {
    var t := d.timer.(input := false);
    if !i.contact3 then
      DoorCycle([UNLOCKED_OPEN], d.(timer := Tof(t, i.delayExpired)), [])
    else if t.output then
      DoorCycle([UNLOCKED_CLOSED], SetRelease(d, true).(timer := Tof(t, i.delayExpired)), [])
    else
      DoorCycle([LOCKED_WAITFORRELEASE], SetRelease(d, false).(timer := Tof(t, i.delayExpired)), [])
  }

  /**
   * unlocked_open as written: the release follows the timer, and a closed
   * door moves to locked_waitforrelease with the release as the timer left it.
   */
  function UnlockedOpenStepAsWritten(i: DoorInputs, d: DoorData): DoorCycle
  {
    var released := SetRelease(d, d.timer.output);
    var requests := [UNLOCKED_OPEN] + [if Closed(i) then LOCKED_WAITFORRELEASE else UNLOCKED_OPEN];
    DoorCycle(requests, released.(timer := Tof(released.timer, i.delayExpired)), [])
  }

  /**
   * unlocked_open, corrected: as written, except that closing the door
   * switches the release off on the way to locked_waitforrelease, as
   * unlocked_closed does when it locks.
   */
  function UnlockedOpenStep(i: DoorInputs, d: DoorData): DoorCycle
  {
    var released := SetRelease(d, d.timer.output && !Closed(i));
    var requests := [UNLOCKED_OPEN] + [if Closed(i) then LOCKED_WAITFORRELEASE else UNLOCKED_OPEN];
    DoorCycle(requests, released.(timer := Tof(released.timer, i.delayExpired)), [])
  }

  /** The Execute of the state named s. */
  function DoorStep(s: string, i: DoorInputs, d: DoorData): DoorCycle
    requires s in DOOR_STATES
  {
    if s == INIT then InitStep(i, d)
    else if s == LOCKED_WAITFORRELEASE then LockedWaitForReleaseStep(i, d)
    else if s == LOCKED_CLOSED then LockedClosedStep(i, d)
    else if s == UNLOCKED_CLOSED then UnlockedClosedStep(i, d)
    else UnlockedOpenStep(i, d)
  }

  /** The state the handler moves to: the last request. */
  function NextOf(c: DoorCycle): string
    requires c.requests != []
  {
    c.requests[|c.requests| - 1]
  }

  // ---------------------------------------------------------------------
  // What the states promise
  // ---------------------------------------------------------------------

  /** init switches the release off; a closed door moves to locked_waitforrelease, an open one stays. */
  lemma InitMeans(i: DoorInputs, d: DoorData)
    ensures !Released(InitStep(i, d).data)
    ensures NextOf(InitStep(i, d)) == if Closed(i) then LOCKED_WAITFORRELEASE else INIT
  {
  }

  /**
   * In locked_waitforrelease the button or a releasedoor signal releases
   * the lock, starts the 10000 ms hold and moves to unlocked_closed, and
   * the signal, when there is one, is finished.
   */
  lemma ReleaseMeans(i: DoorInputs, d: DoorData)
    requires i.releaseButton || i.releaseSignal
    ensures var c := LockedWaitForReleaseStep(i, d);
      && NextOf(c) == UNLOCKED_CLOSED && Released(c.data)
      && c.data.timer.input && c.data.timer.preset == RELEASE_HOLD_MS && c.data.timer.output
      && (RELEASE_DOOR_SIGNAL in c.finished <==> i.releaseSignal)
  {
  }

  /**
   * lockdoor with doorstate moves to locked_closed from either locked
   * state when no release is asked for; without doorstate it moves
   * locked_closed back to locked_waitforrelease. The signal is finished and
   * the outputs are untouched.
   */
  lemma LockDoorMeans(i: DoorInputs, d: DoorData)
    requires i.lockSignal.Some?
    ensures var c := LockedClosedStep(i, d);
      && NextOf(c) == (if i.lockSignal.value then LOCKED_CLOSED else LOCKED_WAITFORRELEASE)
      && c.data == d && c.finished == [LOCK_DOOR_SIGNAL]
    ensures !i.releaseButton && !i.releaseSignal ==>
      var c := LockedWaitForReleaseStep(i, d);
      && NextOf(c) == (if i.lockSignal.value then LOCKED_CLOSED else LOCKED_WAITFORRELEASE)
      && c.data == d && c.finished == [LOCK_DOOR_SIGNAL]
  {
  }

  /**
   * unlocked_closed: contact 3 open moves to unlocked_open; otherwise the
   * release stays on while the timer's Q holds and goes off, moving to
   * locked_waitforrelease, once Q has dropped.
   */
  lemma UnlockedClosedMeans(i: DoorInputs, d: DoorData)
    ensures var c := UnlockedClosedStep(i, d);
      && (!i.contact3 ==> NextOf(c) == UNLOCKED_OPEN && c.data.outputs == d.outputs)
      && (i.contact3 && d.timer.output ==> NextOf(c) == UNLOCKED_CLOSED && Released(c.data))
      && (i.contact3 && !d.timer.output ==> NextOf(c) == LOCKED_WAITFORRELEASE && !Released(c.data))
      && !c.data.timer.input
  {
  }

  /** unlocked_open: a closed door (both contacts) moves to locked_waitforrelease, an open one stays. */
  lemma UnlockedOpenMeans(i: DoorInputs, d: DoorData)
    ensures NextOf(UnlockedOpenStep(i, d)) == if Closed(i) then LOCKED_WAITFORRELEASE else UNLOCKED_OPEN
    ensures Released(UnlockedOpenStep(i, d).data) <==> d.timer.output && !Closed(i)
  {
  }

  /** Every state requests at least one next state, and only states of the door. */
  lemma DoorStepRequestsStates(s: string, i: DoorInputs, d: DoorData)
    requires s in DOOR_STATES
    ensures DoorStep(s, i, d).requests != []
    ensures forall k :: 0 <= k < |DoorStep(s, i, d).requests| ==> DoorStep(s, i, d).requests[k] in DOOR_STATES
  {
  }

  /**
   * So the state handler's step never fails on the door: it moves to the
   * state the Execute named last.
   */
  lemma DoorTableStep(t: StateTable, i: DoorInputs, d: DoorData)
    requires t.states == DOOR_STATES && t.current.Some? && t.current.value in DOOR_STATES
    ensures var c := DoorStep(t.current.value, i, d);
      StepTable(t, Executed(c.requests)) == Ok(StateTable(DOOR_STATES, Some(NextOf(c))))
  {
    DoorStepRequestsStates(t.current.value, i, d);
    StepTableMeans(t, Executed(DoorStep(t.current.value, i, d).requests));
  }

  /** The locked states, and the state before the door was first found closed. */
  predicate Locked(s: string)
  {
    s == INIT || s == LOCKED_WAITFORRELEASE || s == LOCKED_CLOSED
  }

  /**
   * A door that is in a locked state after a cycle has its release off,
   * whatever state it came from, provided a locked state it came from had
   * the release off too.
   */
  lemma {:induction false} LockedMeansReleaseOff(s: string, i: DoorInputs, d: DoorData)
    requires s in DOOR_STATES
    requires Locked(s) ==> !Released(d)
    ensures Locked(NextOf(DoorStep(s, i, d))) ==> !Released(DoorStep(s, i, d).data)
  {
    var c := DoorStep(s, i, d);
    if s == LOCKED_WAITFORRELEASE {
      if !(i.releaseButton || i.releaseSignal) {
        assert c.data == d;
      }
    } else if s == LOCKED_CLOSED {
      assert c.data == d;
    } else if s == UNLOCKED_CLOSED {
      UnlockedClosedMeans(i, d);
    } else if s == UNLOCKED_OPEN {
      UnlockedOpenMeans(i, d);
    }
  }

  /**
   * As written, unlocked_open breaks that: a door closed while the hold
   * timer is still on reaches locked_waitforrelease with the release on, and
   * no later locked state switches it off.
   */
  lemma UnlockedOpenAsWrittenLeavesReleaseOn(d: DoorData)
    requires d.timer.output
    ensures var i := DoorInputs(false, true, true, false, None, false);
      var c := UnlockedOpenStepAsWritten(i, d);
      NextOf(c) == LOCKED_WAITFORRELEASE && Released(c.data)
  {
  }

  // ---------------------------------------------------------------------
  // The states as methods on the door's objects
  // ---------------------------------------------------------------------

  class CDoor {
    /** The digital output module 114KF24. */
    const outputs: X20DO6322.CIOModuleX20DO6322
    /** The global timer block fbDelayUnlockDoor. */
    var timer: Timer

    function Data(): DoorData
      reads this, outputs
    {
      DoorData(outputs.mapping, timer)
    }

    /** The timer block starts zeroed, as a global does. */
    constructor (outputs: X20DO6322.CIOModuleX20DO6322)
      ensures this.outputs == outputs && timer == Timer(false, 0, false)
    {
      this.outputs := outputs;
      timer := Timer(false, 0, false);
    }

    method Init(i: DoorInputs) returns (e: Execution, finished: seq<string>)
      modifies this, outputs
      ensures e.Executed? && DoorCycle(e.requests, Data(), finished) == InitStep(i, old(Data()))
    {
      var _ := outputs.SetOutput(RELEASE_CHANNEL, false);
      var next := if Closed(i) then LOCKED_WAITFORRELEASE else INIT;
      return Executed([next]), [];
    }

    method LockedWaitForRelease(i: DoorInputs) returns (e: Execution, finished: seq<string>)
      modifies this, outputs
      ensures e.Executed? && DoorCycle(e.requests, Data(), finished) == LockedWaitForReleaseStep(i, old(Data()))
    {
      finished := [];
      if i.releaseButton || i.releaseSignal {
        e := Executed([UNLOCKED_CLOSED]);
        var _ := outputs.SetOutput(RELEASE_CHANNEL, true);
        timer := timer.(input := true);
        timer := timer.(preset := RELEASE_HOLD_MS);
        timer := Tof(timer, i.delayExpired);
        if i.releaseSignal {
          finished := [RELEASE_DOOR_SIGNAL];
        }
      } else if i.lockSignal.Some? {
        if i.lockSignal.value {
          e := Executed([LOCKED_CLOSED]);
        } else {
          e := Executed([LOCKED_WAITFORRELEASE]);
        }
        finished := [LOCK_DOOR_SIGNAL];
      } else {
        e := Executed([LOCKED_WAITFORRELEASE]);
      }
    }

    method LockedClosed(i: DoorInputs) returns (e: Execution, finished: seq<string>)
      modifies this, outputs
      ensures e.Executed? && DoorCycle(e.requests, Data(), finished) == LockedClosedStep(i, old(Data()))
    {
      if i.lockSignal.Some? {
        if !i.lockSignal.value {
          e := Executed([LOCKED_WAITFORRELEASE]);
        } else {
          e := Executed([LOCKED_CLOSED]);
        }
        finished := [LOCK_DOOR_SIGNAL];
      } else {
        e := Executed([LOCKED_CLOSED]);
        finished := [];
      }
    }

    method UnlockedClosed(i: DoorInputs) returns (e: Execution, finished: seq<string>)
      modifies this, outputs
      ensures e.Executed? && DoorCycle(e.requests, Data(), finished) == UnlockedClosedStep(i, old(Data()))
    {
      timer := timer.(input := false);
      if !i.contact3 {
        e := Executed([UNLOCKED_OPEN]);
      } else if timer.output {
        var _ := outputs.SetOutput(RELEASE_CHANNEL, true);
        e := Executed([UNLOCKED_CLOSED]);
      } else {
        var _ := outputs.SetOutput(RELEASE_CHANNEL, false);
        e := Executed([LOCKED_WAITFORRELEASE]);
      }
      timer := Tof(timer, i.delayExpired);
      finished := [];
    }

    /** unlocked_open, with the release switched off when the door closes. */
    method UnlockedOpen(i: DoorInputs) returns (e: Execution, finished: seq<string>)
      modifies this, outputs
      ensures e.Executed? && DoorCycle(e.requests, Data(), finished) == UnlockedOpenStep(i, old(Data()))
    {
      var requests := [];
      if timer.output {
        var _ := outputs.SetOutput(RELEASE_CHANNEL, true);
        requests := requests + [UNLOCKED_OPEN];
      } else {
        var _ := outputs.SetOutput(RELEASE_CHANNEL, false);
        requests := requests + [UNLOCKED_OPEN];
      }
      if Closed(i) {
        var _ := outputs.SetOutput(RELEASE_CHANNEL, false);
        requests := requests + [LOCKED_WAITFORRELEASE];
      } else {
        requests := requests + [UNLOCKED_OPEN];
      }
      timer := Tof(timer, i.delayExpired);
      return Executed(requests), [];
    }
  }
}
