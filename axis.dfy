/**
 * The single-axis wrapper around mapp Motion's MpAxisBasic function block
 * (MappMotion_SingleAxis.cpp): the wrapper's own state machine, the
 * command flags and parameters it writes into the function block, and the
 * guards of its power, reference and move requests.
 *
 * The function block itself is foreign: each cycle's MpAxisBasic call is
 * given as the outputs it leaves behind (`FbOutputs`), and
 * DiagCpuIsSimulated() as a boolean. Speeds, accelerations and positions
 * are reals; the rounding of a double to the function block's float
 * parameters is not modelled.
 */
module Axis {
  import opened Wrappers

  /** eMappMotion_SingleAxisState (MappMotion_SingleAxis.hpp). */
  datatype AxisState =
    | Unknown
    | Idle
    | SettingPowerOn
    | SettingPowerOff
    | Referencing
    | InitAbsoluteMovement
    | InitRelativeMovement
    | InitVelocityMovement
    | WaitingForMovement
    | SettingPowerOnToReference
    | Error

  /** eMappMotion_SingleAxisType: which subclass the axis is. */
  datatype AxisType = LinearAxis | RotationalAxis

  /** McHomingModeEnum, as far as the wrapper names its values. */
  datatype HomingMode = HomingDefault | HomingDirect | OtherHomingMode(code: int)

  /** mcAXIS_STANDSTILL, the PLCopen state of an axis at rest (McAxisPLCopenStateEnum of mapp Motion). */
  const MC_AXIS_STANDSTILL: int := 1

  /** The speed and acceleration limits both axis types start with: the float literals 0.001f and 1000000.0f, exactly. */
  const MIN_SPEED: real := 0.001000000047497451305389404296875
  const MAX_SPEED: real := 1000000.0
  const MIN_ACCELERATION: real := 0.001000000047497451305389404296875
  const MAX_ACCELERATION: real := 1000000.0

  /** The outputs MpAxisBasic leaves in the function block after a call. */
  datatype FbOutputs = FbOutputs(
    plcOpenState: int,
    error: bool,
    readyToPowerOn: bool,
    powerOn: bool,
    isHomed: bool,
    moveActive: bool,
    inPosition: bool,
    position: real,
    velocity: real)

  /** The command inputs of the function block the wrapper sets. */
  datatype FbCommands = FbCommands(
    power: bool,
    home: bool,
    errorReset: bool,
    moveAbsolute: bool,
    moveAdditive: bool,
    moveVelocity: bool)

  /** MpAxisBasicParType, the fields the wrapper writes; `homingMode` is None while it still holds the zeroed value. */
  datatype AxisParameters = AxisParameters(
    velocity: real,
    acceleration: real,
    deceleration: real,
    position: real,
    distance: real,
    homingMode: Option<HomingMode>)

  /** The m_d...ToSet members of one unit (millimetres or degrees): the move the next cycle hands to the function block. */
  datatype MoveSetpoint = MoveSetpoint(speed: real, acceleration: real, target: real, distance: real)

  /** Every member of the wrapper that its methods change, as one value. */
  datatype AxisData = AxisData(
    state: AxisState,
    homingMode: HomingMode,
    commands: FbCommands,
    outputs: FbOutputs,
    parameters: AxisParameters,
    linear: MoveSetpoint,
    rotational: MoveSetpoint)

  /** The three kinds of move an axis accepts. */
  datatype MoveKind = Absolute(target: real) | Relative(distance: real) | Velocity

  // ---------------------------------------------------------------------
  // The wrapper's logic, as functions of its data
  // ---------------------------------------------------------------------

  /** canReference: idle, powered and at standstill. */
  predicate CanReference(a: AxisData)
  {
    a.state == Idle && a.outputs.powerOn && a.outputs.plcOpenState == MC_AXIS_STANDSTILL
  }

  /** canMoveAxis: idle, powered, referenced and at standstill. */
  predicate CanMoveAxis(a: AxisData)
  {
    a.state == Idle && a.outputs.powerOn && a.outputs.isHomed && a.outputs.plcOpenState == MC_AXIS_STANDSTILL
  }

  /** setPower: powering on needs ReadyToPowerOn, powering off needs an idle axis. */
  function SetPowerStep(a: AxisData, on: bool): Result<AxisData>
  {
    if on then
      if a.outputs.readyToPowerOn then Ok(a.(commands := a.commands.(power := true), state := SettingPowerOn))
      else Err(CouldNotPowerAxis)
    else
      if a.state == Idle then Ok(a.(commands := a.commands.(power := false), state := SettingPowerOff))
      else Err(CouldNotPowerAxis)
  }

  /** The homing mode handed to the function block: forced to direct homing on a simulated CPU. */
  function EffectiveHoming(a: AxisData, simulated: bool): HomingMode
  {
    if simulated then HomingDirect else a.homingMode
  }

  /** The reference start shared by startReference and the powered-on branch of SETTINGPOWERON_TO_REFERENCE. */
  function BeginHoming(a: AxisData, simulated: bool): AxisData
  {
    var mode := EffectiveHoming(a, simulated);
    a.(homingMode := mode, parameters := a.parameters.(homingMode := Some(mode)),
       commands := a.commands.(home := true), state := Referencing)
  }

  /** startReference: refused unless canReference. */
  function StartReferenceStep(a: AxisData, simulated: bool): Result<AxisData>
  {
    if CanReference(a) then Ok(BeginHoming(a, simulated)) else Err(CouldNotReferenceAxis)
  }

  /** setPowerOnAndStartReference: refused unless ReadyToPowerOn. */
  function PowerOnToReferenceStep(a: AxisData): Result<AxisData>
  {
    if a.outputs.readyToPowerOn then Ok(a.(commands := a.commands.(power := true), state := SettingPowerOnToReference))
    else Err(CouldNotPowerAxis)
  }

  /** resetError: on a function block in error, power off and ask for a reset; otherwise power on again. */
  function ResetErrorStep(a: AxisData): AxisData
  {
    if a.outputs.error then a.(commands := a.commands.(power := false, errorReset := true))
    else a.(commands := a.commands.(errorReset := false, power := true), state := SettingPowerOn)
  }

  /** moveAxisReset and the end of a move: all three move commands withdrawn. */
  function ClearMoves(c: FbCommands): FbCommands
  {
    c.(moveVelocity := false, moveAbsolute := false, moveAdditive := false)
  }

  /** The state a move request leads to. */
  function InitState(kind: MoveKind): AxisState
  {
    match kind
    case Absolute(_) => InitAbsoluteMovement
    case Relative(_) => InitRelativeMovement
    case Velocity => InitVelocityMovement
  }

  /** The setpoint of a move request: the target or distance of the kind, the others kept. */
  function Requested(s: MoveSetpoint, kind: MoveKind, speed: real, acceleration: real): MoveSetpoint
  {
    match kind
    case Absolute(target) => s.(target := target, speed := speed, acceleration := acceleration)
    case Relative(distance) => s.(distance := distance, speed := speed, acceleration := acceleration)
    case Velocity => s.(speed := speed, acceleration := acceleration)
  }

  /**
   * moveAxisAbsolute, moveAxisRelative and moveAxisVelocity of either
   * subclass: speed checked first, then acceleration, then the idle state,
   * then canMoveAxis; the request is stored in the unit of the axis type.
   */
  function MoveStep(a: AxisData, t: AxisType, kind: MoveKind, speed: real, acceleration: real): Result<AxisData>
  {
    if speed < MIN_SPEED || speed > MAX_SPEED then Err(InvalidSpeedValue)
    else if acceleration < MIN_ACCELERATION || acceleration > MAX_ACCELERATION then Err(InvalidAccelerationValue)
    else if a.state != Idle then Err(CouldNotMoveAxis)
    else if !CanMoveAxis(a) then Err(CouldNotMoveAxis)
    else if t == LinearAxis then Ok(a.(linear := Requested(a.linear, kind, speed, acceleration), state := InitState(kind)))
    else Ok(a.(rotational := Requested(a.rotational, kind, speed, acceleration), state := InitState(kind)))
  }

  /** The setpoint of the axis type. */
  function Setpoint(a: AxisData, t: AxisType): MoveSetpoint
  {
    if t == LinearAxis then a.linear else a.rotational
  }

  /** The INIT...MOVEMENT states handing the stored move to the function block. */
  function StartMove(a: AxisData, t: AxisType): AxisData
    requires a.state == InitAbsoluteMovement || a.state == InitRelativeMovement || a.state == InitVelocityMovement
  {
    var s := Setpoint(a, t);
    var p := a.parameters.(velocity := s.speed, acceleration := s.acceleration, deceleration := s.acceleration);
    match a.state
    case InitAbsoluteMovement =>
      a.(parameters := p.(position := s.target), commands := a.commands.(moveAbsolute := true), state := WaitingForMovement)
    case InitRelativeMovement =>
      a.(parameters := p.(distance := s.distance), commands := a.commands.(moveAdditive := true), state := WaitingForMovement)
    case InitVelocityMovement =>
      a.(parameters := p, commands := a.commands.(moveVelocity := true), state := WaitingForMovement)
  }

  /** handleCyclic after the MpAxisBasic call that left `o`: one step of the wrapper's state machine. */
  function CycleStep(a: AxisData, t: AxisType, o: FbOutputs, simulated: bool): AxisData
  {
    var b := a.(outputs := o);
    match a.state
    case SettingPowerOn =>
      var s := if o.powerOn then Idle else b.state;
      b.(state := if o.error then Error else s)
    case SettingPowerOnToReference =>
      var c := if !o.powerOn then b else if o.plcOpenState == MC_AXIS_STANDSTILL then BeginHoming(b, simulated) else b.(state := Error);
      if o.error then c.(state := Error) else c
    case SettingPowerOff =>
      var s := if !o.powerOn then Idle else b.state;
      b.(state := if o.error then Error else s)
    case Referencing =>
      var c := if o.isHomed then b.(commands := b.commands.(home := false), state := Idle) else b;
      if o.error then c.(commands := c.commands.(home := false), state := Error) else c
    case InitAbsoluteMovement =>
      if o.error then b.(state := Error) else StartMove(b, t)
    case InitRelativeMovement =>
      if o.error then b.(state := Error) else StartMove(b, t)
    case InitVelocityMovement =>
      if o.error then b.(state := Error) else StartMove(b, t)
    case WaitingForMovement =>
      var c := if o.inPosition then b.(commands := ClearMoves(b.commands), state := Idle) else b;
      if o.error then c.(commands := ClearMoves(c.commands), state := Error) else c
    case _ => b
  }

  // ---------------------------------------------------------------------
  // What the logic promises
  // ---------------------------------------------------------------------

  /** Moving needs everything referencing needs, and a referenced axis. */
  lemma CanMoveMeans(a: AxisData)
    ensures CanMoveAxis(a) <==> CanReference(a) && a.outputs.isHomed
    ensures CanReference(a) <==> a.state == Idle && a.outputs.powerOn && a.outputs.plcOpenState == MC_AXIS_STANDSTILL
  {
  }

  /** setPower on succeeds exactly when the block is ready to power on, off exactly when the axis is idle; both set the power command. */
  lemma SetPowerMeans(a: AxisData, on: bool)
    ensures SetPowerStep(a, on).Ok? <==> (if on then a.outputs.readyToPowerOn else a.state == Idle)
    ensures SetPowerStep(a, on).Err? ==> SetPowerStep(a, on) == Err(CouldNotPowerAxis)
    ensures SetPowerStep(a, on).Ok? ==>
              var b := SetPowerStep(a, on).value;
              b.commands.power == on && b.state == (if on then SettingPowerOn else SettingPowerOff)
              && b.outputs == a.outputs && b.parameters == a.parameters && b.homingMode == a.homingMode
  {
  }

  /**
   * startReference succeeds exactly on an idle, powered axis at standstill;
   * it then homes in the wrapper's mode, or in direct mode on a simulated
   * CPU, and leaves power and move commands as they were.
   */
  lemma StartReferenceMeans(a: AxisData, simulated: bool)
    ensures StartReferenceStep(a, simulated).Ok? <==>
              a.state == Idle && a.outputs.powerOn && a.outputs.plcOpenState == MC_AXIS_STANDSTILL
    ensures StartReferenceStep(a, simulated).Err? ==> StartReferenceStep(a, simulated) == Err(CouldNotReferenceAxis)
    ensures StartReferenceStep(a, simulated).Ok? ==>
              var b := StartReferenceStep(a, simulated).value;
              b.state == Referencing && b.commands == a.commands.(home := true)
              && b.homingMode == (if simulated then HomingDirect else a.homingMode)
              && b.parameters.homingMode == Some(b.homingMode) && b.outputs == a.outputs
  {
  }

  /** setPowerOnAndStartReference succeeds exactly when the block is ready to power on, and then sets the power command. */
  lemma PowerOnToReferenceMeans(a: AxisData)
    ensures PowerOnToReferenceStep(a).Ok? <==> a.outputs.readyToPowerOn
    ensures PowerOnToReferenceStep(a).Err? ==> PowerOnToReferenceStep(a) == Err(CouldNotPowerAxis)
    ensures PowerOnToReferenceStep(a).Ok? ==>
              PowerOnToReferenceStep(a).value == a.(commands := a.commands.(power := true), state := SettingPowerOnToReference)
  {
  }

  /**
   * A move request is accepted exactly when speed and acceleration are in
   * range and the axis can move; the errors come in the source's order;
   * an accepted request stores the setpoint and touches nothing else.
   */
  lemma MoveStepMeans(a: AxisData, t: AxisType, kind: MoveKind, speed: real, acceleration: real)
    ensures var r := MoveStep(a, t, kind, speed, acceleration);
            (r.Ok? <==> MIN_SPEED <= speed <= MAX_SPEED && MIN_ACCELERATION <= acceleration <= MAX_ACCELERATION && CanMoveAxis(a))
            && (!(MIN_SPEED <= speed <= MAX_SPEED) ==> r == Err(InvalidSpeedValue))
            && (MIN_SPEED <= speed <= MAX_SPEED && !(MIN_ACCELERATION <= acceleration <= MAX_ACCELERATION) ==>
                  r == Err(InvalidAccelerationValue))
            && (MIN_SPEED <= speed <= MAX_SPEED && MIN_ACCELERATION <= acceleration <= MAX_ACCELERATION && !CanMoveAxis(a) ==>
                  r == Err(CouldNotMoveAxis))
            && (r.Ok? ==> r.value.state == InitState(kind)
                          && Setpoint(r.value, t).speed == speed && Setpoint(r.value, t).acceleration == acceleration
                          && (kind.Absolute? ==> Setpoint(r.value, t).target == kind.target)
                          && (kind.Relative? ==> Setpoint(r.value, t).distance == kind.distance)
                          && r.value.commands == a.commands && r.value.parameters == a.parameters
                          && r.value.outputs == a.outputs
                          && (t == LinearAxis ==> r.value.rotational == a.rotational)
                          && (t == RotationalAxis ==> r.value.linear == a.linear))
  {
  }

  /** handleCyclic leaves IDLE, ERROR and UNKNOWN alone: it only takes over the function block's outputs. */
  lemma CycleKeepsSteadyStates(a: AxisData, t: AxisType, o: FbOutputs, simulated: bool)
    requires a.state == Idle || a.state == Error || a.state == Unknown
    ensures CycleStep(a, t, o, simulated) == a.(outputs := o)
  {
  }

  /** Out of a state that waits on the function block, an error of the block always wins and gives ERROR. */
  lemma CycleErrorWins(a: AxisData, t: AxisType, o: FbOutputs, simulated: bool)
    requires a.state != Idle && a.state != Error && a.state != Unknown && o.error
    ensures CycleStep(a, t, o, simulated).state == Error
    ensures CycleStep(a, t, o, simulated).outputs == o
  {
  }

  /** Without an error of the block, ERROR is reached only by a powered axis that is not at standstill when it should start homing. */
  lemma CycleErrorCauses(a: AxisData, t: AxisType, o: FbOutputs, simulated: bool)
    requires a.state != Error && CycleStep(a, t, o, simulated).state == Error
    ensures o.error || (a.state == SettingPowerOnToReference && o.powerOn && o.plcOpenState != MC_AXIS_STANDSTILL)
  {
  }

  /** WAITINGFORMOVEMENT: in position gives IDLE with the move commands withdrawn; an error gives ERROR, also withdrawing them. */
  lemma WaitingForMovementCycle(a: AxisData, t: AxisType, o: FbOutputs, simulated: bool)
    requires a.state == WaitingForMovement
    ensures var b := CycleStep(a, t, o, simulated);
            (o.error ==> b.state == Error && b.commands == ClearMoves(a.commands))
            && (!o.error && o.inPosition ==> b.state == Idle && b.commands == ClearMoves(a.commands))
            && (!o.error && !o.inPosition ==> b == a.(outputs := o))
  {
  }

  /** REFERENCING: homed gives IDLE with the home command withdrawn; an error gives ERROR, also withdrawing it. */
  lemma ReferencingCycle(a: AxisData, t: AxisType, o: FbOutputs, simulated: bool)
    requires a.state == Referencing
    ensures var b := CycleStep(a, t, o, simulated);
            (o.error ==> b.state == Error && !b.commands.home)
            && (!o.error && o.isHomed ==> b.state == Idle && !b.commands.home)
            && (!o.error && !o.isHomed ==> b == a.(outputs := o))
  {
  }

  /** resetError: only a block without an error leads to SETTINGPOWERON; one in error keeps its state and is powered off and reset. */
  lemma ResetErrorMeans(a: AxisData)
    ensures ResetErrorStep(a).state == SettingPowerOn <==> !a.outputs.error || a.state == SettingPowerOn
    ensures a.outputs.error ==> ResetErrorStep(a).state == a.state && !ResetErrorStep(a).commands.power
                                && ResetErrorStep(a).commands.errorReset
    ensures !a.outputs.error ==> ResetErrorStep(a).commands.power && !ResetErrorStep(a).commands.errorReset
  {
  }

  /**
   * A full absolute move: an accepted request, one cycle without error that
   * hands it to the block, and one in position, end in IDLE with the move
   * commands withdrawn and the block's parameters holding the request.
   */
  lemma {:induction false} AbsoluteMoveCompletes(a: AxisData, t: AxisType, target: real, speed: real, acceleration: real,
                                                  o1: FbOutputs, o2: FbOutputs, simulated: bool)
    requires MoveStep(a, t, Absolute(target), speed, acceleration).Ok?
    requires !o1.error && !o2.error && o2.inPosition
    ensures var b := MoveStep(a, t, Absolute(target), speed, acceleration).value;
            var c := CycleStep(b, t, o1, simulated);
            var d := CycleStep(c, t, o2, simulated);
            c.state == WaitingForMovement && c.commands.moveAbsolute
            && d.state == Idle && d.commands == ClearMoves(a.commands)
            && d.parameters == a.parameters.(velocity := speed, acceleration := acceleration,
                                             deceleration := acceleration, position := target)
  {
    MoveStepMeans(a, t, Absolute(target), speed, acceleration);
    var b := MoveStep(a, t, Absolute(target), speed, acceleration).value;
    assert Setpoint(b, t) == Requested(Setpoint(a, t), Absolute(target), speed, acceleration);
    var c := CycleStep(b, t, o1, simulated);
    assert c == StartMove(b.(outputs := o1), t);
    WaitingForMovementCycle(c, t, o2, simulated);
  }

  /** Reference after power-on: a powered block at standstill starts homing, in the wrapper's homing mode unless the CPU is simulated. */
  lemma PowerOnToReferenceCycle(a: AxisData, t: AxisType, o: FbOutputs, simulated: bool)
    requires a.state == SettingPowerOnToReference && !o.error
    ensures var b := CycleStep(a, t, o, simulated);
            (!o.powerOn ==> b == a.(outputs := o))
            && (o.powerOn && o.plcOpenState == MC_AXIS_STANDSTILL ==>
                  b.state == Referencing && b.commands.home
                  && b.parameters.homingMode == Some(if simulated then HomingDirect else a.homingMode))
            && (o.powerOn && o.plcOpenState != MC_AXIS_STANDSTILL ==> b.state == Error)
  {
  }

  // ---------------------------------------------------------------------
  // The wrapper object
  // ---------------------------------------------------------------------

  /** The memset-zeroed outputs of a function block not yet called. */
  const ZERO_OUTPUTS: FbOutputs := FbOutputs(0, false, false, false, false, false, false, 0.0, 0.0)

  /** A still setpoint: the constructor's 0.0 members. */
  const ZERO_SETPOINT: MoveSetpoint := MoveSetpoint(0.0, 0.0, 0.0, 0.0)

  class CMappMotionSingleAxis {
    const name: string
    /** m_Type: set by the subclass. */
    const axisType: AxisType
    /** m_State. */
    var state: AxisState
    /** m_HomingMode. */
    var homingMode: HomingMode
    /** The command inputs of m_FunctionBlock. */
    var commands: FbCommands
    /** The outputs of m_FunctionBlock. */
    var outputs: FbOutputs
    /** m_Parameters. */
    var parameters: AxisParameters
    /** The millimetre setpoint of a linear axis. */
    var linear: MoveSetpoint
    /** The degree setpoint of a rotational axis. */
    var rotational: MoveSetpoint

    function Data(): AxisData
      reads this
    {
      AxisData(state, homingMode, commands, outputs, parameters, linear, rotational)
    }

    constructor (axisName: string, t: AxisType)
      ensures name == axisName && axisType == t
      ensures Data() == AxisData(Idle, HomingDefault, FbCommands(false, false, false, false, false, false), ZERO_OUTPUTS,
                                 AxisParameters(0.0, 0.0, 0.0, 0.0, 0.0, None), ZERO_SETPOINT, ZERO_SETPOINT)
    {
      name := axisName;
      axisType := t;
      state := Idle;
      homingMode := HomingDefault;
      commands := FbCommands(false, false, false, false, false, false);
      outputs := ZERO_OUTPUTS;
      parameters := AxisParameters(0.0, 0.0, 0.0, 0.0, 0.0, None);
      linear := ZERO_SETPOINT;
      rotational := ZERO_SETPOINT;
    }

    /** CMappMotion_SingleAxis::CMappMotion_SingleAxis: an axis without a link to the axis object is refused. */
    static method New(axisName: string, t: AxisType, hasLink: bool) returns (r: Result<CMappMotionSingleAxis>)
      ensures !hasLink ==> r == Err(InvalidAxisLink)
      ensures hasLink ==> r.Ok? && fresh(r.value) && r.value.name == axisName && r.value.axisType == t
                          && r.value.state == Idle && r.value.commands == FbCommands(false, false, false, false, false, false)
    {
      if !hasLink {
        return Err(InvalidAxisLink);
      }
      var a := new CMappMotionSingleAxis(axisName, t);
      r := Ok(a);
    }

    predicate IsIdle()
      reads this
    {
      state == Idle
    }

    predicate IsPowered()
      reads this
    {
      outputs.powerOn
    }

    predicate IsReferenced()
      reads this
    {
      outputs.isHomed
    }

    predicate IsError()
      reads this
    {
      outputs.error
    }

    predicate CanSetPower()
      reads this
    {
      outputs.readyToPowerOn
    }

    /** canReference on the wrapper's current data. */
    predicate CanReferenceNow()
      reads this
    {
      CanReference(Data())
    }

    /** canMoveAxis on the wrapper's current data. */
    predicate CanMoveAxisNow()
      reads this
    {
      CanMoveAxis(Data())
    }

    method SetData(d: AxisData)
      modifies this
      ensures Data() == d
    {
      state, homingMode, commands, outputs := d.state, d.homingMode, d.commands, d.outputs;
      parameters, linear, rotational := d.parameters, d.linear, d.rotational;
    }

    /** setPower (MappMotion_SingleAxis.cpp:300-321). */
    method SetPower(on: bool) returns (r: Result<()>)
      modifies this
      ensures var s := SetPowerStep(old(Data()), on);
              (s.Err? ==> r == Err(s.error) && Data() == old(Data()))
              && (s.Ok? ==> r == Ok(()) && Data() == s.value)
    {
      if on {
        if !CanSetPower() {
          return Err(CouldNotPowerAxis);
        }
        commands := commands.(power := true);
        state := SettingPowerOn;
      } else {
        if !IsIdle() {
          return Err(CouldNotPowerAxis);
        }
        commands := commands.(power := false);
        state := SettingPowerOff;
      }
      r := Ok(());
    }

    /** startReference, with `simulated` the answer of DiagCpuIsSimulated(). */
    method StartReference(simulated: bool) returns (r: Result<()>)
      modifies this
      ensures var s := StartReferenceStep(old(Data()), simulated);
              (s.Err? ==> r == Err(s.error) && Data() == old(Data()))
              && (s.Ok? ==> r == Ok(()) && Data() == s.value)
    {
      if !CanReferenceNow() {
        return Err(CouldNotReferenceAxis);
      }
      if simulated {
        homingMode := HomingDirect;
      }
      parameters := parameters.(homingMode := Some(homingMode));
      commands := commands.(home := true);
      state := Referencing;
      r := Ok(());
    }

    /** setHomingMode: the wrapper's mode and the block's parameter. */
    method SetHomingMode(mode: HomingMode)
      modifies this
      ensures Data() == old(Data()).(homingMode := mode, parameters := old(parameters).(homingMode := Some(mode)))
    {
      homingMode := mode;
      parameters := parameters.(homingMode := Some(mode));
    }

    /** setPowerOnAndStartReference. */
    method SetPowerOnAndStartReference() returns (r: Result<()>)
      modifies this
      ensures var s := PowerOnToReferenceStep(old(Data()));
              (s.Err? ==> r == Err(s.error) && Data() == old(Data()))
              && (s.Ok? ==> r == Ok(()) && Data() == s.value)
    {
      if !CanSetPower() {
        return Err(CouldNotPowerAxis);
      }
      commands := commands.(power := true);
      state := SettingPowerOnToReference;
      r := Ok(());
    }

    /** resetError. */
    method ResetError()
      modifies this
      ensures Data() == ResetErrorStep(old(Data()))
    {
      if IsError() {
        commands := commands.(power := false, errorReset := true);
      } else {
        commands := commands.(errorReset := false, power := true);
        state := SettingPowerOn;
      }
    }

    /** moveAxisReset. */
    method MoveAxisReset()
      modifies this
      ensures Data() == old(Data()).(commands := ClearMoves(old(commands)))
    {
      commands := ClearMoves(commands);
    }

    /** moveAxisAbsolute, moveAxisRelative and moveAxisVelocity of the axis's subclass. */
    method MoveAxis(kind: MoveKind, speed: real, acceleration: real) returns (r: Result<()>)
      modifies this
      ensures var s := MoveStep(old(Data()), axisType, kind, speed, acceleration);
              (s.Err? ==> r == Err(s.error) && Data() == old(Data()))
              && (s.Ok? ==> r == Ok(()) && Data() == s.value)
    {
      if speed < MIN_SPEED || speed > MAX_SPEED {
        return Err(InvalidSpeedValue);
      }
      if acceleration < MIN_ACCELERATION || acceleration > MAX_ACCELERATION {
        return Err(InvalidAccelerationValue);
      }
      if state != Idle {
        return Err(CouldNotMoveAxis);
      }
      if !CanMoveAxisNow() {
        return Err(CouldNotMoveAxis);
      }
      if axisType == LinearAxis {
        linear := Requested(linear, kind, speed, acceleration);
      } else {
        rotational := Requested(rotational, kind, speed, acceleration);
      }
      state := InitState(kind);
      r := Ok(());
    }

    /** handleCyclic, with `o` what this cycle's MpAxisBasic call left in the block. */
    method HandleCyclic(o: FbOutputs, simulated: bool)
      modifies this
      ensures Data() == CycleStep(old(Data()), axisType, o, simulated)
    {
      outputs := o;
      var d := Data();
      match state {
        case SettingPowerOn =>
          if o.powerOn {
            d := d.(state := Idle);
          }
          if o.error {
            d := d.(state := Error);
          }
        case SettingPowerOnToReference =>
          if o.powerOn {
            if o.plcOpenState == MC_AXIS_STANDSTILL {
              d := BeginHoming(d, simulated);
            } else {
              d := d.(state := Error);
            }
          }
          if o.error {
            d := d.(state := Error);
          }
        case SettingPowerOff =>
          if !o.powerOn {
            d := d.(state := Idle);
          }
          if o.error {
            d := d.(state := Error);
          }
        case Referencing =>
          if o.isHomed {
            d := d.(commands := d.commands.(home := false), state := Idle);
          }
          if o.error {
            d := d.(commands := d.commands.(home := false), state := Error);
          }
        case InitAbsoluteMovement =>
          d := if o.error then d.(state := Error) else StartMove(d, axisType);
        case InitRelativeMovement =>
          d := if o.error then d.(state := Error) else StartMove(d, axisType);
        case InitVelocityMovement =>
          d := if o.error then d.(state := Error) else StartMove(d, axisType);
        case WaitingForMovement =>
          if o.inPosition {
            d := d.(commands := ClearMoves(d.commands), state := Idle);
          }
          if o.error {
            d := d.(commands := ClearMoves(d.commands), state := Error);
          }
        case _ =>
      }
      SetData(d);
    }
  }
}
