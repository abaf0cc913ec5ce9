/**
 * The heater state machine ("heater" state handler): temperature control
 * of the build plate by a PID controller, a PID step tuner and a PWM
 * block, all three from the vendor's MTBasics library (not modelled: their
 * outputs, Error, UpdateDone, TuningDone and Out, are inputs of a cycle).
 *
 * The machine is healthy when none of the three blocks reports an error,
 * channel 2 of the analog input module 112KF15 reports status 0, and
 * input 6 of the digital input module 113KF18 reads 0. The PC configures
 * and drives it through signals; four journal flags ("..._isinit") record
 * which parameter sets have been initialised, and a fifth says whether the
 * controller is enabled. The heater relay is output 3 of the digital
 * output module 114KF28.
 *
 * Each state's Execute is a function from the cycle's inputs and the
 * heater's data to the setNextState requests, the new data and the signals
 * it finishes; the class CHeater carries the same steps as methods that
 * update the blocks, the flags and the output module in place.
 */
module Heater {
  import opened Wrappers
  import opened Bytes
  import opened Framework
  import opened Application
  import X20AI4622
  import X20DO6322

  const WAIT_FOR_INIT: string := "wait_for_init"
  const INIT: string := "init"
  const IDLE_DISABLED: string := "idle_disabled"
  const UPDATE_PARAMETERS: string := "update_parameters"
  const WAIT_FOR_PARAMETER_UPDATE: string := "wait_for_parameter_update"
  const HEATING_CONTROL_ENABLED: string := "heating_control_enabled"
  const TUNE_CONTROL_PARAMETERS: string := "tune_control_parameters"
  const WAIT_FOR_TUNING: string := "wait_for_tuning"
  const ERROR: string := "error"

  /** The states CStateHandlerHeater adds. */
  const HEATER_STATES: set<string> := {
    WAIT_FOR_INIT, INIT, IDLE_DISABLED, UPDATE_PARAMETERS, WAIT_FOR_PARAMETER_UPDATE,
    HEATING_CONTROL_ENABLED, TUNE_CONTROL_PARAMETERS, WAIT_FOR_TUNING, ERROR}

  const PID_SIGNAL: string := "updatecontrollerparameters"
  const TUNER_SIGNAL: string := "updatecontrollertunerparameters"
  const PWM_SIGNAL: string := "updatecontrollerpwmparameters"
  const SETPOINT_SIGNAL: string := "updatecontrollersetpoint"
  const AUTOTUNE_SIGNAL: string := "autotunecontroller"
  const ENABLE_SIGNAL: string := "enablecontroller"
  const DISABLE_SIGNAL: string := "disablecontroller"
  const ABORT_SIGNAL: string := "abortautotuningcontroller"

  /** The temperature channel of 112KF15 and the heater relay channel of 114KF28. */
  const TEMPERATURE_CHANNEL: uint32 := 2
  const RELAY_CHANNEL: uint32 := 3

  /** What the heater's states read in one cycle. */
  datatype HeaterInputs = HeaterInputs(
    controllerError: bool,         // fbBuildPlatformTempController.Error != 0
    pwmError: bool,                // fbBuildPlatformTempPWM.Error != 0
    tunerError: bool,              // fbBuildPlatfromTempTuner.Error != 0
    analog: X20AI4622.Mapping,     // the image of 112KF15
    protectionSwitch: bool,        // input 6 of 113KF18
    pidUpdate: Option<bool>,       // checkSignal found the signal; its isinit parameter
    tunerUpdate: Option<bool>,
    pwmUpdate: Option<bool>,
    setpointUpdate: Option<bool>,
    autoTune: bool,                // checkSignal found the signal
    enable: bool,
    disable: bool,
    abortTuning: bool,
    controllerUpdateDone: bool,    // UpdateDone of each block
    pwmUpdateDone: bool,
    tunerUpdateDone: bool,
    tuningDone: bool,              // TuningDone of the tuner
    pwmOut: bool)                  // Out of the PWM block

  /** The health check every state makes before anything else. */
  predicate Healthy(i: HeaterInputs)
  {
    && !i.controllerError && !i.pwmError && !i.tunerError
    && X20AI4622.GetIOStatus(i.analog, TEMPERATURE_CHANNEL) == Ok(0)
    && !i.protectionSwitch
  }

  /** The command inputs the states write into a function block. */
  datatype Block = Block(enable: bool, update: bool, start: bool)

  /** The heater's journal flags. */
  datatype Flags = Flags(pidIsInit: bool, tuneIsInit: bool, pwmIsInit: bool, setpointIsInit: bool, controllerEnabled: bool)

  /** The heater's data outside the state handler. */
  datatype HeaterData = HeaterData(controller: Block, pwm: Block, tuner: Block, flags: Flags, outputs: X20DO6322.Mapping)

  /** What one Execute did: the setNextState requests in order, the new data and the finished signals. */
  datatype HeaterCycle = HeaterCycle(requests: seq<string>, data: HeaterData, finished: seq<string>)

  /** Enable of all three blocks set to e. */
  function EnableAll(d: HeaterData, e: bool): (r: HeaterData)
    ensures r.controller.enable == r.pwm.enable == r.tuner.enable == e
    ensures r.flags == d.flags && r.outputs == d.outputs
  {
    d.(controller := d.controller.(enable := e), pwm := d.pwm.(enable := e), tuner := d.tuner.(enable := e))
  }

  /** Update of all three blocks set to u. */
  function UpdateAll(d: HeaterData, u: bool): HeaterData
  {
    d.(controller := d.controller.(update := u), pwm := d.pwm.(update := u), tuner := d.tuner.(update := u))
  }

  predicate AllInit(f: Flags)
  {
    f.pidIsInit && f.tuneIsInit && f.pwmIsInit && f.setpointIsInit
  }

  /** setOutput(3, v) on the relay module. */
  function SetRelay(d: HeaterData, v: bool): (r: HeaterData)
    ensures r.outputs.digitalOutputs[RELAY_CHANNEL - 1] == v
  {
    d.(outputs := X20DO6322.WithOutput(d.outputs, RELAY_CHANNEL, v).value)
  }

  /** Execute set at least one next state, and only states of the heater. */
  predicate SetsNextState(requests: seq<string>)
  {
    requests != [] && forall k :: 0 <= k < |requests| ==> requests[k] in HEATER_STATES
  }

  /** The error exit shared by the states: disable the three blocks, go to error. */
  function Failed(d: HeaterData): HeaterCycle
  {
    HeaterCycle([ERROR], EnableAll(d, false), [])
  }

  /**
   * wait_for_init: the first waiting parameter signal, in the order PID,
   * tuner, PWM, setpoint, is finished, and when it carries isinit its flag
   * is set; without a signal the machine moves to init once all four flags
   * are set, clearing them.
   */
  function WaitForInitStep(i: HeaterInputs, d: HeaterData): (c: HeaterCycle)
    ensures SetsNextState(c.requests)
  {
    if !Healthy(i) then Failed(d)
    else if i.pidUpdate.Some? then
      HeaterCycle([WAIT_FOR_INIT], d.(flags := d.flags.(pidIsInit := d.flags.pidIsInit || i.pidUpdate.value)), [PID_SIGNAL])
    else if i.tunerUpdate.Some? then
      HeaterCycle([WAIT_FOR_INIT], d.(flags := d.flags.(tuneIsInit := d.flags.tuneIsInit || i.tunerUpdate.value)), [TUNER_SIGNAL])
    else if i.pwmUpdate.Some? then
      HeaterCycle([WAIT_FOR_INIT], d.(flags := d.flags.(pwmIsInit := d.flags.pwmIsInit || i.pwmUpdate.value)), [PWM_SIGNAL])
    else if i.setpointUpdate.Some? then
      HeaterCycle([WAIT_FOR_INIT], d.(flags := d.flags.(setpointIsInit := d.flags.setpointIsInit || i.setpointUpdate.value)), [SETPOINT_SIGNAL])
    else if AllInit(d.flags) then
      HeaterCycle([INIT], d.(flags := d.flags.(pidIsInit := false, tuneIsInit := false, pwmIsInit := false, setpointIsInit := false)), [])
    else
      HeaterCycle([WAIT_FOR_INIT], d, [])
  }

  /** init: enables the three blocks, asks the controller, tuner and PWM for a parameter update. */
  function InitStep(i: HeaterInputs, d: HeaterData): (c: HeaterCycle)
    ensures SetsNextState(c.requests)
  {
    if !Healthy(i) then Failed(d)
    else
      var enabled := EnableAll(d, true);
      HeaterCycle([WAIT_FOR_PARAMETER_UPDATE], UpdateAll(enabled, true).(flags := d.flags.(controllerEnabled := false)), [])
  }

  /**
   * idle_disabled: disables the three blocks, then handles the first
   * waiting signal in the order PID, tuner, PWM, setpoint, autotune,
   * enable. A parameter signal without isinit leads to update_parameters;
   * the enable signal re-enables the blocks and is left unfinished.
   */
  function IdleDisabledStep(i: HeaterInputs, d: HeaterData): (c: HeaterCycle)
    ensures SetsNextState(c.requests)
  {
    var off := EnableAll(d, false);
    if !Healthy(i) then Failed(off)
    else if i.pidUpdate.Some? then
      HeaterCycle([IDLE_DISABLED] + (if !i.pidUpdate.value then [UPDATE_PARAMETERS] else []), off, [PID_SIGNAL])
    else if i.tunerUpdate.Some? then
      HeaterCycle([IDLE_DISABLED] + (if !i.tunerUpdate.value then [UPDATE_PARAMETERS] else []), off, [TUNER_SIGNAL])
    else if i.pwmUpdate.Some? then
      HeaterCycle([IDLE_DISABLED] + (if !i.pwmUpdate.value then [UPDATE_PARAMETERS] else []), off, [PWM_SIGNAL])
    else if i.setpointUpdate.Some? then
      HeaterCycle([IDLE_DISABLED], off, [SETPOINT_SIGNAL])
    else if i.autoTune then
      HeaterCycle([TUNE_CONTROL_PARAMETERS], off, [AUTOTUNE_SIGNAL])
    else if i.enable then
      HeaterCycle([HEATING_CONTROL_ENABLED], EnableAll(off, true), [])
    else
      HeaterCycle([IDLE_DISABLED], off, [])
  }

  /**
   * update_parameters: enables the PWM block and the tuner (the source sets
   * the tuner's Enable twice and the controller's not at all), then asks
   * all three blocks for a parameter update.
   */
  function UpdateParametersStep(i: HeaterInputs, d: HeaterData): (c: HeaterCycle)
    ensures SetsNextState(c.requests)
  {
    var on := d.(tuner := d.tuner.(enable := true), pwm := d.pwm.(enable := true));
    if !Healthy(i) then Failed(on)
    else HeaterCycle([WAIT_FOR_PARAMETER_UPDATE], UpdateAll(on, true), [])
  }

  /** wait_for_parameter_update: once all three blocks are done, clear Update and Enable and go idle. */
  function WaitForParameterUpdateStep(i: HeaterInputs, d: HeaterData): (c: HeaterCycle)
    ensures SetsNextState(c.requests)
  {
    if !Healthy(i) then Failed(d)
    else if i.controllerUpdateDone && i.pwmUpdateDone && i.tunerUpdateDone then
      HeaterCycle([IDLE_DISABLED], EnableAll(UpdateAll(d, false), false), [])
    else
      HeaterCycle([WAIT_FOR_PARAMETER_UPDATE], d, [])
  }

  /**
   * heating_control_enabled: a disable signal (left unfinished) disables
   * the controller and goes idle; a setpoint signal is finished; otherwise
   * the PWM output drives the relay.
   */
  function HeatingControlEnabledStep(i: HeaterInputs, d: HeaterData): (c: HeaterCycle)
    ensures SetsNextState(c.requests)
  {
    if !Healthy(i) then
      var failed := Failed(d);
      failed.(data := failed.data.(flags := d.flags.(controllerEnabled := false)))
    else if i.disable then
      HeaterCycle([IDLE_DISABLED], d.(controller := d.controller.(enable := false), flags := d.flags.(controllerEnabled := false)), [])
    else if i.setpointUpdate.Some? then
      HeaterCycle([HEATING_CONTROL_ENABLED], d.(flags := d.flags.(controllerEnabled := true)), [SETPOINT_SIGNAL])
    else
      HeaterCycle([HEATING_CONTROL_ENABLED], SetRelay(d, i.pwmOut).(flags := d.flags.(controllerEnabled := true)), [])
  }

  /**
   * tune_control_parameters as written: enables the blocks and raises the
   * tuner's Update; once the tuner reports UpdateDone it starts tuning.
   * While the update is pending no next state is set.
   */
  function TuneControlParametersStepAsWritten(i: HeaterInputs, d: HeaterData): HeaterCycle
  {
    if !Healthy(i) then Failed(d)
    else
      var on := EnableAll(d, true);
      if !on.tuner.update then
        HeaterCycle([TUNE_CONTROL_PARAMETERS], on.(tuner := on.tuner.(update := true, start := false)), [])
      else if i.tunerUpdateDone then
        HeaterCycle([WAIT_FOR_TUNING], on.(tuner := on.tuner.(update := false, start := true)), [])
      else
        HeaterCycle([], on, [])
  }

  /** tune_control_parameters, corrected: a pending update keeps the machine in the state. */
  function TuneControlParametersStep(i: HeaterInputs, d: HeaterData): (c: HeaterCycle)
    ensures SetsNextState(c.requests)
  {
    if !Healthy(i) then Failed(d)
    else
      var on := EnableAll(d, true);
      if !on.tuner.update then
        HeaterCycle([TUNE_CONTROL_PARAMETERS], on.(tuner := on.tuner.(update := true, start := false)), [])
      else if i.tunerUpdateDone then
        HeaterCycle([WAIT_FOR_TUNING], on.(tuner := on.tuner.(update := false, start := true)), [])
      else
        HeaterCycle([TUNE_CONTROL_PARAMETERS], on, [])
  }

  /**
   * wait_for_tuning: when tuning is done the blocks are enabled and asked
   * for an update; an abort signal (left unfinished) stops the tuner and
   * goes idle; otherwise the PWM output drives the relay.
   */
  function WaitForTuningStep(i: HeaterInputs, d: HeaterData): (c: HeaterCycle)
    ensures SetsNextState(c.requests)
  {
    if !Healthy(i) then
      var failed := Failed(d);
      failed.(data := failed.data.(tuner := failed.data.tuner.(start := false)))
    else if i.tuningDone then
      var stopped := d.(tuner := d.tuner.(start := false));
      HeaterCycle([WAIT_FOR_PARAMETER_UPDATE], UpdateAll(EnableAll(stopped, true), true), [])
    else if i.abortTuning then
      var stopped := d.(tuner := d.tuner.(start := false));
      HeaterCycle([IDLE_DISABLED], EnableAll(stopped, false), [])
    else
      HeaterCycle([WAIT_FOR_TUNING], SetRelay(d, i.pwmOut), [])
  }

  /** error: back to init once healthy. */
  function ErrorStep(i: HeaterInputs, d: HeaterData): (c: HeaterCycle)
    ensures SetsNextState(c.requests)
  {
    HeaterCycle([if Healthy(i) then INIT else ERROR], d, [])
  }

  /** The Execute of the state named s; every one sets a next state among the heater's. */
  function HeaterStep(s: string, i: HeaterInputs, d: HeaterData): (c: HeaterCycle)
    requires s in HEATER_STATES
    ensures SetsNextState(c.requests)
  {
    if s == WAIT_FOR_INIT then WaitForInitStep(i, d)
    else if s == INIT then InitStep(i, d)
    else if s == IDLE_DISABLED then IdleDisabledStep(i, d)
    else if s == UPDATE_PARAMETERS then UpdateParametersStep(i, d)
    else if s == WAIT_FOR_PARAMETER_UPDATE then WaitForParameterUpdateStep(i, d)
    else if s == HEATING_CONTROL_ENABLED then HeatingControlEnabledStep(i, d)
    else if s == TUNE_CONTROL_PARAMETERS then TuneControlParametersStep(i, d)
    else if s == WAIT_FOR_TUNING then WaitForTuningStep(i, d)
    else ErrorStep(i, d)
  }

  /** The state the handler moves to: the last request. */
  function NextOf(c: HeaterCycle): string
    requires c.requests != []
  {
    c.requests[|c.requests| - 1]
  }

  // ---------------------------------------------------------------------
  // What the states promise
  // ---------------------------------------------------------------------

  /**
   * wait_for_init moves to init exactly when the machine is healthy, no
   * parameter signal waits and all four flags are set, and then clears
   * all four.
   */
  lemma WaitForInitMovesWhenAllInit(i: HeaterInputs, d: HeaterData)
    ensures var c := WaitForInitStep(i, d);
      NextOf(c) == INIT <==>
        Healthy(i) && i.pidUpdate.None? && i.tunerUpdate.None? && i.pwmUpdate.None? && i.setpointUpdate.None?
        && AllInit(d.flags)
    ensures var c := WaitForInitStep(i, d);
      NextOf(c) == INIT ==> !c.data.flags.pidIsInit && !c.data.flags.tuneIsInit && !c.data.flags.pwmIsInit && !c.data.flags.setpointIsInit
  {
  }

  /** A healthy wait_for_init that sees an isinit PID signal sets the PID flag, finishes the signal and stays. */
  lemma WaitForInitRecordsPid(i: HeaterInputs, d: HeaterData)
    requires Healthy(i) && i.pidUpdate == Some(true)
    ensures var c := WaitForInitStep(i, d);
      NextOf(c) == WAIT_FOR_INIT && c.data.flags.pidIsInit && c.finished == [PID_SIGNAL]
      && c.data.flags.(pidIsInit := d.flags.pidIsInit) == d.flags
  {
  }

  /** The PID flag, once set, stays set while wait_for_init stays; only the move to init clears it. */
  lemma WaitForInitKeepsFlags(i: HeaterInputs, d: HeaterData)
    requires d.flags.pidIsInit
    ensures var c := WaitForInitStep(i, d);
      c.requests == [WAIT_FOR_INIT] ==> c.data.flags.pidIsInit
  {
  }

  /**
   * Every state but error leaves for error when the health check fails,
   * with the three blocks disabled; error stays in error.
   */
  lemma UnhealthyGoesToError(s: string, i: HeaterInputs, d: HeaterData)
    requires s in HEATER_STATES && !Healthy(i)
    ensures var c := HeaterStep(s, i, d);
      c.requests == [ERROR] && c.finished == []
      && (s != ERROR ==> !c.data.controller.enable && !c.data.pwm.enable && !c.data.tuner.enable)
  {
    var c := HeaterStep(s, i, d);
    if s == WAIT_FOR_INIT {
      assert c == Failed(d);
    } else if s == INIT {
      assert c == Failed(d);
    } else if s == IDLE_DISABLED {
      assert c == Failed(EnableAll(d, false));
    } else if s == UPDATE_PARAMETERS {
      assert c == Failed(d.(tuner := d.tuner.(enable := true), pwm := d.pwm.(enable := true)));
    } else if s == WAIT_FOR_PARAMETER_UPDATE {
      assert c == Failed(d);
    } else if s == HEATING_CONTROL_ENABLED {
      assert c.requests == [ERROR] && c.data.controller == EnableAll(d, false).controller;
    } else if s == TUNE_CONTROL_PARAMETERS {
      assert c == Failed(d);
    } else if s == WAIT_FOR_TUNING {
      assert c.requests == [ERROR] && c.data.controller == EnableAll(d, false).controller;
    } else {
      assert c == ErrorStep(i, d);
    }
  }

  /**
   * idle_disabled, healthy: a PID, tuner or PWM signal without isinit
   * (and no earlier signal in that order) leads to update_parameters, an
   * enable signal alone to heating_control_enabled with the blocks enabled.
   */
  lemma IdleDisabledMeans(i: HeaterInputs, d: HeaterData)
    requires Healthy(i)
    ensures i.pidUpdate == Some(false) ==> NextOf(IdleDisabledStep(i, d)) == UPDATE_PARAMETERS
    ensures i.pidUpdate.None? && i.tunerUpdate == Some(false) ==> NextOf(IdleDisabledStep(i, d)) == UPDATE_PARAMETERS
    ensures i.pidUpdate.None? && i.tunerUpdate.None? && i.pwmUpdate == Some(false) ==>
      NextOf(IdleDisabledStep(i, d)) == UPDATE_PARAMETERS
    ensures i.pidUpdate.None? && i.tunerUpdate.None? && i.pwmUpdate.None? && i.setpointUpdate.None? && !i.autoTune && i.enable ==>
      var c := IdleDisabledStep(i, d);
      NextOf(c) == HEATING_CONTROL_ENABLED && c.data.controller.enable && c.data.pwm.enable && c.data.tuner.enable
      && ENABLE_SIGNAL !in c.finished
    ensures NextOf(IdleDisabledStep(i, d)) == UPDATE_PARAMETERS ==>
      (i.pidUpdate == Some(false)) || (i.tunerUpdate == Some(false)) || (i.pwmUpdate == Some(false))
  {
  }

  /** heating_control_enabled, healthy: a disable signal clears the enabled flag and goes idle. */
  lemma DisableMeans(i: HeaterInputs, d: HeaterData)
    requires Healthy(i) && i.disable
    ensures var c := HeatingControlEnabledStep(i, d);
      NextOf(c) == IDLE_DISABLED && !c.data.flags.controllerEnabled && !c.data.controller.enable
      && c.data.outputs == d.outputs && DISABLE_SIGNAL !in c.finished
  {
  }

  /**
   * wait_for_tuning, healthy: a finished tuning asks all three blocks for
   * an update; an abort signal stops the tuner, disables the blocks and
   * goes idle, leaving the signal unfinished.
   */
  lemma WaitForTuningMeans(i: HeaterInputs, d: HeaterData)
    requires Healthy(i)
    ensures i.tuningDone ==>
      var c := WaitForTuningStep(i, d);
      NextOf(c) == WAIT_FOR_PARAMETER_UPDATE && !c.data.tuner.start
      && c.data.controller.update && c.data.pwm.update && c.data.tuner.update
    ensures !i.tuningDone && i.abortTuning ==>
      var c := WaitForTuningStep(i, d);
      NextOf(c) == IDLE_DISABLED && !c.data.tuner.start
      && !c.data.controller.enable && !c.data.pwm.enable && !c.data.tuner.enable
      && ABORT_SIGNAL !in c.finished
    ensures !i.tuningDone && !i.abortTuning ==>
      X20DO6322.GetOutput(WaitForTuningStep(i, d).data.outputs, RELAY_CHANNEL) == Ok(i.pwmOut)
  {
  }

  /** heating_control_enabled, healthy, no signal: the relay follows the PWM output. */
  lemma RelayFollowsPwm(i: HeaterInputs, d: HeaterData)
    requires Healthy(i) && !i.disable && i.setpointUpdate.None?
    ensures var c := HeatingControlEnabledStep(i, d);
      NextOf(c) == HEATING_CONTROL_ENABLED && c.data.flags.controllerEnabled
      && X20DO6322.GetOutput(c.data.outputs, RELAY_CHANNEL) == Ok(i.pwmOut)
  {
  }

  /**
   * init, healthy: all three blocks enabled and asked for an update, the
   * enabled flag cleared, and the machine waiting for the update; the
   * relay and the init flags stay as they were.
   */
  lemma InitMeans(i: HeaterInputs, d: HeaterData)
    requires Healthy(i)
    ensures var c := InitStep(i, d);
      c.requests == [WAIT_FOR_PARAMETER_UPDATE] && c.finished == []
      && c.data.controller.enable && c.data.pwm.enable && c.data.tuner.enable
      && c.data.controller.update && c.data.pwm.update && c.data.tuner.update
      && !c.data.flags.controllerEnabled && c.data.outputs == d.outputs
      && c.data.flags.(controllerEnabled := d.flags.controllerEnabled) == d.flags
  {
  }

  /**
   * update_parameters, healthy: all three blocks asked for an update and the
   * machine waiting for it; the PWM block and the tuner are enabled, the
   * controller's Enable is left as it was.
   */
  lemma UpdateParametersMeans(i: HeaterInputs, d: HeaterData)
    requires Healthy(i)
    ensures var c := UpdateParametersStep(i, d);
      c.requests == [WAIT_FOR_PARAMETER_UPDATE] && c.finished == []
      && c.data.controller.update && c.data.pwm.update && c.data.tuner.update
      && c.data.pwm.enable && c.data.tuner.enable && c.data.controller.enable == d.controller.enable
      && c.data.flags == d.flags && c.data.outputs == d.outputs
  {
  }

  /**
   * wait_for_parameter_update goes idle exactly when the machine is healthy
   * and all three blocks report UpdateDone, and then withdraws every
   * Update and Enable; a healthy wait that is not done changes nothing.
   */
  lemma WaitForParameterUpdateMeans(i: HeaterInputs, d: HeaterData)
    ensures var c := WaitForParameterUpdateStep(i, d);
      NextOf(c) == IDLE_DISABLED <==> Healthy(i) && i.controllerUpdateDone && i.pwmUpdateDone && i.tunerUpdateDone
    ensures var c := WaitForParameterUpdateStep(i, d);
      NextOf(c) == IDLE_DISABLED ==>
        !c.data.controller.enable && !c.data.pwm.enable && !c.data.tuner.enable
        && !c.data.controller.update && !c.data.pwm.update && !c.data.tuner.update
        && c.data.flags == d.flags && c.data.outputs == d.outputs
    ensures var c := WaitForParameterUpdateStep(i, d);
      Healthy(i) && !(i.controllerUpdateDone && i.pwmUpdateDone && i.tunerUpdateDone) ==>
        c == HeaterCycle([WAIT_FOR_PARAMETER_UPDATE], d, [])
  {
  }

  /**
   * A parameter update from idle_disabled, through update_parameters and
   * wait_for_parameter_update, returns to idle_disabled with every block
   * disabled and no update pending, the relay and the flags as they were.
   */
  lemma ParameterUpdateReturnsToIdle(i0: HeaterInputs, i1: HeaterInputs, i2: HeaterInputs, d: HeaterData)
    requires Healthy(i0) && Healthy(i1) && Healthy(i2)
    requires i0.pidUpdate == Some(false)
    requires i2.controllerUpdateDone && i2.pwmUpdateDone && i2.tunerUpdateDone
    ensures var c0 := IdleDisabledStep(i0, d);
      var c1 := UpdateParametersStep(i1, c0.data);
      var c2 := WaitForParameterUpdateStep(i2, c1.data);
      NextOf(c0) == UPDATE_PARAMETERS && NextOf(c1) == WAIT_FOR_PARAMETER_UPDATE && NextOf(c2) == IDLE_DISABLED
      && c2.data == d.(controller := Block(false, false, d.controller.start), pwm := Block(false, false, d.pwm.start),
                       tuner := Block(false, false, d.tuner.start))
  {
  }

  /** error returns to init once healthy and stays otherwise; nothing else changes. */
  lemma ErrorMeans(i: HeaterInputs, d: HeaterData)
    ensures NextOf(ErrorStep(i, d)) == if Healthy(i) then INIT else ERROR
    ensures ErrorStep(i, d).data == d
  {
  }

  /** So the state handler's step never fails on the heater. */
  lemma HeaterTableStep(t: StateTable, i: HeaterInputs, d: HeaterData)
    requires t.states == HEATER_STATES && t.current.Some? && t.current.value in HEATER_STATES
    ensures var c := HeaterStep(t.current.value, i, d);
      StepTable(t, Executed(c.requests)) == Ok(StateTable(HEATER_STATES, Some(NextOf(c))))
  {
    StepTableMeans(t, Executed(HeaterStep(t.current.value, i, d).requests));
  }

  /**
   * As written, tune_control_parameters with the tuner's update pending
   * sets no next state, so the state handler's step throws
   * NEXTSTATEHASNOTBEENSET.
   */
  lemma TunePendingAsWrittenThrows(t: StateTable, i: HeaterInputs, d: HeaterData)
    requires t.states == HEATER_STATES && t.current == Some(TUNE_CONTROL_PARAMETERS)
    requires Healthy(i) && d.tuner.update && !i.tunerUpdateDone
    ensures StepTable(t, Executed(TuneControlParametersStepAsWritten(i, d).requests)) == Err(NextStateHasNotBeenSet)
  {
    StepTableMeans(t, Executed(TuneControlParametersStepAsWritten(i, d).requests));
  }

  /** Corrected, the pending update keeps the machine in tune_control_parameters with the tuner untouched. */
  lemma TunePendingStays(i: HeaterInputs, d: HeaterData)
    requires Healthy(i) && d.tuner.update && !i.tunerUpdateDone
    ensures var c := TuneControlParametersStep(i, d);
      NextOf(c) == TUNE_CONTROL_PARAMETERS && c.data.tuner == d.tuner.(enable := true)
  {
  }

  // ---------------------------------------------------------------------
  // The PWM block's minimum pulse width
  // ---------------------------------------------------------------------

  /**
   * init and update_parameters set MinPulseWidth = 1/nMaxFrequency with
   * nMaxFrequency an int, so the division is C++ integer division
   * (truncating toward zero); a zero frequency divides by zero.
   */
  function MinPulseWidthAsWritten(maxFrequency: int32): (r: Option<int>)
    ensures r.None? <==> maxFrequency == 0
    ensures r.Some? && (maxFrequency > 1 || maxFrequency < -1) ==> r.value == 0
  {
    if maxFrequency == 0 then None
    else if maxFrequency == 1 then Some(1)
    else if maxFrequency == -1 then Some(-1)
    else Some(0)
  }

  /** The period of the maximum frequency, in seconds, as the comment "1/maxFrequency = 1/5 Hz" intends. */
  function MinPulseWidth(maxFrequency: int32): (r: Option<real>)
    ensures r.None? <==> maxFrequency == 0
    ensures r.Some? ==> r.value * (maxFrequency as real) == 1.0
  {
    if maxFrequency == 0 then None else Some(1.0 / maxFrequency as real)
  }

  /** For the intended 5 Hz the two differ: 0 s as written, 0.2 s intended. */
  lemma MinPulseWidthExample()
    ensures MinPulseWidthAsWritten(5) == Some(0)
    ensures MinPulseWidth(5) == Some(0.2)
  {
  }

  // ---------------------------------------------------------------------
  // The states as methods on the heater's objects
  // ---------------------------------------------------------------------

  class CHeater {
    /** The global blocks fbBuildPlatformTempController, fbBuildPlatformTempPWM, fbBuildPlatfromTempTuner. */
    var controller: Block
    var pwm: Block
    var tuner: Block
    /** The heater's journal flags. */
    var flags: Flags
    /** The digital output module 114KF28. */
    const outputs: X20DO6322.CIOModuleX20DO6322

    function Data(): HeaterData
      reads this, outputs
    {
      HeaterData(controller, pwm, tuner, flags, outputs.mapping)
    }

    /** Blocks and journal flags start cleared. */
    constructor (outputs: X20DO6322.CIOModuleX20DO6322)
      ensures this.outputs == outputs
      ensures controller == pwm == tuner == Block(false, false, false)
      ensures flags == Flags(false, false, false, false, false)
    {
      this.outputs := outputs;
      controller := Block(false, false, false);
      pwm := Block(false, false, false);
      tuner := Block(false, false, false);
      flags := Flags(false, false, false, false, false);
    }

    method DisableAll()
      modifies this
      ensures controller == old(controller).(enable := false) && pwm == old(pwm).(enable := false)
      ensures tuner == old(tuner).(enable := false) && flags == old(flags)
    {
      controller := controller.(enable := false);
      pwm := pwm.(enable := false);
      tuner := tuner.(enable := false);
    }

    method WaitForInit(i: HeaterInputs) returns (e: Execution, finished: seq<string>)
      modifies this
      ensures e.Executed? && HeaterCycle(e.requests, Data(), finished) == WaitForInitStep(i, old(Data()))
    {
      finished := [];
      if Healthy(i) {
        if i.pidUpdate.Some? {
          e := Executed([WAIT_FOR_INIT]);
          if i.pidUpdate.value {
            flags := flags.(pidIsInit := true);
          }
          finished := [PID_SIGNAL];
        } else if i.tunerUpdate.Some? {
          e := Executed([WAIT_FOR_INIT]);
          if i.tunerUpdate.value {
            flags := flags.(tuneIsInit := true);
          }
          finished := [TUNER_SIGNAL];
        } else if i.pwmUpdate.Some? {
          e := Executed([WAIT_FOR_INIT]);
          if i.pwmUpdate.value {
            flags := flags.(pwmIsInit := true);
          }
          finished := [PWM_SIGNAL];
        } else if i.setpointUpdate.Some? {
          e := Executed([WAIT_FOR_INIT]);
          if i.setpointUpdate.value {
            flags := flags.(setpointIsInit := true);
          }
          finished := [SETPOINT_SIGNAL];
        } else if flags.pwmIsInit && flags.tuneIsInit && flags.pidIsInit && flags.setpointIsInit {
          e := Executed([INIT]);
          flags := flags.(pidIsInit := false);
          flags := flags.(tuneIsInit := false);
          flags := flags.(pwmIsInit := false);
          flags := flags.(setpointIsInit := false);
        } else {
          e := Executed([WAIT_FOR_INIT]);
        }
      } else {
        DisableAll();
        e := Executed([ERROR]);
      }
    }

    method Init(i: HeaterInputs) returns (e: Execution, finished: seq<string>)
      modifies this
      ensures e.Executed? && HeaterCycle(e.requests, Data(), finished) == InitStep(i, old(Data()))
    {
      if Healthy(i) {
        controller := controller.(enable := true);
        pwm := pwm.(enable := true);
        tuner := tuner.(enable := true);
        controller := controller.(update := true);
        tuner := tuner.(update := true);
        flags := flags.(controllerEnabled := false);
        pwm := pwm.(update := true);
        e := Executed([WAIT_FOR_PARAMETER_UPDATE]);
      } else {
        DisableAll();
        e := Executed([ERROR]);
      }
      finished := [];
    }

    method IdleDisabled(i: HeaterInputs) returns (e: Execution, finished: seq<string>)
      modifies this
      ensures e.Executed? && HeaterCycle(e.requests, Data(), finished) == IdleDisabledStep(i, old(Data()))
    {
      DisableAll();
      finished := [];
      if Healthy(i) {
        if i.pidUpdate.Some? {
          var requests := [IDLE_DISABLED];
          if !i.pidUpdate.value {
            requests := requests + [UPDATE_PARAMETERS];
          }
          e := Executed(requests);
          finished := [PID_SIGNAL];
        } else if i.tunerUpdate.Some? {
          var requests := [IDLE_DISABLED];
          if !i.tunerUpdate.value {
            requests := requests + [UPDATE_PARAMETERS];
          }
          e := Executed(requests);
          finished := [TUNER_SIGNAL];
        } else if i.pwmUpdate.Some? {
          var requests := [IDLE_DISABLED];
          if !i.pwmUpdate.value {
            requests := requests + [UPDATE_PARAMETERS];
          }
          e := Executed(requests);
          finished := [PWM_SIGNAL];
        } else if i.setpointUpdate.Some? {
          e := Executed([IDLE_DISABLED]);
          finished := [SETPOINT_SIGNAL];
        } else if i.autoTune {
          finished := [AUTOTUNE_SIGNAL];
          e := Executed([TUNE_CONTROL_PARAMETERS]);
        } else if i.enable {
          controller := controller.(enable := true);
          pwm := pwm.(enable := true);
          tuner := tuner.(enable := true);
          e := Executed([HEATING_CONTROL_ENABLED]);
        } else {
          e := Executed([IDLE_DISABLED]);
        }
      } else {
        DisableAll();
        e := Executed([ERROR]);
      }
    }

    method UpdateParameters(i: HeaterInputs) returns (e: Execution, finished: seq<string>)
      modifies this
      ensures e.Executed? && HeaterCycle(e.requests, Data(), finished) == UpdateParametersStep(i, old(Data()))
    {
      tuner := tuner.(enable := true);
      pwm := pwm.(enable := true);
      tuner := tuner.(enable := true);
      if Healthy(i) {
        controller := controller.(update := true);
        tuner := tuner.(update := true);
        pwm := pwm.(update := true);
        e := Executed([WAIT_FOR_PARAMETER_UPDATE]);
      } else {
        DisableAll();
        e := Executed([ERROR]);
      }
      finished := [];
    }

    method WaitForParameterUpdate(i: HeaterInputs) returns (e: Execution, finished: seq<string>)
      modifies this
      ensures e.Executed? && HeaterCycle(e.requests, Data(), finished) == WaitForParameterUpdateStep(i, old(Data()))
    {
      if Healthy(i) {
        if i.controllerUpdateDone && i.pwmUpdateDone && i.tunerUpdateDone {
          controller := controller.(update := false);
          pwm := pwm.(update := false);
          tuner := tuner.(update := false);
          DisableAll();
          e := Executed([IDLE_DISABLED]);
        } else {
          e := Executed([WAIT_FOR_PARAMETER_UPDATE]);
        }
      } else {
        DisableAll();
        e := Executed([ERROR]);
      }
      finished := [];
    }

    method HeatingControlEnabled(i: HeaterInputs) returns (e: Execution, finished: seq<string>)
      modifies this, outputs
      ensures e.Executed? && HeaterCycle(e.requests, Data(), finished) == HeatingControlEnabledStep(i, old(Data()))
    {
      finished := [];
      if Healthy(i) {
        if i.disable {
          controller := controller.(enable := false);
          flags := flags.(controllerEnabled := false);
          e := Executed([IDLE_DISABLED]);
        } else if i.setpointUpdate.Some? {
          finished := [SETPOINT_SIGNAL];
          flags := flags.(controllerEnabled := true);
          e := Executed([HEATING_CONTROL_ENABLED]);
        } else {
          var _ := outputs.SetOutput(RELAY_CHANNEL, i.pwmOut);
          flags := flags.(controllerEnabled := true);
          e := Executed([HEATING_CONTROL_ENABLED]);
        }
      } else {
        DisableAll();
        flags := flags.(controllerEnabled := false);
        e := Executed([ERROR]);
      }
    }

    /** tune_control_parameters, with the pending update keeping the state. */
    method TuneControlParameters(i: HeaterInputs) returns (e: Execution, finished: seq<string>)
      modifies this
      ensures e.Executed? && HeaterCycle(e.requests, Data(), finished) == TuneControlParametersStep(i, old(Data()))
    {
      if Healthy(i) {
        controller := controller.(enable := true);
        pwm := pwm.(enable := true);
        tuner := tuner.(enable := true);
        if !tuner.update {
          tuner := tuner.(update := true);
          tuner := tuner.(start := false);
          e := Executed([TUNE_CONTROL_PARAMETERS]);
        } else if i.tunerUpdateDone {
          tuner := tuner.(update := false);
          tuner := tuner.(start := true);
          e := Executed([WAIT_FOR_TUNING]);
        } else {
          e := Executed([TUNE_CONTROL_PARAMETERS]);
        }
      } else {
        DisableAll();
        e := Executed([ERROR]);
      }
      finished := [];
    }

    method WaitForTuning(i: HeaterInputs) returns (e: Execution, finished: seq<string>)
      modifies this, outputs
      ensures e.Executed? && HeaterCycle(e.requests, Data(), finished) == WaitForTuningStep(i, old(Data()))
    {
      if Healthy(i) {
        if i.tuningDone {
          tuner := tuner.(start := false);
          controller := controller.(enable := true);
          pwm := pwm.(enable := true);
          tuner := tuner.(enable := true);
          controller := controller.(update := true);
          pwm := pwm.(update := true);
          tuner := tuner.(update := true);
          e := Executed([WAIT_FOR_PARAMETER_UPDATE]);
        } else if i.abortTuning {
          tuner := tuner.(start := false);
          DisableAll();
          e := Executed([IDLE_DISABLED]);
        } else {
          e := Executed([WAIT_FOR_TUNING]);
          var _ := outputs.SetOutput(RELAY_CHANNEL, i.pwmOut);
        }
      } else {
        DisableAll();
        tuner := tuner.(start := false);
        e := Executed([ERROR]);
      }
      finished := [];
    }

    method Error(i: HeaterInputs) returns (e: Execution, finished: seq<string>)
      modifies this
      ensures e.Executed? && HeaterCycle(e.requests, Data(), finished) == ErrorStep(i, old(Data()))
    {
      if Healthy(i) {
        e := Executed([INIT]);
      } else {
        e := Executed([ERROR]);
      }
      finished := [];
    }
  }
}
