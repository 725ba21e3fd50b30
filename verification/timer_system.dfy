/**
 * The shutter execution engine (timer_system.h): one servo presses the
 * shutter, and a runtime record drives the Timer (delay, then one shot or a
 * hold), T-Lapse (frames spread over a total time) and Interval (a shot every
 * N seconds) modes, tick by tick. Time is the millisecond clock, passed in as
 * `now`.
 *
 * The `Engine` datatype and its member functions are the specification of
 * one step each; the `TimerEngine` class holds the firmware's globals and
 * its methods are proved to take exactly those steps.
 */
module TimerSystem {
  import opened Common
  import Text
  import StateMachine

  const ServoInitTimeMs: nat := 500
  /** Safety margin added to the activation time when a run waits for the servo. */
  const CompletionMarginMs: nat := 500
  const ServoMinAngle: int := 0
  const ServoMaxAngle: int := 180

  type Angle = x: int | ServoMinAngle <= x <= ServoMaxAngle

  datatype ExecMode = TimerMode | TlapseMode | IntervalMode

  datatype ExecState =
    | Idle
    | DelayRunning
    | ReleaseRunning
    | TlapseRunning
    | IntervalRunning
    | TimerCompleting
    | TlapseCompleting
    | IntervalCompleting
  {
    /** The states that wait for the servo to finish before returning to idle. */
    predicate IsCompleting()
    {
      this == TimerCompleting || this == TlapseCompleting || this == IntervalCompleting
    }
  }

  /**
   * The `TimerRuntime` record. Times are in milliseconds; the configured
   * durations are in seconds and keep the C `int` reading of the option value.
   * The float `frameInterval` is not stored: `ExpectedFrames` computes what
   * dividing by it yields.
   */
  datatype Runtime = Runtime(
    mode: ExecMode,
    state: ExecState,
    startTime: nat,
    phaseStart: nat,
    frameCount: int,
    totalDelay: int,
    totalRelease: int,
    totalTime: int,
    totalFrames: int,
    intervalTime: int,
    waiting: bool,
    completionTimeout: nat,
    logicCompleted: bool)

  /** The servo settings: rest and pressed angles, and how long a press lasts in milliseconds (0.6 s by default). */
  datatype ServoConfig = ServoConfig(startPosition: int, endPosition: int, activationMs: nat)

  const DefaultServoConfig: ServoConfig := ServoConfig(0, 90, 600)

  /** `servo_move_to_position`: the angle actually commanded, cut to 0..180. */
  function Clamp(position: int): (a: Angle)
    ensures ServoMinAngle <= position <= ServoMaxAngle ==> a == position
    ensures position < ServoMinAngle ==> a == ServoMinAngle
    ensures position > ServoMaxAngle ==> a == ServoMaxAngle
  {
    if position < ServoMinAngle then ServoMinAngle else if position > ServoMaxAngle then ServoMaxAngle else position
  }

  /** The servo: the last commanded angle and the non-blocking activation in progress. */
  datatype Servo = Servo(angle: Angle, activating: bool, activationStart: nat)
  {
    function MoveTo(position: int): Servo
    {
      this.(angle := Clamp(position))
    }

    /** `servo_activate`: start a press unless one is already in progress. */
    function Activate(now: nat, cfg: ServoConfig): Servo
    {
      if activating then this else Servo(Clamp(cfg.endPosition), true, now)
    }

    /** `servo_update`: once the press has lasted the activation time, return to rest. */
    function Update(now: nat, cfg: ServoConfig): Servo
      requires activationStart <= now
    {
      if activating && now - activationStart >= cfg.activationMs then Servo(Clamp(cfg.startPosition), false, activationStart)
      else this
    }
  }

  /**
   * The number of frames that should have been taken after `elapsed` whole
   * seconds: `(int)(elapsed / frameInterval)` with `frameInterval` equal to
   * `total / frames` when there are frames, and 1 otherwise. The C cast
   * truncates toward zero.
   */
  function ExpectedFrames(elapsed: nat, total: int, frames: int): int
  {
    if frames <= 0 then elapsed
    else if total > 0 then elapsed * frames / total
    else if total < 0 then -(elapsed * frames / -total)
    else 0
  }

  /** Everything the engine updates: the runtime record, the servo, its settings and the start-up gate. */
  datatype Engine = Engine(rt: Runtime, servo: Servo, cfg: ServoConfig, initComplete: bool, initStart: nat)
  {
    /** No stored time stamp lies after `now`: the clock only moves forward. */
    predicate TimesNotAfter(now: nat)
    {
      rt.startTime <= now && rt.phaseStart <= now && servo.activationStart <= now && initStart <= now
    }

    function MoveServo(position: int): Engine
    {
      this.(servo := servo.MoveTo(position))
    }

    function ActivateServo(now: nat): Engine
    {
      this.(servo := servo.Activate(now, cfg))
    }

    function UpdateServo(now: nat): Engine
      requires TimesNotAfter(now)
    {
      this.(servo := servo.Update(now, cfg))
    }

    /** `is_servo_completion_needed`. */
    predicate CompletionNeeded()
    {
      servo.activating || rt.waiting
    }

    /** `cancel_timer_execution`. The servo's own activation flag is left as it is. */
    function Cancel(): Engine
    {
      this.(rt := rt.(state := Idle, frameCount := 0, waiting := false, logicCompleted := false)).MoveServo(cfg.startPosition)
    }

    /** What every start does: enter `state` of `mode` at `now` with no frames and the servo at rest. */
    function Launch(mode: ExecMode, state: ExecState, now: nat): Engine
    {
      this.(rt := rt.(mode := mode, state := state, startTime := now, phaseStart := now, frameCount := 0, logicCompleted := false))
        .MoveServo(cfg.startPosition)
    }

    /**
     * `start_timer_execution`: read the Timer page, map the trigger sentinel
     * to a release of 0, and start the delay. Blocked until the servo has
     * initialised.
     */
    function StartTimer(now: nat, store: StateMachine.Store): Engine
    {
      if !initComplete then this
      else
        var release := StateMachine.GetOptionValue(store, StateMachine.TimerPage, 1);
        var trigger := release == Uint32Max || AsInt32(release) == -1;
        this.(rt := rt.(totalDelay := AsInt32(StateMachine.GetOptionValue(store, StateMachine.TimerPage, 0)),
                        totalRelease := if trigger then 0 else AsInt32(release)))
          .Launch(TimerMode, DelayRunning, now)
    }

    /** `start_tlapse_execution`: read the T-Lapse page and start taking frames. */
    function StartTlapse(now: nat, store: StateMachine.Store): Engine
    {
      this.(rt := rt.(totalTime := AsInt32(StateMachine.GetOptionValue(store, StateMachine.TlapsePage, 0)),
                      totalFrames := AsInt32(StateMachine.GetOptionValue(store, StateMachine.TlapsePage, 1))))
        .Launch(TlapseMode, TlapseRunning, now)
    }

    /** `start_interval_execution`: read the Interval page and start shooting. */
    function StartInterval(now: nat, store: StateMachine.Store): Engine
    {
      this.(rt := rt.(intervalTime := AsInt32(StateMachine.GetOptionValue(store, StateMachine.IntervalPage, 0))))
        .Launch(IntervalMode, IntervalRunning, now)
    }

    /** Enter a completing state of the current run: the logic is done, wait for the servo until the deadline. */
    function AwaitServo(now: nat, state: ExecState): Engine
    {
      this.(rt := rt.(logicCompleted := true, waiting := true, completionTimeout := now + cfg.activationMs + CompletionMarginMs, state := state))
    }

    /** `update_timer_execution`: end the delay with a single shot or the start of the hold; end the hold. */
    function UpdateTimer(now: nat): Engine
      requires TimesNotAfter(now)
    {
      var elapsedPhase := (now - rt.phaseStart) / 1000;
      match rt.state
      case DelayRunning =>
        if elapsedPhase < AsUint32(rt.totalDelay) then this
        else if rt.totalRelease == 0 then
          ActivateServo(now).(rt := rt.(frameCount := 1)).AwaitServo(now, TimerCompleting)
        else
          this.(rt := rt.(state := ReleaseRunning, phaseStart := now, frameCount := 1)).MoveServo(cfg.endPosition)
      case ReleaseRunning =>
        if elapsedPhase < AsUint32(rt.totalRelease) then this
        else MoveServo(cfg.startPosition).Cancel()
      case _ => this
    }

    /** The frame step of `update_tlapse_execution`: take a frame when one is due and frames remain. */
    function TlapseFrame(now: nat): Engine
      requires TimesNotAfter(now)
    {
      var expected := ExpectedFrames((now - rt.startTime) / 1000, rt.totalTime, rt.totalFrames);
      if expected > rt.frameCount && rt.frameCount < rt.totalFrames then
        ActivateServo(now).(rt := rt.(frameCount := rt.frameCount + 1))
      else this
    }

    /**
     * `update_tlapse_execution`: take a due frame, then, the first time the
     * time is up or every frame is taken, finish: wait for the servo if it is
     * still needed, otherwise cancel straight away.
     */
    function UpdateTlapse(now: nat): Engine
      requires TimesNotAfter(now)
    {
      var e := TlapseFrame(now);
      var elapsedTotal := (now - rt.startTime) / 1000;
      if (elapsedTotal >= AsUint32(e.rt.totalTime) || e.rt.frameCount >= e.rt.totalFrames) && !e.rt.logicCompleted then
        if e.CompletionNeeded() then e.AwaitServo(now, TlapseCompleting)
        else e.(rt := e.rt.(logicCompleted := true)).Cancel()
      else e
    }

    /** `update_interval_execution`: once the interval has passed, shoot and restart the interval. */
    function UpdateInterval(now: nat): Engine
      requires TimesNotAfter(now)
    {
      var elapsedPhase := (now - rt.phaseStart) / 1000;
      if elapsedPhase >= AsUint32(rt.intervalTime) then
        ActivateServo(now).(rt := rt.(frameCount := rt.frameCount + 1, phaseStart := now))
      else this
    }

    /** The completing-state step of `timer_system_update`: back to idle once the servo is done or the deadline passed. */
    function FinishCompletion(now: nat): Engine
    {
      if !servo.activating || now > rt.completionTimeout then this.(rt := rt.(state := Idle, waiting := false, logicCompleted := false))
      else this
    }

    /** The servo start-up gate: the first tick records the start, the gate opens 500 ms later. */
    function InitStep(now: nat): Engine
      requires TimesNotAfter(now)
    {
      var start := if initStart == 0 then now else initStart;
      this.(initStart := start, initComplete := now - start >= ServoInitTimeMs)
    }

    /** `timer_system_update`: one tick of the engine at time `now`. */
    function Tick(now: nat): Engine
      requires TimesNotAfter(now)
    {
      if !initComplete then InitStep(now)
      else
        var e := UpdateServo(now);
        if e.rt.state == Idle then e
        else if e.rt.state.IsCompleting() then e.FinishCompletion(now)
        else match e.rt.mode
          case TimerMode => e.UpdateTimer(now)
          case TlapseMode => e.UpdateTlapse(now)
          case IntervalMode => e.UpdateInterval(now)
    }

    /**
     * The consistency the engine keeps: each state belongs to its mode, a
     * completing state has finished its logic and waits, a running state has
     * not finished, idle waits for nothing, the Timer's frame count matches
     * its phase, and T-Lapse never counts past its frames.
     */
    predicate Inv()
    {
      && (rt.state in {DelayRunning, ReleaseRunning, TimerCompleting} ==> rt.mode == TimerMode)
      && (rt.state in {TlapseRunning, TlapseCompleting} ==> rt.mode == TlapseMode)
      && (rt.state == IntervalRunning ==> rt.mode == IntervalMode)
      && rt.state != IntervalCompleting
      && (rt.state.IsCompleting() ==> rt.logicCompleted && rt.waiting)
      && (rt.state in {DelayRunning, ReleaseRunning, TlapseRunning, IntervalRunning} ==> !rt.logicCompleted)
      && (rt.state == Idle ==> !rt.waiting && !rt.logicCompleted)
      && (rt.state == DelayRunning ==> rt.frameCount == 0)
      && (rt.state in {ReleaseRunning, TimerCompleting} ==> rt.frameCount == 1)
      && (rt.state in {TlapseRunning, TlapseCompleting} ==> 0 <= rt.frameCount && (rt.frameCount <= rt.totalFrames || rt.frameCount == 0))
      && (rt.state == IntervalRunning ==> 0 <= rt.frameCount)
    }
  }

  /** The engine after `timer_system_init`: idle, nothing counted, the servo at rest and the start-up gate closed. */
  function InitialEngine(cfg: ServoConfig): Engine
  {
    Engine(Runtime(TimerMode, Idle, 0, 0, 0, 0, 0, 0, 0, 0, false, 0, false),
           Servo(Clamp(cfg.startPosition), false, 0), cfg, false, 0)
  }

  /**
   * `format_countdown_time`: the seconds left (never below zero) as "MM:SS",
   * preceded by the elapsed time and " / " when both are asked for and some
   * time has elapsed.
   */
  function FormatCountdownTime(totalSeconds: int, elapsedSeconds: int, showBoth: bool): string
  {
    var remaining := if totalSeconds - elapsedSeconds < 0 then 0 else totalSeconds - elapsedSeconds;
    var result := Text.ClockText(remaining);
    if showBoth && elapsedSeconds > 0 then Text.ClockText(elapsedSeconds) + " / " + result else result
  }

  /**
   * The countdown of the Timer overlay: `int remaining = total - elapsedPhase`
   * is computed in 32-bit unsigned arithmetic and read back as `int`, then
   * cut at zero.
   */
  function OverlayRemaining(total: int, elapsedPhase: nat): nat
  {
    var r := AsInt32(AsUint32(total - elapsedPhase));
    if r < 0 then 0 else r
  }

  /**
   * The two labels `update_timer_overlay_display` shows for the Timer, or
   * None when it leaves them alone: "SHOT"/"Completing..." while waiting for
   * the servo, the delay countdown with the hold time (or "SHOT") during the
   * delay, and the hold countdown with "HOLD" during the hold.
   */
  function TimerOverlayText(rt: Runtime, now: nat): Option<(string, string)>
    requires rt.phaseStart <= now
  {
    var elapsedPhase := (now - rt.phaseStart) / 1000;
    match rt.state
    case TimerCompleting => Some(("SHOT", "Completing..."))
    case DelayRunning =>
      var sub := if rt.totalRelease > 0 then "+" + Text.ClockText(rt.totalRelease) else "SHOT";
      Some((Text.ClockText(OverlayRemaining(rt.totalDelay, elapsedPhase)), sub))
    case ReleaseRunning => Some((Text.ClockText(OverlayRemaining(rt.totalRelease, elapsedPhase)), "HOLD"))
    case _ => None
  }

  // ---------------------------------------------------------------------------
  // The firmware's globals, updated in place
  // ---------------------------------------------------------------------------

  class TimerEngine {
    var runtime: Runtime
    /** The angle last written to the servo. */
    var servoAngle: Angle
    var servoIsActivating: bool
    var servoActivationStartTime: nat
    var servoStartPosition: int
    var servoEndPosition: int
    var activationMs: nat
    var servoInitializationComplete: bool
    var servoInitStartTime: nat

    function Model(): Engine
      reads this
    {
      Engine(runtime, Servo(servoAngle, servoIsActivating, servoActivationStartTime),
             ServoConfig(servoStartPosition, servoEndPosition, activationMs),
             servoInitializationComplete, servoInitStartTime)
    }

    /** `timer_system_init` with the servo settings: the servo moves to rest and every runtime field is cleared. */
    constructor (cfg: ServoConfig)
      ensures Model() == InitialEngine(cfg)
    {
      runtime := Runtime(TimerMode, Idle, 0, 0, 0, 0, 0, 0, 0, 0, false, 0, false);
      servoIsActivating := false;
      servoActivationStartTime := 0;
      servoStartPosition := cfg.startPosition;
      servoEndPosition := cfg.endPosition;
      activationMs := cfg.activationMs;
      servoAngle := Clamp(cfg.startPosition);
      servoInitializationComplete := false;
      servoInitStartTime := 0;
    }

    /** `servo_move_to_position`. */
    method MoveServo(position: int)
      modifies this`servoAngle
      ensures Model() == old(Model()).MoveServo(position)
    {
      var p := position;
      if p < ServoMinAngle {
        p := ServoMinAngle;
      } else if p > ServoMaxAngle {
        p := ServoMaxAngle;
      }
      servoAngle := p;
    }

    /** `servo_activate`. */
    method ActivateServo(now: nat)
      modifies this`servoAngle, this`servoIsActivating, this`servoActivationStartTime
      ensures Model() == old(Model()).ActivateServo(now)
    {
      if !servoIsActivating {
        servoIsActivating := true;
        servoActivationStartTime := now;
        MoveServo(servoEndPosition);
      }
    }

    /** `servo_update`. */
    method UpdateServo(now: nat)
      requires Model().TimesNotAfter(now)
      modifies this`servoAngle, this`servoIsActivating
      ensures Model() == old(Model()).UpdateServo(now)
    {
      if servoIsActivating {
        var elapsed := now - servoActivationStartTime;
        if elapsed >= activationMs {
          MoveServo(servoStartPosition);
          servoIsActivating := false;
        }
      }
    }

    /** `cancel_timer_execution`. */
    method Cancel()
      modifies this`runtime, this`servoAngle
      ensures Model() == old(Model()).Cancel()
    {
      runtime := runtime.(state := Idle, frameCount := 0, waiting := false, logicCompleted := false);
      MoveServo(servoStartPosition);
    }

    /** `start_timer_execution`. */
    method StartTimer(now: nat, store: StateMachine.Store)
      modifies this`runtime, this`servoAngle
      ensures Model() == old(Model()).StartTimer(now, store)
    {
      if !servoInitializationComplete {
        return;
      }
      runtime := runtime.(totalDelay := AsInt32(StateMachine.GetOptionValue(store, StateMachine.TimerPage, 0)));
      var releaseValue := StateMachine.GetOptionValue(store, StateMachine.TimerPage, 1);
      var isTriggerMode := releaseValue == Uint32Max || AsInt32(releaseValue) == -1;
      if isTriggerMode {
        runtime := runtime.(totalRelease := 0);
      } else {
        runtime := runtime.(totalRelease := AsInt32(releaseValue));
      }
      runtime := runtime.(mode := TimerMode, state := DelayRunning, startTime := now, phaseStart := now,
                          frameCount := 0, logicCompleted := false);
      MoveServo(servoStartPosition);
    }

    /** `start_tlapse_execution`. */
    method StartTlapse(now: nat, store: StateMachine.Store)
      modifies this`runtime, this`servoAngle
      ensures Model() == old(Model()).StartTlapse(now, store)
    {
      runtime := runtime.(totalTime := AsInt32(StateMachine.GetOptionValue(store, StateMachine.TlapsePage, 0)),
                          totalFrames := AsInt32(StateMachine.GetOptionValue(store, StateMachine.TlapsePage, 1)));
      runtime := runtime.(mode := TlapseMode, state := TlapseRunning, startTime := now, phaseStart := now,
                          frameCount := 0, logicCompleted := false);
      MoveServo(servoStartPosition);
    }

    /** `start_interval_execution`. */
    method StartInterval(now: nat, store: StateMachine.Store)
      modifies this`runtime, this`servoAngle
      ensures Model() == old(Model()).StartInterval(now, store)
    {
      runtime := runtime.(intervalTime := AsInt32(StateMachine.GetOptionValue(store, StateMachine.IntervalPage, 0)));
      runtime := runtime.(mode := IntervalMode, state := IntervalRunning, startTime := now, phaseStart := now,
                          frameCount := 0, logicCompleted := false);
      MoveServo(servoStartPosition);
    }

    /** `update_timer_execution`. */
    method UpdateTimer(now: nat)
      requires Model().TimesNotAfter(now)
      modifies this`runtime, this`servoAngle, this`servoIsActivating, this`servoActivationStartTime
      ensures Model() == old(Model()).UpdateTimer(now)
    {
      var elapsedPhase := (now - runtime.phaseStart) / 1000;
      match runtime.state {
        case DelayRunning =>
          if elapsedPhase >= AsUint32(runtime.totalDelay) {
            if runtime.totalRelease == 0 {
              ActivateServo(now);
              runtime := runtime.(frameCount := 1, logicCompleted := true, waiting := true,
                                  completionTimeout := now + activationMs + CompletionMarginMs, state := TimerCompleting);
            } else {
              runtime := runtime.(state := ReleaseRunning, phaseStart := now);
              MoveServo(servoEndPosition);
              runtime := runtime.(frameCount := 1);
            }
          }
        case ReleaseRunning =>
          if elapsedPhase >= AsUint32(runtime.totalRelease) {
            MoveServo(servoStartPosition);
            Cancel();
          }
        case _ =>
      }
    }

    /** `update_tlapse_execution`. */
    method UpdateTlapse(now: nat)
      requires Model().TimesNotAfter(now)
      modifies this`runtime, this`servoAngle, this`servoIsActivating, this`servoActivationStartTime
      ensures Model() == old(Model()).UpdateTlapse(now)
    {
      var elapsedTotal := (now - runtime.startTime) / 1000;
      var expectedFrames := ExpectedFrames(elapsedTotal, runtime.totalTime, runtime.totalFrames);
      if expectedFrames > runtime.frameCount && runtime.frameCount < runtime.totalFrames {
        ActivateServo(now);
        runtime := runtime.(frameCount := runtime.frameCount + 1);
      }
      assert Model() == old(Model()).TlapseFrame(now);
      if (elapsedTotal >= AsUint32(runtime.totalTime) || runtime.frameCount >= runtime.totalFrames) && !runtime.logicCompleted {
        runtime := runtime.(logicCompleted := true);
        if servoIsActivating || runtime.waiting {
          runtime := runtime.(waiting := true, completionTimeout := now + activationMs + CompletionMarginMs, state := TlapseCompleting);
        } else {
          Cancel();
        }
      }
    }

    /** `update_interval_execution`. */
    method UpdateInterval(now: nat)
      requires Model().TimesNotAfter(now)
      modifies this`runtime, this`servoAngle, this`servoIsActivating, this`servoActivationStartTime
      ensures Model() == old(Model()).UpdateInterval(now)
    {
      var elapsedPhase := (now - runtime.phaseStart) / 1000;
      if elapsedPhase >= AsUint32(runtime.intervalTime) {
        ActivateServo(now);
        runtime := runtime.(frameCount := runtime.frameCount + 1, phaseStart := now);
      }
    }

    /** `timer_system_update`. */
    method Tick(now: nat)
      requires Model().TimesNotAfter(now)
      modifies this
      ensures Model() == old(Model()).Tick(now)
    {
      if !servoInitializationComplete {
        if servoInitStartTime == 0 {
          servoInitStartTime := now;
        }
        if now - servoInitStartTime >= ServoInitTimeMs {
          servoInitializationComplete := true;
        }
        return;
      }
      UpdateServo(now);
      if runtime.state == Idle {
        return;
      }
      if runtime.state.IsCompleting() {
        if !servoIsActivating || now > runtime.completionTimeout {
          runtime := runtime.(state := Idle, waiting := false, logicCompleted := false);
        }
        return;
      }
      match runtime.mode {
        case TimerMode => UpdateTimer(now);
        case TlapseMode => UpdateTlapse(now);
        case IntervalMode => UpdateInterval(now);
      }
    }
  }
}
