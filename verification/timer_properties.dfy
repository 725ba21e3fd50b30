/** What the shutter execution engine guarantees, stated on the `Engine` steps of `TimerSystem`. */
module TimerProperties {
  import opened Common
  import Text
  import StateMachine
  import opened TimerSystem

  // ---------------------------------------------------------------------------
  // The servo driver
  // ---------------------------------------------------------------------------

  /** A press already in progress is not restarted; otherwise the servo goes to the pressed angle and the press starts now. */
  lemma ActivateStartsOnePress(s: Servo, now: nat, cfg: ServoConfig)
    ensures s.activating ==> s.Activate(now, cfg) == s
    ensures !s.activating ==> s.Activate(now, cfg) == Servo(Clamp(cfg.endPosition), true, now)
    ensures s.Activate(now, cfg).activating
  {
  }

  /** `servo_update` changes the servo exactly when a press has lasted the activation time, and then returns it to rest. */
  lemma UpdateEndsPressIff(s: Servo, now: nat, cfg: ServoConfig)
    requires s.activationStart <= now
    ensures var r := s.Update(now, cfg);
            && (r != s <==> s.activating && now - s.activationStart >= cfg.activationMs)
            && (r != s ==> r.angle == Clamp(cfg.startPosition) && !r.activating)
  {
  }

  // ---------------------------------------------------------------------------
  // The start-up gate
  // ---------------------------------------------------------------------------

  /**
   * Until the servo has initialised, a tick touches neither the runtime
   * record nor the servo, and a local Timer start does nothing; the gate
   * opens 500 ms after the first tick that recorded its start.
   */
  lemma InitGateBlocksEngine(e: Engine, now: nat, store: StateMachine.Store)
    requires !e.initComplete && e.TimesNotAfter(now)
    ensures e.Tick(now).rt == e.rt && e.Tick(now).servo == e.servo
    ensures e.StartTimer(now, store) == e
    ensures e.initStart != 0 ==> (e.Tick(now).initComplete <==> now - e.initStart >= ServoInitTimeMs)
    ensures e.initStart == 0 && now != 0 ==> e.Tick(now).initStart == now && !e.Tick(now).initComplete
  {
  }

  // ---------------------------------------------------------------------------
  // Timer mode
  // ---------------------------------------------------------------------------

  /**
   * A local Timer start reads the delay and the release from the Timer page;
   * the trigger sentinel becomes a release of 0. The run starts at `now` in
   * the delay with no frames.
   */
  lemma StartTimerMapsSentinel(e: Engine, now: nat, store: StateMachine.Store)
    requires e.initComplete
    ensures var r := e.StartTimer(now, store).rt;
            var release := store.timer.option2.seconds;
            && r.totalDelay == AsInt32(store.timer.option1.seconds)
            && (release == StateMachine.TriggerSentinel ==> r.totalRelease == 0)
            && (release != StateMachine.TriggerSentinel ==> r.totalRelease == AsInt32(release))
            && r.mode == TimerMode && r.state == DelayRunning && r.startTime == now && r.phaseStart == now
            && r.frameCount == 0 && !r.logicCompleted
  {
  }

  /** While the delay has not passed (in whole seconds) the Timer changes nothing. */
  lemma DelayWaits(e: Engine, now: nat)
    requires e.TimesNotAfter(now) && e.rt.state == DelayRunning
    requires (now - e.rt.phaseStart) / 1000 < AsUint32(e.rt.totalDelay)
    ensures e.UpdateTimer(now) == e
  {
  }

  /**
   * Trigger mode: once the delay has passed with a release of 0, the Timer
   * fires once and waits for the servo with a deadline of the activation
   * time plus the 500 ms margin.
   */
  lemma TriggerFiresOnce(e: Engine, now: nat)
    requires e.TimesNotAfter(now) && e.rt.state == DelayRunning && e.rt.totalRelease == 0
    requires (now - e.rt.phaseStart) / 1000 >= AsUint32(e.rt.totalDelay)
    ensures var r := e.UpdateTimer(now);
            && r.servo == e.servo.Activate(now, e.cfg)
            && r.rt.frameCount == 1 && r.rt.logicCompleted && r.rt.waiting
            && r.rt.completionTimeout == now + e.cfg.activationMs + CompletionMarginMs
            && r.rt.state == TimerCompleting
  {
  }

  /** Hold mode: once the delay has passed, the servo moves to the pressed angle and holds; the hold phase starts now. */
  lemma HoldStarts(e: Engine, now: nat)
    requires e.TimesNotAfter(now) && e.rt.state == DelayRunning && e.rt.totalRelease != 0
    requires (now - e.rt.phaseStart) / 1000 >= AsUint32(e.rt.totalDelay)
    ensures var r := e.UpdateTimer(now);
            && r.rt.state == ReleaseRunning && r.rt.phaseStart == now && r.rt.frameCount == 1
            && r.servo.angle == Clamp(e.cfg.endPosition) && r.servo.activating == e.servo.activating
  {
  }

  /** After the release time (in whole seconds) the hold ends: the servo rests and the engine is idle with no frames. */
  lemma HoldEnds(e: Engine, now: nat)
    requires e.TimesNotAfter(now) && e.rt.state == ReleaseRunning
    ensures var r := e.UpdateTimer(now);
            && ((now - e.rt.phaseStart) / 1000 >= AsUint32(e.rt.totalRelease) ==>
                  r.rt.state == Idle && r.rt.frameCount == 0 && !r.rt.waiting && !r.rt.logicCompleted
                  && r.servo.angle == Clamp(e.cfg.startPosition))
            && ((now - e.rt.phaseStart) / 1000 < AsUint32(e.rt.totalRelease) ==> r == e)
  {
  }

  // ---------------------------------------------------------------------------
  // T-Lapse mode
  // ---------------------------------------------------------------------------

  /** A tick takes at most one frame, and takes one exactly when a frame is due and frames remain. */
  lemma TlapseAtMostOneFrame(e: Engine, now: nat)
    requires e.TimesNotAfter(now)
    ensures var f := e.TlapseFrame(now);
            var due := ExpectedFrames((now - e.rt.startTime) / 1000, e.rt.totalTime, e.rt.totalFrames) > e.rt.frameCount
                       && e.rt.frameCount < e.rt.totalFrames;
            && (due ==> f.rt.frameCount == e.rt.frameCount + 1 && f.servo == e.servo.Activate(now, e.cfg))
            && (!due ==> f == e)
  {
  }

  /**
   * T-Lapse finishes exactly once: after the first tick that finds the time
   * up or every frame taken, it waits for the servo when one is still needed
   * and is idle otherwise; once finished, a tick only takes due frames.
   */
  lemma TlapseCompletesOnce(e: Engine, now: nat)
    requires e.TimesNotAfter(now)
    ensures var f := e.TlapseFrame(now);
            var r := e.UpdateTlapse(now);
            var over := (now - e.rt.startTime) / 1000 >= AsUint32(e.rt.totalTime) || f.rt.frameCount >= e.rt.totalFrames;
            && (e.rt.logicCompleted || !over ==> r == f)
            && (!e.rt.logicCompleted && over && f.CompletionNeeded() ==>
                  r.rt.state == TlapseCompleting && r.rt.logicCompleted && r.rt.waiting
                  && r.rt.completionTimeout == now + e.cfg.activationMs + CompletionMarginMs)
            && (!e.rt.logicCompleted && over && !f.CompletionNeeded() ==>
                  r.rt.state == Idle && r.rt.frameCount == 0 && !r.rt.logicCompleted && !r.rt.waiting)
  {
  }

  /** A T-Lapse with no frames finishes on its first tick, without taking a frame. */
  lemma TlapseWithoutFramesEndsAtOnce(e: Engine, now: nat)
    requires e.Inv() && e.initComplete && e.TimesNotAfter(now)
    requires e.rt.state == TlapseRunning && e.rt.totalFrames <= 0
    ensures e.Tick(now).rt.state in {Idle, TlapseCompleting}
    ensures e.Tick(now).rt.state == TlapseCompleting ==> e.Tick(now).rt.frameCount == e.rt.frameCount
  {
  }

  // ---------------------------------------------------------------------------
  // Interval mode
  // ---------------------------------------------------------------------------

  /** Interval mode never ends by itself: each tick either waits or shoots once and restarts the interval at `now`. */
  lemma IntervalKeepsRunning(e: Engine, now: nat)
    requires e.Inv() && e.initComplete && e.TimesNotAfter(now) && e.rt.state == IntervalRunning
    ensures var r := e.Tick(now);
            var u := e.UpdateServo(now);
            && r.rt.state == IntervalRunning
            && ((now - e.rt.phaseStart) / 1000 >= AsUint32(e.rt.intervalTime) ==>
                  r.rt.frameCount == e.rt.frameCount + 1 && r.rt.phaseStart == now && r.servo == u.servo.Activate(now, e.cfg))
            && ((now - e.rt.phaseStart) / 1000 < AsUint32(e.rt.intervalTime) ==> r == u)
  {
  }

  // ---------------------------------------------------------------------------
  // Completing states and cancel
  // ---------------------------------------------------------------------------

  /**
   * A completing state returns to idle exactly when the servo has stopped
   * (after this tick's servo update) or the deadline has passed, and doing so
   * clears both flags; until then the runtime record stays as it is.
   */
  lemma CompletingExitsIff(e: Engine, now: nat)
    requires e.initComplete && e.TimesNotAfter(now) && e.rt.state.IsCompleting()
    ensures var s := e.servo.Update(now, e.cfg);
            var r := e.Tick(now);
            && (r.rt.state == Idle <==> !s.activating || now > e.rt.completionTimeout)
            && (r.rt.state == Idle ==> !r.rt.waiting && !r.rt.logicCompleted)
            && (r.rt.state != Idle ==> r.rt == e.rt)
  {
  }

  /** The wait is bounded: past the deadline, or once the press has lasted its activation time, a tick leaves the completing state. */
  lemma CompletingIsBounded(e: Engine, now: nat)
    requires e.initComplete && e.TimesNotAfter(now) && e.rt.state.IsCompleting()
    requires now > e.rt.completionTimeout || now >= e.servo.activationStart + e.cfg.activationMs
    ensures e.Tick(now).rt.state == Idle
  {
  }

  /**
   * The only way into a completing state is a tick of a running Timer or
   * T-Lapse that finished its logic, set the waiting flag and a deadline of
   * the activation time plus the margin after `now`.
   */
  lemma OnlyWayIntoCompleting(e: Engine, now: nat)
    requires e.Inv() && e.TimesNotAfter(now) && !e.rt.state.IsCompleting()
    ensures var r := e.Tick(now);
            r.rt.state.IsCompleting() ==>
              && e.rt.state in {DelayRunning, TlapseRunning}
              && r.rt.logicCompleted && r.rt.waiting
              && r.rt.completionTimeout == now + e.cfg.activationMs + CompletionMarginMs
  {
    if e.initComplete && e.rt.state != Idle {
      var u := e.UpdateServo(now);
      match u.rt.mode
      case TimerMode =>
      case TlapseMode =>
        TlapseCompletesOnce(u, now);
      case IntervalMode =>
    }
  }

  /**
   * Cancel works from any state: idle, no frames, nothing waiting, the logic
   * not finished and the servo at rest; everything else is kept, and
   * cancelling twice is cancelling once.
   */
  lemma CancelResets(e: Engine)
    ensures var r := e.Cancel();
            && r.rt.state == Idle && r.rt.frameCount == 0 && !r.rt.waiting && !r.rt.logicCompleted
            && r.rt == e.rt.(state := Idle, frameCount := 0, waiting := false, logicCompleted := false)
            && r.servo.angle == Clamp(e.cfg.startPosition)
            && r.servo.activating == e.servo.activating && r.servo.activationStart == e.servo.activationStart
            && r.cfg == e.cfg && r.initComplete == e.initComplete && r.initStart == e.initStart
            && r.Cancel() == r
  {
  }

  // ---------------------------------------------------------------------------
  // The T-Lapse frame schedule
  // ---------------------------------------------------------------------------

  /** Frames come due in order: with a positive total time, the expected count never falls as time passes. */
  lemma {:induction false} ExpectedFramesMonotone(a: nat, b: nat, total: int, frames: int)
    requires a <= b && (total > 0 || frames <= 0)
    ensures ExpectedFrames(a, total, frames) <= ExpectedFrames(b, total, frames)
  {
    if frames > 0 {
      assert a * frames <= b * frames;
      DivMonotone(a * frames, b * frames, total);
    }
  }

  lemma DivMonotone(x: nat, y: nat, d: int)
    requires x <= y && d > 0
    ensures x / d <= y / d
  {
    MulLessCancel(x / d, y / d + 1, d);
  }

  lemma MulLessCancel(a: int, b: int, d: int)
    requires d > 0 && a * d < b * d
    ensures a < b
  {
  }

  /**
   * With no more frames than seconds, at most one frame becomes due per
   * elapsed second, so a tick per second misses none.
   */
  lemma ExpectedFramesStep(elapsed: nat, total: int, frames: int)
    requires 0 < frames <= total
    ensures ExpectedFrames(elapsed + 1, total, frames) <= ExpectedFrames(elapsed, total, frames) + 1
  {
    var q := elapsed * frames / total;
    var q' := (elapsed + 1) * frames / total;
    assert (elapsed + 1) * frames == elapsed * frames + frames;
    assert q' * total <= (elapsed + 1) * frames < (q + 2) * total;
    MulLessCancel(q', q + 2, total);
  }

  lemma MulDivCancel(a: nat, d: int)
    requires d > 0
    ensures a * d / d == a
  {
    var q, r := a * d / d, a * d % d;
    assert a * d == q * d + r && 0 <= r < d;
    MulLessCancel(q, a + 1, d);
    MulLessCancel(a, q + 1, d);
  }

  lemma {:induction false} DivBelow(x: nat, n: nat, d: int)
    requires d > 0 && x < n * d
    ensures x / d < n
  {
    assert (x / d) * d <= x;
    MulLessCancel(x / d, n, d);
  }

  lemma {:induction false} DivAtLeast(x: nat, n: nat, d: int)
    requires d > 0 && n * d <= x
    ensures x / d >= n
  {
    MulDivCancel(n, d);
    DivMonotone(n * d, x, d);
  }

  /** Every frame is due once the total time has passed, and not all of them before. */
  lemma ExpectedFramesReachAllAtTotal(elapsed: nat, total: int, frames: int)
    requires total > 0 && frames > 0
    ensures ExpectedFrames(elapsed, total, frames) >= frames <==> elapsed >= total
  {
    var x := elapsed * frames;
    assert ExpectedFrames(elapsed, total, frames) == x / total;
    if elapsed >= total {
      assert frames * total <= x;
      DivAtLeast(x, frames, total);
    } else {
      assert x < frames * total;
      DivBelow(x, frames, total);
    }
  }

  // ---------------------------------------------------------------------------
  // The engine invariant
  // ---------------------------------------------------------------------------

  /** The engine starts consistent, and every start and cancel leaves it consistent whatever state it was in. */
  lemma StartsEstablishInv(e: Engine, now: nat, store: StateMachine.Store, cfg: ServoConfig)
    ensures InitialEngine(cfg).Inv()
    ensures e.Cancel().Inv()
    ensures e.StartTlapse(now, store).Inv() && e.StartInterval(now, store).Inv()
    ensures e.Inv() ==> e.StartTimer(now, store).Inv()
    ensures e.Inv() ==> e.ActivateServo(now).Inv()
  {
  }

  lemma UpdateTimerKeepsInv(e: Engine, now: nat)
    requires e.Inv() && e.TimesNotAfter(now) && e.rt.mode == TimerMode
    requires e.rt.state != Idle && !e.rt.state.IsCompleting()
    ensures e.UpdateTimer(now).Inv()
  {
  }

  lemma UpdateTlapseKeepsInv(e: Engine, now: nat)
    requires e.Inv() && e.TimesNotAfter(now) && e.rt.mode == TlapseMode
    requires e.rt.state != Idle && !e.rt.state.IsCompleting()
    ensures e.UpdateTlapse(now).Inv()
  {
    TlapseAtMostOneFrame(e, now);
    TlapseCompletesOnce(e, now);
  }

  lemma UpdateIntervalKeepsInv(e: Engine, now: nat)
    requires e.Inv() && e.TimesNotAfter(now) && e.rt.mode == IntervalMode
    requires e.rt.state != Idle && !e.rt.state.IsCompleting()
    ensures e.UpdateInterval(now).Inv()
  {
  }

  /**
   * Every tick keeps the engine consistent and leaves no time stamp after
   * `now`; in particular T-Lapse never counts more frames than it was given.
   */
  lemma TickKeepsInv(e: Engine, now: nat, later: nat)
    requires e.Inv() && e.TimesNotAfter(now) && now <= later
    ensures e.Tick(now).Inv() && e.Tick(now).TimesNotAfter(later)
    ensures var r := e.Tick(now).rt;
            r.state in {TlapseRunning, TlapseCompleting} ==> r.frameCount <= r.totalFrames || r.frameCount == 0
  {
    if e.initComplete {
      var u := e.UpdateServo(now);
      assert u.Inv() && u.rt == e.rt;
      if u.rt.state != Idle && !u.rt.state.IsCompleting() {
        match u.rt.mode
        case TimerMode => UpdateTimerKeepsInv(u, now);
        case TlapseMode => UpdateTlapseKeepsInv(u, now);
        case IntervalMode => UpdateIntervalKeepsInv(u, now);
      }
    }
  }

  // ---------------------------------------------------------------------------
  // Countdown text
  // ---------------------------------------------------------------------------

  /**
   * `format_countdown_time` shows the seconds left, never below zero, as a
   * clock label that reads back as that number; with both asked for and time
   * elapsed, the elapsed clock comes first, then " / ".
   */
  lemma CountdownReadsBack(totalSeconds: int, elapsedSeconds: int, showBoth: bool)
    ensures var remaining := if totalSeconds - elapsedSeconds < 0 then 0 else totalSeconds - elapsedSeconds;
            var r := FormatCountdownTime(totalSeconds, elapsedSeconds, showBoth);
            && (!(showBoth && elapsedSeconds > 0) ==> Text.ReadClock(r) == Some(remaining))
            && (showBoth && elapsedSeconds > 0 ==>
                  r == Text.ClockText(elapsedSeconds) + " / " + Text.ClockText(remaining)
                  && Text.ReadClock(Text.ClockText(elapsedSeconds)) == Some(elapsedSeconds))
  {
    var remaining := if totalSeconds - elapsedSeconds < 0 then 0 else totalSeconds - elapsedSeconds;
    Text.ClockTextRoundTrip(remaining);
    if showBoth && elapsedSeconds > 0 {
      Text.ClockTextRoundTrip(elapsedSeconds);
    }
  }

  /** For durations and elapsed times that fit an `int`, the overlay's 32-bit countdown is the plain difference cut at zero. */
  lemma OverlayCountdownClamps(total: int, elapsedPhase: nat)
    requires 0 <= total < 0x8000_0000 && elapsedPhase < 0x8000_0000
    ensures OverlayRemaining(total, elapsedPhase) == if total < elapsedPhase then 0 else total - elapsedPhase
  {
    var d := total - elapsedPhase;
    if d < 0 {
      assert AsUint32(d) == d + 0x1_0000_0000;
    }
  }

  /** A label built as the clock text of `n` reads back as `n`. */
  lemma ClockLabelReadsBack(t: string, n: nat)
    requires t == Text.ClockText(n)
    ensures Text.ReadClock(t) == Some(n)
  {
    Text.ClockTextRoundTrip(n);
  }

  /** The Timer overlay labels during the delay and the hold, as clock texts of the 32-bit countdown. */
  lemma TimerOverlayLabels(rt: Runtime, now: nat)
    requires rt.phaseStart <= now
    ensures var remaining := OverlayRemaining(if rt.state == DelayRunning then rt.totalDelay else rt.totalRelease, (now - rt.phaseStart) / 1000);
            var text := TimerOverlayText(rt, now);
            && (rt.state in {DelayRunning, ReleaseRunning} ==> text.Some? && text.value.0 == Text.ClockText(remaining))
            && (rt.state == DelayRunning && rt.totalRelease > 0 ==> text.value.1 == "+" + Text.ClockText(rt.totalRelease))
            && (rt.state == DelayRunning && rt.totalRelease <= 0 ==> text.value.1 == "SHOT")
            && (rt.state == ReleaseRunning ==> text.value.1 == "HOLD")
            && (rt.state == TimerCompleting ==> text == Some(("SHOT", "Completing...")))
            && (!(rt.state in {DelayRunning, ReleaseRunning, TimerCompleting}) ==> text.None?)
  {
  }

  /**
   * While the Timer runs, its overlay shows the time left in the current
   * phase as a clock label: the phase's seconds minus the whole seconds
   * elapsed, cut at zero. Beside the delay it shows the hold time after a
   * "+", or "SHOT" in trigger mode; beside the hold, "HOLD".
   */
  lemma TimerOverlayShowsCountdown(rt: Runtime, now: nat)
    requires rt.state in {DelayRunning, ReleaseRunning}
    requires rt.phaseStart <= now && now - rt.phaseStart < 0x8000_0000
    requires 0 <= rt.totalDelay < 0x8000_0000 && 0 <= rt.totalRelease < 0x8000_0000
    ensures var elapsedPhase := (now - rt.phaseStart) / 1000;
            var phase := if rt.state == DelayRunning then rt.totalDelay else rt.totalRelease;
            var text := TimerOverlayText(rt, now);
            && text.Some?
            && Text.ReadClock(text.value.0) == Some(if phase < elapsedPhase then 0 else phase - elapsedPhase)
            && (rt.state == DelayRunning ==> (text.value.1 == "SHOT" <==> rt.totalRelease == 0))
            && (rt.state == ReleaseRunning ==> text.value.1 == "HOLD")
  {
    var elapsedPhase := (now - rt.phaseStart) / 1000;
    assert elapsedPhase < 0x8000_0000;
    var phase := if rt.state == DelayRunning then rt.totalDelay else rt.totalRelease;
    TimerOverlayLabels(rt, now);
    OverlayCountdownClamps(phase, elapsedPhase);
    ClockLabelReadsBack(TimerOverlayText(rt, now).value.0, OverlayRemaining(phase, elapsedPhase));
    if rt.state == DelayRunning && rt.totalRelease > 0 {
      assert TimerOverlayText(rt, now).value.1[0] == '+';
    }
  }
}
