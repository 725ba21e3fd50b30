/**
 * Remote control over BLE (bluetooth.h): the colon-separated TIMER, TLAPSE
 * and INTERVAL commands with their range checks, the routing of every
 * command to its reply string, the remote starts that write the shared
 * runtime record, and the status report. Sending the reply and the radio
 * itself are not part of this model.
 */
module Bluetooth {
  import opened Common
  import Text
  import StateMachine
  import opened TimerSystem

  const TimerPrefix: string := "TIMER:"
  const TlapsePrefix: string := "TLAPSE:"
  const IntervalPrefix: string := "INTERVAL:"
  const SimpleCommand: string := "SIMPLE"
  const CancelCommand: string := "CANCEL"
  const DisconnectCommand: string := "DISCONNECT"
  const StatusCommand: string := "STATUS"

  /** The largest number of seconds a remote command may ask for (59:59). */
  const MaxRemoteSeconds: int := 3599

  datatype TimerRequest = TimerRequest(delay: int, release: int, start: bool)
  datatype TlapseRequest = TlapseRequest(total: int, frames: int, start: bool)
  datatype IntervalRequest = IntervalRequest(interval: int, start: bool)

  /**
   * The `indexOf(':')` / `indexOf(':', first + 1)` split the TIMER and TLAPSE
   * parsers share: the text before the first colon, the text between the
   * first two, and the rest. None when there are fewer than two colons.
   */
  function SplitThree(params: string): (r: Option<(string, string, string)>)
    ensures r.Some? ==> params == r.value.0 + ":" + r.value.1 + ":" + r.value.2
    ensures r.Some? ==> ':' !in r.value.0 && ':' !in r.value.1
    ensures r.Some? <==> multiset(params)[':'] >= 2
  {
    var first := Text.IndexOf(params, ':', 0);
    var second := Text.IndexOf(params, ':', first + 1);
    if first == -1 then
      NoColon(params);
      None
    else if second == -1 then
      OneColon(params, first);
      None
    else
      var r := (Text.Substring(params, 0, first), Text.Substring(params, first + 1, second), Text.SubstringFrom(params, second + 1));
      assert params == params[..first] + [':'] + params[first + 1..second] + [':'] + params[second + 1..];
      Text.TwoOccurrences(params, ':', first, second);
      Some(r)
  }

  /** The `indexOf(':')` split of the INTERVAL parser: the text before the first colon and the rest; None without a colon. */
  function SplitTwo(params: string): (r: Option<(string, string)>)
    ensures r.Some? ==> params == r.value.0 + ":" + r.value.1 && ':' !in r.value.0
    ensures r.Some? <==> ':' in params
  {
    var colon := Text.IndexOf(params, ':', 0);
    if colon == -1 then None
    else
      assert params == params[..colon] + [':'] + params[colon + 1..];
      Some((Text.Substring(params, 0, colon), Text.SubstringFrom(params, colon + 1)))
  }

  lemma NoColon(s: string)
    requires Text.IndexOf(s, ':', 0) == -1
    ensures multiset(s)[':'] == 0
  {
    assert ':' !in s;
  }

  lemma OneColon(s: string, first: nat)
    requires first < |s| && s[first] == ':' && Text.IndexOf(s, ':', 0) == first && Text.IndexOf(s, ':', first + 1) == -1
    ensures multiset(s)[':'] == 1
  {
    var before, after := s[..first], s[first + 1..];
    assert s == before + [':'] + after;
    assert ':' !in before;
    assert ':' !in after by {
      forall k | 0 <= k < |after| ensures after[k] != ':' {
        assert after[k] == s[first + 1 + k];
      }
    }
    assert multiset(s) == multiset(before) + multiset{':'} + multiset(after);
  }

  /**
   * `parse_timer_command`: the text after "TIMER:" is `delay:release:start`;
   * `start` holds when the third field reads as 1. Fails without two colons
   * or with a delay or release outside 0..3599.
   */
  function ParseTimerCommand(command: string): (r: Option<TimerRequest>)
    ensures r.Some? ==> 0 <= r.value.delay <= MaxRemoteSeconds && 0 <= r.value.release <= MaxRemoteSeconds
    ensures r.Some? ==> multiset(Text.SubstringFrom(command, |TimerPrefix|))[':'] >= 2
  {
    match SplitThree(Text.SubstringFrom(command, |TimerPrefix|))
    case None => None
    case Some((d, rel, st)) =>
      var delay := Text.ToInt(d);
      var release := Text.ToInt(rel);
      var start := Text.ToInt(st) == 1;
      if delay < 0 || delay > MaxRemoteSeconds || release < 0 || release > MaxRemoteSeconds then None
      else Some(TimerRequest(delay, release, start))
  }

  /**
   * `parse_tlapse_command`: the text after "TLAPSE:" is `total:frames:start`.
   * Fails without two colons, with a total outside 1..3599, or with more
   * frames than seconds or fewer than none.
   */
  function ParseTlapseCommand(command: string): (r: Option<TlapseRequest>)
    ensures r.Some? ==> 1 <= r.value.total <= MaxRemoteSeconds && 0 <= r.value.frames <= r.value.total
    ensures r.Some? ==> multiset(Text.SubstringFrom(command, |TlapsePrefix|))[':'] >= 2
  {
    match SplitThree(Text.SubstringFrom(command, |TlapsePrefix|))
    case None => None
    case Some((t, f, st)) =>
      var total := Text.ToInt(t);
      var frames := Text.ToInt(f);
      var start := Text.ToInt(st) == 1;
      if total < 1 || total > MaxRemoteSeconds || frames < 0 || frames > total then None
      else Some(TlapseRequest(total, frames, start))
  }

  /** `parse_interval_command`: the text after "INTERVAL:" is `interval:start`; fails without a colon or outside 1..3599. */
  function ParseIntervalCommand(command: string): (r: Option<IntervalRequest>)
    ensures r.Some? ==> 1 <= r.value.interval <= MaxRemoteSeconds
    ensures r.Some? ==> ':' in Text.SubstringFrom(command, |IntervalPrefix|)
  {
    match SplitTwo(Text.SubstringFrom(command, |IntervalPrefix|))
    case None => None
    case Some((i, st)) =>
      var interval := Text.ToInt(i);
      var start := Text.ToInt(st) == 1;
      if interval < 1 || interval > MaxRemoteSeconds then None
      else Some(IntervalRequest(interval, start))
  }

  /** `start_remote_timer`: the requested delay and release go straight into the runtime; there is no start-up gate. */
  function RemoteTimerStarted(e: Engine, now: nat, delay: int, release: int): Engine
  {
    e.(rt := e.rt.(totalDelay := delay, totalRelease := release)).Launch(TimerMode, DelayRunning, now)
  }

  /** `start_remote_tlapse`. */
  function RemoteTlapseStarted(e: Engine, now: nat, total: int, frames: int): Engine
  {
    e.(rt := e.rt.(totalTime := total, totalFrames := frames)).Launch(TlapseMode, TlapseRunning, now)
  }

  /** `start_remote_interval`. */
  function RemoteIntervalStarted(e: Engine, now: nat, interval: int): Engine
  {
    e.(rt := e.rt.(intervalTime := interval)).Launch(IntervalMode, IntervalRunning, now)
  }

  function PageName(page: StateMachine.AppState): string
  {
    match page
    case Main => "MAIN"
    case TimerPage => "TIMER"
    case TlapsePage => "TLAPSE"
    case IntervalPage => "INTERVAL"
    case Settings => "SETTINGS"
    case _ => "UNKNOWN"
  }

  function StateName(state: ExecState): string
  {
    match state
    case Idle => "IDLE"
    case DelayRunning => "DELAY"
    case ReleaseRunning => "RELEASE"
    case TlapseRunning => "TLAPSE"
    case IntervalRunning => "INTERVAL"
    case _ => "UNKNOWN"
  }

  /** `get_device_status`. */
  function DeviceStatus(page: StateMachine.AppState, state: ExecState): string
  {
    "STATUS:" + PageName(page) + ",TIMER_STATE:" + StateName(state)
  }

  /** The TIMER branch of `process_ble_command`. */
  function TimerReply(e: Engine, command: string, now: nat): (Engine, string)
  {
    match ParseTimerCommand(command)
    case None => (e, "ERROR:INVALID_TIMER_FORMAT")
    case Some(req) =>
      var args := Text.Decimal(req.delay) + ":" + Text.Decimal(req.release);
      if req.start then (RemoteTimerStarted(e, now, req.delay, req.release), "OK:TIMER_STARTED:" + args)
      else (e, "OK:TIMER_SET:" + args)
  }

  /** The TLAPSE branch of `process_ble_command`. */
  function TlapseReply(e: Engine, command: string, now: nat): (Engine, string)
  {
    match ParseTlapseCommand(command)
    case None => (e, "ERROR:INVALID_TLAPSE_FORMAT")
    case Some(req) =>
      var args := Text.Decimal(req.total) + ":" + Text.Decimal(req.frames);
      if req.start then (RemoteTlapseStarted(e, now, req.total, req.frames), "OK:TLAPSE_STARTED:" + args)
      else (e, "OK:TLAPSE_SET:" + args)
  }

  /** The INTERVAL branch of `process_ble_command`. */
  function IntervalReply(e: Engine, command: string, now: nat): (Engine, string)
  {
    match ParseIntervalCommand(command)
    case None => (e, "ERROR:INVALID_INTERVAL_FORMAT")
    case Some(req) =>
      if req.start then (RemoteIntervalStarted(e, now, req.interval), "OK:INTERVAL_STARTED:" + Text.Decimal(req.interval))
      else (e, "OK:INTERVAL_SET:" + Text.Decimal(req.interval))
  }

  /** The exactly matched commands of `process_ble_command`, and the reply to anything else. */
  function KeywordReply(e: Engine, page: StateMachine.AppState, command: string, now: nat): (Engine, string)
  {
    if command == SimpleCommand then (e.ActivateServo(now), "OK:SIMPLE_TRIGGERED")
    else if command == CancelCommand then
      if e.rt.state != Idle then (e.Cancel(), "OK:ALL_CANCELLED") else (e, "OK:NOTHING_TO_CANCEL")
    else if command == StatusCommand then (e, DeviceStatus(page, e.rt.state))
    else if command == DisconnectCommand then (e, "OK:DISCONNECTING")
    else (e, "ERROR:UNKNOWN_COMMAND:" + command)
  }

  /**
   * `process_ble_command`: the engine after a command and the reply sent
   * back. The three settings commands are recognised by prefix, in the order
   * TIMER, TLAPSE, INTERVAL; the others must match exactly.
   */
  function Dispatch(e: Engine, page: StateMachine.AppState, command: string, now: nat): (Engine, string)
  {
    if Text.StartsWith(command, TimerPrefix) then TimerReply(e, command, now)
    else if Text.StartsWith(command, TlapsePrefix) then TlapseReply(e, command, now)
    else if Text.StartsWith(command, IntervalPrefix) then IntervalReply(e, command, now)
    else KeywordReply(e, page, command, now)
  }

  // ---------------------------------------------------------------------------
  // The shared runtime record, written in place
  // ---------------------------------------------------------------------------

  /** `start_remote_timer`. */
  method StartRemoteTimer(engine: TimerEngine, now: nat, delay: int, release: int)
    modifies engine
    ensures engine.Model() == RemoteTimerStarted(old(engine.Model()), now, delay, release)
  {
    engine.runtime := engine.runtime.(totalDelay := delay, totalRelease := release);
    engine.runtime := engine.runtime.(mode := TimerMode, state := DelayRunning, startTime := now, phaseStart := now,
                                      frameCount := 0, logicCompleted := false);
    engine.MoveServo(engine.servoStartPosition);
  }

  /** `start_remote_tlapse`. */
  method StartRemoteTlapse(engine: TimerEngine, now: nat, total: int, frames: int)
    modifies engine
    ensures engine.Model() == RemoteTlapseStarted(old(engine.Model()), now, total, frames)
  {
    engine.runtime := engine.runtime.(totalTime := total, totalFrames := frames);
    engine.runtime := engine.runtime.(mode := TlapseMode, state := TlapseRunning, startTime := now, phaseStart := now,
                                      frameCount := 0, logicCompleted := false);
    engine.MoveServo(engine.servoStartPosition);
  }

  /** `start_remote_interval`. */
  method StartRemoteInterval(engine: TimerEngine, now: nat, interval: int)
    modifies engine
    ensures engine.Model() == RemoteIntervalStarted(old(engine.Model()), now, interval)
  {
    engine.runtime := engine.runtime.(intervalTime := interval);
    engine.runtime := engine.runtime.(mode := IntervalMode, state := IntervalRunning, startTime := now, phaseStart := now,
                                      frameCount := 0, logicCompleted := false);
    engine.MoveServo(engine.servoStartPosition);
  }

  method ProcessTimerCommand(engine: TimerEngine, command: string, now: nat) returns (response: string)
    modifies engine
    ensures (engine.Model(), response) == TimerReply(old(engine.Model()), command, now)
  {
    var parsed := ParseTimerCommand(command);
    if parsed.Some? {
      var req := parsed.value;
      var args := Text.Decimal(req.delay) + ":" + Text.Decimal(req.release);
      if req.start {
        StartRemoteTimer(engine, now, req.delay, req.release);
        response := "OK:TIMER_STARTED:" + args;
      } else {
        response := "OK:TIMER_SET:" + args;
      }
    } else {
      response := "ERROR:INVALID_TIMER_FORMAT";
    }
  }

  method ProcessTlapseCommand(engine: TimerEngine, command: string, now: nat) returns (response: string)
    modifies engine
    ensures (engine.Model(), response) == TlapseReply(old(engine.Model()), command, now)
  {
    var parsed := ParseTlapseCommand(command);
    if parsed.Some? {
      var req := parsed.value;
      var args := Text.Decimal(req.total) + ":" + Text.Decimal(req.frames);
      if req.start {
        StartRemoteTlapse(engine, now, req.total, req.frames);
        response := "OK:TLAPSE_STARTED:" + args;
      } else {
        response := "OK:TLAPSE_SET:" + args;
      }
    } else {
      response := "ERROR:INVALID_TLAPSE_FORMAT";
    }
  }

  method ProcessIntervalCommand(engine: TimerEngine, command: string, now: nat) returns (response: string)
    modifies engine
    ensures (engine.Model(), response) == IntervalReply(old(engine.Model()), command, now)
  {
    var parsed := ParseIntervalCommand(command);
    if parsed.Some? {
      var req := parsed.value;
      if req.start {
        StartRemoteInterval(engine, now, req.interval);
        response := "OK:INTERVAL_STARTED:" + Text.Decimal(req.interval);
      } else {
        response := "OK:INTERVAL_SET:" + Text.Decimal(req.interval);
      }
    } else {
      response := "ERROR:INVALID_INTERVAL_FORMAT";
    }
  }

  method ProcessKeywordCommand(engine: TimerEngine, page: StateMachine.AppState, command: string, now: nat) returns (response: string)
    modifies engine
    ensures (engine.Model(), response) == KeywordReply(old(engine.Model()), page, command, now)
  {
    if command == SimpleCommand {
      engine.ActivateServo(now);
      response := "OK:SIMPLE_TRIGGERED";
    } else if command == CancelCommand {
      if engine.runtime.state != Idle {
        engine.Cancel();
        response := "OK:ALL_CANCELLED";
      } else {
        response := "OK:NOTHING_TO_CANCEL";
      }
    } else if command == StatusCommand {
      response := DeviceStatus(page, engine.runtime.state);
    } else if command == DisconnectCommand {
      response := "OK:DISCONNECTING";
    } else {
      response := "ERROR:UNKNOWN_COMMAND:" + command;
    }
  }

  /** `process_ble_command`: act on one command and return the reply it sends; `app` supplies the page for STATUS. */
  method ProcessBleCommand(engine: TimerEngine, app: StateMachine.AppStateMachine, command: string, now: nat) returns (response: string)
    modifies engine
    ensures (engine.Model(), response) == Dispatch(old(engine.Model()), app.currentState, command, now)
  {
    if Text.StartsWith(command, TimerPrefix) {
      response := ProcessTimerCommand(engine, command, now);
    } else if Text.StartsWith(command, TlapsePrefix) {
      response := ProcessTlapseCommand(engine, command, now);
    } else if Text.StartsWith(command, IntervalPrefix) {
      response := ProcessIntervalCommand(engine, command, now);
    } else {
      response := ProcessKeywordCommand(engine, app.currentState, command, now);
    }
  }

  // ---------------------------------------------------------------------------
  // Properties
  // ---------------------------------------------------------------------------

  /** The command the remote app sends for a Timer: `TIMER:delay:release:start`. */
  function TimerCommand(delay: nat, release: nat, start: nat): string
  {
    TimerPrefix + Text.Decimal(delay) + ":" + Text.Decimal(release) + ":" + Text.Decimal(start)
  }

  function TlapseCommand(total: nat, frames: nat, start: nat): string
  {
    TlapsePrefix + Text.Decimal(total) + ":" + Text.Decimal(frames) + ":" + Text.Decimal(start)
  }

  function IntervalCommand(interval: nat, start: nat): string
  {
    IntervalPrefix + Text.Decimal(interval) + ":" + Text.Decimal(start)
  }

  /** Fields written between colons, the first two made of digits, are split back out unchanged. */
  lemma SplitThreeOfDigits(a: string, b: string, c: string)
    requires Text.AllDigits(a) && Text.AllDigits(b)
    ensures SplitThree(a + ":" + b + ":" + c) == Some((a, b, c))
  {
    var p := a + ":" + b + ":" + c;
    Text.ThreeFields(a, b, c);
    var first := Text.IndexOf(p, ':', 0);
    var second := Text.IndexOf(p, ':', first + 1);
    assert first == |a| && second == |a| + 1 + |b|;
    assert (Text.Substring(p, 0, first), Text.Substring(p, first + 1, second), Text.SubstringFrom(p, second + 1)) == (a, b, c);
  }

  /** A Timer command the app writes is read back field for field; it is refused exactly when a time is above 3599. */
  lemma TimerCommandRoundTrip(delay: nat, release: nat, start: nat)
    ensures ParseTimerCommand(TimerCommand(delay, release, start)) ==
              if delay <= MaxRemoteSeconds && release <= MaxRemoteSeconds then Some(TimerRequest(delay, release, start == 1)) else None
  {
    var a, b, c := Text.Decimal(delay), Text.Decimal(release), Text.Decimal(start);
    var command := TimerCommand(delay, release, start);
    assert command == TimerPrefix + (a + ":" + b + ":" + c);
    assert Text.SubstringFrom(command, |TimerPrefix|) == a + ":" + b + ":" + c;
    SplitThreeOfDigits(a, b, c);
    Text.ToIntOfDecimal(delay);
    Text.ToIntOfDecimal(release);
    Text.ToIntOfDecimal(start);
  }

  /** A T-Lapse command the app writes is read back; it is refused exactly when the total is outside 1..3599 or the frames exceed it. */
  lemma TlapseCommandRoundTrip(total: nat, frames: nat, start: nat)
    ensures ParseTlapseCommand(TlapseCommand(total, frames, start)) ==
              if 1 <= total <= MaxRemoteSeconds && frames <= total then Some(TlapseRequest(total, frames, start == 1)) else None
  {
    var a, b, c := Text.Decimal(total), Text.Decimal(frames), Text.Decimal(start);
    var command := TlapseCommand(total, frames, start);
    assert command == TlapsePrefix + (a + ":" + b + ":" + c);
    assert Text.SubstringFrom(command, |TlapsePrefix|) == a + ":" + b + ":" + c;
    SplitThreeOfDigits(a, b, c);
    Text.ToIntOfDecimal(total);
    Text.ToIntOfDecimal(frames);
    Text.ToIntOfDecimal(start);
  }

  /** An Interval command the app writes is read back; it is refused exactly when the interval is outside 1..3599. */
  lemma IntervalCommandRoundTrip(interval: nat, start: nat)
    ensures ParseIntervalCommand(IntervalCommand(interval, start)) ==
              if 1 <= interval <= MaxRemoteSeconds then Some(IntervalRequest(interval, start == 1)) else None
  {
    var a, c := Text.Decimal(interval), Text.Decimal(start);
    var command := IntervalCommand(interval, start);
    assert command == IntervalPrefix + (a + ":" + c);
    assert Text.SubstringFrom(command, |IntervalPrefix|) == a + ":" + c;
    Text.TwoFields(a, c);
    assert SplitTwo(a + ":" + c) == Some((a, c));
    Text.ToIntOfDecimal(interval);
    Text.ToIntOfDecimal(start);
  }

  lemma SmallIsOwnUint32(x: int)
    requires 0 <= x <= MaxRemoteSeconds
    ensures AsUint32(x) == x
  {
  }

  /**
   * A remote Timer can never carry the trigger sentinel: its release is a
   * real number of seconds, and a release of 0 is what selects a single shot.
   */
  lemma RemoteReleaseIsNeverSentinel(command: string)
    ensures var r := ParseTimerCommand(command);
            r.Some? ==> r.value.release != -1 && AsUint32(r.value.release) != StateMachine.TriggerSentinel
  {
    var r := ParseTimerCommand(command);
    if r.Some? {
      var release := r.value.release;
      assert 0 <= release <= MaxRemoteSeconds;
      SmallIsOwnUint32(release);
    }
  }

  /**
   * A remote start sets the runtime just as the local start does for the
   * same values read from a page: the Timer when the servo has initialised
   * and the release is not the sentinel, T-Lapse and Interval always. Only
   * the remote Timer ignores the start-up gate.
   */
  lemma RemoteStartsMatchLocal(e: Engine, now: nat, store: StateMachine.Store)
    ensures var t := store.timer;
            e.initComplete && t.option2.seconds != StateMachine.TriggerSentinel ==>
              e.StartTimer(now, store) == RemoteTimerStarted(e, now, AsInt32(t.option1.seconds), AsInt32(t.option2.seconds))
    ensures !e.initComplete ==> e.StartTimer(now, store) == e
    ensures e.StartTlapse(now, store) ==
              RemoteTlapseStarted(e, now, AsInt32(store.tlapse.option1.seconds), AsInt32(store.tlapse.option2.seconds))
    ensures e.StartInterval(now, store) == RemoteIntervalStarted(e, now, AsInt32(store.interval.option1.seconds))
  {
  }

  /** Every remote start leaves the engine consistent, whatever it was doing. */
  lemma RemoteStartsEstablishInv(e: Engine, now: nat, delay: int, release: int, total: int, frames: int, interval: int)
    ensures RemoteTimerStarted(e, now, delay, release).Inv()
    ensures RemoteTlapseStarted(e, now, total, frames).Inv()
    ensures RemoteIntervalStarted(e, now, interval).Inv()
  {
  }

  /** A well-formed TIMER command with start set runs the Timer and replies with the values; with start clear it only replies. */
  lemma TimerCommandDispatch(e: Engine, page: StateMachine.AppState, delay: nat, release: nat, start: nat, now: nat)
    requires delay <= MaxRemoteSeconds && release <= MaxRemoteSeconds
    ensures var args := Text.Decimal(delay) + ":" + Text.Decimal(release);
            Dispatch(e, page, TimerCommand(delay, release, start), now) ==
              if start == 1 then (RemoteTimerStarted(e, now, delay, release), "OK:TIMER_STARTED:" + args)
              else (e, "OK:TIMER_SET:" + args)
  {
    TimerCommandRoundTrip(delay, release, start);
    var command := TimerCommand(delay, release, start);
    assert command[..|TimerPrefix|] == TimerPrefix;
  }

  /** A well-formed TLAPSE command with a total of at most 59:59 and no more frames than seconds: start it or only reply, according to `start`. */
  lemma TlapseCommandDispatch(e: Engine, page: StateMachine.AppState, total: nat, frames: nat, start: nat, now: nat)
    requires 1 <= total <= MaxRemoteSeconds && frames <= total
    ensures var args := Text.Decimal(total) + ":" + Text.Decimal(frames);
            Dispatch(e, page, TlapseCommand(total, frames, start), now) ==
              if start == 1 then (RemoteTlapseStarted(e, now, total, frames), "OK:TLAPSE_STARTED:" + args)
              else (e, "OK:TLAPSE_SET:" + args)
  {
    TlapseCommandRoundTrip(total, frames, start);
    var command := TlapseCommand(total, frames, start);
    assert command[..|TlapsePrefix|] == TlapsePrefix;
    TlapseIsNotTimer(command);
  }

  /** A TLAPSE command does not start with the TIMER prefix: the two differ in their second letter. */
  lemma TlapseIsNotTimer(s: string)
    requires Text.StartsWith(s, TlapsePrefix)
    ensures !Text.StartsWith(s, TimerPrefix)
  {
    assert s[1] == s[..|TlapsePrefix|][1] == 'L';
    assert s[..|TimerPrefix|][1] == s[1];
  }

  /** A well-formed INTERVAL command with an interval in 1..3599 seconds: start it or only reply, according to `start`. */
  lemma IntervalCommandDispatch(e: Engine, page: StateMachine.AppState, interval: nat, start: nat, now: nat)
    requires 1 <= interval <= MaxRemoteSeconds
    ensures Dispatch(e, page, IntervalCommand(interval, start), now) ==
              if start == 1 then (RemoteIntervalStarted(e, now, interval), "OK:INTERVAL_STARTED:" + Text.Decimal(interval))
              else (e, "OK:INTERVAL_SET:" + Text.Decimal(interval))
  {
    IntervalCommandPrefix(interval, start);
    IntervalCommandRoundTrip(interval, start);
  }

  /** An INTERVAL command starts with its own prefix and with neither the TIMER nor the TLAPSE one. */
  lemma IntervalCommandPrefix(interval: nat, start: nat)
    ensures var command := IntervalCommand(interval, start);
            Text.StartsWith(command, IntervalPrefix) && !Text.StartsWith(command, TimerPrefix) && !Text.StartsWith(command, TlapsePrefix)
  {
    var command := IntervalCommand(interval, start);
    assert command[..|IntervalPrefix|] == IntervalPrefix;
    FirstCharExcludes(command, TimerPrefix);
    FirstCharExcludes(command, TlapsePrefix);
  }

  /** A command starting with a settings prefix that does not parse gets the matching format error and changes nothing. */
  lemma MalformedCommandReplies(e: Engine, page: StateMachine.AppState, command: string, now: nat)
    ensures Text.StartsWith(command, TimerPrefix) && ParseTimerCommand(command).None? ==>
              Dispatch(e, page, command, now) == (e, "ERROR:INVALID_TIMER_FORMAT")
    ensures !Text.StartsWith(command, TimerPrefix) && Text.StartsWith(command, TlapsePrefix) && ParseTlapseCommand(command).None? ==>
              Dispatch(e, page, command, now) == (e, "ERROR:INVALID_TLAPSE_FORMAT")
    ensures !Text.StartsWith(command, TimerPrefix) && !Text.StartsWith(command, TlapsePrefix)
              && Text.StartsWith(command, IntervalPrefix) && ParseIntervalCommand(command).None? ==>
              Dispatch(e, page, command, now) == (e, "ERROR:INVALID_INTERVAL_FORMAT")
  {
  }

  /** A text whose first character differs from the prefix's does not start with it. */
  lemma FirstCharExcludes(s: string, prefix: string)
    requires |s| > 0 && |prefix| > 0 && s[0] != prefix[0]
    ensures !Text.StartsWith(s, prefix)
  {
    if |prefix| <= |s| {
      assert s[..|prefix|][0] == s[0];
    }
  }

  /** The keyword commands start with none of the settings prefixes. */
  lemma KeywordsAreNotPrefixed(command: string)
    requires command in {SimpleCommand, CancelCommand, StatusCommand, DisconnectCommand}
    ensures !Text.StartsWith(command, TimerPrefix) && !Text.StartsWith(command, TlapsePrefix) && !Text.StartsWith(command, IntervalPrefix)
  {
    assert command[0] in {'S', 'C', 'D'};
    FirstCharExcludes(command, TimerPrefix);
    FirstCharExcludes(command, TlapsePrefix);
    FirstCharExcludes(command, IntervalPrefix);
  }

  /** CANCEL cancels a running engine; an idle one is left exactly as it was. */
  lemma CancelCommandReplies(e: Engine, page: StateMachine.AppState, now: nat)
    ensures e.rt.state != Idle ==> Dispatch(e, page, CancelCommand, now) == (e.Cancel(), "OK:ALL_CANCELLED")
    ensures e.rt.state == Idle ==> Dispatch(e, page, CancelCommand, now) == (e, "OK:NOTHING_TO_CANCEL")
  {
    KeywordsAreNotPrefixed(CancelCommand);
  }

  /** SIMPLE presses the shutter once, in any mode, without touching the runtime record. */
  lemma SimpleCommandTriggers(e: Engine, page: StateMachine.AppState, now: nat)
    ensures Dispatch(e, page, SimpleCommand, now) == (e.ActivateServo(now), "OK:SIMPLE_TRIGGERED")
    ensures Dispatch(e, page, SimpleCommand, now).0.rt == e.rt
  {
    KeywordsAreNotPrefixed(SimpleCommand);
  }

  /** Any command that is neither a settings prefix nor one of the exact keywords is echoed back as unknown and changes nothing. */
  lemma UnknownCommandReplies(e: Engine, page: StateMachine.AppState, command: string, now: nat)
    requires !Text.StartsWith(command, TimerPrefix) && !Text.StartsWith(command, TlapsePrefix) && !Text.StartsWith(command, IntervalPrefix)
    requires command !in {SimpleCommand, CancelCommand, StatusCommand, DisconnectCommand}
    ensures Dispatch(e, page, command, now) == (e, "ERROR:UNKNOWN_COMMAND:" + command)
  {
  }

  /** Only a start command, SIMPLE or CANCEL can change the engine; STATUS, DISCONNECT, SET and errors leave it alone. */
  lemma OnlyActionsChangeEngine(e: Engine, page: StateMachine.AppState, command: string, now: nat)
    ensures Dispatch(e, page, command, now).0 != e ==>
              || (Text.StartsWith(command, TimerPrefix) && ParseTimerCommand(command).Some? && ParseTimerCommand(command).value.start)
              || (Text.StartsWith(command, TlapsePrefix) && ParseTlapseCommand(command).Some? && ParseTlapseCommand(command).value.start)
              || (Text.StartsWith(command, IntervalPrefix) && ParseIntervalCommand(command).Some? && ParseIntervalCommand(command).value.start)
              || command == SimpleCommand || command == CancelCommand
  {
  }

  /**
   * The status report names the page and the run state; the running states
   * have names of their own, and the completing states all read "UNKNOWN".
   */
  lemma StatusNamesStates(page: StateMachine.AppState, a: ExecState, b: ExecState)
    ensures Text.StartsWith(DeviceStatus(page, a), "STATUS:")
    ensures a.IsCompleting() ==> StateName(a) == "UNKNOWN"
    ensures !a.IsCompleting() && !b.IsCompleting() && StateName(a) == StateName(b) ==> a == b
    ensures !a.IsCompleting() ==> StateName(a) != "UNKNOWN"
  {
    assert DeviceStatus(page, a)[..7] == "STATUS:";
  }
}
