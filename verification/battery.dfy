/**
 * The battery subsystem: the MAX17048 fuel gauge's state-of-charge reading,
 * the level shown in the header widget, the screen chosen from the charger
 * and power-switch pins, the charging and demo animations, and the serial
 * commands that drive it by hand.
 *
 * Register reads and pin levels are parameters: `version` and `rawSoc` are
 * what the gauge's registers return (0xFFFF when the I2C transfer fails),
 * `charging` and `switchOn` what the two pins read.
 */
module Battery {
  import opened Common
  import opened Text

  /** `BATTERY_FILL_MAX_WIDTH`: the fill bar's width, in pixels, at 100%. */
  const FillMaxWidth: nat := 20
  /** `battery_system_update` does nothing until this many ms have passed since its last run. */
  const UpdatePeriodMs: nat := 500
  /** The charging animation moves at most once per this many ms, by `ChargeStep` percent. */
  const ChargeStepPeriodMs: nat := 800
  const ChargeStep: nat := 3
  /** The demo animation moves at most once per this many ms, by `DemoStep` percent, never below `DemoFloor`. */
  const DemoStepPeriodMs: nat := 2000
  const DemoStep: nat := 5
  const DemoFloor: uint8 := 10
  /** What a register read returns when the I2C transfer fails. */
  const ReadFailed: uint16 := 0xFFFF

  /** `system_state`, whose codes are 0 Normal, 1 ChargingAnimation, 2 ChargingOverlay, 3 Demo, 4 OffScreen. */
  datatype SystemState = Normal | ChargingAnimation | ChargingOverlay | Demo | OffScreen
  {
    /** The two screens the firmware shows while the charger is plugged in. */
    predicate OnCharger()
    {
      this == ChargingAnimation || this == ChargingOverlay
    }
  }

  /** `battery_info_t`: the shown level, the gauge's last reading and the pin and sensor status. */
  datatype BatteryInfo = BatteryInfo(
    level: uint8,
    realLevel: uint8,
    isCharging: bool,
    isPowerSwitchOn: bool,
    showPercentage: bool,
    sensorAvailable: bool,
    systemState: SystemState)

  /** The value `battery_state` starts with and `battery_init` resets it to: 85%, switch on, no gauge, demo. */
  const InitialInfo: BatteryInfo := BatteryInfo(85, 85, false, true, false, false, Demo)

  /** `max17048_init`: the gauge is present when its version register reads neither 0xFFFF nor 0. */
  predicate SensorAnswers(version: uint16)
  {
    version != ReadFailed && version != 0
  }

  /** `max17048_read_soc`: the high byte of the SOC register, capped at 100; None when the read failed. */
  function ReadSoc(raw: uint16): (r: Option<uint8>)
    ensures r.None? <==> raw == ReadFailed
    ensures r.Some? ==> r.value <= 100
    ensures r.Some? && raw / 256 <= 100 ==> r.value == raw / 256
    ensures r.Some? && raw / 256 > 100 ==> r.value == 100
  {
    if raw == ReadFailed then None
    else
      var soc := (raw / 0x100) % 0x100;
      Some(if soc > 100 then 100 else soc)
  }

  /** `battery_set_level`'s cap: a level above 100 is shown as 100. */
  function ClampLevel(level: uint8): (r: uint8)
    ensures r <= 100
    ensures level <= 100 ==> r == level
    ensures level > 100 ==> r == 100
  {
    if level > 100 then 100 else level
  }

  /** The fill bar's width for a level: proportional, rounded down, but at least one pixel for any charge. */
  function FillWidth(level: uint8): int
  {
    var w := level * FillMaxWidth / 100;
    if w < 1 && level > 0 then 1 else w
  }

  /** The fill bar stays inside its frame, is empty only at 0%, full at 100%, and grows with the level. */
  lemma FillWidthBounds(level: uint8)
    requires level <= 100
    ensures 0 <= FillWidth(level) <= FillMaxWidth
    ensures FillWidth(level) == 0 <==> level == 0
    ensures level == 100 ==> FillWidth(level) == FillMaxWidth
  {
  }

  lemma FillWidthMonotone(a: uint8, b: uint8)
    requires a <= b
    ensures FillWidth(a) <= FillWidth(b)
  {
    assert a * FillMaxWidth <= b * FillMaxWidth;
  }

  /** The screen the pins call for: the charger pin alone decides between the charging screens and the rest. */
  function SystemStateFor(charging: bool, switchOn: bool, sensorAvailable: bool): (s: SystemState)
    ensures s.OnCharger() <==> charging
    ensures s == ChargingAnimation <==> charging && switchOn
    ensures s == OffScreen <==> !charging && !switchOn
    ensures s == Normal <==> !charging && switchOn && sensorAvailable
    ensures s == Demo <==> !charging && switchOn && !sensorAvailable
  {
    if !charging && !switchOn then OffScreen
    else if charging && !switchOn then ChargingOverlay
    else if !charging && switchOn then (if sensorAvailable then Normal else Demo)
    else ChargingAnimation
  }

  /**
   * One step of an animation that bounces between `floor` and 100, as the
   * source writes it: the new level is computed in `uint8_t`, so a
   * decreasing step from below `step` wraps around to 251..255 instead of
   * going below zero. The result goes through `battery_set_level`.
   */
  function BounceStepAsWritten(level: uint8, increasing: bool, step: nat, floor: uint8): (uint8, bool)
  {
    var next := AsUint8(if increasing then level + step else level - step);
    if increasing && next >= 100 then (100, false)
    else if !increasing && next <= floor then (floor, true)
    else (ClampLevel(next), increasing)
  }

  /**
   * One step of the bounce animation as intended: up by `step` until 100 is
   * reached, then down by `step` until `floor` is reached, then up again.
   * A turn happens only at an end; a level that starts between `floor` and
   * 100 stays there.
   */
  function BounceStep(level: uint8, increasing: bool, step: nat, floor: uint8): (r: (uint8, bool))
    requires floor <= 100
    ensures r.0 <= 100
    ensures r.1 != increasing ==> r.0 == (if increasing then 100 else floor)
    ensures increasing ==> r.0 >= level || r.0 == 100
    ensures !increasing ==> r.0 <= level || r.0 == floor
    ensures floor <= level <= 100 ==> floor <= r.0
    ensures increasing && level + step < 100 ==> r == (level + step, true)
    ensures increasing && level + step >= 100 ==> r == (100, false)
    ensures !increasing && level <= 100 && level - step > floor ==> r == (level - step, false)
    ensures !increasing && level - step <= floor ==> r == (floor, true)
  {
    var next: int := if increasing then level + step else level - step;
    if increasing && next >= 100 then (100, false)
    else if !increasing && next <= floor then (floor, true)
    else (ClampLevel(next), increasing)
  }

  /** Where no wrap-around can happen, the code as written and the intended step agree. */
  lemma StepsAgreeWithoutWrap(level: uint8, increasing: bool, step: nat, floor: uint8)
    requires floor <= 100 && level + step < 0x100
    requires increasing || step <= level
    ensures BounceStepAsWritten(level, increasing, step, floor) == BounceStep(level, increasing, step, floor)
  {
  }

  /**
   * A charging animation going down from 2% with the gauge at 0%: the code
   * as written computes 2 - 3 as 255, misses the floor and shows 100% while
   * still going down; the intended step stops at the floor and turns.
   */
  lemma ChargeStepWrapsAsWritten()
    ensures BounceStepAsWritten(2, false, ChargeStep, 0) == (100, false)
    ensures BounceStep(2, false, ChargeStep, 0) == (0, true)
  {
  }

  /** The same wrap in the demo animation: from 2% going down, the code as written jumps to 100%. */
  lemma DemoStepWrapsAsWritten()
    ensures BounceStepAsWritten(2, false, DemoStep, DemoFloor) == (100, false)
    ensures BounceStep(2, false, DemoStep, DemoFloor) == (DemoFloor, true)
  {
  }

  /** The serial commands of `handle_battery_serial_commands`. */
  datatype SerialCommand =
    | SetLevelCommand(level: uint8)
    | DemoOn
    | DemoOff
    | ShowStatus
    | ChargeOn
    | ChargeOff
    | ShowGauge
    | ShowPins
    | ShowState
    | Ignored

  const LevelPrefix: string := "bat "

  /** The keyword commands, each of which begins with `LevelPrefix`. */
  const Keywords: set<string> := {
    "bat demo on", "bat demo off", "bat status", "bat charge on",
    "bat charge off", "bat max17048", "bat pins", "bat state"
  }

  /** The keyword a command names, when it names one. */
  function KeywordCommand(command: string): (r: Option<SerialCommand>)
    ensures r.Some? <==> command in Keywords
  {
    if command == "bat demo on" then Some(DemoOn)
    else if command == "bat demo off" then Some(DemoOff)
    else if command == "bat status" then Some(ShowStatus)
    else if command == "bat charge on" then Some(ChargeOn)
    else if command == "bat charge off" then Some(ChargeOff)
    else if command == "bat max17048" then Some(ShowGauge)
    else if command == "bat pins" then Some(ShowPins)
    else if command == "bat state" then Some(ShowState)
    else None
  }

  /** "bat <n>": the number `toInt` reads after the prefix, applied when it is a percentage. */
  function LevelCommand(command: string): SerialCommand
    requires StartsWith(command, LevelPrefix)
  {
    var level := ToInt(SubstringFrom(command, |LevelPrefix|));
    if 0 <= level <= 100 then SetLevelCommand(level) else Ignored
  }

  /**
   * The parser as written: the "bat " prefix is checked first, and every
   * keyword command begins with it, so no keyword is ever recognised.
   */
  function ParseSerialCommandAsWritten(command: string): (r: SerialCommand)
    ensures r.SetLevelCommand? || r.Ignored?
  {
    if StartsWith(command, LevelPrefix) then LevelCommand(command)
    else
      match KeywordCommand(command)
      case Some(keyword) => keyword
      case None => Ignored
  }

  /** The parser as intended: the keywords first, then "bat <n>". */
  function ParseSerialCommand(command: string): (r: SerialCommand)
    ensures command in Keywords ==> !r.SetLevelCommand? && !r.Ignored?
    ensures r.SetLevelCommand? ==> StartsWith(command, LevelPrefix) && r.level == ToInt(SubstringFrom(command, |LevelPrefix|))
  {
    match KeywordCommand(command)
    case Some(keyword) => keyword
    case None => if StartsWith(command, LevelPrefix) then LevelCommand(command) else Ignored
  }

  /** `toInt` of a text that begins with a letter (neither space, sign nor digit) is 0. */
  lemma ToIntOfWord(t: string)
    requires t != [] && !IsSpace(t[0]) && !IsDigit(t[0]) && t[0] != '-' && t[0] != '+'
    ensures ToInt(t) == 0
  {
    assert SkipSpaces(t) == t;
    assert LeadingDigits(t) == [];
  }

  /**
   * Every keyword command, read by the parser as written, sets the level to
   * 0%: "bat demo on" is taken for "bat " followed by a number, and `toInt`
   * of "demo on" is 0.
   */
  lemma KeywordsSetLevelZeroAsWritten(command: string)
    requires command in Keywords
    ensures ParseSerialCommandAsWritten(command) == SetLevelCommand(0)
  {
    var rest := command[|LevelPrefix|..];
    assert StartsWith(command, LevelPrefix);
    assert rest != [] && 'a' <= rest[0] <= 'z';
    ToIntOfWord(rest);
  }

  /** The parser as intended recognises each keyword. */
  lemma KeywordsRecognised()
    ensures ParseSerialCommand("bat demo on") == DemoOn
    ensures ParseSerialCommand("bat demo off") == DemoOff
    ensures ParseSerialCommand("bat status") == ShowStatus
    ensures ParseSerialCommand("bat charge on") == ChargeOn
    ensures ParseSerialCommand("bat charge off") == ChargeOff
    ensures ParseSerialCommand("bat max17048") == ShowGauge
    ensures ParseSerialCommand("bat pins") == ShowPins
    ensures ParseSerialCommand("bat state") == ShowState
  {
  }

  /** Off the keywords, the two parsers agree. */
  lemma ParsersAgreeOffKeywords(command: string)
    requires command !in Keywords
    ensures ParseSerialCommand(command) == ParseSerialCommandAsWritten(command)
  {
  }

  /** The text "bat <n>": it sets the level to `n` exactly when `n` is a percentage, and is ignored otherwise. */
  lemma LevelCommandRoundTrip(n: nat)
    ensures ParseSerialCommand(LevelPrefix + Decimal(n)) == if n <= 100 then SetLevelCommand(n) else Ignored
  {
    var command := LevelPrefix + Decimal(n);
    assert IsDigit(command[|LevelPrefix|]);
    assert command !in Keywords by {
      forall k | k in Keywords ensures k != command {
        assert !IsDigit(k[|LevelPrefix|]);
      }
    }
    assert StartsWith(command, LevelPrefix);
    assert SubstringFrom(command, |LevelPrefix|) == Decimal(n);
    ToIntOfDecimal(n);
  }

  /** The state the battery code keeps between calls: `battery_state` and its four companion globals. */
  datatype BatteryModel = BatteryModel(
    info: BatteryInfo,
    lastUpdate: nat,
    lastAnimation: nat,
    demoEnabled: bool,
    animationIncreasing: bool)
  {
    /** No recorded time lies after `now`: `millis()` has not gone backwards. */
    predicate TimesNotAfter(now: nat)
    {
      lastUpdate <= now && lastAnimation <= now
    }

    /** Both levels are percentages. */
    predicate Valid()
    {
      info.level <= 100 && info.realLevel <= 100
    }

    /** `battery_set_level`. */
    function SetLevel(level: uint8): BatteryModel
    {
      this.(info := info.(level := ClampLevel(level)))
    }

    /** `battery_set_charging`. */
    function SetCharging(charging: bool): BatteryModel
    {
      this.(info := info.(isCharging := charging))
    }

    /** A successful gauge reading, stored as the real level and shown. */
    function WithReading(soc: uint8): BatteryModel
    {
      this.(info := info.(realLevel := soc)).SetLevel(soc)
    }

    /** A gauge read in the charging-overlay and off screens: a successful one is shown, a failed one changes nothing. */
    function ReadIfAvailable(rawSoc: uint16): BatteryModel
    {
      if info.sensorAvailable && ReadSoc(rawSoc).Some? then WithReading(ReadSoc(rawSoc).value) else this
    }

    /** The normal screen: the gauge's reading is shown; a failed read drops the gauge and falls back to the demo. */
    function NormalStep(rawSoc: uint16): BatteryModel
    {
      if !info.sensorAvailable then this
      else match ReadSoc(rawSoc)
        case Some(soc) => WithReading(soc)
        case None => this.(info := info.(systemState := Demo, sensorAvailable := false))
    }

    /** The charging animation: every 800 ms the level moves 3% between the gauge's reading and 100%. */
    function ChargeAnimationStep(now: nat, rawSoc: uint16): BatteryModel
      requires TimesNotAfter(now) && info.realLevel <= 100
    {
      if now - lastAnimation <= ChargeStepPeriodMs then this
      else
        var realSoc := if info.sensorAvailable && ReadSoc(rawSoc).Some? then ReadSoc(rawSoc).value else info.realLevel;
        var step := BounceStep(info.level, animationIncreasing, ChargeStep, realSoc);
        this.(lastAnimation := now, info := info.(realLevel := realSoc), animationIncreasing := step.1).SetLevel(step.0)
    }

    /** The demo: while it is enabled, every 2 s the level moves 5% between 10% and 100%. */
    function DemoStepAt(now: nat): BatteryModel
      requires TimesNotAfter(now)
    {
      if !demoEnabled || now - lastAnimation <= DemoStepPeriodMs then this
      else
        var step := BounceStep(info.level, animationIncreasing, DemoStep, DemoFloor);
        this.(lastAnimation := now, animationIncreasing := step.1).SetLevel(step.0)
    }

    /**
     * `battery_system_update` at time `now`, with the pins reading
     * `charging` and `switchOn` and the gauge's SOC register `rawSoc`.
     */
    function Update(now: nat, charging: bool, switchOn: bool, rawSoc: uint16): BatteryModel
      requires TimesNotAfter(now) && info.realLevel <= 100
    {
      if now - lastUpdate <= UpdatePeriodMs then this
      else
        var m := this.(lastUpdate := now, info := info.(
          isCharging := charging,
          isPowerSwitchOn := switchOn,
          systemState := SystemStateFor(charging, switchOn, info.sensorAvailable)));
        match m.info.systemState
        case Normal => m.NormalStep(rawSoc)
        case ChargingAnimation => m.ChargeAnimationStep(now, rawSoc)
        case ChargingOverlay => m.ReadIfAvailable(rawSoc)
        case Demo => m.DemoStepAt(now)
        case OffScreen => m.ReadIfAvailable(rawSoc)
    }

    /** `set_real_battery_level`: stop the demo, stay on the demo screen and show `level`. */
    function SetRealBatteryLevel(level: uint8): BatteryModel
    {
      this.(demoEnabled := false, info := info.(systemState := Demo)).SetLevel(level)
    }

    /** `toggle_battery_demo`: enabling shows the demo; disabling returns to normal only when the gauge is there. */
    function ToggleDemo(enable: bool): BatteryModel
    {
      var m := this.(demoEnabled := enable);
      if enable then m.(info := info.(systemState := Demo))
      else if info.sensorAvailable then m.(info := info.(systemState := Normal))
      else m
    }

    /** The effect of one serial command; the commands that only print change nothing. */
    function HandleSerialCommand(command: string): BatteryModel
    {
      match ParseSerialCommand(command)
      case SetLevelCommand(level) => SetRealBatteryLevel(level)
      case DemoOn => ToggleDemo(true)
      case DemoOff => ToggleDemo(false)
      case ChargeOn => SetCharging(true)
      case ChargeOff => SetCharging(false)
      case _ => this
    }
  }

  /** The globals' initial values followed by `battery_init`, given what the gauge's version register reads. */
  function InitialModel(version: uint16): (m: BatteryModel)
    ensures m.Valid() && m.info.level == 85 && m.demoEnabled
    ensures m.info.sensorAvailable <==> SensorAnswers(version)
    ensures m.info.systemState == (if SensorAnswers(version) then Normal else Demo)
  {
    var info := if SensorAnswers(version) then InitialInfo.(sensorAvailable := true, systemState := Normal) else InitialInfo;
    BatteryModel(info, 0, 0, true, true)
  }

  /**
   * An update does nothing within 500 ms of the last one; otherwise it
   * records the pins, shows the screen they call for (or the demo, when the
   * gauge just failed on the normal screen), and keeps both levels
   * percentages.
   */
  lemma UpdateFollowsPins(m: BatteryModel, now: nat, charging: bool, switchOn: bool, rawSoc: uint16)
    requires m.TimesNotAfter(now) && m.Valid()
    ensures var r := m.Update(now, charging, switchOn, rawSoc);
            var wanted := SystemStateFor(charging, switchOn, m.info.sensorAvailable);
            && r.Valid() && r.TimesNotAfter(now)
            && (now - m.lastUpdate <= UpdatePeriodMs ==> r == m)
            && (now - m.lastUpdate > UpdatePeriodMs ==>
                  && r.lastUpdate == now
                  && r.info.isCharging == charging && r.info.isPowerSwitchOn == switchOn
                  && r.info.systemState == (if wanted == Normal && rawSoc == ReadFailed then Demo else wanted)
                  && (wanted == Normal && rawSoc == ReadFailed ==> !r.info.sensorAvailable))
  {
  }

  /** The gauge is given up only after a failed read on the normal screen, and never comes back through an update. */
  lemma SensorLossIsPermanent(m: BatteryModel, now: nat, charging: bool, switchOn: bool, rawSoc: uint16)
    requires m.TimesNotAfter(now) && m.Valid()
    ensures var r := m.Update(now, charging, switchOn, rawSoc);
            && (!m.info.sensorAvailable ==> !r.info.sensorAvailable)
            && (m.info.sensorAvailable && !r.info.sensorAvailable ==>
                  rawSoc == ReadFailed && SystemStateFor(charging, switchOn, true) == Normal)
  {
  }

  /** Outside the charging animation and the demo, a successful gauge read is what the widget shows. */
  lemma GaugeReadingIsShown(m: BatteryModel, now: nat, charging: bool, switchOn: bool, rawSoc: uint16)
    requires m.TimesNotAfter(now) && m.Valid()
    requires now - m.lastUpdate > UpdatePeriodMs && m.info.sensorAvailable && rawSoc != ReadFailed
    requires !(charging && switchOn)
    ensures var r := m.Update(now, charging, switchOn, rawSoc);
            r.info.level == r.info.realLevel == ReadSoc(rawSoc).value
  {
  }

  /** The demo keeps a level between 10% and 100% inside that band. */
  lemma DemoStaysInBand(m: BatteryModel, now: nat, switchOn: bool, rawSoc: uint16)
    requires m.TimesNotAfter(now) && m.Valid() && DemoFloor <= m.info.level
    requires SystemStateFor(false, switchOn, m.info.sensorAvailable) == Demo
    ensures var r := m.Update(now, false, switchOn, rawSoc);
            DemoFloor <= r.info.level <= 100
  {
  }

  /**
   * While on the charger with the switch on, a downward step of the
   * animation never goes below the gauge's reading (the fresh one when the
   * gauge answers, the last one otherwise): it either moves down by 3%, or
   * stops at the reading and turns back up.
   */
  lemma ChargeAnimationFloor(m: BatteryModel, now: nat, rawSoc: uint16)
    requires m.TimesNotAfter(now) && m.Valid()
    requires now - m.lastUpdate > UpdatePeriodMs && now - m.lastAnimation > ChargeStepPeriodMs
    requires !m.animationIncreasing
    ensures var r := m.Update(now, true, true, rawSoc);
            && r.info.realLevel <= r.info.level
            && (r.info.level == r.info.realLevel || r.info.level + ChargeStep == m.info.level)
            && (r.animationIncreasing <==> r.info.level == r.info.realLevel)
  {
  }

  /**
   * The charging animation's pace. Within 800 ms of its last move it leaves
   * the level, the direction and the move's time alone. Past that, it
   * records the time, takes the gauge's reading as the floor when the gauge
   * answers, and moves the level by exactly 3% (up towards 100%, down
   * towards the floor), or stops at that end and turns.
   */
  lemma ChargeAnimationPace(m: BatteryModel, now: nat, rawSoc: uint16)
    requires m.TimesNotAfter(now) && m.Valid()
    requires now - m.lastUpdate > UpdatePeriodMs
    ensures var r := m.Update(now, true, true, rawSoc);
            var floor := if m.info.sensorAvailable && rawSoc != ReadFailed then ReadSoc(rawSoc).value else m.info.realLevel;
            && r.info.systemState == ChargingAnimation
            && (now - m.lastAnimation <= ChargeStepPeriodMs ==>
                  && r.info.level == m.info.level && r.info.realLevel == m.info.realLevel
                  && r.animationIncreasing == m.animationIncreasing && r.lastAnimation == m.lastAnimation)
            && (now - m.lastAnimation > ChargeStepPeriodMs ==>
                  && r.lastAnimation == now && r.info.realLevel == floor
                  && (m.animationIncreasing ==>
                        if m.info.level + ChargeStep < 100 then r.info.level == m.info.level + ChargeStep && r.animationIncreasing
                        else r.info.level == 100 && !r.animationIncreasing)
                  && (!m.animationIncreasing ==>
                        if m.info.level - ChargeStep > floor then r.info.level == m.info.level - ChargeStep && !r.animationIncreasing
                        else r.info.level == floor && r.animationIncreasing))
  {
  }

  /**
   * The demo's pace. While it is disabled, or within 2 s of its last move,
   * the level, the direction and the move's time stay as they are. Past
   * that, it records the time and moves the level by exactly 5% (up towards
   * 100%, down towards 10%), or stops at that end and turns.
   */
  lemma DemoAnimationPace(m: BatteryModel, now: nat, switchOn: bool, rawSoc: uint16)
    requires m.TimesNotAfter(now) && m.Valid()
    requires now - m.lastUpdate > UpdatePeriodMs
    requires SystemStateFor(false, switchOn, m.info.sensorAvailable) == Demo
    ensures var r := m.Update(now, false, switchOn, rawSoc);
            && r.info.systemState == Demo && r.info.realLevel == m.info.realLevel
            && (!m.demoEnabled || now - m.lastAnimation <= DemoStepPeriodMs ==>
                  && r.info.level == m.info.level
                  && r.animationIncreasing == m.animationIncreasing && r.lastAnimation == m.lastAnimation)
            && (m.demoEnabled && now - m.lastAnimation > DemoStepPeriodMs ==>
                  && r.lastAnimation == now
                  && (m.animationIncreasing ==>
                        if m.info.level + DemoStep < 100 then r.info.level == m.info.level + DemoStep && r.animationIncreasing
                        else r.info.level == 100 && !r.animationIncreasing)
                  && (!m.animationIncreasing ==>
                        if m.info.level - DemoStep > DemoFloor then r.info.level == m.info.level - DemoStep && !r.animationIncreasing
                        else r.info.level == DemoFloor && r.animationIncreasing))
  {
  }

  /** "bat <n>" with `n` a percentage stops the demo and shows exactly `n`; a larger `n` changes nothing. */
  lemma LevelCommandSetsLevel(m: BatteryModel, n: nat)
    ensures var r := m.HandleSerialCommand(LevelPrefix + Decimal(n));
            && (n <= 100 ==> r == m.(demoEnabled := false, info := m.info.(level := n, systemState := Demo)))
            && (n > 100 ==> r == m)
  {
    LevelCommandRoundTrip(n);
  }

  /** "bat demo on" turns the demo on and shows it; "bat demo off" turns it off and returns to the gauge when there is one. */
  lemma DemoCommandsToggle(m: BatteryModel)
    ensures var on := m.HandleSerialCommand("bat demo on");
            on.demoEnabled && on.info.systemState == Demo && on.info.level == m.info.level
    ensures var off := m.HandleSerialCommand("bat demo off");
            && !off.demoEnabled && off.info.level == m.info.level
            && off.info.systemState == (if m.info.sensorAvailable then Normal else m.info.systemState)
  {
    KeywordsRecognised();
  }

  /**
   * The battery code's globals as an object: `battery_state` plus the
   * update and animation timestamps, the demo switch and the animation's
   * direction.
   */
  class BatteryManager {
    var info: BatteryInfo
    var lastUpdate: nat
    var lastAnimation: nat
    var demoEnabled: bool
    var animationIncreasing: bool

    function Model(): BatteryModel
      reads this
    {
      BatteryModel(info, lastUpdate, lastAnimation, demoEnabled, animationIncreasing)
    }

    /** The globals' initial values, then `battery_init` with the gauge's version register reading `version`. */
    constructor(version: uint16)
      ensures Model() == InitialModel(version)
    {
      var state := InitialInfo;
      if SensorAnswers(version) {
        state := state.(sensorAvailable := true, systemState := Normal);
      }
      info := state;
      lastUpdate := 0;
      lastAnimation := 0;
      demoEnabled := true;
      animationIncreasing := true;
    }

    /** `battery_get_level`. */
    function Level(): (level: uint8)
      reads this
      requires Model().Valid()
      ensures level <= 100
    {
      info.level
    }

    method SetLevel(level: uint8)
      modifies this
      ensures Model() == old(Model()).SetLevel(level)
    {
      info := info.(level := if level > 100 then 100 else level);
    }

    method SetCharging(charging: bool)
      modifies this
      ensures Model() == old(Model()).SetCharging(charging)
    {
      info := info.(isCharging := charging);
    }

    method Update(now: nat, charging: bool, switchOn: bool, rawSoc: uint16)
      requires Model().TimesNotAfter(now) && Model().Valid()
      modifies this
      ensures Model() == old(Model()).Update(now, charging, switchOn, rawSoc)
      ensures Model().Valid() && Model().TimesNotAfter(now)
    {
      if now - lastUpdate <= UpdatePeriodMs {
        return;
      }
      lastUpdate := now;
      info := info.(isCharging := charging, isPowerSwitchOn := switchOn);
      info := info.(systemState := SystemStateFor(charging, switchOn, info.sensorAvailable));
      var soc := ReadSoc(rawSoc);
      match info.systemState {
        case Normal =>
          if info.sensorAvailable {
            if soc.Some? {
              info := info.(realLevel := soc.value);
              SetLevel(soc.value);
            } else {
              info := info.(systemState := Demo, sensorAvailable := false);
            }
          }
        case ChargingAnimation =>
          if now - lastAnimation > ChargeStepPeriodMs {
            lastAnimation := now;
            var realSoc := info.realLevel;
            if info.sensorAvailable && soc.Some? {
              realSoc := soc.value;
              info := info.(realLevel := realSoc);
            }
            var step := BounceStep(info.level, animationIncreasing, ChargeStep, realSoc);
            animationIncreasing := step.1;
            SetLevel(step.0);
          }
        case ChargingOverlay =>
          if info.sensorAvailable && soc.Some? {
            info := info.(realLevel := soc.value);
            SetLevel(soc.value);
          }
        case Demo =>
          if demoEnabled && now - lastAnimation > DemoStepPeriodMs {
            lastAnimation := now;
            var step := BounceStep(info.level, animationIncreasing, DemoStep, DemoFloor);
            animationIncreasing := step.1;
            SetLevel(step.0);
          }
        case OffScreen =>
          if info.sensorAvailable && soc.Some? {
            info := info.(realLevel := soc.value);
            SetLevel(soc.value);
          }
      }
      UpdateFollowsPins(old(Model()), now, charging, switchOn, rawSoc);
    }

    method SetRealBatteryLevel(level: uint8)
      modifies this
      ensures Model() == old(Model()).SetRealBatteryLevel(level)
    {
      demoEnabled := false;
      info := info.(systemState := Demo);
      SetLevel(level);
    }

    method ToggleDemo(enable: bool)
      modifies this
      ensures Model() == old(Model()).ToggleDemo(enable)
    {
      demoEnabled := enable;
      if enable {
        info := info.(systemState := Demo);
      } else if info.sensorAvailable {
        info := info.(systemState := Normal);
      }
    }

    method HandleSerialCommand(command: string)
      modifies this
      ensures Model() == old(Model()).HandleSerialCommand(command)
    {
      match ParseSerialCommand(command) {
        case SetLevelCommand(level) => SetRealBatteryLevel(level);
        case DemoOn => ToggleDemo(true);
        case DemoOff => ToggleDemo(false);
        case ChargeOn => SetCharging(true);
        case ChargeOff => SetCharging(false);
        case _ =>
      }
    }
  }
}
