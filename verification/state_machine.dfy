/**
 * Page navigation and the option value editor (state_machine.h): the
 * configured seconds of the Timer, T-Lapse and Interval pages, how an
 * encoder step edits them, how they are shown, and which page "back" leads to.
 */
module StateMachine {
  import opened Common
  import Text

  const LoadingScreenEnabled: bool := true
  const LoadingDurationMs: nat := 7000
  /** Largest value the page editors accept for a time (59:59). */
  const MaxSeconds: uint32 := 3599
  /** Encoder step of the time options; its value is not part of the firmware shown, so 1 is assumed. */
  const IncrementSmall: uint16 := 1

  datatype AppState = Loading | Main | TimerPage | TlapsePage | IntervalPage | Settings | WireSettings

  /** Display formats of an option; any code other than the three known ones falls to the default branch. */
  datatype ValueFormat = MmSs | Ss | Count | UnknownFormat

  datatype OptionValue = OptionValue(seconds: uint32, format: ValueFormat, minValue: uint32, maxValue: uint32, increment: uint16)

  datatype PageValues = PageValues(option1: OptionValue, option2: OptionValue, option1Label: string, option2Label: string, pageTitle: string)
  {
    /** The option an index selects: 0 is the first option, every other index the second. */
    function Option(option: int): OptionValue
    {
      if option == 0 then option1 else option2
    }

    function WithOption(option: int, v: OptionValue): PageValues
    {
      if option == 0 then this.(option1 := v) else this.(option2 := v)
    }
  }

  datatype PageContent = PageContent(heading: string, option1Text: string, option2Text: string, option1Time: string, option2Time: string)

  /** The values of the three template pages. */
  datatype Store = Store(timer: PageValues, tlapse: PageValues, interval: PageValues)

  /** The sentinel the Timer release option holds in trigger ("SHOT") mode. */
  const TriggerSentinel: uint32 := Uint32Max

  /** `format_time_value`. The minutes of MM_SS are kept in a `uint16_t`. */
  function FormatTimeValue(seconds: uint32, format: ValueFormat): string
  {
    if seconds == Uint32Max || AsInt32(seconds) == -1 then "SHOT"
    else match format
      case MmSs => Text.Clock((seconds / 60) % 0x1_0000, seconds % 60)
      case Ss => (if seconds < 10 then "0" else "") + Text.Decimal(seconds)
      case _ => Text.Decimal(seconds)
  }

  /** `get_option_value`: option 0 is the first option, any other index the second; non-template pages give 0. */
  function GetOptionValue(store: Store, page: AppState, option: int): uint32
  {
    match page
    case TimerPage => store.timer.Option(option).seconds
    case TlapsePage => store.tlapse.Option(option).seconds
    case IntervalPage => store.interval.Option(option).seconds
    case _ => 0
  }

  /**
   * The new `seconds` of the edited option, or None when the edit returns
   * early without touching anything (an encoder step down from trigger mode).
   * The step `delta * increment` is an `int` product, and the release's sum
   * is computed in `int32_t`; both wrap in 32 bits.
   */
  function EditSeconds(page: AppState, option: int, o: OptionValue, delta: int): Option<uint32>
  {
    if page == TimerPage && option == 1 then
      var current := AsInt32(o.seconds);
      if current == -1 then
        if delta > 0 then Some(0) else None
      else if current >= 0 then
        var newValue := Int32Wrap(current + delta * o.increment);
        if newValue < 0 then Some(TriggerSentinel)
        else if newValue > o.maxValue then Some(o.maxValue)
        else Some(newValue)
      else Some(0)
    else
      var newValue := o.seconds + Int32Wrap(delta * o.increment);
      if newValue < o.minValue then Some(o.minValue)
      else if newValue > o.maxValue then Some(o.maxValue)
      else Some(newValue)
  }

  /** T-Lapse: at most one frame per second of total time, and the frame editor's maximum follows the total. */
  function LimitFrames(v: PageValues): PageValues
  {
    var total := v.option1.seconds;
    v.(option2 := v.option2.(seconds := if v.option2.seconds > total then total else v.option2.seconds, maxValue := total))
  }

  /** The values of `page` after an encoder step of `delta` on `option`; None when the edit is blocked. */
  function EditPage(page: AppState, option: int, values: PageValues, delta: int): Option<PageValues>
  {
    var target := values.Option(option);
    match EditSeconds(page, option, target, delta)
    case None => None
    case Some(s) =>
      var v := values.WithOption(option, target.(seconds := s));
      Some(if page == TlapsePage && (option == 0 || option == 1) then LimitFrames(v) else v)
  }

  /** The text a template page shows for its values (`update_page_content_from_values`). */
  function RenderContent(page: AppState, values: PageValues): PageContent
  {
    var o1 := values.option1;
    var o2 := values.option2;
    if page == IntervalPage then
      PageContent(values.pageTitle, values.option1Label, "", FormatTimeValue(o1.seconds, o1.format), "")
    else
      PageContent(values.pageTitle, values.option1Label, values.option2Label,
                  FormatTimeValue(o1.seconds, o1.format), FormatTimeValue(o2.seconds, o2.format))
  }

  /** `get_parent_state`: where "back" leads. */
  function GetParentState(s: AppState): AppState
  {
    match s
    case Loading => Main
    case TimerPage | TlapsePage | IntervalPage | Settings => Main
    case WireSettings => Settings
    case Main => Main
  }

  function IsMainTemplateState(s: AppState): bool
  {
    s == TimerPage || s == TlapsePage || s == IntervalPage
  }

  function DefaultTimerValues(): PageValues
  {
    PageValues(OptionValue(0, MmSs, 0, MaxSeconds, IncrementSmall), OptionValue(0, MmSs, 0, MaxSeconds, IncrementSmall),
               "Delay", "Release", "Timer")
  }

  function DefaultTlapseValues(): PageValues
  {
    PageValues(OptionValue(0, MmSs, 0, MaxSeconds, IncrementSmall), OptionValue(0, Count, 0, 0, 1),
               "Total", "Frames", "Timelapse")
  }

  function DefaultIntervalValues(): PageValues
  {
    PageValues(OptionValue(0, MmSs, 0, MaxSeconds, IncrementSmall), OptionValue(0, Count, 0, 0, 1),
               "Interval", "", "Interval")
  }

  // ---------------------------------------------------------------------------
  // Properties
  // ---------------------------------------------------------------------------

  /** The trigger sentinel shows as "SHOT" whatever the format. */
  lemma SentinelShowsShot(format: ValueFormat)
    ensures FormatTimeValue(TriggerSentinel, format) == "SHOT"
  {
  }

  /** Minutes kept modulo 2^16, times 60, plus the seconds: the seconds modulo 2^16 minutes. */
  lemma MinutesWrap(seconds: nat)
    ensures ((seconds / 60) % 0x1_0000) * 60 + seconds % 60 == seconds % (0x1_0000 * 60)
  {
    var q, r := seconds / 60, seconds % 60;
    var a, b := q / 0x1_0000, q % 0x1_0000;
    assert seconds == (0x1_0000 * 60) * a + (60 * b + r);
    assert 0 <= 60 * b + r < 0x1_0000 * 60;
  }

  /** MM:SS reads back as the seconds, up to the 16-bit minutes field. */
  lemma ClockFormatReadsBack(seconds: uint32)
    requires seconds != TriggerSentinel
    ensures Text.ReadClock(FormatTimeValue(seconds, MmSs)) == Some(seconds % (0x1_0000 * 60))
  {
    var m := (seconds / 60) % 0x1_0000;
    assert FormatTimeValue(seconds, MmSs) == Text.Clock(m, seconds % 60);
    Text.ClockFields(m, seconds % 60);
    MinutesWrap(seconds);
  }

  /** SS shows at least two digits denoting the seconds. */
  lemma SecondsFormatReadsBack(seconds: uint32)
    requires seconds != TriggerSentinel
    ensures var t := FormatTimeValue(seconds, Ss);
            |t| >= 2 && Text.AllDigits(t) && Text.DigitsValue(t) == seconds
  {
    Text.PaddedValue(seconds);
    assert FormatTimeValue(seconds, Ss) == Text.Padded(seconds);
  }

  /** COUNT and unknown formats show the plain decimal number, without leading zeros. */
  lemma CountFormatReadsBack(seconds: uint32, format: ValueFormat)
    requires seconds != TriggerSentinel && (format == Count || format == UnknownFormat)
    ensures var t := FormatTimeValue(seconds, format);
            Text.AllDigits(t) && Text.DigitsValue(t) == seconds && (t[0] == '0' ==> |t| == 1)
  {
    Text.DecimalRoundTrip(seconds);
    assert FormatTimeValue(seconds, format) == Text.Decimal(seconds);
  }

  /** `get_option_value` reads the first option for index 0, the second for any other index, and 0 off the template pages. */
  lemma GetOptionValueSelects(store: Store, page: AppState, option: int)
    ensures !IsMainTemplateState(page) ==> GetOptionValue(store, page, option) == 0
    ensures page == TimerPage ==>
              GetOptionValue(store, page, option) == if option == 0 then store.timer.option1.seconds else store.timer.option2.seconds
    ensures page == TlapsePage ==>
              GetOptionValue(store, page, option) == if option == 0 then store.tlapse.option1.seconds else store.tlapse.option2.seconds
    ensures page == IntervalPage ==>
              GetOptionValue(store, page, option) == if option == 0 then store.interval.option1.seconds else store.interval.option2.seconds
  {
  }

  /** The Timer release option in trigger mode: a step up gives 00:00, any other step is blocked. */
  lemma ReleaseLeavesTriggerOnlyUpwards(o: OptionValue, delta: int)
    requires o.seconds == TriggerSentinel
    ensures EditSeconds(TimerPage, 1, o, delta) == if delta > 0 then Some(0) else None
  {
  }

  /**
   * The Timer release option holding a time: stepping below zero enters
   * trigger mode, stepping above the maximum stops at the maximum, otherwise
   * the stepped value is stored; any other negative reading resets to 0.
   */
  lemma ReleaseEditFromTime(o: OptionValue, delta: int)
    ensures var r := EditSeconds(TimerPage, 1, o, delta);
            var stepped := Int32Wrap(AsInt32(o.seconds) + delta * o.increment);
            && (o.seconds < 0x8000_0000 && stepped < 0 ==> r == Some(TriggerSentinel))
            && (o.seconds < 0x8000_0000 && stepped > o.maxValue ==> r == Some(o.maxValue))
            && (o.seconds < 0x8000_0000 && 0 <= stepped <= o.maxValue ==> r == Some(stepped))
            && (0x8000_0000 <= o.seconds < TriggerSentinel ==> r == Some(0))
  {
  }

  /**
   * The release's `int32_t` sum wraps: a stored 0x7FFFFFFF stepped up by one
   * becomes negative, so the step enters trigger mode instead of stopping at
   * the maximum.
   */
  lemma ReleaseSumWraps(o: OptionValue)
    requires o.seconds == 0x7FFF_FFFF && o.increment == 1
    ensures EditSeconds(TimerPage, 1, o, 1) == Some(TriggerSentinel)
  {
  }

  /** Every option except the Timer release is kept inside its bounds, and an in-bounds step is stored exactly. */
  lemma EditClampsToBounds(page: AppState, option: int, o: OptionValue, delta: int)
    requires !(page == TimerPage && option == 1)
    requires o.minValue <= o.maxValue
    ensures var r := EditSeconds(page, option, o, delta);
            var stepped := o.seconds + Int32Wrap(delta * o.increment);
            && r.Some?
            && o.minValue <= r.value <= o.maxValue
            && (o.minValue <= stepped <= o.maxValue ==> r.value == stepped)
            && (stepped < o.minValue ==> r.value == o.minValue)
            && (stepped > o.maxValue ==> r.value == o.maxValue)
  {
  }

  /** After any edit of a T-Lapse option the frames never exceed the total seconds, and the frame maximum is the total. */
  lemma TlapseFramesBoundedByTotal(option: int, values: PageValues, delta: int)
    requires option == 0 || option == 1
    ensures var r := EditPage(TlapsePage, option, values, delta);
            && r.Some?
            && r.value.option2.seconds <= r.value.option1.seconds
            && r.value.option2.maxValue == r.value.option1.seconds
            && (option == 1 ==> r.value.option1 == values.option1)
  {
  }

  /** An edit changes only the option it targets, apart from the T-Lapse frame limit. */
  lemma EditTouchesOnlyTarget(page: AppState, option: int, values: PageValues, delta: int)
    requires page != TlapsePage
    ensures var r := EditPage(page, option, values, delta);
            r.Some? ==>
              && r.value.pageTitle == values.pageTitle
              && (option == 0 ==> r.value.option2 == values.option2 && r.value.option1.seconds == EditSeconds(page, option, values.option1, delta).value)
              && (option != 0 ==> r.value.option1 == values.option1 && r.value.option2.seconds == EditSeconds(page, option, values.option2, delta).value)
  {
  }

  /** "Back" reaches the main page within two steps, and the main page is its own parent. */
  lemma ParentReachesMain(s: AppState)
    ensures GetParentState(Main) == Main
    ensures GetParentState(GetParentState(s)) == Main
    ensures s != WireSettings ==> GetParentState(s) == Main
  {
  }

  // ---------------------------------------------------------------------------
  // The global page state and option values, updated in place
  // ---------------------------------------------------------------------------

  class AppStateMachine {
    var currentState: AppState
    var previousState: AppState
    var encoderEditingMode: bool
    var loadingStartTime: nat
    var timerValues: PageValues
    var tlapseValues: PageValues
    var intervalValues: PageValues
    var timerContent: PageContent
    var tlapseContent: PageContent
    var intervalContent: PageContent
    /** Whether the settings store has been initialised; edits are saved only then. */
    var settingsInitialized: bool
    /** How many times an edit has asked for the timer values to be saved. */
    var saveCount: nat

    function Values(): Store
      reads this
    {
      Store(timerValues, tlapseValues, intervalValues)
    }

    function PageValuesOf(page: AppState): PageValues
      reads this
      requires IsMainTemplateState(page)
    {
      match page
      case TimerPage => timerValues
      case TlapsePage => tlapseValues
      case IntervalPage => intervalValues
    }

    function ContentOf(page: AppState): PageContent
      reads this
      requires IsMainTemplateState(page)
    {
      match page
      case TimerPage => timerContent
      case TlapsePage => tlapseContent
      case IntervalPage => intervalContent
    }

    /**
     * `state_machine_init` with `values_init`, given the page values the
     * settings store loaded: a page whose title is empty was not loaded and
     * gets its defaults; every page's text is then rendered from its values.
     */
    constructor (now: nat, loaded: Store, settingsReady: bool)
      ensures currentState == (if LoadingScreenEnabled then Loading else Main)
      ensures previousState == Loading && !encoderEditingMode
      ensures loadingStartTime == now && settingsInitialized == settingsReady && saveCount == 0
      ensures timerValues == if loaded.timer.pageTitle == "" then DefaultTimerValues() else loaded.timer
      ensures tlapseValues == if loaded.tlapse.pageTitle == "" then DefaultTlapseValues() else loaded.tlapse
      ensures intervalValues == if loaded.interval.pageTitle == "" then DefaultIntervalValues() else loaded.interval
      ensures timerContent == RenderContent(TimerPage, timerValues)
      ensures tlapseContent == RenderContent(TlapsePage, tlapseValues)
      ensures intervalContent == RenderContent(IntervalPage, intervalValues)
    {
      currentState := if LoadingScreenEnabled then Loading else Main;
      loadingStartTime := now;
      previousState := Loading;
      encoderEditingMode := false;
      settingsInitialized := settingsReady;
      saveCount := 0;
      timerValues := if loaded.timer.pageTitle == "" then DefaultTimerValues() else loaded.timer;
      tlapseValues := if loaded.tlapse.pageTitle == "" then DefaultTlapseValues() else loaded.tlapse;
      intervalValues := if loaded.interval.pageTitle == "" then DefaultIntervalValues() else loaded.interval;
      new;
      timerContent := RenderContent(TimerPage, timerValues);
      tlapseContent := RenderContent(TlapsePage, tlapseValues);
      intervalContent := RenderContent(IntervalPage, intervalValues);
    }

    /** `update_page_content_from_values`: re-render a template page's text; other pages are ignored. */
    method UpdatePageContentFromValues(page: AppState)
      modifies this
      ensures IsMainTemplateState(page) ==> ContentOf(page) == RenderContent(page, PageValuesOf(page))
      ensures page != TimerPage ==> timerContent == old(timerContent)
      ensures page != TlapsePage ==> tlapseContent == old(tlapseContent)
      ensures page != IntervalPage ==> intervalContent == old(intervalContent)
      ensures Values() == old(Values()) && currentState == old(currentState) && previousState == old(previousState)
      ensures encoderEditingMode == old(encoderEditingMode) && saveCount == old(saveCount)
      ensures loadingStartTime == old(loadingStartTime) && settingsInitialized == old(settingsInitialized)
    {
      match page {
        case TimerPage => timerContent := RenderContent(page, timerValues);
        case TlapsePage => tlapseContent := RenderContent(page, tlapseValues);
        case IntervalPage => intervalContent := RenderContent(page, intervalValues);
        case _ =>
      }
    }

    /**
     * `update_option_value`: apply an encoder step to an option of a template
     * page, refresh that page's text and ask for a save. A blocked step and a
     * non-template page change nothing.
     */
    method UpdateOptionValue(page: AppState, option: int, delta: int)
      modifies this
      ensures var edited := if IsMainTemplateState(page) then EditPage(page, option, old(PageValuesOf(page)), delta) else None;
              && (edited.None? ==>
                    Values() == old(Values()) && timerContent == old(timerContent) && tlapseContent == old(tlapseContent)
                    && intervalContent == old(intervalContent) && saveCount == old(saveCount))
              && (edited.Some? ==>
                    && PageValuesOf(page) == edited.value
                    && ContentOf(page) == RenderContent(page, edited.value)
                    && saveCount == old(saveCount) + (if settingsInitialized then 1 else 0))
      ensures page != TimerPage ==> timerValues == old(timerValues) && timerContent == old(timerContent)
      ensures page != TlapsePage ==> tlapseValues == old(tlapseValues) && tlapseContent == old(tlapseContent)
      ensures page != IntervalPage ==> intervalValues == old(intervalValues) && intervalContent == old(intervalContent)
      ensures currentState == old(currentState) && previousState == old(previousState)
      ensures encoderEditingMode == old(encoderEditingMode) && loadingStartTime == old(loadingStartTime)
      ensures settingsInitialized == old(settingsInitialized)
    {
      if !IsMainTemplateState(page) {
        return;
      }
      var values := PageValuesOf(page);
      var target := values.Option(option);
      var seconds := EditSeconds(page, option, target, delta);
      if seconds.None? {
        return;
      }
      values := values.WithOption(option, target.(seconds := seconds.value));
      if page == TlapsePage && (option == 0 || option == 1) {
        values := LimitFrames(values);
      }
      match page {
        case TimerPage => timerValues := values;
        case TlapsePage => tlapseValues := values;
        case IntervalPage => intervalValues := values;
      }
      UpdatePageContentFromValues(page);
      if settingsInitialized {
        saveCount := saveCount + 1;
      }
    }

    /** `change_state`: remember the page being left, enter the new one, leave editing mode. */
    method ChangeState(newState: AppState)
      modifies this`previousState, this`currentState, this`encoderEditingMode
      ensures previousState == old(currentState) && currentState == newState && !encoderEditingMode
    {
      previousState := currentState;
      currentState := newState;
      encoderEditingMode := false;
    }

    /** `go_back`: change to the parent of the current page. */
    method GoBack()
      modifies this`previousState, this`currentState, this`encoderEditingMode
      ensures previousState == old(currentState) && currentState == GetParentState(old(currentState)) && !encoderEditingMode
    {
      ChangeState(GetParentState(currentState));
    }

    /** `check_loading_timeout`: leave the loading page for the main page once the loading time has passed. */
    method CheckLoadingTimeout(now: nat)
      requires now >= loadingStartTime
      modifies this`previousState, this`currentState, this`encoderEditingMode
      ensures var done := old(currentState) == Loading && LoadingScreenEnabled && now - loadingStartTime >= LoadingDurationMs;
              && (done ==> previousState == Loading && currentState == Main && !encoderEditingMode)
              && (!done ==> currentState == old(currentState) && previousState == old(previousState)
                            && encoderEditingMode == old(encoderEditingMode))
    {
      if currentState == Loading && LoadingScreenEnabled {
        var elapsed := now - loadingStartTime;
        if elapsed >= LoadingDurationMs {
          ChangeState(Main);
        }
      }
    }
  }
}
