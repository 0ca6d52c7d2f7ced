// The countdown timer (Assets/Scripts/TimerManager.cs): remaining time,
// the running and paused flags, and the notifications it raises, plus the
// pure queries the display reads (progress and the "MM:SS" text) and the
// button enablement the view derives from the two flags
// (Assets/Scripts/UIManager.cs).
module Timer {
  import opened Formatting

  /** The notifications OnTimerComplete, OnTimerStart, OnTimerPause and OnTimerReset. */
  datatype TimerEvent = TimerComplete | TimerStart | TimerPause | TimerReset

  /** A configured duration in seconds. */
  type Duration = t: real | t > 0.0 witness 1.0

  /** Twenty-five minutes. */
  const DefaultFocusTime: Duration := 1500.0

  /** C#'s `%` on floating point by 60: the remainder of the truncating division. */
  function Rem60(x: real): (r: real)
    ensures 0.0 <= x ==> 0.0 <= r < 60.0 && r == x - 60.0 * (x / 60.0).Floor as real
    ensures x <= 0.0 ==> -60.0 < r <= 0.0
  {
    var q := x / 60.0;
    var t := if q >= 0.0 then q.Floor else -((-q).Floor);
    x - 60.0 * t as real
  }

  /** Whole minutes shown for t seconds (Mathf.FloorToInt(t / 60)). */
  function ClockMinutes(t: real): (m: int)
    ensures t >= 0.0 ==> m >= 0 && (60 * m) as real <= t < (60 * m + 60) as real
  {
    (t / 60.0).Floor
  }

  /** Whole seconds shown for t seconds (Mathf.FloorToInt(t % 60)). */
  function ClockSeconds(t: real): (sec: int)
    ensures t >= 0.0 ==> 0 <= sec < 60
  {
    Rem60(t).Floor
  }

  /** For a non-negative time the two fields are ⌊t⌋ split into minutes and seconds. */
  lemma ClockFields(t: real)
    requires t >= 0.0
    ensures ClockMinutes(t) >= 0 && 0 <= ClockSeconds(t) < 60
    ensures ClockMinutes(t) * 60 + ClockSeconds(t) == t.Floor
  {
    var m := ClockMinutes(t);
    var rem := Rem60(t);
    assert rem == t - 60.0 * m as real;
    assert t == (m * 60) as real + rem;
  }

  /** Which of the start, pause and reset buttons the view enables. */
  datatype Buttons = Buttons(start: bool, pause: bool, reset: bool)

  function EnabledButtons(isRunning: bool, isPaused: bool): (b: Buttons)
    ensures b.start != b.pause
  {
    Buttons(!isRunning || isPaused, isRunning && !isPaused, isRunning || isPaused)
  }

  class TimerManager {
    const focusTime: Duration
    var currentTime: real
    var isRunning: bool
    var isPaused: bool
    /** The notifications raised so far, oldest first. */
    var events: seq<TimerEvent>

    /** The remaining time stays between zero and the configured duration. */
    ghost predicate Valid()
      reads this
    {
      0.0 <= currentTime <= focusTime
    }

    /** A timer set to the full duration, neither running nor paused (Start). */
    constructor (focusTime: Duration)
      ensures this.focusTime == focusTime && currentTime == focusTime
      ensures !isRunning && !isPaused && events == []
      ensures Valid()
    {
      this.focusTime := focusTime;
      currentTime := focusTime;
      isRunning, isPaused := false, false;
      events := [];
    }

    /** One frame of deltaTime seconds. */
    method Update(deltaTime: real)
      requires Valid() && deltaTime >= 0.0
      modifies this
      ensures Valid()
      ensures !old(isRunning && !isPaused) ==>
        currentTime == old(currentTime) && isRunning == old(isRunning) && isPaused == old(isPaused) &&
        events == old(events)
      ensures old(isRunning && !isPaused) && old(currentTime) - deltaTime > 0.0 ==>
        currentTime == old(currentTime) - deltaTime && isRunning && !isPaused && events == old(events)
      ensures old(isRunning && !isPaused) && old(currentTime) - deltaTime <= 0.0 ==>
        currentTime == 0.0 && !isRunning && !isPaused && events == old(events) + [TimerComplete]
    {
      if isRunning && !isPaused {
        currentTime := currentTime - deltaTime;
        if currentTime <= 0.0 {
          currentTime := 0.0;
          isRunning := false;
          events := events + [TimerComplete];
        }
      }
    }

    method StartTimer()
      requires Valid()
      modifies this
      ensures Valid() && currentTime == old(currentTime)
      ensures isRunning && !isPaused
      ensures events == if old(isRunning) then old(events) else old(events) + [TimerStart]
      ensures EnabledButtons(old(isRunning), old(isPaused)).start <==>
        (isRunning, isPaused) != old((isRunning, isPaused))
    {
      if !isRunning {
        isRunning := true;
        isPaused := false;
        events := events + [TimerStart];
      } else if isPaused {
        isPaused := false;
      }
    }

    method PauseTimer()
      requires Valid()
      modifies this
      ensures Valid() && currentTime == old(currentTime) && isRunning == old(isRunning)
      ensures old(isRunning && !isPaused) ==> isPaused && events == old(events) + [TimerPause]
      ensures !old(isRunning && !isPaused) ==> isPaused == old(isPaused) && events == old(events)
      ensures EnabledButtons(old(isRunning), old(isPaused)).pause <==> isPaused != old(isPaused)
    {
      if isRunning && !isPaused {
        isPaused := true;
        events := events + [TimerPause];
      }
    }

    method ResetTimer()
      modifies this
      ensures Valid()
      ensures currentTime == focusTime && !isRunning && !isPaused
      ensures events == old(events) + [TimerReset]
    {
      isRunning := false;
      isPaused := false;
      currentTime := focusTime;
      events := events + [TimerReset];
    }

    /** The elapsed fraction of the duration. */
    function GetProgress(): (r: real)
      reads this
      ensures Valid() ==> 0.0 <= r <= 1.0
      ensures r == 0.0 <==> currentTime == focusTime
      ensures r == 1.0 <==> currentTime == 0.0
      ensures r * focusTime == focusTime - currentTime
    {
      1.0 - currentTime / focusTime
    }

    /** The remaining time as "MM:SS", each field zero-padded to two digits. */
    function GetFormattedTime(): (s: string)
      reads this
      ensures currentTime >= 0.0 ==>
        ParseClock(s).Some? &&
        var (m, sec) := ParseClock(s).value;
        m >= 0 && 0 <= sec < 60 && m * 60 + sec == currentTime.Floor
      ensures currentTime >= 0.0 ==> |s| >= 5 && s[|s| - 3] == ':' && (|s| == 5 || s[0] != '0')
    {
      var m, sec := ClockMinutes(currentTime), ClockSeconds(currentTime);
      if currentTime >= 0.0 then
        ClockFields(currentTime);
        ParseClockOfFields(m, sec);
        Format00(m) + ":" + Format00(sec)
      else
        Format00(m) + ":" + Format00(sec)
    }
  }

  // ---------------------------------------------------------------------------
  // Scenarios
  // ---------------------------------------------------------------------------

  /** A five-second session ticked in one-second frames completes exactly once. */
  method FiveSecondSession() returns (events: seq<TimerEvent>, remaining: real, running: bool)
    ensures events == [TimerStart, TimerComplete] && remaining == 0.0 && !running
  {
    var timer := new TimerManager(5.0);
    timer.StartTimer();
    timer.Update(1.0);
    timer.Update(1.0);
    timer.Update(1.0);
    timer.Update(1.0);
    assert timer.events == [TimerStart] && timer.currentTime == 1.0;
    timer.Update(1.0);
    timer.Update(1.0);
    events, remaining, running := timer.events, timer.currentTime, timer.isRunning;
  }

  /**
   * After completion the remaining time stays at zero, so starting again
   * completes on the very next frame, whatever its length.
   */
  method RestartAfterCompletion(deltaTime: real) returns (events: seq<TimerEvent>)
    requires deltaTime >= 0.0
    ensures events == [TimerStart, TimerComplete, TimerStart, TimerComplete]
  {
    var timer := new TimerManager(DefaultFocusTime);
    timer.StartTimer();
    timer.Update(DefaultFocusTime);
    timer.StartTimer();
    timer.Update(deltaTime);
    events := timer.events;
  }
}
