/**
 * The focus countdown: a focus session of the selected length, then a five-minute break,
 * then focus again, counting completed focus sessions; and the MM:SS clock display.
 *
 * Each run of the panel's timer effect (one interval tick, or the transition when the clock
 * reads zero) is one `Step`; the class methods apply the step functions to the fields.
 */
module FocusMode {
  import opened Wrappers
  import Decimal

  datatype Session = Focus | Break

  /** The four choices of the duration selector, keyed "15", "25", "45" and "60". */
  datatype DurationChoice = Minutes15 | Minutes25 | Minutes45 | Minutes60

  /** `durations[selectedDuration]`, in seconds. */
  function DurationSeconds(choice: DurationChoice): (seconds: nat)
    ensures 900 <= seconds <= 3600
  {
    match choice
    case Minutes15 => 15 * 60
    case Minutes25 => 25 * 60
    case Minutes45 => 45 * 60
    case Minutes60 => 60 * 60
  }

  const BreakSeconds: nat := 5 * 60

  /** The full length of a session of the given type. */
  function FullLength(session: Session, choice: DurationChoice): nat
  {
    if session == Focus then DurationSeconds(choice) else BreakSeconds
  }

  datatype TimerState = TimerState(
    timeLeft: nat, isActive: bool, session: Session, selected: DurationChoice, completed: nat)

  /** The clock never shows more than the longest duration. */
  predicate Bounded(s: TimerState)
  {
    s.timeLeft <= 3600
  }

  const Initial := TimerState(25 * 60, false, Focus, Minutes25, 0)

  /** One run of the timer effect. */
  function Step(s: TimerState): (r: TimerState)
    ensures r.selected == s.selected
    ensures r.session != s.session <==> s.timeLeft == 0
    ensures r.session != s.session ==> !r.isActive && r.timeLeft == FullLength(r.session, r.selected)
    ensures r.completed == s.completed + (if s.session == Focus && r.session == Break then 1 else 0)
    ensures r.timeLeft == 0 ==> s.isActive && s.timeLeft == 1
    ensures r.isActive ==> s.isActive && r.timeLeft == s.timeLeft - 1
  {
    if s.isActive && s.timeLeft > 0 then s.(timeLeft := s.timeLeft - 1)
    else if s.timeLeft == 0 then
      if s.session == Focus then
        s.(isActive := false, completed := s.completed + 1, session := Break, timeLeft := BreakSeconds)
      else
        s.(isActive := false, session := Focus, timeLeft := DurationSeconds(s.selected))
    else s
  }

  /** `k` runs of the timer effect. */
  function Run(s: TimerState, k: nat): TimerState
    decreases k
  {
    if k == 0 then s else Run(Step(s), k - 1)
  }

  /** `toggleTimer`. */
  function Toggled(s: TimerState): (r: TimerState)
    ensures r.isActive == !s.isActive
    ensures r.(isActive := s.isActive) == s
  {
    s.(isActive := !s.isActive)
  }

  /** `resetTimer`. */
  function Reset(s: TimerState): (r: TimerState)
    ensures !r.isActive && Bounded(r) && r.timeLeft > 0
    ensures r.timeLeft == FullLength(r.session, r.selected)
    ensures r.(isActive := s.isActive, timeLeft := s.timeLeft) == s
  {
    s.(isActive := false, timeLeft := FullLength(s.session, s.selected))
  }

  /** `handleDurationChange`. */
  function WithDuration(s: TimerState, choice: DurationChoice): (r: TimerState)
    ensures r.selected == choice
    ensures r.isActive == s.isActive && r.session == s.session && r.completed == s.completed
    ensures r.timeLeft == if s.isActive then s.timeLeft else DurationSeconds(choice)
  {
    if s.isActive then s.(selected := choice)
    else s.(selected := choice, timeLeft := DurationSeconds(choice))
  }

  /** Every operation keeps the clock within bounds and never lowers the completed count. */
  lemma OperationsKeepBounds(s: TimerState, choice: DurationChoice)
    requires Bounded(s)
    ensures Bounded(Step(s)) && Bounded(Toggled(s)) && Bounded(Reset(s)) && Bounded(WithDuration(s, choice))
    ensures Step(s).completed >= s.completed && Toggled(s).completed == s.completed
    ensures Reset(s).completed == s.completed && WithDuration(s, choice).completed == s.completed
  {
  }

  /** The completed count never decreases over any number of steps. */
  lemma {:induction false} RunNeverLowersCompleted(s: TimerState, k: nat)
    ensures Run(s, k).completed >= s.completed
    decreases k
  {
    if k > 0 {
      RunNeverLowersCompleted(Step(s), k - 1);
    }
  }

  /**
   * An active session with `n` seconds left counts down one second per step and has
   * `m` seconds left after `n - m` steps, nothing else changing.
   */
  lemma {:induction false} RunCountsDown(s: TimerState, k: nat)
    requires s.isActive && k <= s.timeLeft
    ensures Run(s, k) == s.(timeLeft := s.timeLeft - k)
    decreases k
  {
    if k > 0 {
      RunCountsDown(Step(s), k - 1);
    }
  }

  /**
   * A running focus session with `n` seconds left ends after `n + 1` steps: the timer is
   * stopped, one more session is completed, and a five-minute break is ready.
   */
  lemma FocusSessionCompletes(s: TimerState)
    requires s.isActive && s.session == Focus
    ensures Run(s, s.timeLeft + 1)
      == s.(isActive := false, completed := s.completed + 1, session := Break, timeLeft := BreakSeconds)
  {
    RunCountsDown(s, s.timeLeft);
    RunSplit(s, s.timeLeft, 1);
  }

  /**
   * A running break with `n` seconds left ends after `n + 1` steps: the timer is stopped and
   * a focus session of the selected length is ready; the completed count is unchanged.
   */
  lemma BreakCompletes(s: TimerState)
    requires s.isActive && s.session == Break
    ensures Run(s, s.timeLeft + 1)
      == s.(isActive := false, session := Focus, timeLeft := DurationSeconds(s.selected))
  {
    RunCountsDown(s, s.timeLeft);
    RunSplit(s, s.timeLeft, 1);
  }

  lemma {:induction false} RunSplit(s: TimerState, j: nat, k: nat)
    ensures Run(s, j + k) == Run(Run(s, j), k)
    decreases j
  {
    if j > 0 {
      RunSplit(Step(s), j - 1, k);
    }
  }

  /** A paused timer with time left does not move. */
  lemma {:induction false} PausedTimerStands(s: TimerState, k: nat)
    requires !s.isActive && s.timeLeft > 0
    ensures Run(s, k) == s
    decreases k
  {
    if k > 0 {
      PausedTimerStands(Step(s), k - 1);
    }
  }

  /** Toggling twice is the identity; resetting twice is resetting once. */
  lemma ToggleAndResetLaws(s: TimerState)
    ensures Toggled(Toggled(s)) == s
    ensures Reset(Reset(s)) == Reset(s)
    ensures !Reset(s).isActive && Reset(s).timeLeft == FullLength(s.session, s.selected)
  {
  }

  /** A duration change always records the choice, and moves the clock only when paused. */
  lemma DurationChangeOnlyWhenPaused(s: TimerState, choice: DurationChoice)
    ensures WithDuration(s, choice).selected == choice
    ensures s.isActive ==> WithDuration(s, choice).timeLeft == s.timeLeft
    ensures !s.isActive ==> WithDuration(s, choice).timeLeft == DurationSeconds(choice)
    ensures WithDuration(s, choice).isActive == s.isActive
    ensures WithDuration(s, choice).session == s.session
  {
  }

  // ---------------------------------------------------------------------------------------
  // The clock display

  /**
   * `formatTime`: minutes padded to two digits, ':', seconds padded to two digits. Below
   * 100 minutes the result is exactly five characters.
   */
  function FormatTime(seconds: nat): (r: string)
    ensures |r| >= 5 && r[|r| - 3] == ':'
    ensures seconds < 6000 ==> |r| == 5
  {
    Decimal.Pad2(seconds / 60) + ":" + Decimal.Pad2(seconds % 60)
  }

  /** Reads an "M:SS" clock back into seconds; None when the text is not such a clock. */
  function ClockSeconds(text: string): Option<nat>
  {
    if |text| < 4 || text[|text| - 3] != ':' then None
    else
      var mins, secs := text[..|text| - 3], text[|text| - 2..];
      if Decimal.AllDigits(mins, 10) && Decimal.AllDigits(secs, 10) && Decimal.NumeralValue(secs, 10) < 60
      then Some(Decimal.NumeralValue(mins, 10) * 60 + Decimal.NumeralValue(secs, 10))
      else None
  }

  /** The clock shows the seconds left exactly: the seconds field is below 60 and reading it back gives `seconds`. */
  lemma FormatTimeRoundTrip(seconds: nat)
    ensures ClockSeconds(FormatTime(seconds)) == Some(seconds)
  {
    var mins, secs := Decimal.Pad2(seconds / 60), Decimal.Pad2(seconds % 60);
    var text := FormatTime(seconds);
    assert text[..|text| - 3] == mins;
    assert text[|text| - 2..] == secs;
  }

  // ---------------------------------------------------------------------------------------
  // The panel's state

  class FocusTimer {
    var timeLeft: nat
    var isActive: bool
    var sessionType: Session
    var selectedDuration: DurationChoice
    var completedSessions: nat

    function State(): TimerState
      reads this
    {
      TimerState(timeLeft, isActive, sessionType, selectedDuration, completedSessions)
    }

    ghost predicate Valid()
      reads this
    {
      Bounded(State())
    }

    /** 25 minutes on the clock, paused, a focus session, "25" selected, nothing completed. */
    constructor ()
      ensures Valid() && State() == Initial
    {
      timeLeft := 25 * 60;
      isActive := false;
      sessionType := Focus;
      selectedDuration := Minutes25;
      completedSessions := 0;
    }

    /** One run of the timer effect: a tick while running, the session switch at zero. */
    method Tick()
      requires Valid()
      modifies this
      ensures Valid() && State() == Step(old(State()))
      ensures completedSessions >= old(completedSessions)
    {
      if isActive && timeLeft > 0 {
        timeLeft := timeLeft - 1;
      } else if timeLeft == 0 {
        isActive := false;
        if sessionType == Focus {
          completedSessions := completedSessions + 1;
          sessionType := Break;
          timeLeft := BreakSeconds;
        } else {
          sessionType := Focus;
          timeLeft := DurationSeconds(selectedDuration);
        }
      }
    }

    method ToggleTimer()
      requires Valid()
      modifies this
      ensures Valid() && State() == Toggled(old(State()))
    {
      isActive := !isActive;
    }

    method ResetTimer()
      requires Valid()
      modifies this
      ensures Valid() && State() == Reset(old(State()))
    {
      isActive := false;
      timeLeft := if sessionType == Focus then DurationSeconds(selectedDuration) else BreakSeconds;
    }

    method HandleDurationChange(choice: DurationChoice)
      requires Valid()
      modifies this
      ensures Valid() && State() == WithDuration(old(State()), choice)
    {
      selectedDuration := choice;
      if !isActive {
        timeLeft := DurationSeconds(choice);
      }
    }
  }
}
