/** The page's Pomodoro countdown (PageTimer.tsx): a fixed duration table, a state of
    (remaining seconds, running flag, mode), a one-second tick installed only while the
    timer runs with time left, and buttons whose `disabled` guards keep the state sane. */
module PageTimer {
  import Clock

  datatype Mode = Pomodoro | ShortBreak | LongBreak

  /** The `modes` table: the length of each mode, in seconds. */
  function Duration(m: Mode): (d: int)
    ensures d % 60 == 0 && 300 <= d <= 1500
    ensures m == Pomodoro <==> d == 1500
  {
    match m
    case Pomodoro => 1500
    case ShortBreak => 300
    case LongBreak => 900
  }

  datatype TimerState = TimerState(time: int, isRunning: bool, mode: Mode)

  /** The state on mount: a full Pomodoro, not running. */
  const Initial := TimerState(1500, false, Pomodoro)

  /** The interval is installed exactly while this holds. */
  predicate Ticking(s: TimerState)
  {
    s.isRunning && s.time > 0
  }

  /** One firing of the one-second interval. While ticking, time drops by one and the
      timer stops exactly when it reaches zero; otherwise no interval exists and the state
      stays as it is. The mode never changes. */
  function Tick(s: TimerState): (r: TimerState)
    ensures r.mode == s.mode
    ensures Ticking(s) ==> r.time == s.time - 1 && (r.isRunning <==> r.time > 0)
    ensures !Ticking(s) ==> r == s
  {
    if !Ticking(s) then s
    else if s.time <= 1 then s.(time := 0, isRunning := false)
    else s.(time := s.time - 1)
  }

  /** `n` consecutive ticks. */
  function Ticks(s: TimerState, n: nat): TimerState
  {
    if n == 0 then s else Tick(Ticks(s, n - 1))
  }

  /** A running timer with `s.time >= n` seconds left loses exactly `n` seconds in `n`
      ticks, and is still running exactly when time remains. */
  lemma {:induction false} CountdownTicks(s: TimerState, n: nat)
    requires Ticking(s) && s.time >= n
    ensures Ticks(s, n).time == s.time - n
    ensures Ticks(s, n).mode == s.mode
    ensures Ticks(s, n).isRunning <==> s.time - n > 0
  {
    if n > 0 {
      CountdownTicks(s, n - 1);
    }
  }

  /** A running timer runs out after exactly `s.time` ticks: it is then at zero and stopped,
      and later ticks leave it there, so the time never goes negative. */
  lemma {:induction false} CountdownRunsOut(s: TimerState, extra: nat)
    requires Ticking(s)
    ensures Ticks(s, s.time) == TimerState(0, false, s.mode)
    ensures Ticks(s, s.time + extra) == TimerState(0, false, s.mode)
  {
    CountdownTicks(s, s.time);
    if extra > 0 {
      CountdownRunsOut(s, extra - 1);
    }
  }

  /** `handleStart` and `handlePause`: only the running flag changes. */
  function Start(s: TimerState): (r: TimerState)
    ensures r.isRunning && r.time == s.time && r.mode == s.mode
  {
    s.(isRunning := true)
  }

  function Pause(s: TimerState): (r: TimerState)
    ensures !r.isRunning && r.time == s.time && r.mode == s.mode
  {
    s.(isRunning := false)
  }

  /** `handleReset`: stop and refill the current mode. */
  function Reset(s: TimerState): (r: TimerState)
    ensures r == TimerState(Duration(s.mode), false, s.mode)
  {
    s.(isRunning := false, time := Duration(s.mode))
  }

  /** `handleModeChange`: stop, switch, and refill with the new mode's duration. */
  function ModeChange(s: TimerState, m: Mode): (r: TimerState)
    ensures r == TimerState(Duration(m), false, m)
  {
    TimerState(Duration(m), false, m)
  }

  /** The cycle button's target: Pomodoro goes to the short break, every break back to
      Pomodoro. */
  function Cycle(m: Mode): (r: Mode)
    ensures r != m && (r == ShortBreak <==> m == Pomodoro)
  {
    if m == Pomodoro then ShortBreak else Pomodoro
  }

  /** The buttons on the page. */
  datatype Control = SelectMode(target: Mode) | Toggle | ResetButton | CycleButton

  /** The `disabled` guards: mode selection and the cycle button while running, the
      start/pause toggle when the time is zero. */
  predicate Enabled(s: TimerState, c: Control)
  {
    match c
    case SelectMode(_) => !s.isRunning
    case Toggle => s.time != 0
    case ResetButton => true
    case CycleButton => !s.isRunning
  }

  /** A click on a control; a disabled control ignores the click. The toggle pauses a
      running timer and starts a stopped one. */
  function Press(s: TimerState, c: Control): (r: TimerState)
    ensures !Enabled(s, c) ==> r == s
    ensures c == Toggle && Enabled(s, c) ==> r.isRunning == !s.isRunning && r.time == s.time
  {
    if !Enabled(s, c) then s
    else
      match c
      case SelectMode(m) => ModeChange(s, m)
      case Toggle => if s.isRunning then Pause(s) else Start(s)
      case ResetButton => Reset(s)
      case CycleButton => ModeChange(s, Cycle(s.mode))
  }

  /** The states the page can reach: time within the mode's length, and a running timer
      always has time left. */
  predicate Valid(s: TimerState)
  {
    0 <= s.time <= Duration(s.mode) && (s.isRunning ==> s.time > 0)
  }

  /** The mount state is valid, and clicks and ticks keep validity. */
  lemma ValidInitial()
    ensures Valid(Initial) && !Ticking(Initial)
  {
  }

  lemma PressKeepsValid(s: TimerState, c: Control)
    requires Valid(s)
    ensures Valid(Press(s, c))
  {
  }

  lemma TickKeepsValid(s: TimerState)
    requires Valid(s)
    ensures Valid(Tick(s))
  {
  }

  /** Without the guard on the toggle, starting at zero would leave a "running" timer
      that never ticks. */
  lemma StartAtZeroIsStuck(m: Mode)
    ensures Start(TimerState(0, false, m)).isRunning
    ensures !Valid(Start(TimerState(0, false, m)))
    ensures !Enabled(TimerState(0, false, m), Toggle)
  {
  }

  /** No click changes the mode of a running timer, and only the mode controls change it. */
  lemma ModeFrozenWhileRunning(s: TimerState, c: Control)
    requires s.isRunning
    ensures Press(s, c).mode == s.mode
  {
  }

  /** The time shown: `MM:SS`, five characters for every valid state. */
  function Display(s: TimerState): (t: string)
    requires Valid(s)
    ensures |t| == 5
    ensures Clock.IsClockText(t) && Clock.ParseClock(t) == s.time
  {
    Clock.FormatTimeWidth(s.time);
    Clock.FormatTimeRoundTrip(s.time);
    Clock.FormatTime(s.time)
  }

  /** The component's state hooks. */
  class PomodoroTimer {
    var time: int
    var isRunning: bool
    var mode: Mode

    function State(): TimerState
      reads this
    {
      TimerState(time, isRunning, mode)
    }

    constructor ()
      ensures State() == Initial
    {
      time, isRunning, mode := 1500, false, Pomodoro;
    }

    /** The interval callback. */
    method OnTick()
      modifies this
      ensures State() == Tick(old(State()))
    {
      if isRunning && time > 0 {
        if time <= 1 {
          isRunning := false;
          time := 0;
        } else {
          time := time - 1;
        }
      }
    }

    method HandleStart()
      modifies this`isRunning
      ensures State() == Start(old(State()))
    {
      isRunning := true;
    }

    method HandlePause()
      modifies this`isRunning
      ensures State() == Pause(old(State()))
    {
      isRunning := false;
    }

    method HandleReset()
      modifies this`isRunning, this`time
      ensures State() == Reset(old(State()))
    {
      isRunning := false;
      time := Duration(mode);
    }

    method HandleModeChange(newMode: Mode)
      modifies this
      ensures State() == ModeChange(old(State()), newMode)
    {
      isRunning := false;
      mode := newMode;
      time := Duration(newMode);
    }

    /** A click, honouring the control's `disabled` guard; validity is kept. */
    method Click(c: Control)
      modifies this
      ensures State() == Press(old(State()), c)
      ensures old(Valid(State())) ==> Valid(State())
    {
      if Valid(State()) {
        PressKeepsValid(State(), c);
      }
      if Enabled(State(), c) {
        match c
        case SelectMode(m) => HandleModeChange(m);
        case Toggle =>
          if isRunning { HandlePause(); } else { HandleStart(); }
        case ResetButton => HandleReset();
        case CycleButton => HandleModeChange(Cycle(mode));
      }
    }
  }
}
