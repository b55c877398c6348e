/** The presentational digital timer (DigitalTimer.tsx): it renders `time` as `MM:SS`
    digit by digit and turns button clicks into calls of the callbacks it was given. */
module DigitalTimer {
  import opened Js
  import Clock

  /** `getDigits`: `split('')`, then a `map` that returns every character unchanged. */
  function Digits(t: string): (r: seq<string>)
    ensures |r| == |t|
    ensures forall i :: 0 <= i < |t| ==> r[i] == [t[i]]
  {
    seq(|t|, i requires 0 <= i < |t| => [t[i]])
  }

  /** Joining strings back together, as `join('')` would. */
  function Concat(parts: seq<string>): string
  {
    if parts == [] then "" else Concat(parts[..|parts| - 1]) + parts[|parts| - 1]
  }

  /** The rendered digits spell exactly the formatted text: nothing dropped, nothing added. */
  lemma {:induction false} DigitsConcat(t: string)
    ensures Concat(Digits(t)) == t
    decreases |t|
  {
    if t != [] {
      var u := t[..|t| - 1];
      assert Digits(t)[..|t| - 1] == Digits(u);
      DigitsConcat(u);
      assert u + [t[|t| - 1]] == t;
    }
  }

  /** The cells of two two-character fields joined by a colon. */
  lemma CellsOfParts(mt: string, st: string)
    requires |mt| == 2 && |st| == 2
    ensures |Digits(mt + ":" + st)| == 5
    ensures Digits(mt + ":" + st)[2] == ":"
    ensures Digits(mt + ":" + st)[0] + Digits(mt + ":" + st)[1] == mt
    ensures Digits(mt + ":" + st)[3] + Digits(mt + ":" + st)[4] == st
  {
    var t := mt + ":" + st;
    var d := Digits(t);
    assert d[0] + d[1] == [t[0], t[1]] == mt;
    assert d[3] + d[4] == [t[3], t[4]] == st;
  }

  /** Below 100 minutes the display has five cells: two minute digits, the colon, and
      two second digits. */
  lemma DisplayCells(time: nat)
    requires time < 6000
    ensures |Digits(Clock.FormatTime(time))| == 5
    ensures Digits(Clock.FormatTime(time))[2] == ":"
    ensures Digits(Clock.FormatTime(time))[0] + Digits(Clock.FormatTime(time))[1] == Pad2(time / 60)
    ensures Digits(Clock.FormatTime(time))[3] + Digits(Clock.FormatTime(time))[4] == Pad2(time % 60)
  {
    var mt, st := Pad2(time / 60), Pad2(time % 60);
    assert |mt| == 2 && |st| == 2 by {
      Pad2Small(time / 60);
      Pad2Small(time % 60);
    }
    Clock.FormatTimeParts(time);
    CellsOfParts(mt, st);
  }

  /** The callbacks the component may invoke. */
  datatype Callback = OnStart | OnPause | OnReset | OnAdjustTime(delta: int)

  /** The buttons: start/pause, reset, and the four adjusters in their on-screen order. */
  datatype Button = ToggleButton | ResetButton | AdjustButton(index: int)

  /** The adjusters' deltas in seconds: minus a minute, minus ten seconds, plus ten seconds,
      plus a minute. */
  const AdjustDeltas: seq<int> := [-60, -10, 10, 60]

  /** `handleToggle`: exactly one of the two callbacks, chosen by the running flag. */
  function HandleToggle(isRunning: bool): (c: Callback)
    ensures c == OnPause <==> isRunning
    ensures c == OnStart <==> !isRunning
  {
    if isRunning then OnPause else OnStart
  }

  /** The callback calls a click makes. An adjuster is disabled while the timer runs, and
      then the click calls nothing. */
  function Click(isRunning: bool, b: Button): (calls: seq<Callback>)
    requires b.AdjustButton? ==> 0 <= b.index < |AdjustDeltas|
    ensures |calls| <= 1
    ensures b.AdjustButton? ==> (calls == [] <==> isRunning)
    ensures b == ToggleButton ==> calls == [HandleToggle(isRunning)]
  {
    match b
    case ToggleButton => [HandleToggle(isRunning)]
    case ResetButton => [OnReset]
    case AdjustButton(i) => if isRunning then [] else [OnAdjustTime(AdjustDeltas[i])]
  }

  /** The adjusters come in opposite pairs, and a paused timer can be moved by exactly
      ±10 and ±60 seconds and nothing else. */
  lemma AdjustDeltasSymmetric(isRunning: bool, d: int)
    ensures forall i :: 0 <= i < 4 ==> AdjustDeltas[i] == -AdjustDeltas[3 - i]
    ensures (exists i :: 0 <= i < 4 && Click(isRunning, AdjustButton(i)) == [OnAdjustTime(d)])
        <==> !isRunning && (d == 10 || d == -10 || d == 60 || d == -60)
  {
    if !isRunning && (d == 10 || d == -10 || d == 60 || d == -60) {
      var i := if d == -60 then 0 else if d == -10 then 1 else if d == 10 then 2 else 3;
      assert Click(isRunning, AdjustButton(i)) == [OnAdjustTime(d)];
    }
  }

  /** The status line. Zero time wins over the running flag. */
  function Status(time: int, isRunning: bool): (r: string)
    ensures r == "Time's Up!" <==> time == 0
    ensures r == "Timer Running..." <==> time != 0 && isRunning
    ensures r == "Timer Paused" <==> time != 0 && !isRunning
  {
    if time == 0 then "Time's Up!" else if isRunning then "Timer Running..." else "Timer Paused"
  }
}
