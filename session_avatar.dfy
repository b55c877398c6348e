/** The participant strip (SessionAvatar.tsx): which participants are shown, the "+N"
    overflow badge, the avatar initials, the "joined ... ago" tooltip and the two buttons
    that show three more or three fewer avatars. */
module SessionAvatar {
  import opened Js

  datatype Status = Active | Break | Idle

  /** `joinedAt` is a moment in milliseconds. */
  datatype Participant = Participant(id: string, name: string, status: Status, joinedAt: int)

  const Minute := 60000

  /** The sample participants shown when the list passed in is empty; they joined 15, 30,
      45, 60, 20, 10 and 5 minutes before the moment `now` of rendering. */
  function DefaultParticipants(now: int): (ps: seq<Participant>)
    ensures |ps| == 7
  {
    [ Participant("1", "Alice Johnson", Active, now - 15 * Minute),
      Participant("2", "Bob Smith", Break, now - 30 * Minute),
      Participant("3", "Carol Davis", Active, now - 45 * Minute),
      Participant("4", "David Wilson", Idle, now - 60 * Minute),
      Participant("5", "Eva Martinez", Active, now - 20 * Minute),
      Participant("6", "Frank Brown", Break, now - 10 * Minute),
      Participant("7", "Grace Lee", Active, now - 5 * Minute) ]
  }

  /** `activeParticipants`: the list passed in, or the samples when it is empty. */
  function ActiveParticipants(ps: seq<Participant>, now: int): (r: seq<Participant>)
    ensures |r| >= 1
    ensures ps != [] ==> r == ps
  {
    if |ps| > 0 then ps else DefaultParticipants(now)
  }

  /** How many participants the strip works with; it does not depend on the moment. */
  function ActiveCount(ps: seq<Participant>): (n: nat)
    ensures forall now :: n == |ActiveParticipants(ps, now)|
    ensures n >= 1
  {
    if |ps| > 0 then |ps| else 7
  }

  // ---------------------------------------------------------------- the visible slice

  /** Where `slice(0, k)` stops on a list of `len` elements: a negative `k` counts back
      from the end. */
  function SliceEnd(len: nat, k: int): (e: nat)
    ensures e <= len
  {
    if k < 0 then (if len + k > 0 then len + k else 0)
    else if k < len then k else len
  }

  /** `visibleParticipants`. */
  function Visible(active: seq<Participant>, cur: int): seq<Participant>
  {
    active[..SliceEnd(|active|, cur)]
  }

  /** `remainingCount`, the number on the "+N" badge. */
  function RemainingCount(n: nat, cur: int): nat
  {
    if n - cur > 0 then n - cur else 0
  }

  /** The first number of the "Showing x of n" label. */
  function ShowingCount(n: nat, cur: int): int
  {
    if cur < n then cur else n
  }

  /** With a non-negative limit the shown avatars are the first ones in their order, the
      badge counts exactly the others, and the label reports how many are shown. */
  lemma VisibleAndRemaining(active: seq<Participant>, cur: int)
    requires cur >= 0
    ensures Visible(active, cur) == active[..|Visible(active, cur)|]
    ensures |Visible(active, cur)| + RemainingCount(|active|, cur) == |active|
    ensures |Visible(active, cur)| == ShowingCount(|active|, cur)
    ensures RemainingCount(|active|, cur) > 0 <==> cur < |active|
  {
  }

  /** A negative limit, which only the `maxVisible` prop can supply, hides avatars from the
      end while the badge then counts more than the whole list. */
  lemma NegativeLimit(active: seq<Participant>, cur: int)
    requires cur < 0
    ensures |Visible(active, cur)| + RemainingCount(|active|, cur) > |active|
    ensures |Visible(active, cur)| < |active| || active == []
  {
  }

  // ---------------------------------------------------------------- initials

  /** `name.split(' ')`: the pieces between single spaces; empty pieces are kept and a
      string without a space is one piece. */
  function SplitSpaces(s: string): (words: seq<string>)
    ensures |words| >= 1
    ensures words[|words| - 1] == [] <==> s == [] || s[|s| - 1] == ' '
    decreases |s|
  {
    if s == [] then [""]
    else
      var ws := SplitSpaces(s[..|s| - 1]);
      var c := s[|s| - 1];
      if c == ' ' then ws + [""]
      else ws[..|ws| - 1] + [ws[|ws| - 1] + [c]]
  }

  /** `word[0]` as `join('')` writes it: an empty piece yields `undefined`, written as
      nothing. */
  function Head(w: string): string
  {
    if w == [] then "" else [w[0]]
  }

  /** `map(word => word[0]).join('')`. */
  function Heads(words: seq<string>): string
  {
    if words == [] then "" else Heads(words[..|words| - 1]) + Head(words[|words| - 1])
  }

  /** The reference reading: the characters that start a word, that is the non-spaces at
      the front of the name or right after a space, in order. */
  function WordStarts(s: string): string
    decreases |s|
  {
    if s == [] then ""
    else
      var n := |s| - 1;
      WordStarts(s[..n]) + (if s[n] != ' ' && (n == 0 || s[n - 1] == ' ') then [s[n]] else "")
  }

  lemma HeadsSnoc(ws: seq<string>, w: string)
    ensures Heads(ws + [w]) == Heads(ws) + Head(w)
  {
    assert (ws + [w])[..|ws|] == ws;
  }

  /** Splitting on spaces and taking each piece's first character picks out exactly the
      word starts. */
  lemma {:induction false} HeadsOfSplit(s: string)
    ensures Heads(SplitSpaces(s)) == WordStarts(s)
    decreases |s|
  {
    if s != [] {
      var init, c := s[..|s| - 1], s[|s| - 1];
      var ws := SplitSpaces(init);
      var last, prefix := ws[|ws| - 1], ws[..|ws| - 1];
      assert Heads(ws) == WordStarts(init) by { HeadsOfSplit(init); }
      assert Heads(ws) == Heads(prefix) + Head(last) by {
        assert ws == prefix + [last];
        HeadsSnoc(prefix, last);
      }
      var starts := c != ' ' && (|s| - 1 == 0 || s[|s| - 2] == ' ');
      assert WordStarts(s) == WordStarts(init) + (if starts then [c] else "");
      assert last == [] <==> |s| - 1 == 0 || s[|s| - 2] == ' ';
      if c == ' ' {
        assert Heads(SplitSpaces(s)) == Heads(ws) by {
          assert SplitSpaces(s) == ws + [""];
          HeadsSnoc(ws, "");
        }
      } else {
        assert Heads(SplitSpaces(s)) == Heads(prefix) + Head(last + [c]) by {
          assert SplitSpaces(s) == prefix + [last + [c]];
          HeadsSnoc(prefix, last + [c]);
        }
        assert Head(last + [c]) == if last == [] then [c] else Head(last);
      }
    }
  }

  /** `getInitials`: upper-cased word starts, at most two of them. */
  function GetInitials(name: string): (r: string)
    ensures |r| <= 2
    ensures var w := WordStarts(name);
      r == ToUpper(if |w| <= 2 then w else w[..2])
  {
    var heads := ToUpper(Heads(SplitSpaces(name)));
    HeadsOfSplit(name);
    if |heads| <= 2 then heads else heads[..2]
  }

  lemma WordStartsOfFirstWord()
    ensures WordStarts("bo ") == "b"
  {
    assert WordStarts("b") == "b" by { assert "b"[..0] == ""; }
    assert WordStarts("bo") == "b" by { assert "bo"[..1] == "b"; }
    assert "bo "[..2] == "bo";
  }

  lemma WordStartsExample()
    ensures WordStarts("bo li") == "bl"
  {
    WordStartsOfFirstWord();
    assert WordStarts("bo l") == "bl" by { assert "bo l"[..3] == "bo "; }
    assert "bo li"[..4] == "bo l";
  }

  lemma InitialsExample()
    ensures GetInitials("bo li") == "BL"
  {
    assert GetInitials("bo li") == ToUpper("bl") by {
      WordStartsExample();
    }
    assert ToUpper("bl") == "BL" by {
      assert UpperChar('b') == 'B' && UpperChar('l') == 'L';
    }
  }

  // ---------------------------------------------------------------- join time

  /** `formatJoinTime` at the moment `now`: under a minute (or in the future) is "Just
      joined", under an hour is whole minutes, otherwise whole hours. */
  function FormatJoinTime(now: int, joinedAt: int): (r: string)
    ensures r == "Just joined" <==> now - joinedAt < Minute
    ensures Minute <= now - joinedAt < 60 * Minute ==> r == NatToString((now - joinedAt) / Minute) + "m ago"
    ensures now - joinedAt >= 60 * Minute ==> r == NatToString((now - joinedAt) / (60 * Minute)) + "h ago"
  {
    var d := now - joinedAt;
    var minutes := FloorDiv(d, Minute);
    if minutes < 1 then "Just joined"
    else
      assert d >= Minute;
      if minutes < 60 then
        var r := IntToString(minutes) + "m ago";
        assert IsDigit(r[0]);
        r
      else
        HoursFromMinutes(d);
        var r := IntToString(FloorDiv(minutes, 60)) + "h ago";
        assert IsDigit(r[0]);
        r
  }

  /** Whole hours from whole minutes are whole hours from milliseconds. */
  lemma HoursFromMinutes(d: nat)
    ensures d / Minute / 60 == d / (60 * Minute)
  {
    var m := d / Minute;
    var h := m / 60;
    assert m * Minute <= d < m * Minute + Minute;
    assert h * 60 <= m < h * 60 + 60;
    assert h * (60 * Minute) <= d < h * (60 * Minute) + 60 * Minute;
  }

  lemma JoinTimeExamples(now: int)
    ensures FormatJoinTime(now, now - 30000) == "Just joined"
    ensures FormatJoinTime(now, now - 15 * Minute) == "15m ago"
    ensures FormatJoinTime(now, now - 150 * Minute) == "2h ago"
  {
    NatToStringTwoDigits(15);
  }

  // ---------------------------------------------------------------- the +/- buttons

  /** The "-" button: disabled at three or fewer, otherwise three fewer but not below three. */
  function Fewer(cur: int): (r: int)
    ensures cur <= 3 ==> r == cur
    ensures cur > 3 ==> 3 <= r < cur && cur - r <= 3
    ensures cur > 3 ==> (r == 3 || r == cur - 3)
  {
    if cur <= 3 then cur else if cur - 3 > 3 then cur - 3 else 3
  }

  /** The "+" button: disabled once every participant is shown, otherwise three more but
      not beyond the participant count. */
  function More(n: nat, cur: int): (r: int)
    ensures cur >= n ==> r == cur
    ensures cur < n ==> cur < r <= n && r - cur <= 3
    ensures cur < n ==> (r == n || r == cur + 3)
  {
    if cur >= n then cur else if n < cur + 3 then n else cur + 3
  }

  function MoreTimes(n: nat, cur: int, k: nat): int
  {
    if k == 0 then cur else More(n, MoreTimes(n, cur, k - 1))
  }

  function FewerTimes(cur: int, k: nat): int
  {
    if k == 0 then cur else Fewer(FewerTimes(cur, k - 1))
  }

  /** Pressing "+" often enough shows everybody, and no number of presses goes beyond. */
  lemma {:induction false} MoreReachesAll(n: nat, cur: int, k: nat)
    requires cur <= n
    ensures cur <= MoreTimes(n, cur, k) <= n
    ensures MoreTimes(n, cur, k) == n || MoreTimes(n, cur, k) == cur + 3 * k
    ensures 3 * k >= n - cur ==> MoreTimes(n, cur, k) == n
  {
    if k > 0 {
      MoreReachesAll(n, cur, k - 1);
    }
  }

  /** Pressing "-" from above three never goes below three, and often enough reaches it. */
  lemma {:induction false} FewerReachesThree(cur: int, k: nat)
    requires cur >= 3
    ensures 3 <= FewerTimes(cur, k) <= cur
    ensures FewerTimes(cur, k) == 3 || FewerTimes(cur, k) == cur - 3 * k
  {
    if k > 0 {
      FewerReachesThree(cur, k - 1);
    }
  }

  /** The component: the participants it was given and how many it currently shows. */
  class AvatarStrip {
    const participants: seq<Participant>
    var currentMaxVisible: int

    /** Mounting with the given props; `None` is a prop left out, which takes its default:
      no participants, and six avatars shown. */
    constructor (participants: Option<seq<Participant>>, maxVisible: Option<int>)
      ensures this.participants == if participants.Some? then participants.value else []
      ensures currentMaxVisible == if maxVisible.Some? then maxVisible.value else 6
    {
      this.participants := if participants.Some? then participants.value else [];
      currentMaxVisible := if maxVisible.Some? then maxVisible.value else 6;
    }

    /** The "-" button. */
    method ClickFewer()
      modifies this`currentMaxVisible
      ensures currentMaxVisible == Fewer(old(currentMaxVisible))
      ensures old(currentMaxVisible) >= 3 ==> currentMaxVisible >= 3
    {
      if currentMaxVisible > 3 {
        currentMaxVisible := if currentMaxVisible - 3 > 3 then currentMaxVisible - 3 else 3;
      }
    }

    /** The "+" button. */
    method ClickMore()
      modifies this`currentMaxVisible
      ensures currentMaxVisible == More(ActiveCount(participants), old(currentMaxVisible))
      ensures old(currentMaxVisible) <= ActiveCount(participants) ==> currentMaxVisible <= ActiveCount(participants)
    {
      var n := ActiveCount(participants);
      if currentMaxVisible < n {
        currentMaxVisible := if n < currentMaxVisible + 3 then n else currentMaxVisible + 3;
      }
    }
  }

  /** Mounted with neither prop, the strip shows the first six of the seven samples and a
      "+1" badge. */
  lemma DefaultMount(now: int)
    ensures Visible(ActiveParticipants([], now), 6) == DefaultParticipants(now)[..6]
    ensures RemainingCount(ActiveCount([]), 6) == 1
  {
  }

  /** A strip that starts with a non-negative limit keeps one, whatever is pressed, so the
      shown avatars and the badge always account for every participant. */
  lemma ButtonsKeepLimitNonNegative(n: nat, cur: int)
    requires cur >= 0
    ensures Fewer(cur) >= 0 && More(n, cur) >= 0
  {
  }
}
