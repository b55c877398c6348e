/** The focus-group chat (Chat.tsx): sending a message, the Enter key, the remaining-time
    text next to each user, and the "focusing" / "on break" counters. */
module Chat {
  import opened Js
  import Clock

  datatype Kind = UserMessage | SystemMessage | StatusMessage

  /** `timestamp` is a moment in milliseconds. */
  datatype ChatMessage = ChatMessage(id: string, text: string, sender: string, timestamp: int, kind: Kind)

  datatype UserStatus = Focusing | OnBreak | Offline

  /** `timeRemaining` is optional. */
  datatype User = User(id: string, name: string, status: UserStatus, timeRemaining: Option<int>)

  /** The fixed user list the component starts with. */
  const InitialUsers: seq<User> := [
    User("1", "Sarah", OnBreak, Some(300)),
    User("2", "Mike", Focusing, Some(1200)),
    User("3", "Alex", Focusing, Some(800)),
    User("4", "Emma", Offline, None)]

  // ---------------------------------------------------------------- remaining time

  /** `formatTimeRemaining`: whole minutes without padding, a colon, two-digit seconds. */
  function FormatTimeRemaining(seconds: int): string
  {
    IntToString(FloorDiv(seconds, 60)) + ":" + Pad2(JsRem(seconds, 60))
  }

  /** For a non-negative count the text is clock text that reads back as the count, and
      from ten minutes on it is the same text the timers show. */
  lemma {:induction false} FormatTimeRemainingRoundTrip(seconds: nat)
    ensures Clock.IsClockText(FormatTimeRemaining(seconds))
    ensures Clock.ParseClock(FormatTimeRemaining(seconds)) == seconds
    ensures seconds >= 600 ==> FormatTimeRemaining(seconds) == Clock.FormatTime(seconds)
  {
    var m, s := seconds / 60, seconds % 60;
    var mt, st := NatToString(m), Pad2(s);
    NatToStringRoundTrip(m);
    Clock.PaddedNatDigits(s);
    assert |st| == 2 by { Pad2Small(s); }
    assert FormatTimeRemaining(seconds) == mt + ":" + st;
    Clock.ClockTextOfParts(mt, st);
    if seconds >= 600 {
      assert |mt| >= 2 by { assert mt == NatToString(m / 10) + [DigitChar(m % 10)]; }
      assert Pad2(m) == mt;
    }
  }

  /** Below ten minutes the minutes are not padded. */
  lemma ShortRemainingExample()
    ensures FormatTimeRemaining(300) == "5:00"
    ensures Clock.FormatTime(300) == "05:00"
  {
    Pad2Small(0);
    Pad2Small(5);
  }

  /** What the user row shows after the status icon. `timeRemaining && status !==
      'offline'` renders nothing for a missing value or `false`, but a remaining time of 0
      is a number, which React renders as the text "0". */
  function RemainingCell(u: User): (cell: Option<string>)
    ensures cell.Some? <==> u.timeRemaining.Some? && (u.timeRemaining.value == 0 || u.status != Offline)
    ensures u.timeRemaining.Some? && u.timeRemaining.value != 0 && u.status != Offline ==>
      cell == Some(FormatTimeRemaining(u.timeRemaining.value))
  {
    match u.timeRemaining
    case None => None
    case Some(t) =>
      if t == 0 then Some(IntToString(0))
      else if u.status == Offline then None
      else Some(FormatTimeRemaining(t))
  }

  /** The clock text appears exactly for a non-zero time of a user who is not offline; a
      zero time shows a bare "0", whatever the status. */
  lemma RemainingCellShowsClock(u: User)
    requires u.timeRemaining.Some? && u.timeRemaining.value >= 0
    ensures (RemainingCell(u).Some? && Clock.IsClockText(RemainingCell(u).value))
      <==> u.timeRemaining.value != 0 && u.status != Offline
    ensures u.timeRemaining.value == 0 ==> RemainingCell(u) == Some("0")
  {
    var t := u.timeRemaining.value;
    if t != 0 && u.status != Offline {
      FormatTimeRemainingRoundTrip(t);
    }
  }

  // ---------------------------------------------------------------- counters

  /** `users.filter(user => user.status === s).length`. */
  function CountStatus(users: seq<User>, s: UserStatus): (n: nat)
    ensures n <= |users|
  {
    if users == [] then 0
    else CountStatus(users[..|users| - 1], s) + (if users[|users| - 1].status == s then 1 else 0)
  }

  /** The two badges never count more users than there are, and together with the offline
      users they account for everybody. */
  lemma {:induction false} CountersPartition(users: seq<User>)
    ensures CountStatus(users, Focusing) + CountStatus(users, OnBreak) + CountStatus(users, Offline) == |users|
    ensures CountStatus(users, Focusing) + CountStatus(users, OnBreak) <= |users|
  {
    if users != [] {
      CountersPartition(users[..|users| - 1]);
    }
  }

  /** The counter of a status is zero exactly when nobody has it. */
  lemma {:induction false} CountZeroIff(users: seq<User>, s: UserStatus)
    ensures CountStatus(users, s) == 0 <==> forall u :: u in users ==> u.status != s
  {
    if users != [] {
      var init := users[..|users| - 1];
      CountZeroIff(init, s);
      assert users == init + [users[|users| - 1]];
    }
  }

  lemma InitialCounters()
    ensures CountStatus(InitialUsers, Focusing) == 2
    ensures CountStatus(InitialUsers, OnBreak) == 1
  {
    var u := InitialUsers;
    assert u[0].status == OnBreak && u[1].status == Focusing;
    assert u[2].status == Focusing && u[3].status == Offline;
    assert CountStatus(u[..0], Focusing) == 0 && CountStatus(u[..0], OnBreak) == 0;
    CountPrefixStep(u, 0, Focusing); CountPrefixStep(u, 0, OnBreak);
    CountPrefixStep(u, 1, Focusing); CountPrefixStep(u, 1, OnBreak);
    CountPrefixStep(u, 2, Focusing); CountPrefixStep(u, 2, OnBreak);
    CountPrefixStep(u, 3, Focusing); CountPrefixStep(u, 3, OnBreak);
    assert u[..4] == u;
  }

  lemma CountPrefixStep(users: seq<User>, k: nat, s: UserStatus)
    requires k < |users|
    ensures CountStatus(users[..k + 1], s) == CountStatus(users[..k], s) + (if users[k].status == s then 1 else 0)
  {
    assert users[..k + 1][..k] == users[..k];
  }

  // ---------------------------------------------------------------- sending

  /** The message `handleSendMessage` appends, with the moment and the id supplied. */
  function OwnMessage(id: string, text: string, now: int): ChatMessage
  {
    ChatMessage(id, text, "You", now, UserMessage)
  }

  /** The chat window's state: the messages and the input box. */
  class ChatView {
    var messages: seq<ChatMessage>
    var newMessage: string

    constructor (initial: seq<ChatMessage>)
      ensures messages == initial && newMessage == ""
    {
      messages, newMessage := initial, "";
    }

    method SetNewMessage(text: string)
      modifies this`newMessage
      ensures newMessage == text
    {
      newMessage := text;
    }

    /** `handleSendMessage`: a blank input changes nothing; otherwise exactly one message
      with the untrimmed text goes at the end and the input is cleared. */
    method HandleSendMessage(id: string, now: int)
      modifies this`messages, this`newMessage
      ensures AllWhitespace(old(newMessage)) ==> messages == old(messages) && newMessage == old(newMessage)
      ensures !AllWhitespace(old(newMessage)) ==>
        messages == old(messages) + [OwnMessage(id, old(newMessage), now)] && newMessage == ""
    {
      var blank := IsBlank(newMessage);
      if !blank {
        messages := messages + [OwnMessage(id, newMessage, now)];
        newMessage := "";
      }
    }

    /** `handleKeyPress`: Enter without Shift sends, every other key changes nothing. */
    method HandleKeyPress(key: string, shiftKey: bool, id: string, now: int)
      modifies this`messages, this`newMessage
      ensures key == "Enter" && !shiftKey && !AllWhitespace(old(newMessage)) ==>
        messages == old(messages) + [OwnMessage(id, old(newMessage), now)] && newMessage == ""
      ensures key != "Enter" || shiftKey || AllWhitespace(old(newMessage)) ==>
        messages == old(messages) && newMessage == old(newMessage)
    {
      if key == "Enter" && !shiftKey {
        HandleSendMessage(id, now);
      }
    }
  }
}
