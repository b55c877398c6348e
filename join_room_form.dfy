/** The join-a-room form (JoinRoomForm.tsx): a user name, a join method (browse the
    public rooms or type a room code), the room search over the built-in room list, the
    selected room, an optional room password, and the validation run before joining. */
module JoinRoomForm {
  import opened Js

  datatype Visibility = Public | Private

  datatype Room = Room(
    id: string, name: string, visibility: Visibility,
    participants: int, isActive: bool, requiresPassword: bool)

  /** The built-in room list the search runs over. */
  const MockRooms: seq<Room> := [
    Room("1", "Study Group Alpha", Public, 5, true, false),
    Room("2", "Focus Session", Public, 3, true, false),
    Room("3", "Private Study", Private, 2, true, true),
    Room("4", "Team Pomodoro", Public, 8, false, false)
  ]

  datatype JoinMethod = BySearch | ByCode

  datatype JoinFormData = JoinFormData(
    joinMethod: JoinMethod, roomSearch: string, roomCode: string, username: string, password: string)

  const InitialForm := JoinFormData(BySearch, "", "", "", "")

  /** The messages the form can show. */
  datatype Message =
    | UsernameRequired | UsernameTooShort | SelectRoom | CodeRequired | CodeTooShort | RoomPasswordRequired

  function Text(m: Message): (t: string)
    ensures t != ""
  {
    match m
    case UsernameRequired => "Username is required"
    case UsernameTooShort => "Username must be at least 2 characters"
    case SelectRoom => "Please select a room to join"
    case CodeRequired => "Room code is required"
    case CodeTooShort => "Room code must be at least 6 characters"
    case RoomPasswordRequired => "Password is required for this room"
  }

  datatype JoinErrors = JoinErrors(
    username: Option<Message>, roomSearch: Option<Message>, roomCode: Option<Message>, password: Option<Message>)

  const NoErrors := JoinErrors(None, None, None, None)

  /** The text inputs. */
  datatype Field = UsernameField | RoomSearchField | RoomCodeField | PasswordField

  function WithField(d: JoinFormData, f: Field, v: string): JoinFormData
  {
    match f
    case UsernameField => d.(username := v)
    case RoomSearchField => d.(roomSearch := v)
    case RoomCodeField => d.(roomCode := v)
    case PasswordField => d.(password := v)
  }

  function ErrorOf(e: JoinErrors, f: Field): Option<Message>
  {
    match f
    case UsernameField => e.username
    case RoomSearchField => e.roomSearch
    case RoomCodeField => e.roomCode
    case PasswordField => e.password
  }

  function WithoutError(e: JoinErrors, f: Field): (r: JoinErrors)
    ensures ErrorOf(r, f) == None
    ensures forall g :: g != f ==> ErrorOf(r, g) == ErrorOf(e, g)
  {
    match f
    case UsernameField => e.(username := None)
    case RoomSearchField => e.(roomSearch := None)
    case RoomCodeField => e.(roomCode := None)
    case PasswordField => e.(password := None)
  }

  // ---------------------------------------------------------------- validation

  /** What the form accepts, stated field by field. */
  predicate Acceptable(d: JoinFormData, selected: Option<Room>)
  {
    && !AllWhitespace(d.username) && |d.username| >= 2
    && (d.joinMethod == BySearch ==> selected.Some?)
    && (d.joinMethod == ByCode ==> !AllWhitespace(d.roomCode) && |d.roomCode| >= 6)
    && (selected.Some? && selected.value.requiresPassword ==> !AllWhitespace(d.password))
  }

  /** `validateForm`'s messages. The user name is refused when blank, or when shorter than
      two characters before trimming. Browsing needs a selected room; a code needs to be
      non-blank and six characters long before trimming. A password is required exactly
      when the selected room asks for one and the typed password is blank. No message at
      all exactly when the form is acceptable. */
  function Errors(d: JoinFormData, selected: Option<Room>): (errs: JoinErrors)
    ensures errs.username == Some(UsernameRequired) <==> AllWhitespace(d.username)
    ensures errs.username == Some(UsernameTooShort) <==> !AllWhitespace(d.username) && |d.username| < 2
    ensures errs.username == None <==> !AllWhitespace(d.username) && |d.username| >= 2
    ensures d.joinMethod == BySearch ==> errs.roomCode == None && (errs.roomSearch == Some(SelectRoom) <==> selected == None)
    ensures d.joinMethod == BySearch ==> (errs.roomSearch == None <==> selected != None)
    ensures d.joinMethod == ByCode ==> errs.roomSearch == None
    ensures d.joinMethod == ByCode ==> (errs.roomCode == Some(CodeRequired) <==> AllWhitespace(d.roomCode))
    ensures d.joinMethod == ByCode ==> (errs.roomCode == Some(CodeTooShort) <==> !AllWhitespace(d.roomCode) && |d.roomCode| < 6)
    ensures d.joinMethod == ByCode ==> (errs.roomCode == None <==> !AllWhitespace(d.roomCode) && |d.roomCode| >= 6)
    ensures errs.password == Some(RoomPasswordRequired) <==> selected.Some? && selected.value.requiresPassword && AllWhitespace(d.password)
    ensures errs.password == None <==> !(selected.Some? && selected.value.requiresPassword && AllWhitespace(d.password))
    ensures errs == NoErrors <==> Acceptable(d, selected)
  {
    JoinErrors(
      if AllWhitespace(d.username) then Some(UsernameRequired)
      else if |d.username| < 2 then Some(UsernameTooShort)
      else None,
      if d.joinMethod == BySearch && selected == None then Some(SelectRoom) else None,
      if d.joinMethod == BySearch then None
      else if AllWhitespace(d.roomCode) then Some(CodeRequired)
      else if |d.roomCode| < 6 then Some(CodeTooShort)
      else None,
      if selected.Some? && selected.value.requiresPassword && AllWhitespace(d.password)
      then Some(RoomPasswordRequired) else None)
  }

  /** `validateForm`'s body: start from no messages and set them one field after another,
      testing blankness with `trim()`. */
  method ComputeErrors(d: JoinFormData, selected: Option<Room>) returns (errs: JoinErrors)
    ensures errs == Errors(d, selected)
  {
    errs := NoErrors;
    var blankName := IsBlank(d.username);
    var blankCode := IsBlank(d.roomCode);
    var blankPassword := IsBlank(d.password);
    if blankName {
      errs := errs.(username := Some(UsernameRequired));
    } else if |d.username| < 2 {
      errs := errs.(username := Some(UsernameTooShort));
    }
    if d.joinMethod == BySearch {
      if selected == None {
        errs := errs.(roomSearch := Some(SelectRoom));
      }
    } else {
      if blankCode {
        errs := errs.(roomCode := Some(CodeRequired));
      } else if |d.roomCode| < 6 {
        errs := errs.(roomCode := Some(CodeTooShort));
      }
    }
    if selected.Some? && selected.value.requiresPassword && blankPassword {
      errs := errs.(password := Some(RoomPasswordRequired));
    }
  }

  /** A single-character name is refused although it is not blank; a padded one of two
      characters is accepted although it trims to one. */
  lemma UsernameLengthIsUntrimmed()
    ensures !AllWhitespace("a") && |"a"| < 2
    ensures !AllWhitespace(" a") && |" a"| >= 2
  {
    assert !IsWhitespace("a"[0]);
    assert !IsWhitespace(" a"[1]);
  }

  // ---------------------------------------------------------------- search

  /** The room name matches the query ignoring ASCII case, and the room is public. */
  predicate Matches(room: Room, query: string)
  {
    Includes(ToLower(room.name), ToLower(query)) && room.visibility == Public
  }

  /** The `filter` in `handleSearch`. */
  function SearchRooms(rooms: seq<Room>, query: string): (r: seq<Room>)
    ensures forall room :: room in r <==> room in rooms && Matches(room, query)
  {
    if rooms == [] then []
    else
      var rest := SearchRooms(rooms[..|rooms| - 1], query);
      var last := rooms[|rooms| - 1];
      assert rooms == rooms[..|rooms| - 1] + [last];
      if Matches(last, query) then rest + [last] else rest
  }

  /** Results keep the order of the room list. */
  lemma {:induction false} SearchKeepsOrder(rooms: seq<Room>, query: string)
    ensures IsSubsequence(SearchRooms(rooms, query), rooms)
    decreases |rooms|
  {
    if rooms != [] {
      var rest := SearchRooms(rooms[..|rooms| - 1], query);
      SearchKeepsOrder(rooms[..|rooms| - 1], query);
      if Matches(rooms[|rooms| - 1], query) {
        assert (rest + [rooms[|rooms| - 1]])[..|rest|] == rest;
      }
    }
  }

  /** Only public rooms are ever offered, and none of the built-in public rooms asks for a
      password, so browsing never leads to a password prompt. */
  lemma SearchNeverOffersPasswordRoom(query: string)
    ensures forall room :: room in SearchRooms(MockRooms, query) ==> room.visibility == Public
    ensures forall room :: room in SearchRooms(MockRooms, query) ==> !room.requiresPassword
  {
  }

  /** The match ignores case: "STUDY" finds "Study Group Alpha"; the private "Private
      Study" is not offered. */
  lemma SearchExample()
    ensures MockRooms[0] in SearchRooms(MockRooms, "STUDY")
    ensures MockRooms[2] !in SearchRooms(MockRooms, "STUDY")
  {
    var name := ToLower(MockRooms[0].name);
    var q := ToLower("STUDY");
    assert q == "study";
    assert name[..5] == "study";
    assert IsPrefix(q, name[0..]);
  }

  /** How a valid form joins: the selected room when browsing, the typed code otherwise. */
  datatype JoinTarget = JoinSelected(room: Room) | JoinWithCode(code: string)

  /** The component's state. */
  class JoinRoomFormState {
    /** The room list of this component instance. */
    const mockRooms: seq<Room>
    var formData: JoinFormData
    var errors: JoinErrors
    var searchResults: seq<Room>
    var selectedRoom: Option<Room>
    var isSearching: bool

    constructor ()
      ensures formData == InitialForm && errors == NoErrors && searchResults == []
      ensures selectedRoom == None && !isSearching && mockRooms == MockRooms
    {
      mockRooms := MockRooms;
      formData, errors, searchResults, selectedRoom, isSearching := InitialForm, NoErrors, [], None, false;
    }

    /** `validateForm`: replace the errors; valid exactly when none was set. */
    method ValidateForm() returns (ok: bool)
      modifies this`errors
      ensures errors == Errors(formData, selectedRoom)
      ensures ok <==> errors == NoErrors
      ensures ok <==> Acceptable(formData, selectedRoom)
    {
      errors := ComputeErrors(formData, selectedRoom);
      ok := errors == NoErrors;
    }

    /** `handleSearch` run to completion: a blank query does nothing; otherwise the results
      are the matching rooms of the built-in list, for the query as typed. The selection is
      kept. */
    method HandleSearch()
      modifies this`searchResults, this`isSearching
      ensures AllWhitespace(formData.roomSearch) ==> searchResults == old(searchResults) && isSearching == old(isSearching)
      ensures !AllWhitespace(formData.roomSearch) ==> searchResults == SearchRooms(mockRooms, formData.roomSearch) && !isSearching
    {
      var query := formData.roomSearch;
      var blank := IsBlank(query);
      if blank {
        return;
      }
      isSearching := true;
      searchResults := SearchRooms(mockRooms, query);
      isSearching := false;
    }

    /** `handleJoinRoom`: validate, and join only a valid form. */
    method HandleJoinRoom() returns (target: Option<JoinTarget>)
      modifies this`errors
      ensures errors == Errors(formData, selectedRoom)
      ensures target.Some? <==> Acceptable(formData, selectedRoom)
      ensures target.Some? && formData.joinMethod == BySearch ==> target == Some(JoinSelected(selectedRoom.value))
      ensures target.Some? && formData.joinMethod == ByCode ==> target == Some(JoinWithCode(formData.roomCode))
    {
      var ok := ValidateForm();
      if !ok {
        return None;
      }
      if formData.joinMethod == BySearch {
        target := Some(JoinSelected(selectedRoom.value));
      } else {
        target := Some(JoinWithCode(formData.roomCode));
      }
    }

    /** `handleInputChange`: set the field and clear its error; typing in the search box
      also drops the selection. */
    method HandleInputChange(f: Field, value: string)
      modifies this`formData, this`errors, this`selectedRoom
      ensures formData == WithField(old(formData), f, value)
      ensures errors == WithoutError(old(errors), f)
      ensures f == RoomSearchField ==> selectedRoom == None
      ensures f != RoomSearchField ==> selectedRoom == old(selectedRoom)
    {
      formData := WithField(formData, f, value);
      // Every message text is non-empty, so the truthiness test is a presence test.
      if ErrorOf(errors, f).Some? {
        errors := WithoutError(errors, f);
      }
      if f == RoomSearchField {
        selectedRoom := None;
      }
    }

    /** The room-code input upper-cases what is typed. */
    method TypeRoomCode(value: string)
      modifies this`formData, this`errors, this`selectedRoom
      ensures formData == old(formData).(roomCode := ToUpper(value))
      ensures forall i :: 0 <= i < |formData.roomCode| ==> !IsAsciiLower(formData.roomCode[i])
      ensures errors == WithoutError(old(errors), RoomCodeField) && selectedRoom == old(selectedRoom)
    {
      HandleInputChange(RoomCodeField, ToUpper(value));
    }

    /** `selectRoom`: select, and clear only the "select a room" error. */
    method SelectRoom(room: Room)
      modifies this`selectedRoom, this`errors
      ensures selectedRoom == Some(room)
      ensures errors == old(errors).(roomSearch := None)
    {
      selectedRoom := Some(room);
      errors := errors.(roomSearch := None);
    }

    /** The join-method radio group: switch and forget the selection and the results. */
    method SetJoinMethod(m: JoinMethod)
      modifies this`formData, this`selectedRoom, this`searchResults
      ensures formData == old(formData).(joinMethod := m)
      ensures selectedRoom == None && searchResults == []
    {
      formData := formData.(joinMethod := m);
      selectedRoom := None;
      searchResults := [];
    }

    /** The Clear button: back to the initial form, no errors, no selection, no results. */
    method Clear()
      modifies this`formData, this`errors, this`selectedRoom, this`searchResults
      ensures formData == InitialForm && errors == NoErrors && selectedRoom == None && searchResults == []
    {
      formData := InitialForm;
      errors := NoErrors;
      selectedRoom := None;
      searchResults := [];
    }
  }
}
