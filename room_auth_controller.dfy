/** `verifyRoomPassword` (controller/roomAuthController.ts): an early-return ladder from
    the request body and what the database answers to a status and a reply. The lookup
    `Room.findById(roomId)` is a parameter mapping the id to what the query resolves to or
    throws; bcrypt's comparison is the `matches` predicate `RoomModel.ComparePassword` is
    given. */
module RoomAuthController {
  import opened Js
  import RoomModel

  /** What `Room.findById(roomId).select('+password')` resolves to, or that it throws (an
      id that is not an ObjectId, a lost connection). */
  datatype FindResult = Found(room: RoomModel.RoomFields) | NotFound | FindThrew

  datatype AuthReply =
    | MissingFields    // 400 'Room ID and password are required'
    | RoomNotFound     // 404 'Room not found'
    | NotPrivate       // 400 'Room is not private'
    | NoPasswordSet    // 500 'Private room has no password set'
    | InvalidPassword  // 401 'Invalid password'
    | Verified         // 200 { success: true, message: 'Password verified' }
    | ServerError      // 500 'Server error while verifying password'

  function Status(r: AuthReply): (status: int)
    ensures status in {200, 400, 401, 404, 500}
    ensures status == 200 <==> r == Verified
  {
    match r
    case MissingFields => 400
    case RoomNotFound => 404
    case NotPrivate => 400
    case NoPasswordSet => 500
    case InvalidPassword => 401
    case Verified => 200
    case ServerError => 500
  }

  /** The reply's `success` field: present, and true, only on a verified password. */
  function Success(r: AuthReply): (success: Option<bool>)
    ensures success.Some? <==> Status(r) == 200
    ensures success.Some? ==> success.value
  {
    if r == Verified then Some(true) else None
  }

  /** `verifyRoomPassword`. Destructuring a missing (`undefined` or `null`) body throws,
      which the `catch` turns into a 500, as it does a failed lookup and a comparison
      that throws. */
  function VerifyRoomPassword(body: Value, find: Value -> FindResult, matches: (string, string) -> bool): (r: AuthReply)
    ensures body == Undefined || body == Null ==> r == ServerError
    ensures r == MissingFields <==> body != Undefined && body != Null && !HasFields(body)
  {
    if body == Undefined || body == Null then ServerError
    else
      var roomId := GetProp(body, "roomId");
      var password := GetProp(body, "password");
      if !Truthy(roomId) || !Truthy(password) then MissingFields
      else match find(roomId)
        case FindThrew => ServerError
        case NotFound => RoomNotFound
        case Found(room) =>
          if room.visibility != "private" then NotPrivate
          else if room.password.None? || room.password.value == "" then NoPasswordSet
          else match RoomModel.ComparePassword(room, password, matches)
            case CompareThrew => ServerError
            case Compared(isMatch) => if !isMatch then InvalidPassword else Verified
  }

  /** The body carries both fields, as the first check demands. */
  predicate HasFields(body: Value)
  {
    Truthy(GetProp(body, "roomId")) && Truthy(GetProp(body, "password"))
  }

  /** The ladder, check by check: each status comes from exactly one failing check, the
      checks run in order, and a later one is reached only when every earlier one passed. */
  lemma LadderOrder(body: Value, find: Value -> FindResult, matches: (string, string) -> bool)
    ensures var r := VerifyRoomPassword(body, find, matches);
      var present := body != Undefined && body != Null;
      var id := GetProp(body, "roomId");
      && (r == MissingFields <==> present && !HasFields(body))
      && (r == RoomNotFound <==> present && HasFields(body) && find(id) == NotFound)
      && (r == NotPrivate <==> present && HasFields(body) && find(id).Found? && find(id).room.visibility != "private")
      && (r == NoPasswordSet <==> (&& present && HasFields(body) && find(id).Found?
            && find(id).room.visibility == "private" && !Truthy(OptionValue(find(id).room.password))))
      && (r == InvalidPassword ==> (&& present && HasFields(body) && find(id).Found?
            && find(id).room.visibility == "private" && Truthy(OptionValue(find(id).room.password))))
  {
  }

  /** A missing password property reads as `undefined`; a stored password as its string. */
  function OptionValue(p: Option<string>): (v: Value)
    ensures Truthy(v) <==> p.Some? && p.value != ""
  {
    match p
    case None => Undefined
    case Some(s) => Str(s)
  }

  /** 200 exactly when the room exists, is private, has a password, and the entered
      password is a string bcrypt matches against it. */
  lemma VerifiedExactly(body: Value, find: Value -> FindResult, matches: (string, string) -> bool)
    ensures VerifyRoomPassword(body, find, matches) == Verified <==>
      && body != Undefined && body != Null && HasFields(body)
      && find(GetProp(body, "roomId")).Found?
      && var room := find(GetProp(body, "roomId")).room;
         && room.visibility == "private" && room.password.Some? && room.password.value != ""
         && GetProp(body, "password").Str? && matches(GetProp(body, "password").s, room.password.value)
  {
    if body != Undefined && body != Null && HasFields(body) {
      var id := GetProp(body, "roomId");
      if find(id).Found? {
        var room := find(id).room;
        if room.visibility == "private" && room.password.Some? && room.password.value != "" {
          var pw := GetProp(body, "password");
          if pw.Str? {
            assert RoomModel.ComparePassword(room, pw, matches) == RoomModel.Compared(matches(pw.s, room.password.value));
          }
        }
      }
    }
  }

  /** The ladder checks visibility and the stored password before comparing, so the
      guard in `comparePassword` that answers false without comparing never decides a
      reply: a 401 always comes from bcrypt's own answer. */
  lemma MismatchIsBcryptsAnswer(body: Value, find: Value -> FindResult, matches: (string, string) -> bool)
    requires VerifyRoomPassword(body, find, matches) == InvalidPassword
    ensures var room := find(GetProp(body, "roomId")).room;
      var pw := GetProp(body, "password");
      && pw.Str? && room.password.Some? && !matches(pw.s, room.password.value)
  {
  }

  /** An entered password that is truthy but not a string (a number, an object) passes
      the first check and makes bcrypt throw: a 500, not a 401. */
  lemma NonStringPasswordIsServerError(room: RoomModel.RoomFields, roomId: Value, matches: (string, string) -> bool)
    requires Truthy(roomId) && room.visibility == "private" && room.password.Some? && room.password.value != ""
    ensures var body := Obj(map["roomId" := roomId, "password" := Num(1234.0)]);
      Status(VerifyRoomPassword(body, (v: Value) => Found(room), matches)) == 500
  {
    var body := Obj(map["roomId" := roomId, "password" := Num(1234.0)]);
    assert "roomId" != "password";
    assert GetProp(body, "password") == Num(1234.0);
    assert GetProp(body, "roomId") == roomId;
  }
}
