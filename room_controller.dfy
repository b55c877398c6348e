/** `createRoom` (controller/roomController.ts) as a decision ladder: the request body,
    the authenticated user and what the environment answers (random draws, the room codes
    already stored, the new room's id, the errors the two database writes may throw, the
    clock) go in; the status, the reply, the stored room and the user's room list come out.
    The controller's own `generateRoomCode` is the `RoomCode` module's function. */
module RoomController {
  import opened Js
  import RoomCode
  import RoomValidator
  import RoomModel

  datatype User = User(id: string, name: string, email: string)

  /** What the outside world supplies to one request. */
  datatype Environment = Environment(
    controllerDraws: seq<real>,       // Math.random() values for the controller's own code
    hookRuns: seq<seq<real>>,         // Math.random() values for each attempt of the save hook
    existingCodes: set<string>,       // room codes already stored, as findOne sees them
    newRoomId: string,                // the _id Mongoose assigns
    insertError: Option<Value>,       // what the insert throws, if anything
    updateError: Option<Value>,       // what findByIdAndUpdate throws, if anything
    now: int,                         // createdAt, from the timestamps option
    hash: string -> string)           // bcrypt, as a function of the plain password

  predicate WellFormed(env: Environment)
  {
    RoomCode.Draws(env.controllerDraws) && RoomModel.Runs(env.hookRuns)
  }

  // ---------------------------------------------------------------- errors

  /** `isMongoError`: a non-null object that has both a `code` and a `keyPattern` property. */
  predicate IsMongoError(err: Value)
  {
    err.Obj? && "code" in err.fields && "keyPattern" in err.fields
  }

  /** A duplicate-key error on the room code: `code === 11000` and a truthy
      `keyPattern?.roomCode`. */
  predicate IsDuplicateRoomCode(err: Value)
  {
    IsMongoError(err) && GetProp(err, "code") == Num(11000.0) && Truthy(GetProp(GetProp(err, "keyPattern"), "roomCode"))
  }

  /** The `catch` block's status for a thrown value. */
  function CatchStatus(err: Value): (status: int)
    ensures status == 409 <==> IsDuplicateRoomCode(err)
    ensures status == 409 || status == 500
  {
    if IsMongoError(err) && GetProp(err, "code") == Num(11000.0) && Truthy(GetProp(GetProp(err, "keyPattern"), "roomCode"))
    then 409 else 500
  }

  /** The values `save()` throws on its own: Mongoose's `ValidationError` and the hook's
      plain `Error`, neither of which has a `code`; a database error is passed through. */
  function Thrown(e: RoomModel.SaveError): (v: Value)
    ensures !e.DbError? ==> !IsMongoError(v)
  {
    match e
    case Invalid(_) =>
      var m := map["name" := Str("ValidationError")];
      assert "code" !in m by { assert "code" != "name"; }
      Obj(m)
    case CodeExhausted =>
      var m := map["message" := Str("Failed to generate unique room code")];
      assert "code" !in m by { assert "code" != "message"; }
      Obj(m)
    case DbError(v) => v
  }

  // ---------------------------------------------------------------- the user's rooms

  /** `$addToSet`: the id is appended unless it is already there. */
  function AddToSet(rooms: seq<string>, id: string): (r: seq<string>)
    ensures id in r
    ensures forall x :: x in r <==> x in rooms || x == id
    ensures rooms <= r && |r| <= |rooms| + 1
  {
    if id in rooms then rooms else rooms + [id]
  }

  predicate NoDuplicates(xs: seq<string>)
  {
    forall i, j :: 0 <= i < j < |xs| ==> xs[i] != xs[j]
  }

  /** Adding keeps the list free of duplicates, and adding twice is adding once. */
  lemma AddToSetIsSetLike(rooms: seq<string>, id: string)
    ensures NoDuplicates(rooms) ==> NoDuplicates(AddToSet(rooms, id))
    ensures AddToSet(AddToSet(rooms, id), id) == AddToSet(rooms, id)
  {
    if NoDuplicates(rooms) && id !in rooms {
      var r := rooms + [id];
      forall i, j | 0 <= i < j < |r| ensures r[i] != r[j] {
        if j == |rooms| {
          assert r[i] == rooms[i];
        }
      }
    }
  }

  // ---------------------------------------------------------------- the ladder

  datatype Reply =
    | BadRequest(error: RoomValidator.JoiError)   // 400, the first Joi message
    | NotAuthorized                               // 401 'Not authorized'
    | CodeAlreadyExists                           // 409 'Room code already exists. Please try again.'
    | ServerError                                 // 500 'Server error while creating room'
    | Created(room: CreatedRoom)                  // 201 'Room created successfully'

  /** The `message` field of each reply's JSON body. */
  function ReplyMessage(r: Reply): string
  {
    match r
    case BadRequest(e) => RoomValidator.Message(e)
    case NotAuthorized => "Not authorized"
    case CodeAlreadyExists => "Room code already exists. Please try again."
    case ServerError => "Server error while creating room"
    case Created(_) => "Room created successfully"
  }

  datatype CreatedRoom = CreatedRoom(
    id: string, name: string, roomCode: string, visibility: string,
    pomodoroDuration: int, shortBreakDuration: int, longBreakDuration: int,
    owner: User, createdAt: int)

  datatype Outcome = Outcome(status: int, reply: Reply, stored: Option<RoomModel.RoomFields>, userRooms: seq<string>)

  /** The document `new Room({...})` builds: the request's values, the user as owner and
      only member, the controller's code, no password. */
  function NewRoom(req: RoomValidator.RoomRequest, userId: string, code: string): RoomModel.RoomFields
  {
    RoomModel.Constructed(req.name, Some(req.visibility), None, Some(userId), code,
      req.pomodoroDuration, req.shortBreakDuration, req.longBreakDuration, [userId])
  }

  function Reject(status: int, reply: Reply, rooms: seq<string>): Outcome
  {
    Outcome(status, reply, None, rooms)
  }

  function FromCatch(err: Value, stored: Option<RoomModel.RoomFields>, rooms: seq<string>): Outcome
  {
    var status := CatchStatus(err);
    Outcome(status, if status == 409 then CodeAlreadyExists else ServerError, stored, rooms)
  }

  /** `createRoom`. A body that passes the schema but is missing altogether throws when
      its properties are read, which the `catch` turns into a 500. */
  function CreateRoom(body: Value, keys: seq<string>, user: Option<User>, env: Environment, rooms: seq<string>): (o: Outcome)
    requires body.Obj? ==> RoomValidator.KeyOrder(body.fields, keys)
    requires WellFormed(env)
    ensures o.status in {201, 400, 401, 409, 500}
    ensures o.status == 400 <==> RoomValidator.Validate(body, keys).Some?
    ensures o.status == 400 ==> o.reply == BadRequest(RoomValidator.Validate(body, keys).value)
    ensures o.status == 400 ==> ReplyMessage(o.reply) == RoomValidator.Message(RoomValidator.Validate(body, keys).value)
    ensures o.status == 401 <==> RoomValidator.Validate(body, keys).None? && (user.None? || user.value.id == "")
    ensures o.status == 409 ==> o.reply == CodeAlreadyExists
    ensures o.status != 201 ==> o.userRooms == rooms
    ensures o.status == 201 <==> o.reply.Created?
    ensures o.stored.Some? ==> o.status == 201 || (o.status in {409, 500} && env.updateError.Some?)
    ensures o.status == 201 ==> o.userRooms == AddToSet(rooms, env.newRoomId) && o.stored.Some?
  {
    var error := RoomValidator.Validate(body, keys);
    if error.Some? then Reject(400, BadRequest(error.value), rooms)
    else if user.None? || user.value.id == "" then Reject(401, NotAuthorized, rooms)
    else if !body.Obj? then Reject(500, ServerError, rooms)
    else
      RoomValidator.ValidateAcceptsExactly(body, keys);
      var req := RoomValidator.RequestOf(body);
      var userId := user.value.id;
      var built := NewRoom(req, userId, RoomCode.CodeFor(env.controllerDraws));
      var saved := RoomModel.SaveOutcome(built, true, RoomModel.ConstructedPaths(true, false, true),
        env.hash, env.hookRuns, env.existingCodes, env.insertError);
      if saved.SaveFailed? then FromCatch(Thrown(saved.error), None, rooms)
      else if env.updateError.Some? then FromCatch(env.updateError.value, Some(saved.room), rooms)
      else
        var room := saved.room;
        Outcome(201, Created(CreatedRoom(env.newRoomId, room.name, room.roomCode, room.visibility,
          room.pomodoroDuration, room.shortBreakDuration, room.longBreakDuration, user.value, env.now)),
          Some(room), AddToSet(rooms, env.newRoomId))
  }

  /** The text of a 400 reply is the text of the schema's first error and of no other
      error, so a client can tell from it alone which check refused the body. */
  lemma BadRequestIdentifiesError(body: Value, keys: seq<string>, user: Option<User>, env: Environment, rooms: seq<string>)
    requires body.Obj? ==> RoomValidator.KeyOrder(body.fields, keys)
    requires WellFormed(env)
    requires CreateRoom(body, keys, user, env, rooms).status == 400
    ensures forall e :: (RoomValidator.Message(e) == ReplyMessage(CreateRoom(body, keys, user, env, rooms).reply)
                         <==> Some(e) == RoomValidator.Validate(body, keys))
  {
    var first := RoomValidator.Validate(body, keys).value;
    assert ReplyMessage(CreateRoom(body, keys, user, env, rooms).reply) == RoomValidator.Message(first);
    forall e | RoomValidator.Message(e) == RoomValidator.Message(first)
      ensures e == first
    {
      RoomValidator.MessageIdentifiesError(e, first);
    }
  }

  // ---------------------------------------------------------------- what a created room is

  /** A created room belongs to the requesting user, who is its only member; it carries no
      password, the request's visibility and durations, the trimmed name, and a code the
      save hook drew that was not stored yet, whatever code the controller generated. */
  lemma CreatedRoomShape(body: Value, keys: seq<string>, user: Option<User>, env: Environment, rooms: seq<string>)
    requires body.Obj? ==> RoomValidator.KeyOrder(body.fields, keys)
    requires WellFormed(env)
    requires CreateRoom(body, keys, user, env, rooms).status == 201
    ensures body.Obj? && RoomValidator.Accepts(body) && user.Some?
    ensures var room := CreateRoom(body, keys, user, env, rooms).stored.value;
      var req := RoomValidator.RequestOf(body);
      && room.owner == Some(user.value.id) && room.members == [user.value.id]
      && room.password == None
      && room.name == Trim(req.name) && room.visibility == req.visibility
      && room.pomodoroDuration == req.pomodoroDuration
      && room.shortBreakDuration == req.shortBreakDuration
      && room.longBreakDuration == req.longBreakDuration
      && room.roomCode == RoomModel.Candidate(env.hookRuns, RoomModel.Attempts(env.hookRuns, env.existingCodes) - 1)
      && room.roomCode !in env.existingCodes
      && 3 <= |room.name| <= 50
  {
    var o := CreateRoom(body, keys, user, env, rooms);
    assert RoomValidator.Validate(body, keys).None? && user.Some? && user.value.id != "";
    assert body.Obj?;
    RoomValidator.ValidateAcceptsExactly(body, keys);
    var built := NewRoom(RoomValidator.RequestOf(body), user.value.id, RoomCode.CodeFor(env.controllerDraws));
    var saved := RoomModel.SaveOutcome(built, true, RoomModel.ConstructedPaths(true, false, true),
      env.hash, env.hookRuns, env.existingCodes, env.insertError);
    assert saved.Stored? && o.stored == Some(saved.room);
    assert RoomModel.Violations(built) == {};
    assert RoomModel.PathOk(built, RoomModel.NamePath);
  }

  /** A 409 can only come from a duplicate-key error on the room code thrown by one of the
      two writes; every other failure after validation is a 500. */
  lemma ConflictOnlyFromDuplicateCode(body: Value, keys: seq<string>, user: Option<User>, env: Environment, rooms: seq<string>)
    requires body.Obj? ==> RoomValidator.KeyOrder(body.fields, keys)
    requires WellFormed(env)
    requires CreateRoom(body, keys, user, env, rooms).status == 409
    ensures (env.insertError.Some? && IsDuplicateRoomCode(env.insertError.value))
         || (env.updateError.Some? && IsDuplicateRoomCode(env.updateError.value))
  {
    var o := CreateRoom(body, keys, user, env, rooms);
    assert RoomValidator.Validate(body, keys).None? && user.Some? && user.value.id != "";
    assert body.Obj?;
    RoomValidator.ValidateAcceptsExactly(body, keys);
    var built := NewRoom(RoomValidator.RequestOf(body), user.value.id, RoomCode.CodeFor(env.controllerDraws));
    var saved := RoomModel.SaveOutcome(built, true, RoomModel.ConstructedPaths(true, false, true),
      env.hash, env.hookRuns, env.existingCodes, env.insertError);
    if saved.SaveFailed? {
      assert CatchStatus(Thrown(saved.error)) == 409 by {
        assert o == FromCatch(Thrown(saved.error), None, rooms);
      }
      ConflictFromInsert(saved, env.insertError);
    } else {
      assert CatchStatus(env.updateError.value) == 409 by {
        assert o == FromCatch(env.updateError.value, Some(saved.room), rooms);
      }
    }
  }

  /** A failed save whose thrown value the `catch` answers with 409 failed on the insert,
      with a duplicate-key error on the room code. */
  lemma ConflictFromInsert(saved: RoomModel.SaveResult, insertError: Option<Value>)
    requires saved.SaveFailed? && CatchStatus(Thrown(saved.error)) == 409
    requires saved.error.DbError? ==> insertError == Some(saved.error.err)
    ensures insertError.Some? && IsDuplicateRoomCode(insertError.value)
  {
    assert IsMongoError(Thrown(saved.error));
  }

  lemma MongoErrorExamples()
    ensures IsDuplicateRoomCode(Obj(map["code" := Num(11000.0), "keyPattern" := Obj(map["roomCode" := Num(1.0)])]))
    ensures !IsDuplicateRoomCode(Obj(map["code" := Num(11000.0), "keyPattern" := Obj(map["email" := Num(1.0)])]))
    ensures !IsMongoError(Obj(map["code" := Num(11000.0)]))
  {
    var kp := map["roomCode" := Num(1.0)];
    assert GetProp(Obj(kp), "roomCode") == Num(1.0);
    assert "roomCode" != "email";
    assert "code" != "keyPattern";
  }
}
