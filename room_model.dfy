/** The room document (model/Room.ts): the schema's setters and validators, the two
    pre-save hooks (password hashing and unique room code), `comparePassword` and the
    `toJSON` transform. The database is reduced to what the hooks and the insert observe:
    the set of room codes already stored and the insert's own error, both supplied by the
    caller; bcrypt becomes a hash function and a matching predicate passed in. */
module RoomModel {
  import opened Js
  import RoomCode

  /** The stored values of one room. Durations are whole minutes; `owner` and `members`
      hold user ids. */
  datatype RoomFields = RoomFields(
    name: string, visibility: string, password: Option<string>, owner: Option<string>,
    roomCode: string, pomodoroDuration: int, shortBreakDuration: int, longBreakDuration: int,
    members: seq<string>)

  // ---------------------------------------------------------------- validators

  /** The document's paths, as `isModified` and the validators name them. */
  datatype SchemaPath = NamePath | VisibilityPath | PasswordPath | OwnerPath | RoomCodePath
    | PomodoroPath | ShortBreakPath | LongBreakPath | MembersPath

  const AllPaths: set<SchemaPath> := {NamePath, VisibilityPath, PasswordPath, OwnerPath, RoomCodePath,
    PomodoroPath, ShortBreakPath, LongBreakPath, MembersPath}

  /** Whether one path's validators pass. A required string fails when empty,
      `minlength`/`maxlength` compare the stored (trimmed) length, `enum` admits the two
      visibilities, a missing password is not checked, and `members` has no validator. */
  predicate PathOk(f: RoomFields, p: SchemaPath)
  {
    match p
    case NamePath => f.name != "" && 3 <= |f.name| <= 50
    case VisibilityPath => f.visibility == "public" || f.visibility == "private"
    case PasswordPath => f.password.None? || |f.password.value| >= 4
    case OwnerPath => f.owner.Some?
    case RoomCodePath => f.roomCode != ""
    case PomodoroPath => 15 <= f.pomodoroDuration <= 60
    case ShortBreakPath => 3 <= f.shortBreakDuration <= 15
    case LongBreakPath => 10 <= f.longBreakDuration <= 30
    case MembersPath => true
  }

  /** The paths whose validators fail, as `validate()` collects them before saving. */
  function Violations(f: RoomFields): (v: set<SchemaPath>)
    ensures forall p :: p in v <==> !PathOk(f, p)
  {
    set p | p in AllPaths && !PathOk(f, p)
  }

  // ---------------------------------------------------------------- hooks as functions

  /** The first pre-save hook: the password is replaced by its hash only when it was
      modified, the room is private and the password is not empty. */
  function HashedPassword(f: RoomFields, modified: set<SchemaPath>, hash: string -> string): (p: Option<string>)
    ensures p != f.password ==> PasswordPath in modified && f.visibility == "private" && f.password.Some? && f.password.value != ""
    ensures PasswordPath in modified && f.visibility == "private" && f.password.Some? && f.password.value != "" ==>
      p == Some(hash(f.password.value))
  {
    if PasswordPath !in modified || f.visibility != "private" then f.password
    else if f.password.Some? && f.password.value != "" then Some(hash(f.password.value))
    else f.password
  }

  const MaxAttempts := 5

  /** One sequence of six `Math.random()` values per attempt the hook may make. */
  predicate Runs(runs: seq<seq<real>>)
  {
    |runs| == MaxAttempts && forall i :: 0 <= i < |runs| ==> RoomCode.Draws(runs[i])
  }

  function Candidate(runs: seq<seq<real>>, i: nat): string
    requires Runs(runs) && i < MaxAttempts
  {
    RoomCode.CodeFor(runs[i])
  }

  /** How many codes the second pre-save hook generates when its first `i` attempts all hit
      stored codes: it stops after the first free code, or after the fifth attempt. */
  function AttemptsFrom(runs: seq<seq<real>>, existing: set<string>, i: nat): (n: nat)
    requires Runs(runs) && i < MaxAttempts
    ensures i < n <= MaxAttempts
    decreases MaxAttempts - i
  {
    if Candidate(runs, i) !in existing || i == MaxAttempts - 1 then i + 1
    else AttemptsFrom(runs, existing, i + 1)
  }

  function Attempts(runs: seq<seq<real>>, existing: set<string>): nat
    requires Runs(runs)
  {
    AttemptsFrom(runs, existing, 0)
  }

  /** The hook's promise: between one and five attempts, every attempt before the last hit
      a stored code, and the last code is free unless all five were taken. */
  lemma {:induction false} AttemptsBound(runs: seq<seq<real>>, existing: set<string>, i: nat)
    requires Runs(runs) && i < MaxAttempts
    ensures var n := AttemptsFrom(runs, existing, i);
      && (forall k :: i <= k < n - 1 ==> Candidate(runs, k) in existing)
      && (Candidate(runs, n - 1) in existing ==> n == MaxAttempts)
    decreases MaxAttempts - i
  {
    if Candidate(runs, i) in existing && i < MaxAttempts - 1 {
      AttemptsBound(runs, existing, i + 1);
    }
  }

  /** The hook throws exactly when all five codes it tried were already stored. */
  lemma CodeHookThrowsIff(runs: seq<seq<real>>, existing: set<string>)
    requires Runs(runs)
    ensures 1 <= Attempts(runs, existing) <= MaxAttempts
    ensures forall k :: 0 <= k < Attempts(runs, existing) - 1 ==> Candidate(runs, k) in existing
    ensures Candidate(runs, Attempts(runs, existing) - 1) in existing
      <==> forall k :: 0 <= k < MaxAttempts ==> Candidate(runs, k) in existing
  {
    AttemptsBound(runs, existing, 0);
  }

  // ---------------------------------------------------------------- the document

  /** The paths the constructor is given a value for: all but the optional ones left out. */
  predicate GivenPath(p: SchemaPath, hasVisibility: bool, hasPassword: bool, hasOwner: bool)
  {
    match p
    case VisibilityPath => hasVisibility
    case PasswordPath => hasPassword
    case OwnerPath => hasOwner
    case _ => true
  }

  /** The outcome of `save()`. A validation error and the hook's "Failed to generate unique
      room code" are plain errors without a `code`; `DbError` is whatever the insert threw. */
  datatype SaveError = Invalid(paths: set<SchemaPath>) | CodeExhausted | DbError(err: Value)

  /** The paths a freshly constructed document counts as modified. */
  function ConstructedPaths(hasVisibility: bool, hasPassword: bool, hasOwner: bool): (paths: set<SchemaPath>)
    ensures PasswordPath in paths <==> hasPassword
    ensures RoomCodePath in paths
  {
    set p | p in AllPaths && GivenPath(p, hasVisibility, hasPassword, hasOwner)
  }

  /** The values `new Room({...})` stores: the name trimmed, the code upper-cased, a
      missing visibility replaced by the default "public", everything else as given. */
  function Constructed(name: string, visibility: Option<string>, password: Option<string>, owner: Option<string>,
                       roomCode: string, pomodoroDuration: int, shortBreakDuration: int, longBreakDuration: int,
                       members: seq<string>): RoomFields
  {
    RoomFields(Trim(name), if visibility.Some? then visibility.value else "public",
      password, owner, ToUpper(roomCode), pomodoroDuration, shortBreakDuration, longBreakDuration, members)
  }

  /** The values after both pre-save hooks have run on a valid document: the password as
      the first hook leaves it, and the last code the second hook tried when it runs. */
  function Hooked(f: RoomFields, isNew: bool, modified: set<SchemaPath>, hash: string -> string,
                  runs: seq<seq<real>>, existing: set<string>): RoomFields
    requires Runs(runs)
  {
    var regenerate := isNew || RoomCodePath in modified;
    f.(password := HashedPassword(f, modified, hash),
       roomCode := if regenerate then Candidate(runs, Attempts(runs, existing) - 1) else f.roomCode)
  }

  datatype SaveResult = SaveFailed(error: SaveError) | Stored(room: RoomFields)

  /** `save()` on a document with values `f`: validation first, then the two pre-save
      hooks in the order they are registered, then the insert. The code hook runs for a
      new document or a modified code. */
  function SaveOutcome(f: RoomFields, isNew: bool, modified: set<SchemaPath>, hash: string -> string,
                       runs: seq<seq<real>>, existing: set<string>, insertError: Option<Value>): (r: SaveResult)
    requires Runs(runs)
    ensures r.Stored? <==> (&& Violations(f) == {} && insertError.None?
      && ((isNew || RoomCodePath in modified) ==> Candidate(runs, Attempts(runs, existing) - 1) !in existing))
    ensures r == SaveFailed(CodeExhausted) ==> forall k :: 0 <= k < MaxAttempts ==> Candidate(runs, k) in existing
    ensures r.SaveFailed? && r.error.DbError? ==> insertError == Some(r.error.err)
    ensures r.Stored? ==> (&& r.room.name == f.name && r.room.visibility == f.visibility
      && r.room.owner == f.owner && r.room.members == f.members
      && r.room.pomodoroDuration == f.pomodoroDuration && r.room.shortBreakDuration == f.shortBreakDuration
      && r.room.longBreakDuration == f.longBreakDuration
      && r.room.password == HashedPassword(f, modified, hash)
      && (isNew || RoomCodePath in modified ==> r.room.roomCode !in existing)
      && (!isNew && RoomCodePath !in modified ==> r.room.roomCode == f.roomCode))
    ensures r.Stored? ==> r.room == Hooked(f, isNew, modified, hash, runs, existing)
  {
    var violations := Violations(f);
    var regenerate := isNew || RoomCodePath in modified;
    var code := if regenerate then Candidate(runs, Attempts(runs, existing) - 1) else f.roomCode;
    if violations != {} then SaveFailed(Invalid(violations))
    else if regenerate && code in existing then
      CodeHookThrowsIff(runs, existing);
      SaveFailed(CodeExhausted)
    else if insertError.Some? then SaveFailed(DbError(insertError.value))
    else Stored(f.(password := HashedPassword(f, modified, hash), roomCode := code))
  }

  /** A room document in memory. `isNew` and `modifiedPaths` are Mongoose's change
      tracking; the setters `trim` (name) and `uppercase` (room code) apply on assignment. */
  class RoomDocument {
    var name: string
    var visibility: string
    var password: Option<string>
    var owner: Option<string>
    var roomCode: string
    var pomodoroDuration: int
    var shortBreakDuration: int
    var longBreakDuration: int
    var members: seq<string>
    var isNew: bool
    var modifiedPaths: set<SchemaPath>

    function Fields(): RoomFields
      reads this
    {
      RoomFields(name, visibility, password, owner, roomCode,
        pomodoroDuration, shortBreakDuration, longBreakDuration, members)
    }

    /** `new Room({...})`: the name is trimmed, the code upper-cased, a missing visibility
      defaults to "public"; every path given counts as modified. */
    constructor (name: string, visibility: Option<string>, password: Option<string>, owner: Option<string>,
                 roomCode: string, pomodoroDuration: int, shortBreakDuration: int, longBreakDuration: int,
                 members: seq<string>)
      ensures Fields() == Constructed(name, visibility, password, owner, roomCode,
        pomodoroDuration, shortBreakDuration, longBreakDuration, members)
      ensures isNew
      ensures modifiedPaths == ConstructedPaths(visibility.Some?, password.Some?, owner.Some?)
    {
      var f := Constructed(name, visibility, password, owner, roomCode,
        pomodoroDuration, shortBreakDuration, longBreakDuration, members);
      this.name := f.name;
      this.visibility := f.visibility;
      this.password := f.password;
      this.owner := f.owner;
      this.roomCode := f.roomCode;
      this.pomodoroDuration := f.pomodoroDuration;
      this.shortBreakDuration := f.shortBreakDuration;
      this.longBreakDuration := f.longBreakDuration;
      this.members := f.members;
      isNew := true;
      modifiedPaths := ConstructedPaths(visibility.Some?, password.Some?, owner.Some?);
    }

    /** The password hook. */
    method HashPasswordHook(hash: string -> string)
      modifies this`password
      ensures password == HashedPassword(old(Fields()), modifiedPaths, hash)
    {
      if PasswordPath !in modifiedPaths || visibility != "private" {
        return;
      }
      if password.Some? && password.value != "" {
        password := Some(hash(password.value));
      }
    }

    /** The room-code hook: a document that is new or whose code changed gets fresh codes
      until one is not stored yet, at most five times; it throws when the fifth is still
      taken. The upper-casing setter leaves generated codes as they are. */
    method UniqueCodeHook(runs: seq<seq<real>>, existing: set<string>) returns (thrown: bool)
      requires Runs(runs)
      modifies this`roomCode
      ensures !isNew && RoomCodePath !in modifiedPaths ==> roomCode == old(roomCode) && !thrown
      ensures isNew || RoomCodePath in modifiedPaths ==>
        && roomCode == Candidate(runs, Attempts(runs, existing) - 1)
        && (thrown <==> roomCode in existing)
    {
      thrown := false;
      if !(RoomCodePath in modifiedPaths) && !isNew {
        return;
      }
      var codeExists := true;
      var attempts := 0;
      while codeExists && attempts < MaxAttempts
        invariant 0 <= attempts <= MaxAttempts
        invariant codeExists && attempts < MaxAttempts ==> AttemptsFrom(runs, existing, attempts) == Attempts(runs, existing)
        invariant attempts > 0 ==> roomCode == Candidate(runs, attempts - 1) && (codeExists <==> roomCode in existing)
        invariant !codeExists ==> attempts == Attempts(runs, existing)
        invariant codeExists && attempts == MaxAttempts ==> attempts == Attempts(runs, existing)
        decreases MaxAttempts - attempts
      {
        var code := RoomCode.GenerateRoomCode(runs[attempts]);
        RoomCode.CodeShape(runs[attempts]);
        roomCode := ToUpper(code);
        codeExists := roomCode in existing;
        attempts := attempts + 1;
      }
      thrown := codeExists;
    }

    /** `save()`: validation first, then the two hooks in the order they are registered,
      then the insert. Nothing is stored unless every step succeeds. */
    method Save(hash: string -> string, runs: seq<seq<real>>, existing: set<string>, insertError: Option<Value>)
      returns (err: Option<SaveError>)
      requires Runs(runs)
      modifies this
      ensures var r := SaveOutcome(old(Fields()), old(isNew), old(modifiedPaths), hash, runs, existing, insertError);
        && (r.SaveFailed? ==> err == Some(r.error))
        && (r.Stored? ==> err == None && Fields() == r.room && !isNew && modifiedPaths == {})
      ensures Violations(old(Fields())) != {} ==> Fields() == old(Fields())
      ensures Violations(old(Fields())) == {} ==>
        Fields() == Hooked(old(Fields()), old(isNew), old(modifiedPaths), hash, runs, existing)
      ensures err.Some? ==> isNew == old(isNew) && modifiedPaths == old(modifiedPaths)
    {
      var v := Violations(Fields());
      if v != {} {
        return Some(Invalid(v));
      }
      HashPasswordHook(hash);
      var thrown := UniqueCodeHook(runs, existing);
      if thrown {
        return Some(CodeExhausted);
      }
      if insertError.Some? {
        return Some(DbError(insertError.value));
      }
      isNew := false;
      modifiedPaths := {};
      err := None;
    }
  }

  // ---------------------------------------------------------------- reading a room

  datatype CompareOutcome = Compared(matched: bool) | CompareThrew

  /** `comparePassword`: false without comparing unless the room is private and has a
      non-empty stored password; otherwise bcrypt's answer, which throws for an entered
      value that is not a string. */
  function ComparePassword(f: RoomFields, entered: Value, matches: (string, string) -> bool): (r: CompareOutcome)
    ensures f.visibility != "private" || f.password.None? || f.password.value == "" ==> r == Compared(false)
    ensures r == Compared(true) ==> entered.Str? && f.password.Some? && matches(entered.s, f.password.value)
    ensures r == CompareThrew <==> f.visibility == "private" && f.password.Some? && f.password.value != "" && !entered.Str?
  {
    if f.visibility != "private" || f.password.None? || f.password.value == "" then Compared(false)
    else if !entered.Str? then CompareThrew
    else Compared(matches(entered.s, f.password.value))
  }

  /** The `toJSON` transform on the plain object `ret`: `id` takes `_id`'s value, and
      `_id`, `__v` and `password` are deleted; every other key is left alone. */
  method ToJson(ret: map<string, Value>) returns (out: map<string, Value>)
    ensures "_id" !in out && "__v" !in out && "password" !in out
    ensures "id" in out && out["id"] == (if "_id" in ret then ret["_id"] else Undefined)
    ensures forall k :: k != "id" && k != "_id" && k != "__v" && k != "password" ==>
      (k in out <==> k in ret) && (k in out ==> out[k] == ret[k])
  {
    out := ret;
    out := out["id" := GetProp(Obj(out), "_id")];
    out := out - {"_id"};
    out := out - {"__v"};
    out := out - {"password"};
  }
}
