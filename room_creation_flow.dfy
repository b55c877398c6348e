/** The path of a new room through the three layers that check it: the client's
    RoomConfigForm, the server's request schema (roomvalidator.ts) and the Mongoose schema
    (model/Room.ts), joined by `createRoom`. The lemmas compare what each layer lets
    through. */
module RoomCreationFlow {
  import opened Js
  import RoomConfigForm
  import RoomValidator
  import RoomModel
  import RoomController
  import RoomCode

  /** Which request field and which stored path each slider feeds. */
  function DurationOf(s: RoomConfigForm.Slider): RoomValidator.Duration
  {
    match s
    case FocusSlider => RoomValidator.Pomodoro
    case ShortBreakSlider => RoomValidator.ShortBreak
    case LongBreakSlider => RoomValidator.LongBreak
  }

  function PathOf(s: RoomConfigForm.Slider): RoomModel.SchemaPath
  {
    match s
    case FocusSlider => RoomModel.PomodoroPath
    case ShortBreakSlider => RoomModel.ShortBreakPath
    case LongBreakSlider => RoomModel.LongBreakPath
  }

  function StoredMinutes(f: RoomModel.RoomFields, s: RoomConfigForm.Slider): int
  {
    match s
    case FocusSlider => f.pomodoroDuration
    case ShortBreakSlider => f.shortBreakDuration
    case LongBreakSlider => f.longBreakDuration
  }

  /** The three layers agree on every duration range: the slider's ends are the request
      schema's `min` and `max`, and the document's validator accepts exactly that range. */
  lemma RangesAgree(s: RoomConfigForm.Slider)
    ensures RoomConfigForm.SliderMin(s) == RoomValidator.Lo(DurationOf(s))
    ensures RoomConfigForm.SliderMax(s) == RoomValidator.Hi(DurationOf(s))
    ensures forall f :: RoomModel.PathOk(f, PathOf(s)) <==>
      RoomValidator.Lo(DurationOf(s)) <= StoredMinutes(f, s) <= RoomValidator.Hi(DurationOf(s))
  {
  }

  /** Every value a slider can show passes both server-side checks of its duration. */
  lemma SliderValuesPassServer(s: RoomConfigForm.Slider, v: int, f: RoomModel.RoomFields)
    requires RoomConfigForm.OnSlider(s, v) && StoredMinutes(f, s) == v
    ensures RoomValidator.CheckDuration(DurationOf(s), Num(v as real)) == None
    ensures RoomModel.PathOk(f, PathOf(s))
  {
    RangesAgree(s);
    assert Num(v as real).x.Floor == v;
  }

  /** The body the form posts for `d`, and the order of its keys. */
  function Posted(d: RoomConfigForm.RoomForm): (body: Value)
    ensures body.Obj? && RoomValidator.KeyOrder(body.fields, RoomConfigForm.SubmitKeys(d.visibility))
    ensures ("password" in body.fields) <==> d.visibility == RoomConfigForm.Private
  {
    var m := RoomConfigForm.FormObject(d);
    var body := if d.visibility == RoomConfigForm.Public then m - {"password"} else m;
    RoomConfigForm.SubmitKeysMatchBody(d, body);
    Obj(body)
  }

  /** What the client accepts and the server schema also needs: every duration on its
      slider and a name of at most 50 characters (the form sets no upper bound). */
  predicate ClientAccepts(d: RoomConfigForm.RoomForm)
  {
    RoomConfigForm.Acceptable(d) && RoomConfigForm.DurationsOnSliders(d) && |d.name| <= 50
  }

  /** The declared keys of a posted body all pass their checks. */
  lemma PostedFieldsPass(d: RoomConfigForm.RoomForm)
    requires ClientAccepts(d)
    ensures var body := Posted(d);
      && RoomValidator.CheckName(GetProp(body, "name")) == None
      && RoomValidator.CheckVisibility(GetProp(body, "visibility")) == None
      && forall dur :: RoomValidator.CheckDuration(dur, GetProp(body, RoomValidator.DurationKey(dur))) == None
  {
    var body := Posted(d);
    assert "password" != "name" && "password" != "visibility";
    assert "password" != "pomodoroDuration" && "password" != "shortBreakDuration" && "password" != "longBreakDuration";
    assert GetProp(body, "name") == Str(d.name);
    assert GetProp(body, "visibility") == Str(RoomConfigForm.VisibilityText(d.visibility));
    forall dur ensures RoomValidator.CheckDuration(dur, GetProp(body, RoomValidator.DurationKey(dur))) == None {
      var s := match dur
        case Pomodoro => RoomConfigForm.FocusSlider
        case ShortBreak => RoomConfigForm.ShortBreakSlider
        case LongBreak => RoomConfigForm.LongBreakSlider;
      assert DurationOf(s) == dur;
      assert RoomConfigForm.OnSlider(s, RoomConfigForm.Minutes(d, s));
      assert GetProp(body, RoomValidator.DurationKey(dur)) == Num(RoomConfigForm.Minutes(d, s) as real);
      RangesAgree(s);
    }
  }

  /** A public room the form accepts passes the request schema. */
  lemma PublicFormPassesSchema(d: RoomConfigForm.RoomForm)
    requires ClientAccepts(d) && d.visibility == RoomConfigForm.Public
    ensures RoomValidator.Validate(Posted(d), RoomConfigForm.SubmitKeys(d.visibility)) == None
  {
    var body := Posted(d);
    var keys := RoomConfigForm.SubmitKeys(d.visibility);
    PostedFieldsPass(d);
    assert RoomValidator.CheckDuration(RoomValidator.Pomodoro, GetProp(body, RoomValidator.DurationKey(RoomValidator.Pomodoro))) == None;
    assert RoomValidator.CheckDuration(RoomValidator.ShortBreak, GetProp(body, RoomValidator.DurationKey(RoomValidator.ShortBreak))) == None;
    assert RoomValidator.CheckDuration(RoomValidator.LongBreak, GetProp(body, RoomValidator.DurationKey(RoomValidator.LongBreak))) == None;
    assert forall i :: 0 <= i < |keys| ==> RoomValidator.IsSchemaKey(keys[i]);
  }

  /** A private room the form accepts is refused by the request schema, because the form
      posts the password and the schema does not declare it: the client cannot create a
      private room through `createRoom`. */
  lemma PrivateFormRejectedBySchema(d: RoomConfigForm.RoomForm)
    requires ClientAccepts(d) && d.visibility == RoomConfigForm.Private
    ensures RoomValidator.Validate(Posted(d), RoomConfigForm.SubmitKeys(d.visibility)) == Some(RoomValidator.NotAllowed("password"))
    ensures RoomValidator.Message(RoomValidator.NotAllowed("password")) == "\"password\" is not allowed"
  {
    var keys := RoomConfigForm.SubmitKeys(d.visibility);
    PostedFieldsPass(d);
    assert keys[2] == "password" && !RoomValidator.IsSchemaKey(keys[2]);
    assert RoomValidator.IsSchemaKey(keys[0]) && RoomValidator.IsSchemaKey(keys[1]);
    RoomValidator.UnknownKeyReported(Posted(d), keys, 2);
    PasswordNotAllowedText();
  }

  lemma PasswordNotAllowedText()
    ensures RoomValidator.Message(RoomValidator.NotAllowed("password")) == "\"password\" is not allowed"
  {
  }

  /** The form sets no upper bound on the name: a name over 50 characters passes the form,
      public or private, and the request schema refuses it first, before any other key. */
  lemma LongNameRefusedBySchema(d: RoomConfigForm.RoomForm)
    requires RoomConfigForm.Acceptable(d) && |d.name| > 50
    ensures RoomValidator.Validate(Posted(d), RoomConfigForm.SubmitKeys(d.visibility)) == Some(RoomValidator.NameTooLong)
    ensures RoomValidator.Message(RoomValidator.NameTooLong) == "Room name cannot exceed 50 characters"
  {
    var body := Posted(d);
    assert GetProp(body, "name") == Str(d.name) by { assert "password" != "name"; }
    assert RoomValidator.CheckName(GetProp(body, "name")) == Some(RoomValidator.NameTooLong);
    NameTooLongText();
  }

  lemma NameTooLongText()
    ensures RoomValidator.Message(RoomValidator.NameTooLong) == "Room name cannot exceed 50 characters"
  {
  }

  /** A body the schema accepts whose name is shorter than 3 characters once trimmed
      fails the document's `minlength` after the `trim` setter: `createRoom` answers 500
      and stores nothing, although the name passed both the form and the schema. */
  lemma ShortTrimmedNameIsServerError(body: Value, keys: seq<string>, user: RoomController.User,
                                      env: RoomController.Environment, rooms: seq<string>)
    requires body.Obj? && RoomValidator.KeyOrder(body.fields, keys)
    requires RoomController.WellFormed(env) && user.id != ""
    requires RoomValidator.Validate(body, keys) == None
    requires |Trim(body.fields["name"].s)| < 3
    ensures RoomController.CreateRoom(body, keys, Some(user), env, rooms).status == 500
    ensures RoomController.CreateRoom(body, keys, Some(user), env, rooms).stored == None
  {
    RoomValidator.ValidateAcceptsExactly(body, keys);
    var o := RoomController.CreateRoom(body, keys, Some(user), env, rooms);
    var req := RoomValidator.RequestOf(body);
    var built := RoomController.NewRoom(req, user.id, RoomCode.CodeFor(env.controllerDraws));
    assert RoomModel.NamePath in RoomModel.Violations(built) by {
      assert !RoomModel.PathOk(built, RoomModel.NamePath);
    }
    var saved := RoomModel.SaveOutcome(built, true, RoomModel.ConstructedPaths(true, false, true),
      env.hash, env.hookRuns, env.existingCodes, env.insertError);
    assert saved == RoomModel.SaveFailed(RoomModel.Invalid(RoomModel.Violations(built)));
    assert o == RoomController.FromCatch(RoomController.Thrown(saved.error), None, rooms);
  }

  /** The name of the example below trims to two characters: two spaces go at the
      start, one at the end. */
  lemma PaddedNameTrims()
    ensures Trim("  ab ") == "ab"
  {
    PaddedNameTrimStart();
    PaddedNameTrimEnd();
  }

  lemma PaddedNameTrimStart()
    ensures TrimStart("  ab ") == "ab "
  {
    var name, once, twice := "  ab ", " ab ", "ab ";
    assert TrimStart(twice) == twice by { assert !IsWhitespace(twice[0]); }
    assert TrimStart(once) == TrimStart(twice) by { assert IsWhitespace(once[0]) && once[1..] == twice; }
    assert IsWhitespace(name[0]) && name[1..] == once;
  }

  lemma PaddedNameTrimEnd()
    ensures TrimEnd("ab ") == "ab"
  {
    assert TrimEnd("ab") == "ab" by { assert !IsWhitespace("ab"[1]); }
    assert IsWhitespace("ab "[2]) && "ab "[..2] == "ab";
  }

  /** Such a name exists: "  ab " is accepted by the form (it is not blank and has five
      characters) and by the schema, and trims to two characters. */
  lemma PaddedNameExample()
    ensures var d := RoomConfigForm.RoomForm("  ab ", RoomConfigForm.Public, "", 25, 5, 15);
      && ClientAccepts(d)
      && RoomValidator.Validate(Posted(d), RoomConfigForm.SubmitKeys(d.visibility)) == None
      && |Trim(d.name)| == 2
  {
    var d := RoomConfigForm.RoomForm("  ab ", RoomConfigForm.Public, "", 25, 5, 15);
    assert ClientAccepts(d) by {
      assert !IsWhitespace(d.name[2]);
      forall s ensures RoomConfigForm.OnSlider(s, RoomConfigForm.Minutes(d, s)) {
        RoomConfigForm.SliderTable(s);
      }
    }
    PublicFormPassesSchema(d);
    PaddedNameTrims();
  }
}
