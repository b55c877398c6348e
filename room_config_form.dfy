/** The create-a-room form (RoomConfigForm.tsx): name, visibility, an optional password and
    three duration sliders; validation before submitting, the body that is posted, and the
    visibility switch. */
module RoomConfigForm {
  import opened Js

  datatype Visibility = Public | Private

  function VisibilityText(v: Visibility): (t: string)
    ensures t == "public" || t == "private"
  {
    if v == Public then "public" else "private"
  }

  // ---------------------------------------------------------------- sliders

  datatype Slider = FocusSlider | ShortBreakSlider | LongBreakSlider

  /** Each slider's `min`, `max` and `step`, and the form's starting value for it. */
  function SliderMin(s: Slider): int
  {
    match s
    case FocusSlider => 15
    case ShortBreakSlider => 3
    case LongBreakSlider => 10
  }

  function SliderMax(s: Slider): int
  {
    match s
    case FocusSlider => 60
    case ShortBreakSlider => 15
    case LongBreakSlider => 30
  }

  function SliderStep(s: Slider): int
  {
    match s
    case FocusSlider => 5
    case ShortBreakSlider => 1
    case LongBreakSlider => 5
  }

  function DefaultMinutes(s: Slider): int
  {
    match s
    case FocusSlider => 25
    case ShortBreakSlider => 5
    case LongBreakSlider => 15
  }

  /** The values a slider can report: within its bounds and on its step grid. */
  predicate OnSlider(s: Slider, v: int)
  {
    SliderMin(s) <= v <= SliderMax(s) && (v - SliderMin(s)) % SliderStep(s) == 0
  }

  /** The starting values are values the sliders can show, and each range is non-empty
      and ends on its grid. */
  lemma SliderTable(s: Slider)
    ensures OnSlider(s, DefaultMinutes(s))
    ensures OnSlider(s, SliderMin(s)) && OnSlider(s, SliderMax(s))
    ensures SliderStep(s) > 0
  {
  }

  // ---------------------------------------------------------------- form state

  datatype RoomForm = RoomForm(
    name: string, visibility: Visibility, password: string,
    pomodoroDuration: int, shortBreakDuration: int, longBreakDuration: int)

  const InitialForm := RoomForm("", Public, "", 25, 5, 15)

  function Minutes(d: RoomForm, s: Slider): int
  {
    match s
    case FocusSlider => d.pomodoroDuration
    case ShortBreakSlider => d.shortBreakDuration
    case LongBreakSlider => d.longBreakDuration
  }

  function WithMinutes(d: RoomForm, s: Slider, v: int): (r: RoomForm)
    ensures forall t :: Minutes(r, t) == if t == s then v else Minutes(d, t)
    ensures r.name == d.name && r.visibility == d.visibility && r.password == d.password
  {
    match s
    case FocusSlider => d.(pomodoroDuration := v)
    case ShortBreakSlider => d.(shortBreakDuration := v)
    case LongBreakSlider => d.(longBreakDuration := v)
  }

  /** Every duration is one its slider can show. */
  predicate DurationsOnSliders(d: RoomForm)
  {
    forall s :: OnSlider(s, Minutes(d, s))
  }

  datatype Message = NameRequired | NameTooShort | PasswordRequired | PasswordTooShort

  function Text(m: Message): (t: string)
    ensures t != ""
  {
    match m
    case NameRequired => "Room name is required"
    case NameTooShort => "Room name must be at least 3 characters"
    case PasswordRequired => "Password is required for private rooms"
    case PasswordTooShort => "Password must be at least 4 characters"
  }

  datatype RoomErrors = RoomErrors(name: Option<Message>, password: Option<Message>)

  const NoErrors := RoomErrors(None, None)

  /** What the form accepts. */
  predicate Acceptable(d: RoomForm)
  {
    && !AllWhitespace(d.name) && |d.name| >= 3
    && (d.visibility == Private ==> !AllWhitespace(d.password) && |d.password| >= 4)
  }

  /** `validateForm`'s messages: the name is refused when blank or, before trimming,
      shorter than three characters; a private room's password likewise when blank or
      shorter than four; a public room's password is never looked at. No message at all
      exactly when the form is acceptable. */
  function Errors(d: RoomForm): (errs: RoomErrors)
    ensures errs.name == Some(NameRequired) <==> AllWhitespace(d.name)
    ensures errs.name == Some(NameTooShort) <==> !AllWhitespace(d.name) && |d.name| < 3
    ensures errs.name == None <==> !AllWhitespace(d.name) && |d.name| >= 3
    ensures d.visibility == Public ==> errs.password == None
    ensures d.visibility == Private ==> (errs.password == Some(PasswordRequired) <==> AllWhitespace(d.password))
    ensures d.visibility == Private ==> (errs.password == Some(PasswordTooShort) <==> !AllWhitespace(d.password) && |d.password| < 4)
    ensures d.visibility == Private ==> (errs.password == None <==> !AllWhitespace(d.password) && |d.password| >= 4)
    ensures errs == NoErrors <==> Acceptable(d)
  {
    RoomErrors(
      if AllWhitespace(d.name) then Some(NameRequired)
      else if |d.name| < 3 then Some(NameTooShort)
      else None,
      if d.visibility == Public then None
      else if AllWhitespace(d.password) then Some(PasswordRequired)
      else if |d.password| < 4 then Some(PasswordTooShort)
      else None)
  }

  /** `validateForm`'s body: start from no messages and set them one field after another,
      testing blankness with `trim()`. */
  method ComputeErrors(d: RoomForm) returns (errs: RoomErrors)
    ensures errs == Errors(d)
  {
    errs := NoErrors;
    var blankName := IsBlank(d.name);
    var blankPassword := IsBlank(d.password);
    if blankName {
      errs := errs.(name := Some(NameRequired));
    } else if |d.name| < 3 {
      errs := errs.(name := Some(NameTooShort));
    }
    if d.visibility == Private {
      if blankPassword {
        errs := errs.(password := Some(PasswordRequired));
      } else if |d.password| < 4 {
        errs := errs.(password := Some(PasswordTooShort));
      }
    }
  }

  // ---------------------------------------------------------------- the posted body

  /** `{ ...formData }` as a JSON object. */
  function FormObject(d: RoomForm): map<string, Value>
  {
    map[
      "name" := Str(d.name),
      "visibility" := Str(VisibilityText(d.visibility)),
      "password" := Str(d.password),
      "pomodoroDuration" := Num(d.pomodoroDuration as real),
      "shortBreakDuration" := Num(d.shortBreakDuration as real),
      "longBreakDuration" := Num(d.longBreakDuration as real)]
  }

  /** The copy with `password` deleted for a public room. */
  method BuildSubmitData(d: RoomForm) returns (body: map<string, Value>)
    ensures "password" in body <==> d.visibility == Private
    ensures body.Keys == FormObject(d).Keys - (if d.visibility == Public then {"password"} else {})
    ensures forall k :: k in body ==> body[k] == FormObject(d)[k]
  {
    body := FormObject(d);
    if d.visibility == Public {
      body := body - {"password"};
    }
  }

  /** The order in which the posted object lists its keys. */
  function SubmitKeys(v: Visibility): (keys: seq<string>)
    ensures "password" in keys <==> v == Private
  {
    match v
    case Public =>
      assert "password" != "name" && "password" != "visibility" && "password" != "pomodoroDuration";
      assert "password" != "shortBreakDuration" && "password" != "longBreakDuration";
      ["name", "visibility", "pomodoroDuration", "shortBreakDuration", "longBreakDuration"]
    case Private =>
      var ks := ["name", "visibility", "password", "pomodoroDuration", "shortBreakDuration", "longBreakDuration"];
      assert ks[2] == "password";
      ks
  }

  /** The key order lists exactly the posted keys, each once. */
  lemma SubmitKeysMatchBody(d: RoomForm, body: map<string, Value>)
    requires body.Keys == FormObject(d).Keys - (if d.visibility == Public then {"password"} else {})
    ensures forall k :: k in SubmitKeys(d.visibility) <==> k in body
    ensures forall i, j :: 0 <= i < j < |SubmitKeys(d.visibility)| ==> SubmitKeys(d.visibility)[i] != SubmitKeys(d.visibility)[j]
  {
  }

  /** The slider labels: `formatTime(1)` is "1 minute", any other count is plural. */
  function FormatMinutes(n: int): (t: string)
    ensures t == IntToString(n) + (if n == 1 then " minute" else " minutes")
  {
    IntToString(n) + " " + (if n == 1 then "minute" else "minutes")
  }

  lemma FormatMinutesExamples()
    ensures FormatMinutes(1) == "1 minute"
    ensures FormatMinutes(25) == "25 minutes"
  {
    NatToStringTwoDigits(25);
  }

  /** The component's state. */
  class RoomConfigFormState {
    var formData: RoomForm
    var errors: RoomErrors
    var isLoading: bool

    constructor ()
      ensures formData == InitialForm && errors == NoErrors && !isLoading
      ensures DurationsOnSliders(formData)
    {
      formData, errors, isLoading := InitialForm, NoErrors, false;
      forall s ensures OnSlider(s, Minutes(InitialForm, s)) {
        SliderTable(s);
      }
    }

    /** `validateForm`. */
    method ValidateForm() returns (ok: bool)
      modifies this`errors
      ensures errors == Errors(formData)
      ensures ok <==> errors == NoErrors
      ensures ok <==> Acceptable(formData)
    {
      errors := ComputeErrors(formData);
      ok := errors == NoErrors;
    }

    /** `handleSubmit` up to the request: a refused form posts nothing; an accepted one
      posts the form, without `password` when the room is public, and loading ends once
      the request settles. */
    method HandleSubmit() returns (posted: Option<map<string, Value>>)
      modifies this`errors, this`isLoading
      ensures errors == Errors(formData)
      ensures posted.Some? <==> Acceptable(formData)
      ensures posted.Some? ==> ("password" in posted.value <==> formData.visibility == Private)
      ensures posted.Some? ==> forall k :: k in posted.value ==> k in FormObject(formData) && posted.value[k] == FormObject(formData)[k]
      ensures posted.Some? ==> posted.value.Keys == FormObject(formData).Keys - (if formData.visibility == Public then {"password"} else {})
      ensures posted.None? ==> isLoading == old(isLoading)
      ensures posted.Some? ==> !isLoading
    {
      var ok := ValidateForm();
      if !ok {
        return None;
      }
      isLoading := true;
      var body := BuildSubmitData(formData);
      posted := Some(body);
      isLoading := false;
    }

    /** Typing in the name box. */
    method ChangeName(v: string)
      modifies this`formData, this`errors
      ensures formData == old(formData).(name := v)
      ensures errors == old(errors).(name := None)
    {
      formData := formData.(name := v);
      // Every message text is non-empty, so the truthiness test is a presence test.
      if errors.name.Some? {
        errors := errors.(name := None);
      }
    }

    /** Typing in the password box. */
    method ChangePassword(v: string)
      modifies this`formData, this`errors
      ensures formData == old(formData).(password := v)
      ensures errors == old(errors).(password := None)
    {
      formData := formData.(password := v);
      if errors.password.Some? {
        errors := errors.(password := None);
      }
    }

    /** Moving a slider, which only ever reports values it can show; no slider has an
      error message of its own. */
    method ChangeMinutes(s: Slider, v: int)
      requires OnSlider(s, v)
      modifies this`formData
      ensures formData == WithMinutes(old(formData), s, v)
      ensures old(DurationsOnSliders(formData)) ==> DurationsOnSliders(formData)
    {
      formData := WithMinutes(formData, s, v);
    }

    /** `handleVisibilityChange`: going public clears the password and its error; going
      private keeps whatever password was typed. */
    method HandleVisibilityChange(v: Visibility)
      modifies this`formData, this`errors
      ensures formData.visibility == v
      ensures formData.password == if v == Public then "" else old(formData.password)
      ensures formData == old(formData).(visibility := v, password := formData.password)
      ensures errors == if v == Public then old(errors).(password := None) else old(errors)
    {
      formData := formData.(visibility := v, password := if v == Public then "" else formData.password);
      if v == Public && errors.password.Some? {
        errors := errors.(password := None);
      }
    }

    /** The Reset button. */
    method Reset()
      modifies this`formData, this`errors
      ensures formData == InitialForm && errors == NoErrors
      ensures DurationsOnSliders(formData)
    {
      formData := InitialForm;
      errors := NoErrors;
      forall s ensures OnSlider(s, Minutes(InitialForm, s)) {
        SliderTable(s);
      }
    }
  }
}
