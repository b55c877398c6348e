/** The request schema for creating a room (validators/roomvalidator.ts), as Joi 17 applies
    it with its default options: it stops at the first error (`abortEarly`), checks the
    declared keys in declaration order and only then refuses keys it does not declare
    (`allowUnknown` is off). Each error is a value of `JoiError`; `Message` is the text the
    controller sends back as `error.details[0].message`. */
module RoomValidator {
  import opened Js

  datatype Duration = Pomodoro | ShortBreak | LongBreak

  datatype Field = NameField | VisibilityField | DurationField(d: Duration)

  function DurationKey(d: Duration): string
  {
    match d
    case Pomodoro => "pomodoroDuration"
    case ShortBreak => "shortBreakDuration"
    case LongBreak => "longBreakDuration"
  }

  function Key(f: Field): string
  {
    match f
    case NameField => "name"
    case VisibilityField => "visibility"
    case DurationField(d) => DurationKey(d)
  }

  /** The keys the schema declares. */
  predicate IsSchemaKey(k: string)
  {
    k == "name" || k == "visibility" || k == "pomodoroDuration" || k == "shortBreakDuration" || k == "longBreakDuration"
  }

  /** `.min(...)` and `.max(...)` of each duration. */
  function Lo(d: Duration): int
  {
    match d
    case Pomodoro => 15
    case ShortBreak => 3
    case LongBreak => 10
  }

  function Hi(d: Duration): int
  {
    match d
    case Pomodoro => 60
    case ShortBreak => 15
    case LongBreak => 30
  }

  /** `Number.MAX_SAFE_INTEGER`, beyond which `Joi.number()` refuses a value as unsafe. */
  const MaxSafe: int := 9007199254740991

  datatype JoiError =
    | NotAnObject                   // object.base
    | Required(field: Field)        // any.required
    | NameNotAString                // string.base
    | NameEmpty                     // string.empty
    | NameTooShort                  // string.min
    | NameTooLong                   // string.max
    | VisibilityNotAllowed          // any.only
    | NotANumber(d: Duration)       // number.base
    | UnsafeNumber(d: Duration)     // number.unsafe
    | NotAnInteger(d: Duration)     // number.integer
    | BelowMin(d: Duration)         // number.min
    | AboveMax(d: Duration)         // number.max
    | NotAllowed(key: string)       // object.unknown

  function Quoted(k: string): string
  {
    "\"" + k + "\""
  }

  /** The text of each error: the schema's own messages where it gives one, Joi's default
      text with the quoted key as label otherwise. */
  function Message(e: JoiError): (t: string)
    ensures t != ""
  {
    match e
    case NotAnObject => Quoted("value") + " must be of type object"
    case Required(f) => Quoted(Key(f)) + " is required"
    case NameNotAString => Quoted("name") + " must be a string"
    case NameEmpty => "Room name is required"
    case NameTooShort => "Room name must be at least 3 characters"
    case NameTooLong => "Room name cannot exceed 50 characters"
    case VisibilityNotAllowed => "Visibility must be either public or private"
    case NotANumber(d) => Quoted(DurationKey(d)) + " must be a number"
    case UnsafeNumber(d) => Quoted(DurationKey(d)) + " must be a safe number"
    case NotAnInteger(d) => Quoted(DurationKey(d)) + " must be an integer"
    case BelowMin(d) =>
      (match d
       case Pomodoro => "Pomodoro duration must be at least 15 minutes"
       case ShortBreak => "Short break must be at least 3 minutes"
       case LongBreak => "Long break must be at least 10 minutes")
    case AboveMax(d) =>
      (match d
       case Pomodoro => "Pomodoro duration cannot exceed 60 minutes"
       case ShortBreak => "Short break cannot exceed 15 minutes"
       case LongBreak => "Long break cannot exceed 30 minutes")
    case NotAllowed(k) => Quoted(k) + " is not allowed"
  }

  /** The last three characters of every `object.unknown` text are those of "allowed". */
  lemma NotAllowedTail(k: string)
    ensures var t := Message(NotAllowed(k)); |t| == |k| + 17 && t[|t| - 3] == 'w' && t[1..|k| + 1] == k
  {
    Labelled(k, " is not allowed");
  }

  /** The length and the ninth character from the end of each text other than
      `object.unknown`'s. */
  function Fingerprint(e: JoiError): (int, char)
    requires !e.NotAllowed?
  {
    match e
    case NotAnObject => (30, 'p')
    case Required(f) =>
      (match f
       case NameField => (18, ' ')
       case VisibilityField => (24, ' ')
       case DurationField(d) =>
         (match d case Pomodoro => (30, ' ') case ShortBreak => (32, ' ') case LongBreak => (31, ' ')))
    case NameNotAString => (23, ' ')
    case NameEmpty => (21, ' ')
    case NameTooShort => (39, 'h')
    case NameTooLong => (37, 'h')
    case VisibilityNotAllowed => (43, 'r')
    case NotANumber(d) =>
      (match d case Pomodoro => (35, ' ') case ShortBreak => (37, ' ') case LongBreak => (36, ' '))
    case UnsafeNumber(d) =>
      (match d case Pomodoro => (40, 'f') case ShortBreak => (42, 'f') case LongBreak => (41, 'f'))
    case NotAnInteger(d) =>
      (match d case Pomodoro => (37, 'n') case ShortBreak => (39, 'n') case LongBreak => (38, 'n'))
    case BelowMin(d) =>
      (match d case Pomodoro => (45, '5') case ShortBreak => (38, '3') case LongBreak => (38, '0'))
    case AboveMax(d) =>
      (match d case Pomodoro => (42, '0') case ShortBreak => (36, '5') case LongBreak => (35, '0'))
  }

  /** Joi's default texts: the quoted label followed by the rule's wording. */
  lemma Labelled(k: string, rest: string)
    requires |rest| >= 9
    ensures var t := Quoted(k) + rest; |t| == |k| + 2 + |rest| && t[1..|k| + 1] == k
    ensures var t := Quoted(k) + rest; t[|t| - 9] == rest[|rest| - 9] && t[|t| - 3] == rest[|rest| - 3]
  {
    var t := Quoted(k) + rest;
    assert t == ("\"" + k) + ("\"" + rest);
    assert ("\"" + k)[1..] == k;
  }

  /** The schema's own texts for the name and the visibility, which carry no label. */
  lemma FingerprintOfNameRule(e: JoiError)
    requires e.NameEmpty? || e.NameTooShort? || e.NameTooLong?
    ensures var t := Message(e); |t| >= 18 && (|t|, t[|t| - 9]) == Fingerprint(e) && t[|t| - 3] != 'w'
  {
  }

  lemma FingerprintOfVisibilityRule()
    ensures var t := Message(VisibilityNotAllowed); |t| >= 18 && (|t|, t[|t| - 9]) == Fingerprint(VisibilityNotAllowed) && t[|t| - 3] != 'w'
  {
  }

  /** The schema's own texts for the duration bounds. */
  lemma FingerprintOfBelowMin(d: Duration)
    ensures var t := Message(BelowMin(d)); |t| >= 18 && (|t|, t[|t| - 9]) == Fingerprint(BelowMin(d)) && t[|t| - 3] != 'w'
  {
    match d { case Pomodoro => case ShortBreak => case LongBreak => }
  }

  lemma FingerprintOfAboveMax(d: Duration)
    ensures var t := Message(AboveMax(d)); |t| >= 18 && (|t|, t[|t| - 9]) == Fingerprint(AboveMax(d)) && t[|t| - 3] != 'w'
  {
    match d { case Pomodoro => case ShortBreak => case LongBreak => }
  }

  /** Joi's default texts for a missing key, a wrong type of body or of name. */
  lemma FingerprintOfPresence(e: JoiError)
    requires e.NotAnObject? || e.Required? || e.NameNotAString?
    ensures var t := Message(e); |t| >= 18 && (|t|, t[|t| - 9]) == Fingerprint(e) && t[|t| - 3] != 'w'
  {
    match e
    case NotAnObject => Labelled("value", " must be of type object");
    case Required(f) =>
      match f {
        case NameField => Labelled("name", " is required");
        case VisibilityField => Labelled("visibility", " is required");
        case DurationField(d) => Labelled(DurationKey(d), " is required");
          match d { case Pomodoro => case ShortBreak => case LongBreak => }
      }
    case NameNotAString => Labelled("name", " must be a string");
  }

  /** Joi's default texts for a duration that is not a safe whole number. */
  lemma FingerprintOfNotANumber(d: Duration)
    ensures var t := Message(NotANumber(d)); |t| >= 18 && (|t|, t[|t| - 9]) == Fingerprint(NotANumber(d)) && t[|t| - 3] != 'w'
  {
    Labelled(DurationKey(d), " must be a number");
    match d { case Pomodoro => case ShortBreak => case LongBreak => }
  }

  lemma FingerprintOfUnsafeNumber(d: Duration)
    ensures var t := Message(UnsafeNumber(d)); |t| >= 18 && (|t|, t[|t| - 9]) == Fingerprint(UnsafeNumber(d)) && t[|t| - 3] != 'w'
  {
    Labelled(DurationKey(d), " must be a safe number");
    match d { case Pomodoro => case ShortBreak => case LongBreak => }
  }

  lemma FingerprintOfNotAnInteger(d: Duration)
    ensures var t := Message(NotAnInteger(d)); |t| >= 18 && (|t|, t[|t| - 9]) == Fingerprint(NotAnInteger(d)) && t[|t| - 3] != 'w'
  {
    Labelled(DurationKey(d), " must be an integer");
    match d { case Pomodoro => case ShortBreak => case LongBreak => }
  }

  lemma FingerprintOfMessage(e: JoiError)
    requires !e.NotAllowed?
    ensures var t := Message(e); |t| >= 18 && (|t|, t[|t| - 9]) == Fingerprint(e) && t[|t| - 3] != 'w'
  {
    if e.NotAnObject? || e.Required? || e.NameNotAString? {
      FingerprintOfPresence(e);
    } else if e.NameEmpty? || e.NameTooShort? || e.NameTooLong? {
      FingerprintOfNameRule(e);
    } else if e.VisibilityNotAllowed? {
      FingerprintOfVisibilityRule();
    } else if e.BelowMin? {
      FingerprintOfBelowMin(e.d);
    } else if e.AboveMax? {
      FingerprintOfAboveMax(e.d);
    } else if e.NotANumber? {
      FingerprintOfNotANumber(e.d);
    } else if e.UnsafeNumber? {
      FingerprintOfUnsafeNumber(e.d);
    } else {
      FingerprintOfNotAnInteger(e.d);
    }
  }

  lemma FingerprintDistinct(e1: JoiError, e2: JoiError)
    requires !e1.NotAllowed? && !e2.NotAllowed? && Fingerprint(e1) == Fingerprint(e2)
    ensures e1 == e2
  {
  }

  /** Distinct errors have distinct texts, so the single `message` of a 400 reply tells
      which check failed and, for an undeclared key, which key it was. */
  lemma MessageIdentifiesError(e1: JoiError, e2: JoiError)
    requires Message(e1) == Message(e2)
    ensures e1 == e2
  {
    if e1.NotAllowed? {
      NotAllowedTail(e1.key);
    } else {
      FingerprintOfMessage(e1);
    }
    if e2.NotAllowed? {
      NotAllowedTail(e2.key);
    } else {
      FingerprintOfMessage(e2);
    }
    if !e1.NotAllowed? && !e2.NotAllowed? {
      FingerprintDistinct(e1, e2);
    }
  }

  // ---------------------------------------------------------------- one key at a time

  /** `Joi.string().min(3).max(50).required()`: presence, type, the empty string, then the
      rules in order. The length is the string's own length; nothing is trimmed. */
  function CheckName(v: Value): (e: Option<JoiError>)
    ensures e == None <==> v.Str? && 3 <= |v.s| <= 50
  {
    match v
    case Undefined => Some(Required(NameField))
    case Str(s) =>
      if s == "" then Some(NameEmpty)
      else if |s| < 3 then Some(NameTooShort)
      else if |s| > 50 then Some(NameTooLong)
      else None
    case _ => Some(NameNotAString)
  }

  /** `Joi.string().valid('public', 'private').required()`: the allowed values are looked
      up before the type is checked, so every other present value, of any type, gets the
      `any.only` message. */
  function CheckVisibility(v: Value): (e: Option<JoiError>)
    ensures e == None <==> v == Str("public") || v == Str("private")
    ensures e != None && v != Undefined ==> e == Some(VisibilityNotAllowed)
  {
    if v == Str("public") || v == Str("private") then None
    else if v == Undefined then Some(Required(VisibilityField))
    else Some(VisibilityNotAllowed)
  }

  /** A number is integral when it has no fractional part. */
  predicate Integral(x: real)
  {
    x.Floor as real == x
  }

  /** `Joi.number().integer().min(lo).max(hi).required()`: presence, type, the safe range
      (part of the type check), then the rules in order. */
  function CheckDuration(d: Duration, v: Value): (e: Option<JoiError>)
    ensures e == None <==> v.Num? && Integral(v.x) && Lo(d) as real <= v.x <= Hi(d) as real
  {
    match v
    case Undefined => Some(Required(DurationField(d)))
    case Num(x) =>
      if x > MaxSafe as real || x < -MaxSafe as real then Some(UnsafeNumber(d))
      else if !Integral(x) then Some(NotAnInteger(d))
      else if x < Lo(d) as real then Some(BelowMin(d))
      else if x > Hi(d) as real then Some(AboveMax(d))
      else None
    case _ => Some(NotANumber(d))
  }

  /** The first key, in the object's own key order, that the schema does not declare. */
  function FirstUnknown(keys: seq<string>): (k: Option<string>)
    ensures k == None <==> forall i :: 0 <= i < |keys| ==> IsSchemaKey(keys[i])
    ensures k.Some? ==> k.value in keys && !IsSchemaKey(k.value)
  {
    if keys == [] then None
    else if !IsSchemaKey(keys[0]) then Some(keys[0])
    else
      var rest := FirstUnknown(keys[1..]);
      assert forall i :: 1 <= i < |keys| ==> keys[i] == keys[1..][i - 1];
      rest
  }

  // ---------------------------------------------------------------- the whole body

  /** `keys` is the order in which the object lists its keys (`Object.keys`). */
  predicate KeyOrder(fields: map<string, Value>, keys: seq<string>)
  {
    (forall k :: k in keys ==> k in fields) && (forall k :: k in fields ==> k in keys)
  }

  /** `createRoomSchema.validate(body).error`, reduced to the first error. */
  function Validate(body: Value, keys: seq<string>): (e: Option<JoiError>)
    requires body.Obj? ==> KeyOrder(body.fields, keys)
  {
    if body.Undefined? then None
    else if !body.Obj? then Some(NotAnObject)
    else
      var nameError := CheckName(GetProp(body, "name"));
      var visibilityError := CheckVisibility(GetProp(body, "visibility"));
      var pomodoroError := CheckDuration(Pomodoro, GetProp(body, "pomodoroDuration"));
      var shortError := CheckDuration(ShortBreak, GetProp(body, "shortBreakDuration"));
      var longError := CheckDuration(LongBreak, GetProp(body, "longBreakDuration"));
      if nameError.Some? then nameError
      else if visibilityError.Some? then visibilityError
      else if pomodoroError.Some? then pomodoroError
      else if shortError.Some? then shortError
      else if longError.Some? then longError
      else
        match FirstUnknown(keys)
        case Some(k) => Some(NotAllowed(k))
        case None => None
  }

  /** A duration the schema accepts: a whole number within the bounds. */
  predicate WholeIn(v: Value, lo: int, hi: int)
  {
    v.Num? && v.x.Floor as real == v.x && lo as real <= v.x <= hi as real
  }

  /** The bodies the schema lets through, read off the declaration: a missing body (the
      schema is not itself `required`), or an object with exactly the declared keys at
      most, a name of 3 to 50 characters, one of the two visibilities, and whole-number
      durations in 15..60, 3..15 and 10..30 minutes. */
  predicate Accepts(body: Value)
  {
    || body == Undefined
    || (&& body.Obj?
        && (forall k :: k in body.fields ==> IsSchemaKey(k))
        && "name" in body.fields && body.fields["name"].Str?
        && 3 <= |body.fields["name"].s| <= 50
        && "visibility" in body.fields
        && (body.fields["visibility"] == Str("public") || body.fields["visibility"] == Str("private"))
        && "pomodoroDuration" in body.fields && WholeIn(body.fields["pomodoroDuration"], 15, 60)
        && "shortBreakDuration" in body.fields && WholeIn(body.fields["shortBreakDuration"], 3, 15)
        && "longBreakDuration" in body.fields && WholeIn(body.fields["longBreakDuration"], 10, 30))
  }

  /** The schema reports no error exactly for the bodies above. */
  lemma ValidateAcceptsExactly(body: Value, keys: seq<string>)
    requires body.Obj? ==> KeyOrder(body.fields, keys)
    ensures Validate(body, keys) == None <==> Accepts(body)
  {
    if body.Obj? {
      var m := body.fields;
      assert (forall i :: 0 <= i < |keys| ==> IsSchemaKey(keys[i])) <==> (forall k :: k in m ==> IsSchemaKey(k)) by {
        if forall i :: 0 <= i < |keys| ==> IsSchemaKey(keys[i]) {
          forall k | k in m ensures IsSchemaKey(k) {
            var i :| 0 <= i < |keys| && keys[i] == k;
          }
        }
      }
    }
  }

  /** When every declared key is fine, the error, if any, names the first undeclared key in
      the object's own order. */
  lemma UnknownKeyReported(body: Value, keys: seq<string>, i: nat)
    requires body.Obj? && KeyOrder(body.fields, keys)
    requires CheckName(GetProp(body, "name")) == None && CheckVisibility(GetProp(body, "visibility")) == None
    requires forall d :: CheckDuration(d, GetProp(body, DurationKey(d))) == None
    requires i < |keys| && !IsSchemaKey(keys[i]) && forall j :: 0 <= j < i ==> IsSchemaKey(keys[j])
    ensures Validate(body, keys) == Some(NotAllowed(keys[i]))
  {
    assert CheckDuration(Pomodoro, GetProp(body, DurationKey(Pomodoro))) == None;
    assert CheckDuration(ShortBreak, GetProp(body, DurationKey(ShortBreak))) == None;
    assert CheckDuration(LongBreak, GetProp(body, DurationKey(LongBreak))) == None;
    FirstUnknownIsFirst(keys, i);
  }

  lemma {:induction false} FirstUnknownIsFirst(keys: seq<string>, i: nat)
    requires i < |keys| && !IsSchemaKey(keys[i]) && forall j :: 0 <= j < i ==> IsSchemaKey(keys[j])
    ensures FirstUnknown(keys) == Some(keys[i])
  {
    if i > 0 {
      FirstUnknownIsFirst(keys[1..], i - 1);
    }
  }

  /** What a body that passes carries, for the controller to read. */
  datatype RoomRequest = RoomRequest(
    name: string, visibility: string,
    pomodoroDuration: int, shortBreakDuration: int, longBreakDuration: int)

  function RequestOf(body: Value): (r: RoomRequest)
    requires Accepts(body) && body.Obj?
    ensures 3 <= |r.name| <= 50 && (r.visibility == "public" || r.visibility == "private")
    ensures 15 <= r.pomodoroDuration <= 60 && 3 <= r.shortBreakDuration <= 15 && 10 <= r.longBreakDuration <= 30
  {
    var m := body.fields;
    RoomRequest(
      m["name"].s, m["visibility"].s,
      m["pomodoroDuration"].x.Floor, m["shortBreakDuration"].x.Floor, m["longBreakDuration"].x.Floor)
  }
}
