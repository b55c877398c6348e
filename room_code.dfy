/** `generateRoomCode`: six characters, each picked from a 32-character alphabet that
    leaves out the look-alikes I, O, 0 and 1. The same function is written out three
    times (utils/generateroomcode.ts, model/Room.ts and controller/roomController.ts) with
    the same alphabet and loop; this module models it once. `Math.random()` is replaced by
    the sequence of numbers it returns, each in [0, 1). */
module RoomCode {
  import opened Js

  const Alphabet: string := "ABCDEFGHJKLMNPQRSTUVWXYZ23456789"

  const CodeLength := 6

  /** The characters the alphabet is meant to hold: upper-case letters other than I and O,
      and the digits 2 to 9. */
  predicate Unambiguous(c: char)
  {
    || ('A' <= c <= 'Z' && c != 'I' && c != 'O')
    || ('2' <= c <= '9')
  }

  lemma AlphabetIsUnambiguous()
    ensures |Alphabet| == 32
    ensures forall i :: 0 <= i < |Alphabet| ==> Unambiguous(Alphabet[i])
  {
  }

  /** Where a character of the alphabet sits in it: letters at their place after skipping
      I and O, digits after the 24 letters. */
  function Position(c: char): int
  {
    if '2' <= c <= '9' then 24 + (c as int - '2' as int)
    else c as int - 'A' as int - (if c > 'I' then 1 else 0) - (if c > 'O' then 1 else 0)
  }

  /** The alphabet lists each of its characters once. */
  lemma AlphabetDistinct()
    ensures forall i :: 0 <= i < |Alphabet| ==> Position(Alphabet[i]) == i
    ensures forall i, j :: 0 <= i < j < |Alphabet| ==> Alphabet[i] != Alphabet[j]
  {
    assert forall i :: 0 <= i < |Alphabet| ==> Position(Alphabet[i]) == i;
  }

  /** Every character the alphabet is meant to hold is in it. */
  lemma AlphabetIsComplete(c: char)
    requires Unambiguous(c)
    ensures 0 <= Position(c) < |Alphabet| && Alphabet[Position(c)] == c
    ensures c in Alphabet
  {
  }

  /** `Math.floor(r * chars.length)` for one value of `Math.random()`. */
  function Pick(r: real): (i: int)
    requires 0.0 <= r < 1.0
    ensures 0 <= i < |Alphabet|
  {
    (r * 32.0).Floor
  }

  /** The values `Math.random()` can return. */
  predicate Draws(draws: seq<real>)
  {
    |draws| == CodeLength && forall i :: 0 <= i < |draws| ==> 0.0 <= draws[i] < 1.0
  }

  /** The code the loop builds from six draws. */
  function CodeFor(draws: seq<real>): (code: string)
    requires Draws(draws)
  {
    seq(CodeLength, i requires 0 <= i < CodeLength => Alphabet[Pick(draws[i])])
  }

  /** `generateRoomCode`'s loop, appending one `charAt` per draw. */
  method GenerateRoomCode(draws: seq<real>) returns (code: string)
    requires Draws(draws)
    ensures code == CodeFor(draws)
  {
    code := "";
    var i := 0;
    while i < CodeLength
      invariant 0 <= i <= CodeLength
      invariant code == CodeFor(draws)[..i]
    {
      code := code + [Alphabet[Pick(draws[i])]];
      i := i + 1;
    }
  }

  /** What every generated code looks like: six characters of the alphabet, none of them
      I, O, 0 or 1, and left unchanged by upper-casing (the model's `uppercase: true` setter
      therefore stores it as generated). */
  lemma CodeShape(draws: seq<real>)
    requires Draws(draws)
    ensures |CodeFor(draws)| == 6
    ensures forall i :: 0 <= i < 6 ==> CodeFor(draws)[i] in Alphabet && Unambiguous(CodeFor(draws)[i])
    ensures 'I' !in CodeFor(draws) && 'O' !in CodeFor(draws) && '0' !in CodeFor(draws) && '1' !in CodeFor(draws)
    ensures ToUpper(CodeFor(draws)) == CodeFor(draws)
  {
    AlphabetIsUnambiguous();
    var c := CodeFor(draws);
    assert forall i :: 0 <= i < 6 ==> UpperChar(c[i]) == c[i];
  }

  /** Every code of the alphabet's characters can come out: the draw `k / 32` picks the
      `k`-th character. */
  lemma EveryCodeReachable(code: string)
    requires |code| == CodeLength && forall i :: 0 <= i < |code| ==> code[i] in Alphabet
    ensures exists draws :: Draws(draws) && CodeFor(draws) == code
  {
    var ks := seq(CodeLength, i requires 0 <= i < CodeLength => IndexIn(code[i], Alphabet));
    var draws := seq(CodeLength, i requires 0 <= i < CodeLength => ks[i] as real / 32.0);
    forall i | 0 <= i < CodeLength ensures Pick(draws[i]) == ks[i] {
      assert draws[i] * 32.0 == ks[i] as real;
    }
    assert CodeFor(draws) == code;
  }

  /** The position of a character known to occur in a string. */
  function IndexIn(c: char, s: string): (k: nat)
    requires c in s
    ensures k < |s| && s[k] == c
  {
    if s[0] == c then 0 else 1 + IndexIn(c, s[1..])
  }
}
