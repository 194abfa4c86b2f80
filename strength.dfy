/** The master-key strength meter of the vault screen: the `requirements`
    table, `getStrength` and the colour of the progress bar. */
module StrengthMeter {

  /** The four character-class requirements, in the order of the table. */
  datatype Requirement = Number | Lowercase | Uppercase | SpecialSymbol

  const Requirements: seq<Requirement> := [Number, Lowercase, Uppercase, SpecialSymbol]

  /** The characters of the bracket expression of the special-symbol pattern;
      `^` is not first and `-` is last, so every one is a literal. */
  const SpecialSymbols: string := "$&+,:;=?@#|'<>.^*()%!-"

  /** A key of at most this many characters fails the length check. */
  const ShortLength := 7

  /** The character class of each requirement's pattern: three code-point
      ranges, and a symbol set that holds no letter and no digit. */
  predicate InClass(r: Requirement, c: char)
    ensures r == Number ==> (InClass(r, c) <==> 48 <= c as int <= 57)
    ensures r == Lowercase ==> (InClass(r, c) <==> 97 <= c as int <= 122)
    ensures r == Uppercase ==> (InClass(r, c) <==> 65 <= c as int <= 90)
    ensures r == SpecialSymbol && InClass(r, c) ==>
              !(48 <= c as int <= 57 || 97 <= c as int <= 122 || 65 <= c as int <= 90)
  {
    match r
    case Number => '0' <= c <= '9'
    case Lowercase => 'a' <= c <= 'z'
    case Uppercase => 'A' <= c <= 'Z'
    case SpecialSymbol => c in SpecialSymbols
  }

  /** Some character of `s` is in the class of `r`. */
  ghost predicate HasCharIn(s: string, r: Requirement) {
    exists i :: 0 <= i < |s| && InClass(r, s[i])
  }

  /** `requirement.re.test(s)`: a single-class pattern without the `g` flag
      matches exactly when some character of `s` is in the class. */
  function Test(r: Requirement, s: string): (found: bool)
    ensures found <==> HasCharIn(s, r)
  {
    if s == [] then false
    else if InClass(r, s[0]) then true
    else
      var rest := Test(r, s[1..]);
      assert forall i :: 0 < i < |s| ==> s[i] == s[1..][i - 1];
      rest
  }

  /** The initial value of `multiplier`: 1 when the key is too short. */
  function LengthPenalty(s: string): (p: nat)
    ensures p <= 1
    ensures p == 0 <==> |s| >= 8
  {
    if |s| > ShortLength then 0 else 1
  }

  /** How many requirements of `rs` the key `s` fails; the loop over the
      table adds one for each, in order. */
  function FailedRequirements(s: string, rs: seq<Requirement>): (m: nat)
    ensures m <= |rs|
  {
    if rs == [] then 0
    else FailedRequirements(s, rs[..|rs| - 1]) + (if Test(rs[|rs| - 1], s) then 0 else 1)
  }

  /** The final value of `multiplier`: the number of the five checks failed. */
  function FailedChecks(s: string): (m: nat)
    ensures LengthPenalty(s) <= m <= |Requirements| + 1
  {
    LengthPenalty(s) + FailedRequirements(s, Requirements)
  }

  function Max(a: int, b: int): int {
    if a >= b then a else b
  }

  /** The score for a multiplier; the step `100 / (requirements.length + 1)`
      divides exactly, so the score is a whole number. */
  function Score(multiplier: nat): (r: int)
    ensures r == if multiplier <= |Requirements| then 100 - 20 * multiplier else 10
  {
    Max(100 - (100 / (|Requirements| + 1)) * multiplier, 10)
  }

  /** The strength of a key, as the progress bar and the gate see it. */
  function Strength(s: string): (r: int)
    ensures 10 <= r <= 100
  {
    Score(FailedChecks(s))
  }

  /** `getStrength`: the loop over the requirement table with its
      accumulator, then the `Math.max` formula. */
  method GetStrength(password: string) returns (strength: int)
    ensures strength == Strength(password)
    ensures 10 <= strength <= 100
  {
    var multiplier := if |password| > ShortLength then 0 else 1;
    for i := 0 to |Requirements|
      invariant multiplier == LengthPenalty(password) + FailedRequirements(password, Requirements[..i])
    {
      assert Requirements[..i + 1][..i] == Requirements[..i];
      if !Test(Requirements[i], password) {
        multiplier := multiplier + 1;
      }
    }
    assert Requirements[..|Requirements|] == Requirements;
    strength := Max(100 - (100 / (|Requirements| + 1)) * multiplier, 10);
  }

  /** One for a failed requirement, zero for a met one. */
  function Unmet(r: Requirement, s: string): nat {
    if Test(r, s) then 0 else 1
  }

  /** The failed-check count, written out check by check. */
  lemma {:induction false} FailedChecksTable(s: string)
    ensures FailedChecks(s)
         == LengthPenalty(s) + Unmet(Number, s) + Unmet(Lowercase, s)
            + Unmet(Uppercase, s) + Unmet(SpecialSymbol, s)
  {
    var r1, r2, r3 := [Number], [Number, Lowercase], [Number, Lowercase, Uppercase];
    assert r1[..0] == [] && r2[..1] == r1 && r3[..2] == r2 && Requirements[..3] == r3;
    assert FailedRequirements(s, r1) == Unmet(Number, s);
    assert FailedRequirements(s, r2) == FailedRequirements(s, r1) + Unmet(Lowercase, s);
    assert FailedRequirements(s, r3) == FailedRequirements(s, r2) + Unmet(Uppercase, s);
    assert FailedRequirements(s, Requirements) == FailedRequirements(s, r3) + Unmet(SpecialSymbol, s);
  }

  /** The bar is full (teal) exactly when the key is longer than seven
      characters and holds a digit, a lowercase letter, an uppercase letter
      and a special symbol. */
  lemma {:induction false} FullStrengthIff(s: string)
    ensures Strength(s) == 100
        <==> |s| > ShortLength && HasCharIn(s, Number) && HasCharIn(s, Lowercase)
             && HasCharIn(s, Uppercase) && HasCharIn(s, SpecialSymbol)
  {
    FailedChecksTable(s);
  }

  /** The lowest score, 10, is reached exactly when all five checks fail. */
  lemma {:induction false} LowestStrengthIff(s: string)
    ensures Strength(s) == 10
        <==> |s| <= ShortLength && !HasCharIn(s, Number) && !HasCharIn(s, Lowercase)
             && !HasCharIn(s, Uppercase) && !HasCharIn(s, SpecialSymbol)
  {
    FailedChecksTable(s);
  }

  /** The empty key fails all five checks. */
  lemma EmptyKeyScoresTen()
    ensures FailedChecks([]) == 5 && Strength([]) == 10
  {
    FailedChecksTable([]);
  }

  /** A class found in a key is still found after more text is appended. */
  lemma {:induction false} TestAppend(r: Requirement, s: string, t: string)
    requires Test(r, s)
    ensures Test(r, s + t)
  {
    if !InClass(r, s[0]) {
      assert (s + t)[1..] == s[1..] + t;
      TestAppend(r, s[1..], t);
    }
  }

  /** Appending text to a key never lowers its strength. */
  lemma {:induction false} AppendNeverLowers(s: string, t: string)
    ensures Strength(s) <= Strength(s + t)
  {
    FailedChecksTable(s);
    FailedChecksTable(s + t);
    var rs := Requirements;
    forall j | 0 <= j < |rs| && Test(rs[j], s)
      ensures Test(rs[j], s + t)
    {
      TestAppend(rs[j], s, t);
    }
    assert Unmet(Number, s + t) <= Unmet(Number, s) by { assert rs[0] == Number; }
    assert Unmet(Lowercase, s + t) <= Unmet(Lowercase, s) by { assert rs[1] == Lowercase; }
    assert Unmet(Uppercase, s + t) <= Unmet(Uppercase, s) by { assert rs[2] == Uppercase; }
    assert Unmet(SpecialSymbol, s + t) <= Unmet(SpecialSymbol, s) by { assert rs[3] == SpecialSymbol; }
  }

  /** In particular, typing one more character never lowers the strength. */
  lemma TypingNeverLowers(s: string, c: char)
    ensures Strength(s) <= Strength(s + [c])
  {
    AppendNeverLowers(s, [c]);
  }

  /** The 50% gate lets a key through exactly when at most two of the five
      checks fail. */
  lemma {:induction false} GateIff(s: string)
    ensures Strength(s) >= 50
        <==> LengthPenalty(s) + Unmet(Number, s) + Unmet(Lowercase, s)
             + Unmet(Uppercase, s) + Unmet(SpecialSymbol, s) <= 2
  {
    FailedChecksTable(s);
  }

  /** The colour of the progress bar. */
  datatype Color = Teal | Yellow | Red

  function BarColor(strength: int): (c: Color)
    ensures strength < 50 ==> c == Red
    ensures c == Yellow ==> strength > 50 && strength != 100
    ensures c == Teal <==> strength == 100
  {
    if strength == 100 then Teal else if strength > 50 then Yellow else Red
  }

  /** The bar is red exactly when the gate refuses the key (no key scores
      exactly 50), teal when no check fails and yellow when one or two do. */
  lemma ColorMatchesGate(s: string)
    ensures BarColor(Strength(s)) == Red <==> Strength(s) < 50
    ensures BarColor(Strength(s)) == Teal <==> FailedChecks(s) == 0
    ensures BarColor(Strength(s)) == Yellow <==> 1 <= FailedChecks(s) <= 2
  {
  }
}
