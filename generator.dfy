/** `generatePassword`: 24 characters, each drawn from a fixed charset.
    The random draw `Math.floor(Math.random() * n)` is an arbitrary index
    in `[0, n)`; nothing is said about its distribution. */
module Generator {
  import opened StrengthMeter

  const PasswordLength := 24

  /** The charset literal of the source, written as its four runs. */
  const Charset: string := LowerLetters + UpperLetters + Digits + Symbols
  const LowerLetters: string := "abcdefghijklmnopqrstuvwxyz"
  const UpperLetters: string := "ABCDEFGHIJKLMNOPQRSTUVWXYZ"
  const Digits: string := "0123456789"
  const Symbols: string := "!@#$%^&*()_+~`|}{[]:;?><,./-="

  /** The shape of every generated password. */
  ghost predicate Generated(p: string) {
    |p| == PasswordLength && forall i :: 0 <= i < |p| ==> p[i] in Charset
  }

  method GeneratePassword() returns (retVal: string)
    ensures |retVal| == PasswordLength
    ensures forall i :: 0 <= i < |retVal| ==> retVal[i] in Charset
  {
    var n := |Charset|;
    retVal := "";
    for i := 0 to PasswordLength
      invariant |retVal| == i
      invariant forall j :: 0 <= j < i ==> retVal[j] in Charset
    {
      var k :| 0 <= k < n;
      retVal := retVal + [Charset[k]];
    }
  }

  /** A generated password always passes the length check, so it scores at
      least 20. */
  lemma GeneratedPassesLength(p: string)
    requires Generated(p)
    ensures LengthPenalty(p) == 0 && FailedChecks(p) <= 4 && Strength(p) >= 20
  {
    FailedChecksTable(p);
  }

  /** The charset holds a character of every class, so the generator can
      produce a full-strength password ... */
  lemma {:induction false} GeneratorCanReachFull()
    ensures exists p :: Generated(p) && Strength(p) == 100
  {
    var p := seq(PasswordLength, i => "aA0!"[i % 4]);
    assert forall i :: 0 <= i < |p| ==> p[i] in "aA0!";
    assert "aA0!"[0] == Charset[0] && "aA0!"[1] == Charset[26];
    assert "aA0!"[2] == Charset[52] && "aA0!"[3] == Charset[62];
    assert Generated(p);
    assert InClass(Lowercase, p[0]) && InClass(Uppercase, p[1]);
    assert InClass(Number, p[2]) && InClass(SpecialSymbol, p[3]);
    FullStrengthIff(p);
    assert Strength(p) == 100;
  }

  /** ... but nothing makes it do so: twenty-four `a`s is a possible result
      and would be refused by the master-key gate. */
  lemma {:induction false} GeneratorCanBeWeak()
    ensures exists p :: Generated(p) && Strength(p) < 50
  {
    var p := seq(PasswordLength, _ => 'a');
    assert Charset[0] == 'a';
    assert Generated(p);
    assert !HasCharIn(p, Number) && !HasCharIn(p, Uppercase) && !HasCharIn(p, SpecialSymbol);
    GateIff(p);
    assert Strength(p) < 50;
  }
}
