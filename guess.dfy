/** The win test: a typed guess wins when it names the target, ignoring letter
    case. Case folding is ASCII only. */
module Guess {
  import opened Countries

  predicate IsUpper(c: char)
  {
    'A' <= c <= 'Z'
  }

  /** Lower-cases one ASCII letter and leaves every other character alone. */
  function LowerChar(c: char): (r: char)
    ensures !IsUpper(r)
    ensures !IsUpper(c) ==> r == c
    ensures IsUpper(c) ==> r as int == c as int + 32
  {
    if IsUpper(c) then (c as int + 32) as char else c
  }

  /** Lower-cases a whole string, character by character. */
  function Lower(s: string): (r: string)
    ensures |r| == |s|
    ensures forall i :: 0 <= i < |s| ==> r[i] == LowerChar(s[i])
  {
    if s == [] then [] else [LowerChar(s[0])] + Lower(s[1..])
  }

  /** The two strings differ at most in the letter case of their characters. */
  predicate SameUpToCase(a: string, b: string)
  {
    |a| == |b| && forall i :: 0 <= i < |a| ==> LowerChar(a[i]) == LowerChar(b[i])
  }

  /** Whether the typed guess names the target country: the guess and the
      target's name agree once both are lower-cased, which is the same as
      agreeing up to letter case. */
  function CheckGuess(userGuess: string, targetCountry: Country): (r: bool)
    ensures r <==> SameUpToCase(userGuess, targetCountry.name)
    ensures userGuess == targetCountry.name ==> r
  {
    var a, b := Lower(userGuess), Lower(targetCountry.name);
    assert a == b <==> SameUpToCase(userGuess, targetCountry.name) by {
      if SameUpToCase(userGuess, targetCountry.name) {
        assert forall i :: 0 <= i < |a| ==> a[i] == b[i];
      }
    }
    a == b
  }

  /** Lower-casing twice is lower-casing once. */
  lemma LowerIdempotent(s: string)
    ensures Lower(Lower(s)) == Lower(s)
  {
  }

  /** Changing the letter case of the guess never changes the verdict. */
  lemma CaseInsensitive(userGuess: string, recased: string, targetCountry: Country)
    requires SameUpToCase(userGuess, recased)
    ensures CheckGuess(recased, targetCountry) == CheckGuess(userGuess, targetCountry)
  {
  }

  /** The target's name, lower-cased, is still a winning guess. */
  lemma LowerStillWins(targetCountry: Country)
    ensures CheckGuess(Lower(targetCountry.name), targetCountry)
  {
  }
}
