/** Drawing the target country: filter the catalogue by difficulty, then index
    it with a scaled random number. The random number is a parameter `rnd`
    with `0 <= rnd < 1`, the range of the runtime's random source. */
module Draw {
  import opened Countries

  /** The countries kept by a filter, in their original order. */
  function Filter<T(!new)>(s: seq<T>, p: T -> bool): (r: seq<T>)
    ensures |r| <= |s|
    ensures forall i :: 0 <= i < |r| ==> p(r[i])
    ensures forall x :: x in r <==> x in s && p(x)
  {
    if s == [] then []
    else if p(s[0]) then [s[0]] + Filter(s[1..], p)
    else Filter(s[1..], p)
  }

  /** Filtering a concatenation filters each part and keeps them in order. */
  lemma {:induction false} FilterAppend<T(!new)>(a: seq<T>, b: seq<T>, p: T -> bool)
    ensures Filter(a + b, p) == Filter(a, p) + Filter(b, p)
  {
    if a != [] {
      assert (a + b)[1..] == a[1..] + b;
      FilterAppend(a[1..], b, p);
    } else {
      assert a + b == b;
    }
  }

  /** A filter every element passes keeps the whole sequence. */
  lemma {:induction false} FilterKeepsAll<T(!new)>(s: seq<T>, p: T -> bool)
    requires forall i :: 0 <= i < |s| ==> p(s[i])
    ensures Filter(s, p) == s
  {
    if s != [] {
      FilterKeepsAll(s[1..], p);
    }
  }

  /** Countries on the EASY tier have more than fifty million people. */
  const EASY_MIN_POPULATION: int := 50000000

  predicate IsEasy(c: Country)
  {
    c.population > EASY_MIN_POPULATION
  }

  /** `floor(rnd * n)`: an index into a non-empty list of length `n`, and 0
      for an empty one. The index is the one whose slice of `[0, n)` holds
      `rnd * n`. */
  function ScaledIndex(rnd: real, n: nat): (i: int)
    requires 0.0 <= rnd < 1.0
    ensures n > 0 ==> 0 <= i < n
    ensures n == 0 ==> i == 0
    ensures i as real <= rnd * n as real < (i + 1) as real
  {
    var x := rnd * n as real;
    if n > 0 then ProductBelow(rnd, n as real); x.Floor else x.Floor
  }

  lemma ProductBelow(r: real, d: real)
    requires 0.0 <= r < 1.0 && d > 0.0
    ensures 0.0 <= r * d < d
  {
  }

  lemma DivLe(a: real, r: real, d: real)
    requires d > 0.0
    ensures a / d <= r <==> a <= r * d
    ensures r < a / d <==> r * d < a
  {
  }

  lemma FloorUnique(x: real, i: int, j: int)
    requires i as real <= x < (i + 1) as real
    requires j as real <= x < (j + 1) as real
    ensures i == j
  {
  }

  /** The element at index `i`, or nothing when `i` is out of range (an
      out-of-range array read yields `undefined`). */
  function At(s: seq<Country>, i: int): (r: Option<Country>)
    ensures r.Some? <==> 0 <= i < |s|
    ensures r.Some? ==> r.value == s[i]
  {
    if 0 <= i < |s| then Some(s[i]) else None
  }

  /** A uniform draw from the whole catalogue. */
  function RandomCountry(countries: seq<Country>, rnd: real): (r: Option<Country>)
    requires 0.0 <= rnd < 1.0
    ensures r.Some? <==> |countries| > 0
    ensures r.Some? ==> r.value in countries
  {
    At(countries, ScaledIndex(rnd, |countries|))
  }

  /** The candidate list of a difficulty: the populous countries for exactly
      "EASY", the whole catalogue for any other string. */
  function Candidates(countries: seq<Country>, difficulty: string): (r: seq<Country>)
    ensures forall c :: c in r ==> c in countries
    ensures difficulty == "EASY" ==> forall c :: c in r <==> c in countries && IsEasy(c)
    ensures difficulty == "EASY" ==> r == Filter(countries, IsEasy)
    ensures difficulty != "EASY" ==> r == countries
  {
    if difficulty == "EASY" then Filter(countries, IsEasy) else countries
  }

  /** The drawn target: a member of the difficulty's candidate list, populous
      on EASY, and nothing exactly when that list is empty. */
  function RandomCountryByDifficulty(countries: seq<Country>, difficulty: string, rnd: real): (r: Option<Country>)
    requires 0.0 <= rnd < 1.0
    ensures r.Some? <==> |Candidates(countries, difficulty)| > 0
    ensures r.Some? ==> r.value in countries
    ensures r.Some? && difficulty == "EASY" ==> r.value.population > EASY_MIN_POPULATION
  {
    var filteredCountries := Candidates(countries, difficulty);
    At(filteredCountries, ScaledIndex(rnd, |filteredCountries|))
  }

  /** Any difficulty other than "EASY", including unknown ones, draws exactly
      as from the whole catalogue. */
  lemma OtherDifficultiesDrawFromAll(countries: seq<Country>, difficulty: string, rnd: real)
    requires 0.0 <= rnd < 1.0
    requires difficulty != "EASY"
    ensures RandomCountryByDifficulty(countries, difficulty, rnd) == RandomCountry(countries, rnd)
  {
  }

  /** Scaling `i / n` back by `n` lands on index `i`. */
  lemma ScaledIndexInverse(i: nat, n: nat)
    requires i < n
    ensures 0.0 <= i as real / n as real < 1.0
    ensures ScaledIndex(i as real / n as real, n) == i
  {
  }

  /** Index `i` is selected exactly by the random numbers in `[i/n, (i+1)/n)`,
      a slice of width `1/n` for every index: a uniform `rnd` gives a uniform
      index. */
  lemma ScaledIndexSlice(rnd: real, n: nat, i: nat)
    requires 0.0 <= rnd < 1.0
    requires i < n
    ensures ScaledIndex(rnd, n) == i <==> i as real / n as real <= rnd < (i + 1) as real / n as real
  {
    var d := n as real;
    DivLe(i as real, rnd, d);
    DivLe((i + 1) as real, rnd, d);
    var j := ScaledIndex(rnd, n);
    if i as real <= rnd * d < (i + 1) as real {
      FloorUnique(rnd * d, i, j);
    }
  }

  /** Every candidate can be drawn: `rnd = i / n` selects candidate `i`. */
  lemma EveryCandidateReachable(countries: seq<Country>, difficulty: string, i: nat)
    requires i < |Candidates(countries, difficulty)|
    ensures var n := |Candidates(countries, difficulty)|;
            var rnd := i as real / n as real;
            0.0 <= rnd < 1.0 &&
            RandomCountryByDifficulty(countries, difficulty, rnd) == Some(Candidates(countries, difficulty)[i])
  {
    ScaledIndexInverse(i, |Candidates(countries, difficulty)|);
  }

  /** On a catalogue of populous countries only, EASY draws as from the whole
      catalogue. */
  lemma EasyOnPopulousCatalogue(countries: seq<Country>, rnd: real)
    requires 0.0 <= rnd < 1.0
    requires forall i :: 0 <= i < |countries| ==> IsEasy(countries[i])
    ensures RandomCountryByDifficulty(countries, "EASY", rnd) == RandomCountry(countries, rnd)
  {
    FilterKeepsAll(countries, IsEasy);
  }
}
