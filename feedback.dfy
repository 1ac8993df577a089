/** The bundled hint set returned for a guess. */
module GameFeedback {
  import opened Countries
  import opened Compare

  /** Population, area, continent and location hints for one guess. The
      great-circle distance that the game logic also attaches is not part of
      this model. */
  datatype Feedback = Feedback(
    population: Magnitude,
    area: Magnitude,
    continent: ContinentHint,
    location: Location
  )

  /** Every hint says "no difference": what a guess of the target itself gets. */
  predicate Neutral(f: Feedback)
  {
    && f.population == EQUAL
    && f.area == EQUAL
    && f.continent == MATCH
    && f.location == Location(SAME_LATITUDE, SAME_LONGITUDE)
  }

  /** The guess lies within every tolerance of the target: population less than
      a million people apart, area less than 50,000 km² apart, the same continent,
      and both coordinates at most two degrees apart. */
  predicate WithinTolerance(guess: Country, target: Country)
  {
    && -1000000 < guess.population - target.population < 1000000
    && -50000.0 < guess.area - target.area < 50000.0
    && guess.continent == target.continent
    && -2.0 <= guess.latitude - target.latitude <= 2.0
    && -2.0 <= guess.longitude - target.longitude <= 2.0
  }

  /** The hint of each dimension, as seen from the target: what the feedback
      would be with guess and target exchanged. */
  function Mirror(f: Feedback): Feedback
  {
    var latitude := match f.location.latitudeHint
      case SAME_LATITUDE => SAME_LATITUDE
      case NORTH => SOUTH
      case SOUTH => NORTH;
    var longitude := match f.location.longitudeHint
      case SAME_LONGITUDE => SAME_LONGITUDE
      case EAST => WEST
      case WEST => EAST;
    Feedback(Flip(f.population), Flip(f.area), f.continent, Location(latitude, longitude))
  }

  /** All hints for one guess; every dimension is computed, whatever the others
      say. The feedback is neutral exactly when the guess is within every
      tolerance, so in particular for identical records. */
  function GetFeedback(guess: Country, target: Country): (r: Feedback)
    ensures Neutral(r) <==> WithinTolerance(guess, target)
    ensures guess == target ==> Neutral(r)
  {
    Feedback(
      ComparePopulation(guess, target),
      CompareArea(guess, target),
      CompareContinent(guess, target),
      CompareLocation(guess, target))
  }

  /** Exchanging guess and target mirrors every hint. */
  lemma FeedbackSwap(guess: Country, target: Country)
    ensures GetFeedback(target, guess) == Mirror(GetFeedback(guess, target))
  {
  }

  /** Identical records get the all-neutral feedback: EQUAL, EQUAL, MATCH,
      SAME_LATITUDE, SAME_LONGITUDE. */
  lemma FeedbackIdentical(c: Country)
    ensures GetFeedback(c, c) == Feedback(EQUAL, EQUAL, MATCH, Location(SAME_LATITUDE, SAME_LONGITUDE))
  {
  }
}
