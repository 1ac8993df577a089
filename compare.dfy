/** The per-dimension hints of the guess-feedback engine. Every comparison takes
    the guessed country first and the secret target second, as the game logic
    does, and answers with a closed set of labels. */
module Compare {
  import opened Countries

  /** Population and area hints. `GREATER` and `LESS` describe the GUESS
      relative to the target. */
  datatype Magnitude = EQUAL | GREATER | LESS

  datatype ContinentHint = MATCH | DIFFERENT

  /** `NORTH` means the target lies north of the guess. */
  datatype LatitudeHint = SAME_LATITUDE | NORTH | SOUTH

  /** `EAST` means the target lies east of the guess. */
  datatype LongitudeHint = SAME_LONGITUDE | EAST | WEST

  datatype Location = Location(latitudeHint: LatitudeHint, longitudeHint: LongitudeHint)

  /** Two populations closer than this many people are reported as `EQUAL`. */
  const POPULATION_THRESHOLD: int := 1000000

  /** Two areas closer than this many km² are reported as `EQUAL`. */
  const AREA_THRESHOLD: real := 50000.0

  /** Two coordinates at most this many degrees apart are reported as aligned. */
  const TOLERANCE: real := 2.0

  function Abs(x: int): nat
  {
    if x < 0 then -x else x
  }

  function AbsReal(x: real): (r: real)
    ensures r >= 0.0
  {
    if x < 0.0 then -x else x
  }

  /** The hint that the opposite comparison (target against guess) gives. */
  function Flip(m: Magnitude): Magnitude
  {
    match m
    case EQUAL => EQUAL
    case GREATER => LESS
    case LESS => GREATER
  }

  /** Population hint: `EQUAL` strictly inside a band of one million people
      around the target, otherwise the side of the band the guess lies on. */
  function ComparePopulation(guess: Country, target: Country): (r: Magnitude)
    ensures r == EQUAL <==>
      target.population - POPULATION_THRESHOLD < guess.population < target.population + POPULATION_THRESHOLD
    ensures r == GREATER <==> guess.population >= target.population + POPULATION_THRESHOLD
    ensures r == LESS <==> guess.population <= target.population - POPULATION_THRESHOLD
  {
    var populationDiff := Abs(target.population - guess.population);
    if populationDiff < POPULATION_THRESHOLD then EQUAL
    else if guess.population > target.population then GREATER
    else LESS
  }

  /** Area hint: the same three-way shape with a band of 50,000 km². */
  function CompareArea(guess: Country, target: Country): (r: Magnitude)
    ensures r == EQUAL <==> target.area - AREA_THRESHOLD < guess.area < target.area + AREA_THRESHOLD
    ensures r == GREATER <==> guess.area >= target.area + AREA_THRESHOLD
    ensures r == LESS <==> guess.area <= target.area - AREA_THRESHOLD
  {
    var areaDiff := AbsReal(target.area - guess.area);
    if areaDiff < AREA_THRESHOLD then EQUAL
    else if guess.area > target.area then GREATER
    else LESS
  }

  /** Continent hint: exact string equality, nothing partial. */
  function CompareContinent(guess: Country, target: Country): (r: ContinentHint)
    ensures r == MATCH <==> guess.continent == target.continent
    ensures r == DIFFERENT <==> guess.continent != target.continent
  {
    if guess.continent == target.continent then MATCH else DIFFERENT
  }

  /** Latitude part of the location hint, on the difference target - guess;
      the tolerance is inclusive. */
  function LatitudeOf(guess: Country, target: Country): (r: LatitudeHint)
    ensures r == SAME_LATITUDE <==>
      target.latitude - TOLERANCE <= guess.latitude <= target.latitude + TOLERANCE
    ensures r == NORTH <==> target.latitude > guess.latitude + TOLERANCE
    ensures r == SOUTH <==> target.latitude < guess.latitude - TOLERANCE
  {
    var latitudeDiff := target.latitude - guess.latitude;
    if AbsReal(latitudeDiff) <= TOLERANCE then SAME_LATITUDE
    else if latitudeDiff > 0.0 then NORTH
    else SOUTH
  }

  /** Longitude part of the location hint, with the same inclusive tolerance. */
  function LongitudeOf(guess: Country, target: Country): (r: LongitudeHint)
    ensures r == SAME_LONGITUDE <==>
      target.longitude - TOLERANCE <= guess.longitude <= target.longitude + TOLERANCE
    ensures r == EAST <==> target.longitude > guess.longitude + TOLERANCE
    ensures r == WEST <==> target.longitude < guess.longitude - TOLERANCE
  {
    var longitudeDiff := target.longitude - guess.longitude;
    if AbsReal(longitudeDiff) <= TOLERANCE then SAME_LONGITUDE
    else if longitudeDiff > 0.0 then EAST
    else WEST
  }

  /** Location hint: latitude and longitude are judged independently, so each
      half depends only on its own coordinate. */
  function CompareLocation(guess: Country, target: Country): (r: Location)
    ensures r.latitudeHint == SAME_LATITUDE <==>
      AbsReal(target.latitude - guess.latitude) <= TOLERANCE
    ensures r.longitudeHint == SAME_LONGITUDE <==>
      AbsReal(target.longitude - guess.longitude) <= TOLERANCE
    ensures r.latitudeHint == NORTH <==> target.latitude - guess.latitude > TOLERANCE
    ensures r.latitudeHint == SOUTH <==> target.latitude - guess.latitude < -TOLERANCE
    ensures r.longitudeHint == EAST <==> target.longitude - guess.longitude > TOLERANCE
    ensures r.longitudeHint == WEST <==> target.longitude - guess.longitude < -TOLERANCE
  {
    Location(LatitudeOf(guess, target), LongitudeOf(guess, target))
  }

  /** Exchanging guess and target exchanges `GREATER` and `LESS` and keeps
      `EQUAL`, for both magnitude hints. */
  lemma MagnitudeSwap(guess: Country, target: Country)
    ensures ComparePopulation(target, guess) == Flip(ComparePopulation(guess, target))
    ensures CompareArea(target, guess) == Flip(CompareArea(guess, target))
  {
  }

  /** The population band is strict: 999,999 people apart, on either side, is
      `EQUAL`; exactly one million apart is not. */
  lemma PopulationBoundary(guess: Country, target: Country)
    ensures guess.population == target.population + 999999 ==> ComparePopulation(guess, target) == EQUAL
    ensures guess.population == target.population - 999999 ==> ComparePopulation(guess, target) == EQUAL
    ensures guess.population == target.population + 1000000 ==> ComparePopulation(guess, target) == GREATER
    ensures guess.population == target.population - 1000000 ==> ComparePopulation(guess, target) == LESS
  {
  }

  /** The area band is strict too: 49,999 km² apart, on either side, is
      `EQUAL`; exactly 50,000 km² apart is not. */
  lemma AreaBoundary(guess: Country, target: Country)
    ensures guess.area == target.area + 49999.0 ==> CompareArea(guess, target) == EQUAL
    ensures guess.area == target.area - 49999.0 ==> CompareArea(guess, target) == EQUAL
    ensures guess.area == target.area + 50000.0 ==> CompareArea(guess, target) == GREATER
    ensures guess.area == target.area - 50000.0 ==> CompareArea(guess, target) == LESS
  {
  }

  /** The continent hint does not depend on which country is the target. */
  lemma ContinentSymmetric(guess: Country, target: Country)
    ensures CompareContinent(guess, target) == CompareContinent(target, guess)
  {
  }

  /** Exchanging guess and target turns NORTH into SOUTH and EAST into WEST
      (and back), and keeps the aligned answers; the tolerance is inclusive. */
  lemma LocationSwap(guess: Country, target: Country)
    ensures var here := CompareLocation(guess, target);
            var there := CompareLocation(target, guess);
            && (here.latitudeHint == NORTH <==> there.latitudeHint == SOUTH)
            && (here.latitudeHint == SAME_LATITUDE <==> there.latitudeHint == SAME_LATITUDE)
            && (here.longitudeHint == EAST <==> there.longitudeHint == WEST)
            && (here.longitudeHint == SAME_LONGITUDE <==> there.longitudeHint == SAME_LONGITUDE)
    ensures target.latitude == guess.latitude + 2.0 ==> CompareLocation(guess, target).latitudeHint == SAME_LATITUDE
  {
  }
}
