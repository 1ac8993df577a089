# Guess the Country: the guess-feedback engine

This project models the game logic of a "guess the country" game. A secret
target country is drawn from the country catalogue, filtered by difficulty.
The player then types country names. A guess wins when it names the target,
ignoring letter case. Otherwise the guessed country's record is compared with
the target's record, and the player gets one hint per dimension:

- population and area: `EQUAL`, `GREATER` or `LESS`;
- continent: `MATCH` or `DIFFERENT`;
- latitude: `SAME_LATITUDE`, `NORTH` or `SOUTH`;
- longitude: `SAME_LONGITUDE`, `EAST` or `WEST`.

Everything modelled is pure, so it is written as Dafny functions and lemmas:

- `countries.dfy` (module `Countries`): the normalised country record and an `Option` for JavaScript's `undefined`.
- `compare.dfy` (module `Compare`): the per-dimension comparisons and their thresholds.
  These are 1,000,000 people, 50,000 km² and an inclusive tolerance of 2 degrees.
- `feedback.dfy` (module `GameFeedback`): the bundled hint set.
- `guess.dfy` (module `Guess`): the case-insensitive win test, with ASCII case folding.
- `draw.dfy` (module `Draw`): filtering the catalogue by difficulty and indexing it with a scaled random number.

Behaviour that follows the code rather than a tidier design:

- `GREATER` means the GUESS is larger than the target, and `LESS` that it is smaller.
- The `EASY` tier keeps countries with more than 50,000,000 people. Every other
  difficulty string, including an unknown one, draws from the whole catalogue.
  The `else` branch of `getRandomCountryByDifficulty` evaluates
  `(difficulty === 'HARD')` as a statement whose value is discarded.
- An empty candidate list gives no country (`None`) rather than an error.
- The population and area bands are strict: 999,999 apart is `EQUAL`, while
  1,000,000 apart is not. The coordinate tolerance is inclusive: exactly 2
  degrees apart is still aligned.

## Model

| member | source | states |
|---|---|---|
| `Compare.ComparePopulation` | controllers/gameLogic.js:48-58 | `EQUAL` iff the guess population lies strictly within one million of the target's; `GREATER` iff it is at least one million above; `LESS` iff it is at least one million below |
| `Compare.CompareArea` | controllers/gameLogic.js:68-78 | the same three-way characterisation with a band of 50,000 km² |
| `Compare.CompareContinent` | controllers/gameLogic.js:60-66 | `MATCH` iff the continent strings are equal, `DIFFERENT` iff they differ |
| `Compare.LatitudeOf` | controllers/gameLogic.js:89-95 | `SAME_LATITUDE` iff the guess latitude is within 2 degrees of the target's, inclusive; `NORTH` iff the target is more than 2 degrees north; `SOUTH` iff it is more than 2 degrees south |
| `Compare.LongitudeOf` | controllers/gameLogic.js:97-103 | the same for longitude with `SAME_LONGITUDE`, `EAST` and `WEST` |
| `Compare.CompareLocation` | controllers/gameLogic.js:80-106 | each half of the location hint is determined by its own coordinate difference (target minus guess) against the tolerance of 2 |
| `Compare.MagnitudeSwap` | controllers/gameLogic.js:48-78 | exchanging guess and target exchanges `GREATER` and `LESS` and keeps `EQUAL`, for population and for area |
| `Compare.PopulationBoundary` | controllers/gameLogic.js:49-57 | a difference of 999,999 either way is `EQUAL`; a difference of exactly 1,000,000 is `GREATER` or `LESS` |
| `Compare.AreaBoundary` | controllers/gameLogic.js:69-77 | a difference of 49,999 km² either way is `EQUAL`; a difference of exactly 50,000 km² is `GREATER` or `LESS` |
| `Compare.ContinentSymmetric` | controllers/gameLogic.js:60-66 | the continent hint is symmetric in guess and target |
| `Compare.LocationSwap` | controllers/gameLogic.js:80-106 | exchanging guess and target turns `NORTH` into `SOUTH` and `EAST` into `WEST` and keeps the aligned answers; a difference of exactly 2 degrees is aligned |
| `GameFeedback.GetFeedback` | controllers/gameLogic.js:126-142 | the feedback is all-neutral iff the guess is within every tolerance of the target, and in particular when guess and target are the same record |
| `GameFeedback.FeedbackSwap` | controllers/gameLogic.js:126-142 | exchanging guess and target mirrors every hint of the feedback |
| `GameFeedback.FeedbackIdentical` | controllers/gameLogic.js:126-142 | identical records give `EQUAL`, `EQUAL`, `MATCH`, `SAME_LATITUDE`, `SAME_LONGITUDE` |
| `Guess.LowerChar` | controllers/gameLogic.js:45 | the result is never an upper-case ASCII letter; other characters are unchanged; an upper-case letter moves to its lower-case partner |
| `Guess.Lower` | controllers/gameLogic.js:45 | lower-casing keeps the length and lower-cases every character in place |
| `Guess.CheckGuess` | controllers/gameLogic.js:44-46 | the guess wins iff it equals the target's name up to letter case; typing the exact name always wins |
| `Guess.LowerIdempotent` | controllers/gameLogic.js:45 | lower-casing twice is lower-casing once |
| `Guess.CaseInsensitive` | controllers/gameLogic.js:44-46 | changing the letter case of the guess never changes the verdict |
| `Guess.LowerStillWins` | controllers/gameLogic.js:44-46 | the target's name lower-cased is still a winning guess |
| `Draw.Filter` | controllers/gameLogic.js:37 | the filter keeps exactly the elements that pass the predicate, and no more elements than it was given |
| `Draw.FilterAppend` | controllers/gameLogic.js:37 | filtering a concatenation is the concatenation of the filtered parts, so the catalogue order is kept |
| `Draw.FilterKeepsAll` | controllers/gameLogic.js:37 | a filter every element passes returns the input unchanged |
| `Draw.ScaledIndex` | controllers/gameLogic.js:41 | `floor(rnd * n)` with `0 <= rnd < 1` is a valid index when `n > 0`, and 0 when `n = 0`; the index `i` is the one with `i <= rnd * n < i + 1` |
| `Draw.ScaledIndexSlice` | controllers/gameLogic.js:41 | index `i` is chosen exactly by the random numbers in `[i/n, (i+1)/n)`, a slice of width `1/n` for every index, so a uniform random number gives a uniform draw |
| `Draw.At` | controllers/gameLogic.js:41 | reading index `i` yields a country iff `i` is in range, and then the element at `i` |
| `Draw.RandomCountry` | controllers/gameLogic.js:29 | a draw from the whole catalogue yields a country iff the catalogue is non-empty, and that country is in the catalogue |
| `Draw.Candidates` | controllers/gameLogic.js:35-40 | every candidate is in the catalogue; for `EASY` the candidates are the catalogue filtered to the countries with more than 50,000,000 people, in catalogue order; for any other string the candidate list is the catalogue itself |
| `Draw.RandomCountryByDifficulty` | controllers/gameLogic.js:32-42 | the draw yields a country iff the candidate list is non-empty; the country is in the catalogue; on `EASY` it has more than 50,000,000 people |
| `Draw.OtherDifficultiesDrawFromAll` | controllers/gameLogic.js:38-41 | every difficulty other than `EASY`, unknown strings included, draws exactly as from the whole catalogue |
| `Draw.ScaledIndexInverse` | controllers/gameLogic.js:41 | `rnd = i / n` is a valid random number and scales back to index `i` |
| `Draw.EveryCandidateReachable` | controllers/gameLogic.js:32-42 | every candidate of the chosen difficulty is the result for some random number in `[0, 1)` |
| `Draw.EasyOnPopulousCatalogue` | controllers/gameLogic.js:36-41 | on a catalogue whose countries all have more than 50,000,000 people, `EASY` draws exactly as from the whole catalogue |

## Left out

- `calculateDistance` and `compareDistance` (controllers/gameLogic.js:108-124): the haversine formula needs sine, cosine, square root and arctangent on floating point, which the model does not have; the `Feedback` datatype therefore has no distance field.
- `getCountries` (controllers/gameLogic.js:5-25): the HTTP fetch of the country registry, the module-level cache, the error logging and the rethrow. The catalogue is a parameter, already normalised.
- The random source `Math.random` is a parameter `rnd` with `0 <= rnd < 1`. The model states which slice of `[0, 1)` selects each index, not probabilities, because it has no probability distributions.
- `Guess.Lower`: folds only the ASCII letters A-Z, whereas the runtime's `toLowerCase` follows Unicode case mapping.
- Countries without coordinates: the record always carries a latitude and a longitude, so the `NaN` comparisons that a missing coordinate causes are not modelled.
- Numbers: populations are unbounded integers and areas and coordinates exact reals, so double-precision rounding is not modelled.
- `async`/`await`: every modelled operation is a plain function of its inputs.
- A game session (start, guess, restart, attempt counting, a won state) and fuzzy name matching: no modelled source file contains them. The HTTP routes in routes/gameRoutes.js, the interactive client in interfaces/cli.js, app.js and server.js are glue and are not part of this model.
