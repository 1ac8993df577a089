/** The country record every hint is computed from, in the normalised shape the
    game logic builds from the country registry (name, population, first
    continent, area, latitude and longitude). */
module Countries {

  /** One normalised country. Populations are whole people; area (km²) and the
      coordinates (degrees) are exact reals, since the hints only subtract and
      compare them. */
  datatype Country = Country(
    name: string,
    population: int,
    continent: string,
    area: real,
    latitude: real,
    longitude: real
  )

  /** A lookup that may find nothing: `None` stands for JavaScript's
      `undefined` from an out-of-range array index. */
  datatype Option<T> = None | Some(value: T)
}
