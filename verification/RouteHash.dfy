/** The Redis hash of one route, shared by the nightly batch and by both stream writers. */
module RouteHash {

  /** A stored field value.  Redis keeps strings; the model keeps the value the string denotes. */
  datatype Cell = Num(value: real) | Stamp(at: int) | Text(text: string)

  /** A field of the hash.  Those the code uses have a constructor each; `Other` is any further name. */
  datatype Field =
    | AvgBookings90d
    | SeasonalityMon | SeasonalityTue | SeasonalityWed | SeasonalityThu
    | SeasonalityFri | SeasonalitySat | SeasonalitySun
    | LeadTimeP50 | LeadTimeP90 | CancellationRate180d | ElasticityEstimate
    | Searches5m | Bookings15m | LookToBook1h
    | WeatherTempC | WeatherPrecipMm | WeatherCondition
    | BatchComputedAt | StreamComputedAt
    | Other(name: string)

  type Hash = map<Field, Cell>

  /** HSET with a mapping: the named fields are overwritten, every other field stays. */
  function Hset(h: Hash, mapping: Hash): Hash {
    h + mapping
  }
}
