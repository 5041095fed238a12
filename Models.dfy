/** The persisted roast row (models.py) and the JSON text its series
    columns hold. */
module Models {
  import opened Optional

  /** Timestamps are seconds on a common clock. */
  type Instant = real

  /** The text of a JSON array of numbers. The encoding itself is not
      modelled: a `Json` value is the list it encodes. */
  datatype Json = JsonArray(numbers: seq<real>)

  function JsonDumps(xs: seq<real>): Json {
    JsonArray(xs)
  }

  function JsonLoads(j: Json): seq<real> {
    j.numbers
  }

  /** JSON is a lossless encoding of lists of numbers. */
  lemma JsonRoundTrip(xs: seq<real>)
    ensures JsonLoads(JsonDumps(xs)) == xs
  {
  }

  /** A row of the `roasts` table as written by the recorder. The database
      key `id` and the `tasting_comments` column are never written by the
      recorder and are left out. */
  datatype Roast = Roast(
    startTime: Instant,
    secFromStart: Json,
    temperatureF: Json,
    beanInfo: Option<string>,
    firstCrackStartTime: Option<real>,
    firstCrackStartTemp: Option<real>,
    secondCrackStartTime: Option<real>,
    secondCrackStartTemp: Option<real>)
}
