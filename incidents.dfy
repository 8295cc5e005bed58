/** One stop-and-search record as the police data API delivers it, after
    JSON decoding. Every field may be null or missing (`None`). The date and
    coordinate conversions the source leaves to the language runtime are
    given here as already-computed values: `parsed` is what `new Date(...)` /
    `strtotime` make of `datetime` (an hour and a weekday name, or nothing for
    an unparseable string), and a coordinate carries its raw text and its value
    rounded to three decimals, as an integer count of thousandths. */
module Incidents {
  import opened Wrappers
  import opened Json

  /** A successfully parsed timestamp: the hour of the day and the English
      weekday name. */
  datatype Stamp = Stamp(hour: nat, weekday: string)

  /** A coordinate: the text the API sends and its value in thousandths of a
      degree, rounded as `Math.round(x * 1000) / 1000` and `round($x, 3)` do. */
  datatype Coord = Coord(raw: string, milli: int)

  datatype Location = Location(latitude: Option<Coord>, longitude: Option<Coord>, streetName: Option<string>)

  datatype Incident = Incident(
    ageRange: Option<string>,
    officerEthnicity: Option<string>,
    selfEthnicity: Option<string>,
    gender: Option<string>,
    legislation: Option<string>,
    objectOfSearch: Option<string>,
    outcome: Option<string>,
    kind: Option<string>,
    datetime: Option<string>,
    parsed: Option<Stamp>,
    location: Option<Location>,
    forceId: Option<string>,
    forceName: Option<string>)

  /** JavaScript's `x || d` on an optional string: null and "" both fall back. */
  function OrJs(x: Option<string>, d: string): (r: string)
    ensures r == d || (x.Some? && r == x.value && r != "")
    ensures x.Some? && x.value != "" ==> r == x.value
  {
    if x.Some? && x.value != "" then x.value else d
  }

  /** PHP's `$x ?? $d`: only null falls back; "" is kept. */
  function OrPhp(x: Option<string>, d: string): (r: string)
    ensures x.Some? ==> r == x.value
    ensures x.None? ==> r == d
  {
    x.GetOr(d)
  }

  /** JavaScript truthiness of an optional string field. */
  predicate TruthyJs(x: Option<string>) {
    x.Some? && x.value != ""
  }

  /** PHP's `!empty($x)` on an optional string field: "" and "0" are empty. */
  predicate NonEmptyPhp(x: Option<string>) {
    x.Some? && x.value != "" && x.value != "0"
  }

  /** A decoded JSON value that is not an array. */
  type Scalar = j: Json | !j.JArr? witness JNull

  /** A value the client cache holds or a request returns: an array of
      incidents, or any other decoded JSON value. */
  datatype Payload = Rows(items: seq<Incident>) | Doc(doc: Scalar)

  /** JavaScript truthiness of a payload: every array is truthy. */
  predicate Truthy(p: Payload) {
    p.Rows? || JsTruthy(p.doc)
  }

  /** One entry of the police API's dataset list: its month (absent when the
      field is missing) and the forces that have stop-and-search data for it
      (absent when the field is missing). */
  datatype Dataset = Dataset(date: Option<string>, stopAndSearch: Option<seq<string>>)

  /** A police force of the forces list. */
  datatype ForceInfo = ForceInfo(id: string, name: string)
}
