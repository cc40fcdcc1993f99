/** Flight records as the flight API delivers them, and the flat rows the transform works on
    (etl/transform.py, the `json_normalize` / `rename` / `filter` chain). */
module Flights {
  import opened Wrappers

  /** The nested `aircraftType` object. Only its IATA main and sub type survive. */
  datatype AircraftType = AircraftType(
    iataMain: Option<string>,
    iataSub: Option<string>,
    others: map<string, string>)

  /** The nested `route` object. Only the destination list survives. */
  datatype Route = Route(destinations: seq<string>, others: map<string, string>)

  /** The scalar columns the transform keeps and passes through untouched. */
  datatype Schedule = Schedule(
    flightNumber: Option<string>,
    flightDirection: Option<string>,
    terminal: Option<string>,
    pier: Option<string>,
    gate: Option<string>,
    scheduleDateTime: Option<string>,
    estimatedLandingTime: Option<string>,
    actualLandingTime: Option<string>,
    lastUpdatedAt: Option<string>)

  /** One flight as extracted: `flightName` and every field in `others` are dropped. */
  datatype RawFlight = RawFlight(
    mainFlight: string,
    flightName: string,
    prefixIATA: Option<string>,
    aircraftType: AircraftType,
    serviceType: Option<string>,
    route: Route,
    schedule: Schedule,
    others: map<string, string>)

  /** A flattened row: the fixed column subset, aircraft fields renamed to
      `iataMain` / `iataSub`, the destination list still whole. */
  datatype Row = Row(
    mainFlight: string,
    prefixIATA: Option<string>,
    iataMain: Option<string>,
    iataSub: Option<string>,
    serviceType: Option<string>,
    destination: seq<string>,
    schedule: Schedule)

  /** An output row: the retained columns, the single destination, and the four derived columns. */
  datatype Enriched = Enriched(
    mainFlight: string,
    prefixIATA: Option<string>,
    iataMain: Option<string>,
    iataSub: Option<string>,
    serviceType: Option<string>,
    destination: string,
    schedule: Schedule,
    airline: string,
    capacity: real,
    plf: real,
    estimatedPassengers: real)

  /** The fields of `f` that the column filter retains. */
  predicate SameRetainedFields(f: RawFlight, g: RawFlight) {
    && f.mainFlight == g.mainFlight
    && f.prefixIATA == g.prefixIATA
    && f.aircraftType.iataMain == g.aircraftType.iataMain
    && f.aircraftType.iataSub == g.aircraftType.iataSub
    && f.serviceType == g.serviceType
    && f.route.destinations == g.route.destinations
    && f.schedule == g.schedule
  }

  /** Flattening, renaming and column selection of one flight: the nested aircraft codes
      arrive as `iataMain`/`iataSub`, the route's destination list as `destination`, and the
      service type and the pass-through schedule columns unchanged. */
  function Normalize(f: RawFlight): (r: Row)
    ensures r.iataMain == f.aircraftType.iataMain && r.iataSub == f.aircraftType.iataSub
    ensures r.destination == f.route.destinations
    ensures r.mainFlight == f.mainFlight && r.prefixIATA == f.prefixIATA
    ensures r.serviceType == f.serviceType && r.schedule == f.schedule
  {
    Row(f.mainFlight, f.prefixIATA, f.aircraftType.iataMain, f.aircraftType.iataSub,
        f.serviceType, f.route.destinations, f.schedule)
  }

  /** Dropped fields (`flightName`, codeshares, nested extras) have no influence on the row,
      and the renamed aircraft fields and the destination list arrive unchanged. */
  lemma NormalizeKeepsOnlyRetained(f: RawFlight, g: RawFlight)
    requires SameRetainedFields(f, g)
    ensures Normalize(f) == Normalize(g)
    ensures Normalize(f).iataMain == g.aircraftType.iataMain
    ensures Normalize(f).iataSub == g.aircraftType.iataSub
    ensures Normalize(f).destination == g.route.destinations
  {
  }

  /** Every flight gives exactly one row, in input order. */
  function NormalizeAll(flights: seq<RawFlight>): (rows: seq<Row>)
    ensures |rows| == |flights|
    ensures forall i :: 0 <= i < |flights| ==> rows[i] == Normalize(flights[i])
  {
    seq(|flights|, i requires 0 <= i < |flights| => Normalize(flights[i]))
  }
}
