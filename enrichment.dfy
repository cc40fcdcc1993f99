/** The enrichment of flattened rows (`transform` in etl/transform.py): the pandas `.assign`
    chain computing destination, airline, capacity, load factor and estimated passengers. */
module Enrichment {
  import opened Wrappers
  import opened Flights
  import opened Airline
  import opened Lookup

  /** The two derived columns computed by a table lookup. */
  datatype LookupColumn = Capacity | LoadFactor

  /** Why one row cannot be enriched: `y[0]` on an empty destination list (`IndexError`), or
      a lookup that reaches a missing `"AVG"` entry (`KeyError`) in the named column. */
  datatype Cause = EmptyDestination | MissingAverage(column: LookupColumn)

  /** Why the whole transform aborts: a column the frame does not have (`AttributeError`),
      or the first row of the first failing column. */
  datatype TransformError = MissingColumn(name: string) | RowFailed(row: nat, cause: Cause)

  /** Tables whose seat counts are non-negative and whose load factors are percentages. */
  predicate TablesInRange(data: CapacityData) {
    NonNegative(data.airlineCap) && NonNegative(data.aircraftCap) && Percentages(data.plf)
  }

  /** The estimate of an output row is its capacity times its load factor. */
  predicate Estimated(e: Enriched) {
    e.estimatedPassengers == e.capacity * e.plf
  }

  /** The invariant of an output row: the estimate is capacity times load factor, the load
      factor is a fraction, and seats and estimate are non-negative. */
  predicate EstimateInRange(e: Enriched) {
    && Estimated(e)
    && 0.0 <= e.plf <= 1.0
    && 0.0 <= e.capacity
    && 0.0 <= e.estimatedPassengers
  }

  /** The output row keeps the row's retained columns unchanged. */
  predicate Retains(row: Row, e: Enriched) {
    && e.mainFlight == row.mainFlight
    && e.prefixIATA == row.prefixIATA
    && e.iataMain == row.iataMain
    && e.iataSub == row.iataSub
    && e.serviceType == row.serviceType
    && e.schedule == row.schedule
  }

  /** The enrichment of a single row, in the order the columns are computed: the reference
      the column-wise transform is proved against. */
  function EnrichRow(row: Row, data: CapacityData): (r: Result<Enriched, Cause>)
    ensures row.destination == [] ==> r == Err(EmptyDestination)
    ensures r.Ok? ==>
      && Retains(row, r.value)
      && r.value.destination == row.destination[0]
      && r.value.airline == GetAirline(row.prefixIATA, row.mainFlight)
      && Estimated(r.value)
  {
    if row.destination == [] then Err(EmptyDestination)
    else
      var airline := GetAirline(row.prefixIATA, row.mainFlight);
      var capacity := CalcCapacity(airline, row.iataMain, row.iataSub, data);
      var plf := CalcPlf(row.serviceType, airline, data.plf);
      if capacity.None? then Err(MissingAverage(Capacity))
      else if plf.None? then Err(MissingAverage(LoadFactor))
      else Ok(Assemble(row, row.destination[0], airline, capacity.value, plf.value))
  }

  /** With tables in range, an enriched row has a fractional load factor and non-negative
      seats and estimate. */
  lemma EnrichRowInRange(row: Row, data: CapacityData)
    requires TablesInRange(data)
    requires EnrichRow(row, data).Ok?
    ensures EstimateInRange(EnrichRow(row, data).value)
  {
  }

  /** `Series.apply` of a function that may raise: all values, or the index of the first row
      that raised. */
  function Apply<T>(column: seq<Option<T>>): (r: Result<seq<T>, nat>)
    ensures r.Ok? <==> forall i :: 0 <= i < |column| ==> column[i].Some?
    ensures r.Ok? ==> |r.value| == |column| && forall i :: 0 <= i < |column| ==> column[i] == Some(r.value[i])
    ensures r.Err? ==> r.error < |column| && column[r.error].None? && forall j :: 0 <= j < r.error ==> column[j].Some?
  {
    if column == [] then Ok([])
    else match column[0]
      case None => Err(0)
      case Some(v) =>
        match Apply(column[1..])
        case Ok(vs) => Ok([v] + vs)
        case Err(i) => Err(i + 1)
  }

  /** `y[0]` of a destination list; None where it raises. */
  function FirstDestination(row: Row): Option<string> {
    if row.destination == [] then None else Some(row.destination[0])
  }

  /** The destination column: `y[0]` of each row's destination list. */
  function DestinationColumn(rows: seq<Row>): (c: seq<Option<string>>)
    ensures |c| == |rows|
  {
    seq(|rows|, i requires 0 <= i < |rows| => FirstDestination(rows[i]))
  }

  /** The airline column. */
  function AirlineColumn(rows: seq<Row>): (c: seq<string>)
    ensures |c| == |rows|
  {
    seq(|rows|, i requires 0 <= i < |rows| => GetAirline(rows[i].prefixIATA, rows[i].mainFlight))
  }

  /** The capacity column, read against the already computed airline column. */
  function CapacityColumn(rows: seq<Row>, airlines: seq<string>, data: CapacityData): (c: seq<Option<real>>)
    requires |airlines| == |rows|
    ensures |c| == |rows|
  {
    seq(|rows|, i requires 0 <= i < |rows| => CalcCapacity(airlines[i], rows[i].iataMain, rows[i].iataSub, data))
  }

  /** The load-factor column, read against the already computed airline column. */
  function PlfColumn(rows: seq<Row>, airlines: seq<string>, data: CapacityData): (c: seq<Option<real>>)
    requires |airlines| == |rows|
    ensures |c| == |rows|
  {
    seq(|rows|, i requires 0 <= i < |rows| => CalcPlf(rows[i].serviceType, airlines[i], data.plf))
  }

  /** The output row assembled from the computed columns of one row. */
  function Assemble(row: Row, destination: string, airline: string, capacity: real, plf: real): Enriched {
    Enriched(row.mainFlight, row.prefixIATA, row.iataMain, row.iataSub, row.serviceType,
             destination, row.schedule, airline, capacity, plf, capacity * plf)
  }

  /** The position of a cause's column in the `.assign` chain: destination, then capacity,
      then load factor. */
  function Step(c: Cause): (s: nat)
    ensures s <= 2
    ensures s == 0 <==> c == EmptyDestination
  {
    match c
    case EmptyDestination => 0
    case MissingAverage(Capacity) => 1
    case MissingAverage(LoadFactor) => 2
  }

  /** The row raises when its value in the column at that step is computed. */
  predicate FailsAt(row: Row, data: CapacityData, step: nat) {
    var airline := GetAirline(row.prefixIATA, row.mainFlight);
    if step == 0 then row.destination == []
    else if step == 1 then CalcCapacity(airline, row.iataMain, row.iataSub, data).None?
    else CalcPlf(row.serviceType, airline, data.plf).None?
  }

  /** Row `k` failing with `cause` is the failure `.assign` reports: the row fails at the
      cause's column, no row fails at an earlier column, and no earlier row fails at that
      column. */
  predicate FirstFailure(rows: seq<Row>, data: CapacityData, k: nat, cause: Cause) {
    && k < |rows|
    && FailsAt(rows[k], data, Step(cause))
    && (forall j, t :: 0 <= j < |rows| && 0 <= t < Step(cause) ==> !FailsAt(rows[j], data, t))
    && (forall j :: 0 <= j < k ==> !FailsAt(rows[j], data, Step(cause)))
  }

  /** The `.assign` chain: each derived column is computed for every row before the next
      one, so the error reported is that of the first row of the first failing column.
      A frame without rows has no columns at all, and reading its destination column raises. */
  function AssignColumns(rows: seq<Row>, data: CapacityData): (r: Result<seq<Enriched>, TransformError>)
    ensures rows == [] <==> r == Err(MissingColumn("destination"))
    ensures r.Ok? ==> |r.value| == |rows|
    ensures r.Err? && rows != [] ==> r.error.RowFailed? && r.error.row < |rows|
  {
    if rows == [] then Err(MissingColumn("destination"))
    else
      match Apply(DestinationColumn(rows))
      case Err(i) => Err(RowFailed(i, EmptyDestination))
      case Ok(destinations) =>
        var airlines := AirlineColumn(rows);
        match Apply(CapacityColumn(rows, airlines, data))
        case Err(i) => Err(RowFailed(i, MissingAverage(Capacity)))
        case Ok(capacities) =>
          match Apply(PlfColumn(rows, airlines, data))
          case Err(i) => Err(RowFailed(i, MissingAverage(LoadFactor)))
          case Ok(plfs) =>
            Ok(seq(|rows|, i requires 0 <= i < |rows| =>
              Assemble(rows[i], destinations[i], airlines[i], capacities[i], plfs[i])))
  }

  /** One row's enrichment in terms of its entries in the four computed columns. */
  lemma EnrichRowByColumns(row: Row, data: CapacityData, destination: Option<string>, airline: string,
                           capacity: Option<real>, plf: Option<real>)
    requires destination == FirstDestination(row)
    requires airline == GetAirline(row.prefixIATA, row.mainFlight)
    requires capacity == CalcCapacity(airline, row.iataMain, row.iataSub, data)
    requires plf == CalcPlf(row.serviceType, airline, data.plf)
    ensures EnrichRow(row, data) ==
      if destination.None? then Err(EmptyDestination)
      else if capacity.None? then Err(MissingAverage(Capacity))
      else if plf.None? then Err(MissingAverage(LoadFactor))
      else Ok(Assemble(row, destination.value, airline, capacity.value, plf.value))
  {
    if destination.Some? && capacity.Some? && plf.Some? {
      var e := EnrichRow(row, data).value;
      assert e.destination == destination.value;
      assert e.airline == airline;
      assert e.capacity == capacity.value;
      assert e.plf == plf.value;
      assert e == Assemble(row, destination.value, airline, capacity.value, plf.value);
    }
  }

  /** Every row's enrichment in terms of its entries in the four computed columns. */
  lemma EnrichRowsByColumns(rows: seq<Row>, data: CapacityData)
    ensures var dests := DestinationColumn(rows);
      var airlines := AirlineColumn(rows);
      var caps := CapacityColumn(rows, airlines, data);
      var plfs := PlfColumn(rows, airlines, data);
      forall i :: 0 <= i < |rows| ==>
        EnrichRow(rows[i], data) ==
          if dests[i].None? then Err(EmptyDestination)
          else if caps[i].None? then Err(MissingAverage(Capacity))
          else if plfs[i].None? then Err(MissingAverage(LoadFactor))
          else Ok(Assemble(rows[i], dests[i].value, airlines[i], caps[i].value, plfs[i].value))
  {
    var airlines := AirlineColumn(rows);
    forall i | 0 <= i < |rows| {
      EnrichRowByColumns(rows[i], data, DestinationColumn(rows)[i], airlines[i],
                         CapacityColumn(rows, airlines, data)[i], PlfColumn(rows, airlines, data)[i]);
    }
  }

  /** The column-wise chain agrees with enriching row by row: it succeeds exactly when every
      row can be enriched, then gives one row per input row in input order, and otherwise
      names a row whose own enrichment fails with the reported cause. */
  lemma AssignColumnsRowwise(rows: seq<Row>, data: CapacityData)
    requires rows != []
    ensures var r := AssignColumns(rows, data);
      && (r.Ok? <==> forall i :: 0 <= i < |rows| ==> EnrichRow(rows[i], data).Ok?)
      && (r.Ok? ==> |r.value| == |rows| && forall i :: 0 <= i < |rows| ==> EnrichRow(rows[i], data) == Ok(r.value[i]))
      && (r.Err? ==> r.error.RowFailed? && r.error.row < |rows| && EnrichRow(rows[r.error.row], data) == Err(r.error.cause))
  {
    var dests := DestinationColumn(rows);
    var airlines := AirlineColumn(rows);
    var caps := CapacityColumn(rows, airlines, data);
    var plfs := PlfColumn(rows, airlines, data);
    EnrichRowsByColumns(rows, data);
    var r := AssignColumns(rows, data);
    match Apply(dests)
    case Err(i) =>
      assert r == Err(RowFailed(i, EmptyDestination));
    case Ok(ds) =>
      match Apply(caps)
      case Err(i) =>
        assert r == Err(RowFailed(i, MissingAverage(Capacity)));
      case Ok(cs) =>
        match Apply(plfs)
        case Err(i) =>
          assert r == Err(RowFailed(i, MissingAverage(LoadFactor)));
        case Ok(ps) =>
          assert r.Ok?;
  }

  /** A row's entry in a computed column is missing exactly when the row fails at that
      column's step. */
  lemma ColumnsMissWhereRowsFail(rows: seq<Row>, data: CapacityData)
    ensures var airlines := AirlineColumn(rows);
      forall j :: 0 <= j < |rows| ==>
        && (DestinationColumn(rows)[j].None? <==> FailsAt(rows[j], data, 0))
        && (CapacityColumn(rows, airlines, data)[j].None? <==> FailsAt(rows[j], data, 1))
        && (PlfColumn(rows, airlines, data)[j].None? <==> FailsAt(rows[j], data, 2))
  {
  }

  /** The first row whose destination list is empty is the first failure. */
  lemma DestinationFailureIsFirst(rows: seq<Row>, data: CapacityData, i: nat)
    requires Apply(DestinationColumn(rows)) == Err(i)
    ensures FirstFailure(rows, data, i, EmptyDestination)
  {
    ColumnsMissWhereRowsFail(rows, data);
  }

  /** Once every destination is present, the first row without a capacity is the first
      failure. */
  lemma CapacityFailureIsFirst(rows: seq<Row>, data: CapacityData, i: nat)
    requires Apply(DestinationColumn(rows)).Ok?
    requires Apply(CapacityColumn(rows, AirlineColumn(rows), data)) == Err(i)
    ensures FirstFailure(rows, data, i, MissingAverage(Capacity))
  {
    ColumnsMissWhereRowsFail(rows, data);
    forall j, t | 0 <= j < |rows| && 0 <= t < 1 ensures !FailsAt(rows[j], data, t) {
      assert DestinationColumn(rows)[j].Some?;
    }
  }

  /** Once every destination and capacity is present, the first row without a load factor
      is the first failure. */
  lemma PlfFailureIsFirst(rows: seq<Row>, data: CapacityData, i: nat)
    requires Apply(DestinationColumn(rows)).Ok?
    requires Apply(CapacityColumn(rows, AirlineColumn(rows), data)).Ok?
    requires Apply(PlfColumn(rows, AirlineColumn(rows), data)) == Err(i)
    ensures FirstFailure(rows, data, i, MissingAverage(LoadFactor))
  {
    ColumnsMissWhereRowsFail(rows, data);
    var airlines := AirlineColumn(rows);
    forall j, t | 0 <= j < |rows| && 0 <= t < 2 ensures !FailsAt(rows[j], data, t) {
      if t == 0 {
        assert DestinationColumn(rows)[j].Some?;
      } else {
        assert CapacityColumn(rows, airlines, data)[j].Some?;
      }
    }
  }

  /** The failure the column-wise chain reports is the first one in column order: the
      reported row fails at the reported column, every row passes the columns before it,
      and every row before it passes that column. */
  lemma AssignColumnsFirstFailure(rows: seq<Row>, data: CapacityData)
    requires rows != []
    ensures var r := AssignColumns(rows, data);
      r.Err? ==> r.error.RowFailed? && FirstFailure(rows, data, r.error.row, r.error.cause)
  {
    var airlines := AirlineColumn(rows);
    match Apply(DestinationColumn(rows))
    case Err(i) =>
      DestinationFailureIsFirst(rows, data, i);
    case Ok(_) =>
      match Apply(CapacityColumn(rows, airlines, data))
      case Err(i) =>
        CapacityFailureIsFirst(rows, data, i);
      case Ok(_) =>
        match Apply(PlfColumn(rows, airlines, data))
        case Err(i) =>
          PlfFailureIsFirst(rows, data, i);
        case Ok(_) =>
  }

  /** The transform as written: flatten, then assign the derived columns. An empty flight
      list aborts with `AttributeError`. */
  function TransformAsWritten(flights: seq<RawFlight>, data: CapacityData): (r: Result<seq<Enriched>, TransformError>)
    ensures flights == [] <==> r == Err(MissingColumn("destination"))
    ensures r.Ok? ==> |r.value| == |flights|
    ensures r.Err? && flights != [] ==> r.error.RowFailed? && r.error.row < |flights|
  {
    AssignColumns(NormalizeAll(flights), data)
  }

  /** The transform with an empty flight list giving an empty table; on every non-empty list
      it is the transform as written. One output row per flight, in order, each the
      enrichment of that flight's row; or the failure of a row that cannot be enriched. */
  function Transform(flights: seq<RawFlight>, data: CapacityData): (r: Result<seq<Enriched>, TransformError>)
    ensures r.Ok? <==> forall i :: 0 <= i < |flights| ==> EnrichRow(Normalize(flights[i]), data).Ok?
    ensures r.Ok? ==> |r.value| == |flights|
    ensures r.Ok? ==> forall i :: 0 <= i < |flights| ==> EnrichRow(Normalize(flights[i]), data) == Ok(r.value[i])
    ensures r.Err? ==> r.error.RowFailed? && r.error.row < |flights|
    ensures r.Err? ==> EnrichRow(Normalize(flights[r.error.row]), data) == Err(r.error.cause)
    ensures r.Err? ==> FirstFailure(NormalizeAll(flights), data, r.error.row, r.error.cause)
  {
    if flights == [] then Ok([])
    else
      var rows := NormalizeAll(flights);
      AssignColumnsRowwise(rows, data);
      AssignColumnsFirstFailure(rows, data);
      TransformAsWritten(flights, data)
  }

  /** The empty-day discrepancy: the transform as written aborts on no flights, the
      corrected one returns no rows, and they agree everywhere else. */
  lemma EmptyBatchAborts(data: CapacityData)
    ensures TransformAsWritten([], data) == Err(MissingColumn("destination"))
    ensures Transform([], data) == Ok([])
  {
  }

  lemma TransformAgreesOnNonEmpty(flights: seq<RawFlight>, data: CapacityData)
    requires flights != []
    ensures Transform(flights, data) == TransformAsWritten(flights, data)
  {
  }

  /** Invariants of every output row: the estimate is capacity times load factor, and with
      tables in range the load factor is a fraction and the estimate is non-negative. */
  lemma TransformOutputInRange(flights: seq<RawFlight>, data: CapacityData, out: seq<Enriched>)
    requires TablesInRange(data)
    requires Transform(flights, data) == Ok(out)
    ensures forall i :: 0 <= i < |out| ==> EstimateInRange(out[i])
  {
    forall i | 0 <= i < |out| ensures EstimateInRange(out[i]) {
      assert EnrichRow(Normalize(flights[i]), data) == Ok(out[i]);
      EnrichRowInRange(Normalize(flights[i]), data);
    }
  }

  /** Rows are enriched independently: transforming two batches one after the other gives
      the same rows as transforming them together. */
  lemma TransformConcat(a: seq<RawFlight>, b: seq<RawFlight>, data: CapacityData)
    requires Transform(a, data).Ok? && Transform(b, data).Ok?
    ensures Transform(a + b, data) == Ok(Transform(a, data).value + Transform(b, data).value)
  {
    var ra, rb := Transform(a, data).value, Transform(b, data).value;
    TransformRows(a, data);
    TransformRows(b, data);
    RowsOfConcat(a, b, data, ra, rb);
    TransformFromRows(a + b, data, ra + rb);
  }

  /** `out` is, row by row, the enrichment of `flights`. */
  predicate RowsOf(flights: seq<RawFlight>, data: CapacityData, out: seq<Enriched>) {
    |out| == |flights| && forall i :: 0 <= i < |flights| ==> EnrichRow(Normalize(flights[i]), data) == Ok(out[i])
  }

  lemma RowsOfConcat(a: seq<RawFlight>, b: seq<RawFlight>, data: CapacityData, ra: seq<Enriched>, rb: seq<Enriched>)
    requires RowsOf(a, data, ra) && RowsOf(b, data, rb)
    ensures RowsOf(a + b, data, ra + rb)
  {
    var enriches := (f: RawFlight, e: Enriched) => EnrichRow(Normalize(f), data) == Ok(e);
    PairwiseConcat(enriches, a, b, ra, rb);
  }

  /** A relation that holds pairwise between two pairs of sequences holds pairwise between
      their concatenations. */
  lemma PairwiseConcat<X, Y>(rel: (X, Y) -> bool, a: seq<X>, b: seq<X>, ra: seq<Y>, rb: seq<Y>)
    requires |ra| == |a| && |rb| == |b|
    requires forall i :: 0 <= i < |a| ==> rel(a[i], ra[i])
    requires forall i :: 0 <= i < |b| ==> rel(b[i], rb[i])
    ensures forall i :: 0 <= i < |a + b| ==> rel((a + b)[i], (ra + rb)[i])
  {
    forall i | 0 <= i < |a + b| ensures rel((a + b)[i], (ra + rb)[i]) {
      if i < |a| {
        assert (a + b)[i] == a[i] && (ra + rb)[i] == ra[i];
      } else {
        assert (a + b)[i] == b[i - |a|] && (ra + rb)[i] == rb[i - |a|];
      }
    }
  }

  /** A successful transform gives the enrichment of its flights, row by row. */
  lemma TransformRows(flights: seq<RawFlight>, data: CapacityData)
    requires Transform(flights, data).Ok?
    ensures RowsOf(flights, data, Transform(flights, data).value)
  {
  }

  /** Rows that are each the enrichment of their flight are the transform's output. */
  lemma TransformFromRows(flights: seq<RawFlight>, data: CapacityData, out: seq<Enriched>)
    requires RowsOf(flights, data, out)
    ensures Transform(flights, data) == Ok(out)
  {
    var r := Transform(flights, data);
    assert r.Ok? by {
      forall i | 0 <= i < |flights| ensures EnrichRow(Normalize(flights[i]), data).Ok? {
      }
    }
    assert |r.value| == |out|;
    forall i | 0 <= i < |out| ensures r.value[i] == out[i] {
      assert EnrichRow(Normalize(flights[i]), data) == Ok(r.value[i]);
    }
    assert r.value == out;
  }

  /** The output depends only on the retained fields of the flights. */
  lemma TransformIgnoresDroppedFields(a: seq<RawFlight>, b: seq<RawFlight>, data: CapacityData)
    requires |a| == |b|
    requires forall i :: 0 <= i < |a| ==> SameRetainedFields(a[i], b[i])
    ensures Transform(a, data) == Transform(b, data)
  {
    assert NormalizeAll(a) == NormalizeAll(b);
  }

  /** The worked end-to-end example: one scheduled KL flight on a 737-type aircraft. */
  lemma EndToEndExample()
    ensures
      var schedule := Schedule(None, None, None, None, None, None, None, None, None);
      var flight := RawFlight("KL1234", "KL1234", Some("KL"), AircraftType(Some("73"), Some("H"), map[]),
                              Some("J"), Route(["JFK"], map[]), schedule, map[]);
      var data := CapacityData(map["KL73H" := 180.0], map["73H" := 150.0, "AVG" := 120.0],
                               map["KL" := 75.0, "AVG" := 70.0]);
      Transform([flight], data) ==
        Ok([Enriched("KL1234", Some("KL"), Some("73"), Some("H"), Some("J"), "JFK", schedule,
                     "KL", 180.0, 0.75, 135.0)])
  {
    var schedule := Schedule(None, None, None, None, None, None, None, None, None);
    var flight := RawFlight("KL1234", "KL1234", Some("KL"), AircraftType(Some("73"), Some("H"), map[]),
                            Some("J"), Route(["JFK"], map[]), schedule, map[]);
    var data := CapacityData(map["KL73H" := 180.0], map["73H" := 150.0, "AVG" := 120.0],
                             map["KL" := 75.0, "AVG" := 70.0]);
    var row := Normalize(flight);
    AirlineKeyExtendsAircraftKey("KL", Some("73"), Some("H"));
    AircraftKeyOfPresentParts("73", "H");
    assert "KL" + ("73" + "H") == "KL73H";
    assert GetAirline(row.prefixIATA, row.mainFlight) == "KL";
    assert CalcCapacity("KL", Some("73"), Some("H"), data) == Some(180.0);
    assert CalcPlf(Some("J"), "KL", data.plf) == Some(0.75);
    var expected := Enriched("KL1234", Some("KL"), Some("73"), Some("H"), Some("J"), "JFK", schedule,
                             "KL", 180.0, 0.75, 135.0);
    assert EnrichRow(row, data) == Ok(expected);
    assert [flight][0] == flight;
    assert Transform([flight], data).value == [expected];
  }
}
