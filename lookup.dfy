/** The reference tables and the lookups against them: `combine_iata`, `calc_capacity` and
    `calc_passenger_load_factor` in etl/transform.py. */
module Lookup {
  import opened Wrappers

  /** The fallback key every table is expected to hold. */
  const Average := "AVG"

  /** The three reference tables: seats per airline+aircraft key, seats per aircraft key,
      and load factor in percent per airline. */
  datatype CapacityData = CapacityData(
    airlineCap: map<string, real>,
    aircraftCap: map<string, real>,
    plf: map<string, real>)

  /** A table of seat counts: no negative entry. */
  predicate NonNegative(m: map<string, real>) {
    forall k :: k in m ==> 0.0 <= m[k]
  }

  /** A table of load factors in percent. */
  predicate Percentages(m: map<string, real>) {
    forall k :: k in m ==> 0.0 <= m[k] <= 100.0
  }

  // ---------------------------------------------------------------------------
  // Key construction

  /** `filter(None, parts)`: the components that are present and non-empty, in order. */
  function Present(parts: seq<Option<string>>): (r: seq<string>)
    ensures |r| <= |parts|
    ensures forall k :: 0 <= k < |r| ==> r[k] != ""
  {
    if parts == [] then []
    else (if parts[0].Some? && parts[0].value != "" then [parts[0].value] else []) + Present(parts[1..])
  }

  /** `"".join(ss)`. */
  function Join(ss: seq<string>): string {
    if ss == [] then "" else ss[0] + Join(ss[1..])
  }

  /** A lookup key made of the non-null components. */
  function CombineIata(parts: seq<Option<string>>): string {
    Join(Present(parts))
  }

  /** The text a component contributes when read naively: a null part is empty. */
  function Text(p: Option<string>): string {
    if p.Some? then p.value else ""
  }

  /** Reference reading of a key: the plain concatenation of all components, nulls as "". */
  function Concat(parts: seq<Option<string>>): string {
    if parts == [] then "" else Text(parts[0]) + Concat(parts[1..])
  }

  /** Dropping nulls and empty strings is the same as concatenating everything with nulls
      read as empty: a null part contributes nothing. */
  lemma {:induction false} CombineIataIsConcat(parts: seq<Option<string>>)
    ensures CombineIata(parts) == Concat(parts)
  {
    if parts != [] {
      CombineIataIsConcat(parts[1..]);
      if parts[0].Some? && parts[0].value != "" {
        assert Present(parts) == [parts[0].value] + Present(parts[1..]);
        assert Present(parts)[1..] == Present(parts[1..]);
      } else {
        assert Present(parts) == Present(parts[1..]);
      }
    }
  }

  /** Concatenation of the reference reading distributes over splitting the parts. */
  lemma {:induction false} ConcatAppend(a: seq<Option<string>>, b: seq<Option<string>>)
    ensures Concat(a + b) == Concat(a) + Concat(b)
  {
    if a == [] {
      assert a + b == b;
    } else {
      assert (a + b)[1..] == a[1..] + b;
      ConcatAppend(a[1..], b);
    }
  }

  /** A key built from two lists of parts is the key of the first followed by the key of
      the second; in particular a null anywhere in the list contributes nothing. */
  lemma CombineIataAppend(a: seq<Option<string>>, b: seq<Option<string>>)
    ensures CombineIata(a + b) == CombineIata(a) + CombineIata(b)
    ensures CombineIata(a + [None] + b) == CombineIata(a + b)
  {
    CombineIataIsConcat(a + b);
    CombineIataIsConcat(a);
    CombineIataIsConcat(b);
    ConcatAppend(a, b);
    CombineIataIsConcat(a + [None] + b);
    ConcatAppend(a + [None], b);
    ConcatAppend(a, [None]);
    assert Concat([None]) == "";
  }

  /** A key is the text of its first component followed by the key of the rest. */
  lemma CombineIataCons(p: Option<string>, rest: seq<Option<string>>)
    ensures CombineIata([p] + rest) == Text(p) + CombineIata(rest)
  {
    CombineIataIsConcat([p] + rest);
    CombineIataIsConcat(rest);
    assert ([p] + rest)[1..] == rest;
  }

  /** The airline+aircraft key is the airline code followed by the aircraft key. */
  lemma AirlineKeyExtendsAircraftKey(airline: string, iataMain: Option<string>, iataSub: Option<string>)
    ensures CombineIata([Some(airline), iataMain, iataSub]) == airline + CombineIata([iataMain, iataSub])
  {
    var aircraft := [iataMain, iataSub];
    CombineIataCons(Some(airline), aircraft);
    assert [Some(airline)] + aircraft == [Some(airline), iataMain, iataSub];
  }

  /** With both parts present the aircraft key is main type followed by sub type, so the
      airline+aircraft key is `prefix + mainsub`, the shape in which the table keys are built. */
  lemma AircraftKeyOfPresentParts(iataMain: string, iataSub: string)
    ensures CombineIata([Some(iataMain), Some(iataSub)]) == iataMain + iataSub
  {
    var sub: seq<Option<string>> := [Some(iataSub)];
    CombineIataCons(Some(iataMain), sub);
    assert [Some(iataMain)] + sub == [Some(iataMain), Some(iataSub)];
    CombineIataCons(Some(iataSub), []);
    assert [Some(iataSub)] + [] == sub;
    assert CombineIata([]) == "";
  }

  // ---------------------------------------------------------------------------
  // Ordered fallback lookups

  /** One lookup attempt: a key looked for in a table. */
  datatype Probe = Probe(table: map<string, real>, key: string)

  predicate Hits(p: Probe) {
    p.key in p.table
  }

  function Found(p: Probe): real
    requires Hits(p)
  {
    p.table[p.key]
  }

  /** Probe `i` hits and no earlier probe does. */
  predicate FirstHitAt(probes: seq<Probe>, i: int) {
    0 <= i < |probes| && Hits(probes[i]) && forall j :: 0 <= j < i ==> !Hits(probes[j])
  }

  /** The value of the first probe whose key is in its table; None when no probe hits. */
  function FirstHit(probes: seq<Probe>): (r: Option<real>)
    ensures r.None? <==> forall i :: 0 <= i < |probes| ==> !Hits(probes[i])
    ensures r.Some? ==> exists i :: FirstHitAt(probes, i) && r.value == Found(probes[i])
  {
    if probes == [] then None
    else if Hits(probes[0]) then
      assert FirstHitAt(probes, 0);
      Some(Found(probes[0]))
    else
      var r := FirstHit(probes[1..]);
      assert r.Some? ==> exists i :: FirstHitAt(probes[1..], i) && r.value == Found(probes[1..][i]);
      assert forall i :: FirstHitAt(probes[1..], i) ==> FirstHitAt(probes, i + 1);
      r
  }

  /** Whichever probe hits first decides the value, whatever the later probes hold. */
  lemma FirstHitAtValue(probes: seq<Probe>, i: int)
    requires FirstHitAt(probes, i)
    ensures FirstHit(probes) == Some(Found(probes[i]))
  {
  }

  // ---------------------------------------------------------------------------
  // Capacity

  /** The three tiers of the capacity cascade, most specific first. */
  function CapacityProbes(airline: string, iataMain: Option<string>, iataSub: Option<string>, data: CapacityData): seq<Probe> {
    [Probe(data.airlineCap, CombineIata([Some(airline), iataMain, iataSub])),
     Probe(data.aircraftCap, CombineIata([iataMain, iataSub])),
     Probe(data.aircraftCap, Average)]
  }

  /** Seats of a flight; None where the lookup raises (`KeyError` on the missing average). */
  function CalcCapacity(airline: string, iataMain: Option<string>, iataSub: Option<string>, data: CapacityData): (r: Option<real>)
    ensures var airlineKey, aircraftKey := CombineIata([Some(airline), iataMain, iataSub]), CombineIata([iataMain, iataSub]);
      && (airlineKey in data.airlineCap ==> r == Some(data.airlineCap[airlineKey]))
      && (airlineKey !in data.airlineCap && aircraftKey in data.aircraftCap ==> r == Some(data.aircraftCap[aircraftKey]))
      && (airlineKey !in data.airlineCap && aircraftKey !in data.aircraftCap ==>
            r == if Average in data.aircraftCap then Some(data.aircraftCap[Average]) else None)
    ensures r.Some? && NonNegative(data.airlineCap) && NonNegative(data.aircraftCap) ==> 0.0 <= r.value
  {
    var probes := CapacityProbes(airline, iataMain, iataSub, data);
    if Hits(probes[0]) then FirstHitAtValue(probes, 0); FirstHit(probes)
    else if Hits(probes[1]) then FirstHitAtValue(probes, 1); FirstHit(probes)
    else if Hits(probes[2]) then FirstHitAtValue(probes, 2); FirstHit(probes)
    else FirstHit(probes)
  }

  /** Whatever tier decides, the capacity is a value stored in one of the two seat tables. */
  lemma CapacityIsStored(airline: string, iataMain: Option<string>, iataSub: Option<string>, data: CapacityData)
    requires CalcCapacity(airline, iataMain, iataSub, data).Some?
    ensures var c := CalcCapacity(airline, iataMain, iataSub, data).value;
      c in data.airlineCap.Values || c in data.aircraftCap.Values
  {
  }

  // ---------------------------------------------------------------------------
  // Passenger load factor

  /** Load factor of a flight as a fraction; None where the lookup raises. */
  function CalcPlf(serviceType: Option<string>, airline: string, plf: map<string, real>): (r: Option<real>)
    ensures serviceType == Some("J") ==>
      r == if airline in plf then Some(plf[airline] / 100.0)
           else if Average in plf then Some(plf[Average] / 100.0)
           else None
    ensures serviceType == Some("C") ==> r == Some(1.0)
    ensures serviceType != Some("J") && serviceType != Some("C") ==> r == Some(0.0)
    ensures r.Some? && Percentages(plf) ==> 0.0 <= r.value <= 1.0
  {
    if serviceType == Some("J") then
      var probes := [Probe(plf, airline), Probe(plf, Average)];
      match FirstHit(probes)
      case Some(v) => Some(v / 100.0)
      case None => assert !Hits(probes[0]) && !Hits(probes[1]); None
    else if serviceType == Some("C") then Some(1.0)
    else Some(0.0)
  }

  /** Charter and other flights never consult the table or the airline. */
  lemma NonScheduledIgnoresTable(serviceType: Option<string>, a: string, b: string, t: map<string, real>, u: map<string, real>)
    requires serviceType != Some("J")
    ensures CalcPlf(serviceType, a, t) == CalcPlf(serviceType, b, u)
    ensures CalcPlf(serviceType, a, t).Some?
  {
  }
}
