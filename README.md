# Flight enrichment transform, modelled in Dafny

This project models the transform stage of a daily flights ETL pipeline (`etl/transform.py`).
The stage takes one day of flight records from the airport's flight API and three reference
tables:

- seats per airline+aircraft key (`airline_cap`);
- seats per aircraft key (`aircraft_cap`);
- passenger load factor in percent per airline (`plf`).

For every flight it produces one flat output row with four derived columns: `airline`,
`capacity`, `plf` and `estimatedPassengers`.

The model is pure, like the source:

- `wrappers.dfy` holds `Option` and `Result`.
- `flights.dfy` holds the records: the raw nested flight, the flattened `Row` and the
  `Enriched` output row. It also holds the flattening and column selection (`Normalize`).
- `airline.dfy` holds `get_airline`: the letter count, the letters, and the three-way rule.
- `lookup.dfy` holds `combine_iata` and an ordered list of probes, tried in sequence.
  `calc_capacity` (three tiers) and `calc_passenger_load_factor` are both built on it.
- `enrichment.dfy` holds two readings of the transform. `EnrichRow` enriches one row and
  serves as the reference. `AssignColumns` mirrors the pandas `.assign` chain, which computes
  each column for all rows before the next column. A lemma proves the two agree. `Transform` is
  the whole stage.

Python exceptions become error values rather than preconditions:

- `IndexError` on an empty destination list;
- `KeyError` when a lookup falls through to a missing `"AVG"` entry;
- `AttributeError` on an empty flight list.

The code raises `KeyError` only when some row actually reaches the `"AVG"` tier
(etl/transform.py:37 for capacity, etl/transform.py:48 for the load factor). A table
without `"AVG"` is therefore fine as long as every lookup hits a specific key, and the
model returns an error only in that case. Likewise, the load factor is a fraction only when the table holds percentages in
[0, 100]. The model proves that bound under that assumption (`TablesInRange`) rather than
for all inputs.

Pandas computes `.assign` column by column: first the destination of every row, then the
airline, the capacity and the load factor. The error the run reports is therefore the error of
the first failing row in the first failing column. `AssignColumns` keeps that order.

## Model

| member | source | states |
|---|---|---|
| `Flights.Normalize` | etl/transform.py:57-64 | the nested aircraft codes arrive renamed as `iataMain`/`iataSub`, the route's destination list as `destination`; `mainFlight`, `prefixIATA`, `serviceType` and the pass-through schedule columns arrive unchanged; `Flights.NormalizeKeepsOnlyRetained` adds that nothing outside the retained columns reaches the row |
| `Flights.NormalizeAll` | etl/transform.py:54-64 | every flight record gives exactly one flattened row, and row i is the flattening of record i, so no record is dropped, duplicated or reordered |
| `Flights.NormalizeKeepsOnlyRetained` | etl/transform.py:57-64 | the aircraft fields arrive renamed as `iataMain`/`iataSub` and the destination list arrives unchanged; fields outside the retained subset have no influence on the row |
| `Airline.AlphaCount` | etl/transform.py:13 | the count of alphabetic characters never exceeds the length of the flight number |
| `Airline.Letters` | etl/transform.py:17 | the joined alphabetic characters are as many as the count on line 13, and each one is a letter |
| `Airline.GetAirline` | etl/transform.py:9-19 | a present prefix code is returned unchanged, whatever the flight number; without one the code has length min(2, length of `mainFlight`), so it is non-empty for a non-empty flight number |
| `Airline.TwoLetters` | etl/transform.py:13-17 | with exactly two letters in a string, there are positions i < j holding them, the joined letters are exactly those two in order, and no other position holds a letter |
| `Airline.AirlineFromLetters` | etl/transform.py:16-17 | without a prefix code and with exactly two letters in the flight number, the code is those two letters in their original order, and every other character is a non-letter |
| `Airline.AirlineFromLeadingChars` | etl/transform.py:18-19 | without a prefix code and with other than two letters, the code is a prefix of the flight number of length min(2, length of `mainFlight`) |
| `Airline.AirlineExamples` | etl/transform.py:9-19 | prefix `KL` gives `KL`; `KL1234` without prefix gives `KL`; `5Y123` gives `5Y`; `K` gives `K` |
| `Lookup.Present` | etl/transform.py:29 | the filtered components are no more than the inputs, and none of them is empty |
| `Lookup.CombineIata` | etl/transform.py:25-29 | computes the key by dropping null and empty components and joining the rest; its meaning is stated by `Lookup.CombineIataIsConcat` and `Lookup.CombineIataAppend` below |
| `Lookup.CombineIataIsConcat` | etl/transform.py:25-29 | joining the filtered components equals concatenating all components with a null read as empty |
| `Lookup.CombineIataAppend` | etl/transform.py:25-29 | the key of concatenated part lists is the concatenation of their keys, and a null part anywhere contributes nothing |
| `Lookup.AirlineKeyExtendsAircraftKey` | etl/transform.py:32-34 | the airline+aircraft key is the airline code followed by the aircraft key |
| `Lookup.AircraftKeyOfPresentParts` | etl/extract.py:74-75 | with both aircraft parts present the aircraft key is main type followed by sub type, so the airline+aircraft key has the `prefix + mainsub` shape of the table keys |
| `Lookup.FirstHit` | etl/transform.py:32-37 | the ordered fallback lookup fails exactly when no probe's key is in its table; otherwise its value is the stored value of the first probe that hits |
| `Lookup.FirstHitAtValue` | etl/transform.py:32-37 | whichever probe hits first decides the value, whatever later probes hold |
| `Lookup.CalcCapacity` | etl/transform.py:21-37 | a present airline+aircraft key wins even if the aircraft key also exists; else the aircraft key; else `aircraft_cap["AVG"]`, and a missing `"AVG"` raises; with non-negative seat tables the result is non-negative |
| `Lookup.CapacityIsStored` | etl/transform.py:32-37 | whichever tier decides, the capacity returned is a value stored in one of the two seat tables |
| `Lookup.CalcPlf` | etl/transform.py:39-52 | `"J"` gives `plf[airline]/100`, else `plf["AVG"]/100`, and raises when both are missing; `"C"` gives 1.0; anything else, including null, gives 0.0; with percentages in [0,100] a result lies in [0,1] |
| `Lookup.NonScheduledIgnoresTable` | etl/transform.py:49-52 | for any service type other than `"J"` the result never depends on the table or the airline, and never raises |
| `Enrichment.EnrichRow` | etl/transform.py:65-70 | an empty destination list fails first; a successful output keeps the retained columns, takes the first destination and the resolved airline, and has estimate = capacity × load factor |
| `Enrichment.EnrichRowByColumns` | etl/transform.py:65-70 | a row enriches exactly when its destination list is non-empty and both lookups succeed; otherwise it fails at the first failing step, in the order destination, capacity, load factor |
| `Enrichment.EnrichRowInRange` | etl/transform.py:70 | with non-negative seat tables and percentages in [0,100], an enriched row has a load factor in [0,1] and non-negative capacity and estimate |
| `Enrichment.Apply` | etl/transform.py:66-69 | applying a possibly-raising function to a column succeeds exactly when every row succeeds and then keeps every value in order; otherwise it reports the first row that raised |
| `Enrichment.AssignColumns` | etl/transform.py:65-71 | a frame without rows has no destination column and fails on it; a success has one row per input row; any other failure names an existing row. `Enrichment.AssignColumnsRowwise` and `Enrichment.AssignColumnsFirstFailure` relate it to row-wise enrichment |
| `Enrichment.AssignColumnsRowwise` | etl/transform.py:54-72 | the column-by-column chain succeeds exactly when every row enriches on its own; it then returns one row per input row in order, each equal to that row's enrichment; otherwise it reports a row whose own enrichment fails with the reported cause |
| `Enrichment.AssignColumnsFirstFailure` | etl/transform.py:65-69 | the reported failure is the first in column order: the reported row fails at the reported column (destination, then capacity, then load factor), no row fails at an earlier column, and no earlier row fails at the reported column |
| `Enrichment.Transform` | etl/transform.py:54-72 | one output row per flight, in input order, no filtering, each the enrichment of that flight's row; success exactly when every row enriches; a failure names a row that fails with that cause, and it is the first failure in column order as `Enrichment.AssignColumnsFirstFailure` states; an empty flight list gives an empty table |
| `Enrichment.TransformAsWritten` | etl/transform.py:54-72 | the transform as written fails on the missing destination column exactly when the flight list is empty; a success has one row per flight, and a row failure names an existing flight. `Enrichment.EmptyBatchAborts` and `Enrichment.TransformAgreesOnNonEmpty` relate it to the corrected transform |
| `Enrichment.EmptyBatchAborts` | etl/transform.py:54-66 | as written, an empty flight list aborts on the missing destination column; the corrected transform returns no rows |
| `Enrichment.TransformAgreesOnNonEmpty` | etl/transform.py:54-72 | on every non-empty flight list the corrected transform is the transform as written |
| `Enrichment.TransformOutputInRange` | etl/transform.py:70 | with tables in range, every output row of the transform satisfies that invariant |
| `Enrichment.TransformConcat` | etl/transform.py:54-72 | rows are enriched independently: when both batches enrich, transforming them separately and concatenating equals transforming them together |
| `Enrichment.TransformIgnoresDroppedFields` | etl/transform.py:61-64 | the output depends only on the retained fields of the flights |
| `Enrichment.EndToEndExample` | etl/transform.py:5-73 | a KL flight with aircraft `73`/`H`, service `J` and destination `JFK`, run against the tables `KL73H`→180, `73H`→150, `AVG`→120 and plf `KL`→75, gives airline `KL`, capacity 180, load factor 0.75, 135 passengers and destination `JFK` |

## Findings

| source | as written | input that shows it | evidently intended | confidence | as-written member | corrected member |
|---|---|---|---|---|---|---|
| etl/transform.py:54-66 | `json_normalize` of an empty list gives a frame with no columns, so `x.destination` in the first `.assign` raises `AttributeError` | `flight_data = []` (a day without flights) | an empty output table | medium (relies on pandas returning an empty frame for an empty list); not executed | `Enrichment.TransformAsWritten`, shown by `Enrichment.EmptyBatchAborts` | `Enrichment.Transform` |

## Left out

- Extraction (`etl/extract.py`) is not modelled. It covers HTTP paging, the `Link` header, sleeps, credentials and reading the CSV tables. This is I/O and a foreign library. The three tables arrive as parameters.
- The codeshare filter `mainFlight == flightName` runs during extraction. The transform does not rely on it, and the model accepts any flight list.
- The S3 upload (`etl/load.py`) and the Airflow DAG (`dag.py`, `test.py`) are left out. They are I/O and orchestration with no logic.
- pandas flattening of arbitrary JSON is not modelled. A flight is a fixed record, and the fields the column filter drops are kept in `others` maps.
- pandas turns a field missing from only some records into NaN, which is not `None`. The model reads every missing optional field as null. A record without any destinations field (NaN, then `TypeError`) is not modelled: destinations are always a list. When a column is missing from every record, `.filter` drops it and reading `row["prefixIATA"]` or `row["serviceType"]` raises `KeyError`; the model reads such a field as null and does not model that failure.
- A `capacity_data` that lacks one of its three top-level tables (`KeyError`) is not modelled. `CapacityData` always has all three.
- A null `mainFlight` (`TypeError` while counting letters) is not modelled. The flight number is always a string.
- Floating-point rounding of `/ 100` and `*` is not modelled. Seats and factors are `real`.
- `str.isalpha` is modelled on ASCII letters only. Python also accepts other Unicode letters.
- The pass-through columns (flight number, direction, terminal, pier, gate, timestamps) are kept as optional text whatever their JSON type. Output column order is not modelled.
- Exception messages are not modelled. A failure carries its kind, the column and the row index.
