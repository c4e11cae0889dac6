# Fuel station search, modelled in Dafny

This project models the core of a small Chilean fuel-price service. The service
takes the station list from the public "Bencina en Línea" API, keeps the
stations that sell the requested product at a readable price, and returns one
station. The flags pick the rule: the nearest station, the cheapest, the
cheapest of the 15 nearest, or the nearest when no flag is set.

The model covers three parts of the service:

- `Mappings` (`utils/mappings.py`). These are pure functions over the static
  tables: product name to product id (case-insensitive), company id to
  company name, the brands that run a convenience store, and the store record
  derived from a brand.
- `SearchUtils` (`utils/search_utils.py`). These are the pipeline's steps
  written as separate functions:
  - normalising one upstream station;
  - the store filter;
  - the four-way selection, which sorts the caller's list in place (here, an
    `array` sorted in place);
  - the error record;
  - the coordinate bounding box.
- `FuelService` (`services/fuel_service.py`, `search_stations` only). This is
  the same pipeline written as one loop, with these differences:
  - its store rule is "at least two services", not brand membership;
  - `compania` is the raw `marca` id (else `Compania`, else "N/A"), not the
    company name;
  - `tienda` is copied from the upstream `tienda` through nested `.get`
    fallbacks, not built from the brand;
  - the overflow of an infinite price becomes an error record, not an
    exception;
  - an empty result becomes an error record.

Some shared pieces live in their own modules:

- `Stations` holds the records and the price scan with its early `break`.
  Both pipelines use the scan.
- `Sorting` is the in-place sort (an insertion sort, which is stable like
  Python's).
- `Selection` states the four selection rules on the candidate list.

The rules in `Selection` do not depend on how the sort breaks ties. "Cheapest
of the 15 nearest" holds when some ordering of the candidates by distance,
with ties broken in any way, has the station among its first 15 and no dearer
than the others of those 15. `Selection.CheapestOfNearestCounts` derives a
rule that needs no ordering. Fewer than 15 candidates are strictly closer than
the chosen station. The chosen station is also no dearer than every candidate
that each distance-sorted order places among the first 15.

`search_stations` repeats the selection code of `apply_search_logic`, and the
two behave the same: sort by distance, take the first 15, sort those by price,
return the head. The only difference is that an empty list becomes the error
"No se encontraron estaciones". So `FuelService.ChooseStation`, the last step
of `FuelService.SearchStations`, calls `SearchUtils.ApplySearchLogic` rather
than restating it.

Inputs the model does not compute are given as parameters:

- The upstream HTTP result is the `Upstream` value.
- The distance (`calculate_distance` followed by `round(·, 2)`) is a function
  parameter of type `Distance`.
- Python floats are `real`s.
- What `float(...)` makes of a coordinate or a price is part of the raw
  record (`RawCoord`, `RawPrice`).

In Python, `int(float("inf"))` raises OverflowError, which the inner
`except (ValueError, TypeError)` does not catch. The model keeps this:
- `process_station_data` returns `Raised`.
- `search_stations`' outer `except` turns the exception into the error record
  `{"error": "cannot convert float infinity to integer"}`.

## Model

| member | source | states |
|---|---|---|
| `Mappings.CompanyIdsInRange` | utils/mappings.py:16-125 | `CompanyMapping`, the 108 entries of COMPANY_MAPPING: every known id lies between 2 and 173, and every id outside that range is unknown. |
| `Mappings.LowerChar` | utils/mappings.py:140 | lower-casing one character: an upper-case ASCII letter becomes the lower-case letter at the same place in the alphabet, and KELVIN SIGN becomes "k". Lower-case letters and characters without a case mapping are unchanged. The result is never an upper-case ASCII letter or KELVIN SIGN. |
| `Mappings.ToLower` | utils/mappings.py:140 | `s.lower()` keeps the length and lower-cases each character. |
| `Mappings.ToLowerIdempotent` | utils/mappings.py:140 | lower-casing twice is the same as lower-casing once. |
| `Mappings.Lookup` | utils/mappings.py:130-140 | `dict.get` on the product table: `None` exactly when no entry has the key. Otherwise the value comes from an entry with that key. |
| `Mappings.GetValidProducts` | utils/mappings.py:224-231 | exactly the product table's keys, in table order. |
| `Mappings.GetProductId` | utils/mappings.py:130-140 | an id exists exactly when the lower-cased name (`""` for `None`) is a listed product. That id is the name's table entry. |
| `Mappings.ValidateProduct` | utils/mappings.py:212-222 | true exactly when `GetProductId` gives an id. `None` and `""` give false. |
| `Mappings.LowerOfLower` | utils/mappings.py:140 | lower-casing leaves a name with no upper-case character unchanged. |
| `Mappings.LookupDistinct` | utils/mappings.py:130-140 | with distinct keys, `dict.get` of an entry's key gives that entry's value. |
| `Mappings.ProductTableWellFormed` | utils/mappings.py:7-13 | the product table's keys are distinct and already lower-case. |
| `Mappings.ListedProductId` | utils/mappings.py:7-13 | every product name in the table gets its own id back. |
| `Mappings.ProductIds` | utils/mappings.py:7-13 | "93"→1, "95"→7, "97"→2, "diesel"→3, "kerosene"→4. |
| `Mappings.ProductIdIgnoresCase` | utils/mappings.py:130-140 | a name and its lower-cased form have the same id. |
| `Mappings.ProductIdsInCapitals` | utils/mappings.py:130-140 | "DIESEL"→3 and "KeroSene"→4. |
| `Mappings.ProductIdsOtherNames` | utils/mappings.py:130-140 | "invalido", `""` and `None` have no id. |
| `Mappings.ValidProductsAreTheValidNames` | utils/mappings.py:212-231 | every listed product is valid. A name is valid exactly when its lower-cased form is listed. |
| `Mappings.NatToDecimal` | utils/mappings.py:152 | a canonical numeral: decimal digits, with a leading "0" only for the numeral "0" itself, which is exactly the text for 0. |
| `Mappings.DecimalRoundTrip` | utils/mappings.py:152 | reading back the decimal digits of `n` gives `n`. |
| `Mappings.LeadingDigitPositive` | utils/mappings.py:152 | a numeral whose first digit is not 0 denotes a positive number. |
| `Mappings.CanonicalDecimalRoundTrip` | utils/mappings.py:152 | every canonical numeral is the one written for its value, so a value has exactly one canonical numeral. |
| `Mappings.IntToDecimal` | utils/mappings.py:152 | `str(n)`: a canonical numeral for the magnitude, preceded by a minus sign exactly when `n` is negative, and never "-0". The digits read back as the magnitude. |
| `Mappings.IntTextRoundTrip` | utils/mappings.py:152 | text of the `str` form reads back as a number, and writing that number again gives the same text. So `str` text is fixed by its value. |
| `Mappings.GetCompanyName` | utils/mappings.py:142-152 | the table's name for a known id. For an unknown id, "Compañía " followed by text of the `str` form that reads back as the id. By `IntTextRoundTrip` that text is `str(id)`. |
| `Mappings.CompanyNameExamples` | tests/test_services.py:33-35 | 5→"COPEC", 4→"SHELL", 3→"TERPEL". |
| `Mappings.FallbackNameExamples` | tests/test_services.py:36 | 999→"Compañía 999". The id 0, which a station without `marca` gets (utils/search_utils.py:62), gives "Compañía 0". |
| `Mappings.HasConvenienceStore` | utils/mappings.py:154-164 | every store brand is a company in the table. |
| `Mappings.StoreBrandsByName` | utils/mappings.py:127-128 | the store brands are exactly the companies named COPEC, SHELL, TERPEL, ENEX, PETROBRAS and ARAMCO. |
| `Mappings.Contains` | utils/mappings.py:183-198 | Python's `sub in s`: a contained string is no longer than `s`. The empty string and `s` itself are contained. |
| `Mappings.MissingCharNotContained` | utils/mappings.py:183-198 | `sub in s` is false when `sub` has a character that `s` lacks. |
| `Mappings.GetStoreInfo` | utils/mappings.py:166-210 | `None` exactly when the brand has no store. Otherwise `codigo` is the station id. `nombre` is the type, a space and the comuna, except in the fallback, where it is "Tienda " and the comuna. |
| `Mappings.StoreTypePriority` | utils/mappings.py:183-204 | the first matching test in the order COPEC, SHELL, TERPEL, ENEX, PETROBRAS, ARAMCO (by id or name) decides the type. If none matches, the type is "Tienda Local". |
| `Mappings.StoreTypeOfLeadingBrands` | utils/mappings.py:183-191 | with the table's names, brand 5 gets "Pronto", 4 gets "Select" and 3 gets "Tienda Terpel". |
| `Mappings.StoreTypeOfEnex` | utils/mappings.py:192-194 | brand 88 gets "Tienda ENEX". |
| `Mappings.StoreTypeOfPetrobras` | utils/mappings.py:195-197 | brand 2 gets "Tienda Petrobras". |
| `Mappings.StoreTypeOfAramco` | utils/mappings.py:198-200 | brand 151 gets "Select", matched by its name. |
| `Mappings.NoLocalStoreForKnownBrands` | utils/mappings.py:201-204 | with the table's names, no store brand gets the "Tienda Local" fallback. |
| `Stations.Trunc` | services/fuel_service.py:74 | `int(x)` truncates toward zero: the result lies within 1 of `x`, on the zero side. |
| `Stations.FirstPrice` | services/fuel_service.py:65-80 | no price exactly when no entry for the product has a numeric or infinite price. Otherwise the first such entry decides: its truncated price, or an overflow. |
| `Stations.PickPrice` | services/fuel_service.py:69-77 | the loop with `break` computes `FirstPrice`. |
| `Sorting.SortBy` | utils/search_utils.py:129-147 | `list.sort(key=...)` in place: the list ends up sorted by the key, with the same stations. |
| `Sorting.Insert` | utils/search_utils.py:129-147 | one step of that sort: the element after a sorted prefix moves into it, the longer prefix is sorted, everything after it is left as it was, and the stations stay the same. |
| `Sorting.SwapDown` | utils/search_utils.py:129-147 | one move of `Insert`: the out-of-order element exchanges places with its left neighbour and nothing else changes. The prefix is then sorted except at the new place. |
| `Sorting.SortedExceptStart` | utils/search_utils.py:129-147 | a sorted prefix followed by one more element is sorted except at that element. |
| `Sorting.SwapStep` | utils/search_utils.py:129-147 | exchanging the out-of-order element with a larger left neighbour moves the exception one place left, and keeps the stations. |
| `Sorting.SortedExceptDone` | utils/search_utils.py:129-147 | once the out-of-order element is no smaller than its left neighbour, the whole prefix is sorted. |
| `Sorting.Swap` | utils/search_utils.py:129-147 | exchanging two positions: the array is the old one with those two entries exchanged. |
| `Selection.CountPermutation` | utils/search_utils.py:131-132 | counting the stations within a distance does not depend on their order. |
| `Selection.SortedPositionCounts` | utils/search_utils.py:131-132 | in a distance-sorted list, at most `i` stations are strictly closer than the one at index `i`, and at least `i+1` are at its distance or closer. |
| `Selection.SortedHeadIsLeast` | utils/search_utils.py:136-147 | the head of a sorted rearrangement is a candidate, and its key is the least among the candidates. |
| `Selection.CheapestOfNearestCounts` | utils/search_utils.py:129-135 | a "cheapest of the 15 nearest" choice also meets the counting rule. Fewer than 15 candidates are strictly closer, and it is no dearer than any candidate that every distance order places among the first 15. |
| `SearchUtils.ProcessStationData` | utils/search_utils.py:11-91 | raises exactly on an overflowing first price. Keeps the station exactly when the coordinates are truthy and parse and a price converts. The kept station has the first converted price, the table's company name, and a store (and a `tienda`) exactly when its brand is a store brand. |
| `SearchUtils.FilterStationsByStore` | utils/search_utils.py:94-108 | without the flag, the list itself. With it, exactly the stations that have a store, with their multiplicities, in their original order. |
| `SearchUtils.FilterIdempotent` | utils/search_utils.py:105-108 | filtering twice is the same as filtering once. |
| `SearchUtils.SortAndTakeHead` | utils/search_utils.py:136-147 | sorting a non-empty list by one key and taking its head: the list stays a sorted permutation of itself, and the head has the least key among the original stations. |
| `SearchUtils.CheapestOfNearest` | utils/search_utils.py:129-135 | sorting by distance, copying the first 15 and sorting the copy by price. The list is left distance-sorted with the same stations. The copy's head lies in its first 15 and is no dearer than any of them. So some distance ordering of the original stations has it as the cheapest of its first 15. |
| `SearchUtils.ApplySearchLogic` | utils/search_utils.py:111-149 | `None` exactly for an empty list. Otherwise the list is left as a permutation of itself, sorted by price (`cheapest` alone) or by distance (the other cases). The result is the station the flags choose among the original stations. With both flags, the result lies in the first 15 and is no dearer than any of them. |
| `SearchUtils.BuildErrorResponse` | utils/search_utils.py:152-162 | an error record carrying the message. |
| `SearchUtils.ValidateCoordinates` | utils/search_utils.py:165-177 | a valid point lies south of the equator and west of Greenwich. |
| `SearchUtils.CoordinateExamples` | tests/test_services.py:85-93 | Santiago and Antofagasta are valid. New York and (0, 0) are not. |
| `SearchUtils.CoordinateBoxEdges` | utils/search_utils.py:177 | the box from 56 to 17 degrees south and from 109 to 66 degrees west includes its edges. All four corners are valid. A point 0.01 degrees past any edge is not. |
| `FuelService.ServiceStation` | services/fuel_service.py:61-133 | the loop body for one station. The only exception it raises is the overflow of an infinite price. A kept station has a store exactly when it lists at least two services, and has one whenever `store` is set. |
| `FuelService.ServiceStationKeeps` | services/fuel_service.py:60-133 | the loop body for one station raises exactly when its coordinates are truthy and its first decisive price is infinite. Keeps the station exactly when the coordinates are truthy and parse, a price converts, and (with `store`) it has at least two services. `tiene_tienda` is "at least two services", and the price is the first converted one. |
| `FuelService.ServiceRecord` | services/fuel_service.py:105-127 | the result record carries the coordinates, distance, price and store flag. `compania` is the raw `marca` id when present, else the raw `Compania` name, else "N/A". `id` defaults to "N/A", and `direccion`, `comuna` and `region` take the nested `.get` fallbacks. `tienda` is present exactly when the station has a store and an upstream `tienda`, and its three fields are copied from it with their fallbacks. |
| `Stations.Field` | services/fuel_service.py:117-121 | `d.get(k, d.get(k2, "N/A"))`: the first key's value when it is present, else the second key's, else "N/A". |
| `FuelService.ProcessForService` | services/fuel_service.py:61-133 | the loop body, with each `continue` as an early return, computes `ServiceStation`. |
| `FuelService.Collect` | services/fuel_service.py:58-133 | the loop keeps at most as many stations as it reads. |
| `FuelService.CollectAppend` | services/fuel_service.py:60-133 | the loop handles the stations in upstream order. Collecting `a + b` is collecting `a`, then, unless that aborted, collecting `b` and putting `a`'s survivors in front. |
| `FuelService.CollectOne` | services/fuel_service.py:60-133 | collecting one station gives what the loop body makes of it: an abort, nothing, or that station. |
| `FuelService.CollectKeepsWhatTheBodyKeeps` | services/fuel_service.py:58-133 | the loop aborts exactly when some station raises. Otherwise it keeps exactly the stations the loop body keeps. With `store`, all of them have a store. |
| `FuelService.CollectStep` | services/fuel_service.py:60-133 | one iteration: a raising station aborts the rest of the loop, a dropped one leaves it unchanged, and a kept one is put in front of it. |
| `FuelService.CollectStations` | services/fuel_service.py:58-133 | the `for` loop with `continue` computes `Collect`. |
| `FuelService.ChooseStation` | services/fuel_service.py:135-152 | no survivors give "No se encontraron estaciones". Otherwise the result is a survivor that the flags' rule chooses. With both flags, some distance ordering of the survivors has it as the cheapest of its first 15. |
| `FuelService.SearchStations` | services/fuel_service.py:41-155 | an upstream error comes back unchanged. An invalid product gives "Producto no válido. Use: 93, 95, 97, diesel, kerosene". An exception gives its message, and no survivors give "No se encontraron estaciones". Otherwise the result is a surviving station that the flag's rule chooses, and it has a store when `store` is set. |

## Left out

- The HTTP methods `test_connection`, `get_combustibles` and `buscar_estaciones`, and the `api_url` they use, are network I/O. Their result is the `Upstream` parameter.
- `calculate_distance` and `round(distancia, 2)` are floating-point trigonometry, and `utils/distance.py` is not part of this model. They appear as the `Distance` function parameter.
- Floats are `real`s. `float(...)` on coordinates and prices is abstract: the raw record carries its outcome (`RawCoord`, `RawPrice`). Python truthiness of a coordinate is folded into `RawCoord.Falsy`.
- `Mappings.LowerChar` lower-cases only ASCII letters and KELVIN SIGN. Every other character `str.lower` changes lower-cases to non-ASCII text, so it cannot match a product key. Length-changing mappings (U+0130) are not modelled.
- `Sorting.SortBy` is specified by sortedness and permutation, not stability. So which of several equal-key stations is returned is not modelled. The selection rules hold for any tie-break.
- `str(...)` of the upstream station id is taken as already done (`RawStation.id`). The dynamic key `f"precios{product}"` is the `precio` field, so `process_station_data`'s `product` argument has no counterpart.
- Exceptions other than the OverflowError of an infinite price are not modelled. These include a `servicios` or `tienda` of the wrong type, and three keys present with value `None`, each of which raises TypeError:
  - `combustibles: None` raises at the fuel loop (services/fuel_service.py:66-69, utils/search_utils.py:31-34);
  - `servicios: None` raises at `len(servicios)` (services/fuel_service.py:83-85);
  - `data: None` raises at the station loop (services/fuel_service.py:49,60).

  `search_stations` returns such an error as the record `{"error": "'NoneType' object is not iterable"}` (or the `len` message), and in `process_station_data` it propagates. The model cannot express these inputs. A raw `combustibles` is a sequence, `servicios` is a count, and `UpstreamData(None)` means the `data` key is absent, which gives "No se encontraron estaciones".
- Other keys present with the value `None` (`marca`, `comuna`, `id` and the other text fields) are not modelled. In the raw records `None` (the `Option` case) means the key is absent, so `.get(key, default)` falls back to the default. Python returns `None` instead, and nothing raises. For example, `marca: None` gives `compania` None in `search_stations` (services/fuel_service.py:118) and "Compañía None" with no store in `process_station_data` (utils/mappings.py:152,164). The model gives brand 0 and "Compañía 0" there. Likewise a `comuna` of `None` gives the store name "Pronto None" in the source, where the model falls back to "Local".
- `RawStation.marca` is an `int`. A brand sent as a string, such as "5", gives "Compañía 5" and no store in `process_station_data` (utils/mappings.py:152,164), because the table's keys are ints. The model cannot represent that input.
- `main.py` (web endpoints, debug endpoints, start-up, clock) and `tests/test_api.py` (live HTTP tests) are outside the core.
