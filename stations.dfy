/**
 * The station records: what the upstream API returns for one station (as far
 * as the search reads it), the record the search returns, and the price pick
 * that both search pipelines share.
 */
module Stations {
  import opened Wrappers
  import opened Mappings

  /**
   * A latitude or longitude as read from the upstream record. `Falsy` is a
   * missing key or a value Python treats as false (None, "", 0); a truthy value
   * carries what `float(...)` makes of it, `None` when that raises.
   */
  datatype RawCoord = Falsy | Truthy(parsed: Option<real>)

  /**
   * The `precio` of a fuel entry, by what `int(float(precio))` does with it:
   * `Missing` (absent or None), `Malformed` (ValueError or TypeError, which
   * includes NaN), a finite `Number`, or an `Infinite` one (OverflowError).
   */
  datatype RawPrice = Missing | Malformed | Number(x: real) | Infinite

  /** One entry of a station's `combustibles` list. */
  datatype FuelEntry = FuelEntry(id: Option<int>, precio: RawPrice)

  /** The `tienda` object of an upstream station, each key in its two spellings. */
  datatype RawStore = RawStore(
    codigoTienda: Option<string>, codigoTiendaAlt: Option<string>,
    nombreTienda: Option<string>, nombreTiendaAlt: Option<string>,
    tipo: Option<string>, tipoAlt: Option<string>)

  /**
   * One upstream station. `Alt` fields are the capitalised spellings the code
   * falls back to (`Direccion`, `Comuna`, ...); `id` is already `str(...)` of the
   * upstream id; `servicios` is the length of the services list; `tienda` is
   * `None` when the key is absent or its value is falsy.
   */
  datatype RawStation = RawStation(
    id: Option<string>, marca: Option<int>, compania: Option<string>,
    direccion: Option<string>, direccionAlt: Option<string>,
    comuna: Option<string>, comunaAlt: Option<string>,
    region: Option<string>, regionAlt: Option<string>,
    latitud: RawCoord, longitud: RawCoord,
    combustibles: seq<FuelEntry>, servicios: nat, tienda: Option<RawStore>)

  /** The `compania` of a result: the raw brand id, or a company name. */
  datatype Company = BrandId(id: int) | CompanyName(name: string)

  /**
   * A station as the search returns it; `distancia` is the distance key
   * (`distancia(lineal)`) and `precio` the requested product's price
   * (`precios<product>`).
   */
  datatype Station = Station(
    id: string, compania: Company, direccion: string, comuna: string, region: string,
    latitud: real, longitud: real, distancia: real, precio: int,
    tieneTienda: bool, tienda: Option<StoreInfo>)

  /** What processing one upstream station gives: a result, nothing, or an exception. */
  datatype Outcome = Kept(station: Station) | Dropped | Raised(message: string)

  /** A search response: a station, or a record whose `error` key holds a message. */
  datatype Response = Found(station: Station) | Error(error: string)

  /**
   * The great-circle distance from the search point to a station, rounded to
   * two decimals: `distance(lat, lng, stationLat, stationLng)`.
   */
  type Distance = (real, real, real, real) -> real

  /** `str(e)` of the OverflowError that `int(float("inf"))` raises. */
  const OverflowMessage: string := "cannot convert float infinity to integer"

  /** `d.get(primary, d.get(alternate, 'N/A'))`. */
  function Field(primary: Option<string>, alternate: Option<string>): (r: string)
    ensures primary.Some? ==> r == primary.value
    ensures primary.None? && alternate.Some? ==> r == alternate.value
    ensures primary.None? && alternate.None? ==> r == "N/A"
  {
    primary.GetOr(alternate.GetOr("N/A"))
  }

  /** Both coordinates are truthy: the first filter of both pipelines. */
  predicate HasCoordinates(raw: RawStation) {
    raw.latitud.Truthy? && raw.longitud.Truthy?
  }

  /** Both coordinates are truthy and `float(...)` accepts both. */
  predicate CoordinatesParse(raw: RawStation) {
    HasCoordinates(raw) && raw.latitud.parsed.Some? && raw.longitud.parsed.Some?
  }

  /** Python's `int(x)` on a finite float: truncation toward zero. */
  function Trunc(x: real): (n: int)
    ensures x >= 0.0 ==> 0 <= n && n as real <= x < n as real + 1.0
    ensures x < 0.0 ==> n <= 0 && n as real - 1.0 < x <= n as real
  {
    if x >= 0.0 then x.Floor else -((-x).Floor)
  }

  // ---------------------------------------------------------------------------
  // The price pick: the inner loop over `combustibles`

  /** The result of looking for the requested product's price in a station. */
  datatype PriceOutcome = PriceFound(price: int) | NoPrice | PriceOverflow

  /**
   * An entry that ends the search: it is for the product and its price is a
   * number (the loop breaks) or infinite (the conversion raises).
   */
  predicate Decisive(e: FuelEntry, productId: int) {
    e.id == Some(productId) && (e.precio.Number? || e.precio.Infinite?)
  }

  /** Entry `i` is the first decisive one. */
  predicate FirstDecisiveAt(es: seq<FuelEntry>, productId: int, i: int) {
    0 <= i < |es| && Decisive(es[i], productId) &&
    forall j :: 0 <= j < i ==> !Decisive(es[j], productId)
  }

  /** What a decisive entry yields. */
  function EntryPrice(e: FuelEntry): PriceOutcome {
    if e.precio.Number? then PriceFound(Trunc(e.precio.x)) else PriceOverflow
  }

  /**
   * The outcome of the scan: the truncated price of the first entry for the
   * product whose price converts; an overflow if an infinite price comes
   * first; no price if there is no such entry. Entries for other products and
   * entries whose price is missing or malformed are skipped.
   */
  function FirstPrice(es: seq<FuelEntry>, productId: int): (r: PriceOutcome)
    ensures r.NoPrice? <==> forall i :: 0 <= i < |es| ==> !Decisive(es[i], productId)
    ensures !r.NoPrice? ==> exists i :: FirstDecisiveAt(es, productId, i) && r == EntryPrice(es[i])
  {
    if es == [] then NoPrice
    else if Decisive(es[0], productId) then
      assert FirstDecisiveAt(es, productId, 0);
      EntryPrice(es[0])
    else
      var r := FirstPrice(es[1..], productId);
      assert forall i :: FirstDecisiveAt(es[1..], productId, i) ==> FirstDecisiveAt(es, productId, i + 1);
      r
  }

  /**
   * The loop `for combustible in combustibles` with its `break` on the first
   * converted price; an OverflowError leaves the loop as `PriceOverflow`.
   */
  method PickPrice(es: seq<FuelEntry>, productId: int) returns (r: PriceOutcome)
    ensures r == FirstPrice(es, productId)
  {
    r := NoPrice;
    for i := 0 to |es|
      invariant r == NoPrice
      invariant FirstPrice(es, productId) == FirstPrice(es[i..], productId)
    {
      assert es[i..][1..] == es[i + 1..];
      if es[i].id == Some(productId) {
        match es[i].precio
        case Number(x) =>
          r := PriceFound(Trunc(x));
          break;
        case Infinite =>
          r := PriceOverflow;
          break;
        case _ =>
      }
    }
  }
}
