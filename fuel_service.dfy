/**
 * FuelService.search_stations: the whole search in one loop. The upstream
 * station list (the result of the HTTP call) is a parameter, as is the
 * distance function.
 */
module FuelService {
  import opened Wrappers
  import opened Mappings
  import opened Stations
  import opened Sorting
  import opened Selection
  import SearchUtils

  /** What buscar_estaciones returns: an error record, or a payload whose `data` key may be absent. */
  datatype Upstream = UpstreamError(error: string) | UpstreamData(data: Option<seq<RawStation>>)

  const InvalidProductMessage: string := "Producto no válido. Use: 93, 95, 97, diesel, kerosene"
  const NotFoundMessage: string := "No se encontraron estaciones"

  /**
   * The loop body for one upstream station: skip it without truthy
   * coordinates; scan its fuels for the product's price; skip it without one;
   * it has a store when it lists at least two services; skip it when a store
   * is required and it has none, or when a coordinate does not parse;
   * otherwise build the result record, copying the upstream `tienda` when it
   * has a store.
   */
  function ServiceStation(raw: RawStation, lat: real, lng: real, productId: int, store: bool, distance: Distance)
    : (r: Outcome)
    ensures r.Raised? ==> r.message == OverflowMessage
    ensures r.Kept? ==> r.station.tieneTienda == (raw.servicios >= 2) && (store ==> r.station.tieneTienda)
  {
    if !HasCoordinates(raw) then Dropped
    else
      match FirstPrice(raw.combustibles, productId)
      case PriceOverflow => Raised(OverflowMessage)
      case NoPrice => Dropped
      case PriceFound(precio) =>
        var tieneTienda := raw.servicios >= 2;
        if store && !tieneTienda then Dropped
        else if raw.latitud.parsed.None? || raw.longitud.parsed.None? then Dropped
        else
          var estLat, estLng := raw.latitud.parsed.value, raw.longitud.parsed.value;
          Kept(ServiceRecord(raw, estLat, estLng, distance(lat, lng, estLat, estLng), precio, tieneTienda))
  }

  /**
   * A station raises exactly when its coordinates are truthy and its first
   * decisive price is infinite. It is kept exactly when its coordinates are
   * truthy and parse, a price converts, and (with `store`) it lists at least
   * two services; the kept record has the first converted price, has a store
   * exactly when it lists at least two services, and carries the parsed
   * coordinates and their distance.
   */
  lemma ServiceStationKeeps(raw: RawStation, lat: real, lng: real, productId: int, store: bool, distance: Distance)
    ensures var r := ServiceStation(raw, lat, lng, productId, store, distance);
      (r.Raised? <==> HasCoordinates(raw) && FirstPrice(raw.combustibles, productId).PriceOverflow?) &&
      (r.Raised? ==> r.message == OverflowMessage) &&
      (r.Kept? <==>
        CoordinatesParse(raw) && FirstPrice(raw.combustibles, productId).PriceFound? &&
        (store ==> raw.servicios >= 2)) &&
      (r.Kept? ==>
        var s := r.station;
        s.precio == FirstPrice(raw.combustibles, productId).price &&
        s.tieneTienda == (raw.servicios >= 2) && (store ==> s.tieneTienda) &&
        s.latitud == raw.latitud.parsed.value && s.longitud == raw.longitud.parsed.value &&
        s.distancia == distance(lat, lng, s.latitud, s.longitud) &&
        (s.tienda.Some? <==> s.tieneTienda && raw.tienda.Some?))
  {
  }

  /** The record search_stations builds for a kept station. */
  function ServiceRecord(raw: RawStation, estLat: real, estLng: real, distancia: real, precio: int, tieneTienda: bool)
    : (s: Station)
    ensures s.latitud == estLat && s.longitud == estLng && s.distancia == distancia
    ensures s.precio == precio && s.tieneTienda == tieneTienda
    ensures s.tienda.Some? <==> tieneTienda && raw.tienda.Some?
    ensures s.tienda.Some? ==>
      var t := raw.tienda.value;
      s.tienda.value.codigo == Field(t.codigoTienda, t.codigoTiendaAlt) &&
      s.tienda.value.nombre == Field(t.nombreTienda, t.nombreTiendaAlt) &&
      s.tienda.value.tipo == Field(t.tipo, t.tipoAlt)
    ensures raw.marca.Some? ==> s.compania == BrandId(raw.marca.value)
    ensures raw.marca.None? ==> s.compania == CompanyName(raw.compania.GetOr("N/A"))
    ensures s.id == raw.id.GetOr("N/A")
    ensures s.direccion == Field(raw.direccion, raw.direccionAlt) && s.comuna == Field(raw.comuna, raw.comunaAlt)
    ensures s.region == Field(raw.region, raw.regionAlt)
  {
    var tiendaInfo :=
      if tieneTienda && raw.tienda.Some? then
        var t := raw.tienda.value;
        Some(StoreInfo(Field(t.codigoTienda, t.codigoTiendaAlt), Field(t.nombreTienda, t.nombreTiendaAlt), Field(t.tipo, t.tipoAlt)))
      else None;
    var compania := if raw.marca.Some? then BrandId(raw.marca.value) else CompanyName(raw.compania.GetOr("N/A"));
    Station(
      raw.id.GetOr("N/A"), compania,
      Field(raw.direccion, raw.direccionAlt), Field(raw.comuna, raw.comunaAlt), Field(raw.region, raw.regionAlt),
      estLat, estLng, distancia, precio, tieneTienda, tiendaInfo)
  }

  /** The loop's result: the kept stations in upstream order, or the first exception. */
  datatype Collection = Collected(stations: seq<Station>) | Aborted(message: string)

  lemma PrependTwice(p: seq<Station>, q: seq<Station>, c: Collection)
    ensures Prepend(p + q, c) == Prepend(p, Prepend(q, c))
  {
    if c.Collected? {
      assert (p + q) + c.stations == p + (q + c.stations);
    }
  }

  /**
   * The whole loop over the upstream stations: the stations the loop body
   * keeps, in upstream order, unless one of them raises.
   */
  function Collect(estaciones: seq<RawStation>, lat: real, lng: real, productId: int, store: bool, distance: Distance)
    : (r: Collection)
    ensures r.Collected? ==> |r.stations| <= |estaciones|
  {
    if estaciones == [] then Collected([])
    else
      var rest := Collect(estaciones[1..], lat, lng, productId, store, distance);
      match ServiceStation(estaciones[0], lat, lng, productId, store, distance)
      case Raised(m) => Aborted(m)
      case Dropped => rest
      case Kept(s) => Prepend([s], rest)
  }

  /**
   * The loop handles the stations in upstream order: collecting `a + b` is
   * collecting `a` and then, unless that aborted, collecting `b` behind it.
   */
  lemma {:induction false} CollectAppend(
    a: seq<RawStation>, b: seq<RawStation>, lat: real, lng: real, productId: int, store: bool, distance: Distance)
    ensures var ca := Collect(a, lat, lng, productId, store, distance);
      Collect(a + b, lat, lng, productId, store, distance)
        == if ca.Aborted? then ca else Prepend(ca.stations, Collect(b, lat, lng, productId, store, distance))
  {
    var cb := Collect(b, lat, lng, productId, store, distance);
    if a == [] {
      assert a + b == b;
      if cb.Collected? {
        assert [] + cb.stations == cb.stations;
      }
    } else {
      assert (a + b)[1..] == a[1..] + b;
      CollectAppend(a[1..], b, lat, lng, productId, store, distance);
      var rest := Collect(a[1..], lat, lng, productId, store, distance);
      match ServiceStation(a[0], lat, lng, productId, store, distance)
      case Raised(m) =>
      case Dropped =>
      case Kept(x) =>
        if rest.Collected? {
          PrependTwice([x], rest.stations, cb);
        }
    }
  }

  /** Collecting one station gives what the loop body makes of it. */
  lemma CollectOne(x: RawStation, lat: real, lng: real, productId: int, store: bool, distance: Distance)
    ensures var o := ServiceStation(x, lat, lng, productId, store, distance);
      Collect([x], lat, lng, productId, store, distance)
        == match o case Raised(m) => Aborted(m) case Dropped => Collected([]) case Kept(s) => Collected([s])
  {
    assert [x][1..] == [];
  }

  /**
   * The loop aborts exactly when some station raises; otherwise it keeps
   * exactly the stations the loop body keeps, and with `store` every one of
   * them has a store.
   */
  lemma {:induction false} CollectKeepsWhatTheBodyKeeps(
    estaciones: seq<RawStation>, lat: real, lng: real, productId: int, store: bool, distance: Distance)
    ensures var r := Collect(estaciones, lat, lng, productId, store, distance);
      (r.Aborted? <==> exists i :: 0 <= i < |estaciones| && ServiceStation(estaciones[i], lat, lng, productId, store, distance).Raised?) &&
      (r.Aborted? ==> r.message == OverflowMessage) &&
      (r.Collected? ==> forall s :: s in r.stations <==>
        exists i :: 0 <= i < |estaciones| && ServiceStation(estaciones[i], lat, lng, productId, store, distance) == Kept(s)) &&
      (r.Collected? && store ==> forall s :: s in r.stations ==> s.tieneTienda)
  {
    if estaciones != [] {
      CollectKeepsWhatTheBodyKeeps(estaciones[1..], lat, lng, productId, store, distance);
      forall i | 0 <= i < |estaciones|
        ensures var o := ServiceStation(estaciones[i], lat, lng, productId, store, distance);
          (o.Raised? ==> o.message == OverflowMessage) && (o.Kept? && store ==> o.station.tieneTienda)
      {
        ServiceStationKeeps(estaciones[i], lat, lng, productId, store, distance);
      }
      assert forall i :: 0 <= i < |estaciones[1..]| ==> estaciones[1..][i] == estaciones[i + 1];
    }
  }

  /** Puts stations in front of a collection; an aborted one stays aborted. */
  function Prepend(prefix: seq<Station>, c: Collection): (r: Collection)
    ensures r.Aborted? <==> c.Aborted?
    ensures r.Aborted? ==> r.message == c.message
    ensures r.Collected? ==> r.stations == prefix + c.stations
  {
    match c
    case Aborted(m) => c
    case Collected(xs) => Collected(prefix + xs)
  }

  /**
   * search_stations: an upstream error is returned as it is; then an unknown
   * product is rejected; then the loop runs, and an exception inside it
   * becomes an error record; no surviving station gives "No se encontraron
   * estaciones"; otherwise the result is the surviving station the flags ask
   * for (and, when a store is required, one with a store).
   */
  method SearchStations(upstream: Upstream, lat: real, lng: real, product: string,
                        nearest: bool, store: bool, cheapest: bool, distance: Distance)
    returns (r: Response)
    ensures upstream.UpstreamError? ==> r == Error(upstream.error)
    ensures upstream.UpstreamData? && !ValidateProduct(Some(product)) ==> r == Error(InvalidProductMessage)
    ensures upstream.UpstreamData? && ValidateProduct(Some(product)) ==>
      var c := Collect(upstream.data.GetOr([]), lat, lng, GetProductId(Some(product)).value, store, distance);
      (c.Aborted? ==> r == Error(c.message)) &&
      (c.Collected? && c.stations == [] ==> r == Error(NotFoundMessage)) &&
      (c.Collected? && c.stations != [] ==> r.Found? && Chosen(c.stations, r.station, nearest, cheapest))
    ensures r.Found? && store ==> r.station.tieneTienda
  {
    if upstream.UpstreamError? {
      return Error(upstream.error);
    }
    var estaciones := upstream.data.GetOr([]);

    var productId := GetProductId(Some(product));
    if productId.None? {
      return Error(InvalidProductMessage);
    }
    var pid := productId.value;

    var c := CollectStations(estaciones, lat, lng, pid, store, distance);
    if c.Aborted? {
      return Error(c.message);
    }
    var resultado := c.stations;
    assert store ==> forall s :: s in resultado ==> s.tieneTienda by {
      CollectKeepsWhatTheBodyKeeps(estaciones, lat, lng, pid, store, distance);
    }
    r := ChooseStation(resultado, nearest, cheapest);
  }

  /**
   * The selection at the end of search_stations: the flags' rule applied to a
   * fresh list of the survivors, and the "not found" error when there are none.
   */
  method ChooseStation(resultado: seq<Station>, nearest: bool, cheapest: bool) returns (r: Response)
    ensures resultado == [] ==> r == Error(NotFoundMessage)
    ensures resultado != [] ==> r.Found? && r.station in resultado && Chosen(resultado, r.station, nearest, cheapest)
  {
    var lista := new Station[|resultado|](j requires 0 <= j < |resultado| => resultado[j]);
    assert lista[..] == resultado;
    var elegida := SearchUtils.ApplySearchLogic(lista, nearest, cheapest);
    if elegida.None? {
      return Error(NotFoundMessage);
    }
    return Found(elegida.value);
  }

  /**
   * The `for estacion in estaciones` loop of search_stations, appending each
   * kept station to `resultado`; an exception leaves the loop (and, in the
   * caller, the whole search).
   */
  method CollectStations(estaciones: seq<RawStation>, lat: real, lng: real, pid: int, store: bool, distance: Distance)
    returns (c: Collection)
    ensures c == Collect(estaciones, lat, lng, pid, store, distance)
  {
    var resultado: seq<Station> := [];
    for i := 0 to |estaciones|
      invariant Collect(estaciones, lat, lng, pid, store, distance)
             == Prepend(resultado, Collect(estaciones[i..], lat, lng, pid, store, distance))
    {
      var outcome := ProcessForService(estaciones[i], lat, lng, pid, store, distance);
      CollectStep(estaciones, i, lat, lng, pid, store, distance);
      ghost var next := Collect(estaciones[i + 1..], lat, lng, pid, store, distance);
      match outcome
      case Raised(m) =>
        return Aborted(m);
      case Dropped =>
        continue;
      case Kept(estacionResultado) =>
        PrependTwice(resultado, [estacionResultado], next);
        resultado := resultado + [estacionResultado];
    }
    assert estaciones[|estaciones|..] == [];
    return Collected(resultado);
  }

  /**
   * The body of that loop for one station; each `continue` of the source is a
   * `Dropped` here.
   */
  method ProcessForService(estacion: RawStation, lat: real, lng: real, pid: int, store: bool, distance: Distance)
    returns (outcome: Outcome)
    ensures outcome == ServiceStation(estacion, lat, lng, pid, store, distance)
  {
    if !estacion.latitud.Truthy? || !estacion.longitud.Truthy? {
      return Dropped;
    }
    var precioProducto := PickPrice(estacion.combustibles, pid);
    if precioProducto.PriceOverflow? {
      return Raised(OverflowMessage);
    }
    if precioProducto.NoPrice? {
      return Dropped;
    }
    var tieneTienda := estacion.servicios >= 2;
    if store && !tieneTienda {
      return Dropped;
    }
    if estacion.latitud.parsed.None? || estacion.longitud.parsed.None? {
      return Dropped;
    }
    var estLat, estLng := estacion.latitud.parsed.value, estacion.longitud.parsed.value;
    var distancia := distance(lat, lng, estLat, estLng);
    return Kept(ServiceRecord(estacion, estLat, estLng, distancia, precioProducto.price, tieneTienda));
  }

  /** One step of the loop: the collection of a suffix, by what its first station gives. */
  lemma CollectStep(estaciones: seq<RawStation>, i: nat, lat: real, lng: real, pid: int, store: bool, distance: Distance)
    requires i < |estaciones|
    ensures var o := ServiceStation(estaciones[i], lat, lng, pid, store, distance);
      var here := Collect(estaciones[i..], lat, lng, pid, store, distance);
      var next := Collect(estaciones[i + 1..], lat, lng, pid, store, distance);
      (o.Raised? ==> here == Aborted(o.message)) &&
      (o.Dropped? ==> here == next) &&
      (o.Kept? ==> here == Prepend([o.station], next))
  {
    assert estaciones[i..][0] == estaciones[i] && estaciones[i..][1..] == estaciones[i + 1..];
  }
}
