/**
 * The search pipeline as separate steps: normalise one upstream station,
 * filter by store, pick one station by the search flags, build an error
 * record, and check that coordinates lie in the country's bounding box.
 */
module SearchUtils {
  import opened Wrappers
  import opened Mappings
  import opened Stations
  import opened Sorting
  import opened Selection

  /**
   * process_station_data: a station is kept when both coordinates are truthy,
   * a price for the product converts, and both coordinates parse; its price is
   * the first converted one, its company comes from the company table, and it
   * has a store (and a `tienda`) exactly when its brand is a store brand.
   * An infinite price raises, as `int(float("inf"))` does.
   */
  method ProcessStationData(raw: RawStation, lat: real, lng: real, idProducto: int, distance: Distance)
    returns (r: Outcome)
    ensures r.Raised? <==> HasCoordinates(raw) && FirstPrice(raw.combustibles, idProducto).PriceOverflow?
    ensures r.Raised? ==> r.message == OverflowMessage
    ensures r.Kept? <==>
      CoordinatesParse(raw) && FirstPrice(raw.combustibles, idProducto).PriceFound?
    ensures r.Kept? ==>
      var s := r.station;
      var marca := raw.marca.GetOr(0);
      s.precio == FirstPrice(raw.combustibles, idProducto).price &&
      s.latitud == raw.latitud.parsed.value && s.longitud == raw.longitud.parsed.value &&
      s.distancia == distance(lat, lng, s.latitud, s.longitud) &&
      s.tieneTienda == HasConvenienceStore(marca) &&
      s.compania == CompanyName(GetCompanyName(marca)) &&
      (s.tienda.Some? <==> s.tieneTienda) &&
      (s.tienda.Some? ==>
        s.tienda == GetStoreInfo(marca, GetCompanyName(marca), raw.comuna.GetOr("Local"), raw.id.GetOr("0000"))) &&
      s.id == raw.id.GetOr("N/A") && s.direccion == Field(raw.direccion, raw.direccionAlt) &&
      s.comuna == Field(raw.comuna, raw.comunaAlt) && s.region == Field(raw.region, raw.regionAlt)
  {
    if !raw.latitud.Truthy? || !raw.longitud.Truthy? {
      return Dropped;
    }
    var precioProducto := PickPrice(raw.combustibles, idProducto);
    if precioProducto.PriceOverflow? {
      return Raised(OverflowMessage);
    }
    if precioProducto.NoPrice? {
      return Dropped;
    }
    if raw.latitud.parsed.None? || raw.longitud.parsed.None? {
      return Dropped;
    }
    var estLat, estLng := raw.latitud.parsed.value, raw.longitud.parsed.value;
    var distancia := distance(lat, lng, estLat, estLng);

    var idCompania := raw.marca.GetOr(0);
    var tieneTienda := HasConvenienceStore(idCompania);
    var nombreCompania := GetCompanyName(idCompania);

    var infoTienda: Option<StoreInfo> := None;
    if tieneTienda {
      infoTienda := GetStoreInfo(idCompania, nombreCompania, raw.comuna.GetOr("Local"), raw.id.GetOr("0000"));
    }

    var estacion := Station(
      raw.id.GetOr("N/A"), CompanyName(nombreCompania),
      Field(raw.direccion, raw.direccionAlt), Field(raw.comuna, raw.comunaAlt), Field(raw.region, raw.regionAlt),
      estLat, estLng, distancia, precioProducto.price, tieneTienda, None);
    if infoTienda.Some? {
      estacion := estacion.(tienda := infoTienda);
    }
    return Kept(estacion);
  }

  /**
   * filter_stations_by_store: without the requirement the list itself; with
   * it, the stations that have a store, each as often as in the input, in
   * input order.
   */
  function FilterStationsByStore(estaciones: seq<Station>, storeRequired: bool): (r: seq<Station>)
    ensures !storeRequired ==> r == estaciones
    ensures forall s :: multiset(r)[s] == if !storeRequired || s.tieneTienda then multiset(estaciones)[s] else 0
    ensures IsSubsequence(r, estaciones)
  {
    if !storeRequired then
      SubsequenceOfItself(estaciones);
      estaciones
    else if estaciones == [] then []
    else
      var rest := FilterStationsByStore(estaciones[1..], true);
      assert estaciones == [estaciones[0]] + estaciones[1..];
      if estaciones[0].tieneTienda then [estaciones[0]] + rest else rest
  }

  /** `r` is `s` with some elements left out and the others in their order. */
  predicate IsSubsequence(r: seq<Station>, s: seq<Station>) {
    r == [] || (s != [] && ((r[0] == s[0] && IsSubsequence(r[1..], s[1..])) || IsSubsequence(r, s[1..])))
  }

  lemma {:induction false} SubsequenceOfItself(s: seq<Station>)
    ensures IsSubsequence(s, s)
  {
    if s != [] {
      SubsequenceOfItself(s[1..]);
    }
  }

  /** Filtering a filtered list changes nothing. */
  lemma {:induction false} FilterIdempotent(estaciones: seq<Station>, storeRequired: bool)
    ensures FilterStationsByStore(FilterStationsByStore(estaciones, storeRequired), storeRequired)
         == FilterStationsByStore(estaciones, storeRequired)
  {
    if storeRequired && estaciones != [] {
      FilterIdempotent(estaciones[1..], true);
      var rest := FilterStationsByStore(estaciones[1..], true);
      if estaciones[0].tieneTienda {
        assert ([estaciones[0]] + rest)[1..] == rest;
      }
    }
  }

  /**
   * apply_search_logic: `None` for an empty list (left as it is). Otherwise
   * the list is rearranged in place, sorted by price for `cheapest` alone and
   * by distance in the other three cases, and the result is its head, or, for
   * `nearest` and `cheapest`, the cheapest of its first 15 stations; either
   * way the station the flags ask for among the original stations.
   */
  method ApplySearchLogic(estaciones: array<Station>, nearest: bool, cheapest: bool) returns (r: Option<Station>)
    modifies estaciones
    ensures r.None? <==> estaciones.Length == 0
    ensures multiset(estaciones[..]) == multiset(old(estaciones[..]))
    ensures SortedBy(estaciones[..], if cheapest && !nearest then ByPrice else ByDistance)
    ensures r.Some? ==> Chosen(old(estaciones[..]), r.value, nearest, cheapest)
    ensures r.Some? && !(nearest && cheapest) ==> r.value == estaciones[0]
    ensures r.Some? && nearest && cheapest ==>
      var m := Min(NearestGroupSize, estaciones.Length);
      r.value in estaciones[..m] && forall j :: 0 <= j < m ==> r.value.precio <= estaciones[j].precio
  {
    if estaciones.Length == 0 {
      return None;
    }
    if nearest && cheapest {
      r := CheapestOfNearest(estaciones);
    } else if nearest {
      r := SortAndTakeHead(estaciones, ByDistance);
    } else if cheapest {
      r := SortAndTakeHead(estaciones, ByPrice);
    } else {
      r := SortAndTakeHead(estaciones, ByDistance);
    }
  }

  /** `estaciones.sort(key=k); return estaciones[0]`: the head has the least key of the original stations. */
  method SortAndTakeHead(estaciones: array<Station>, k: SortKey) returns (r: Option<Station>)
    requires estaciones.Length > 0
    modifies estaciones
    ensures multiset(estaciones[..]) == multiset(old(estaciones[..]))
    ensures SortedBy(estaciones[..], k)
    ensures r == Some(estaciones[0])
    ensures estaciones[0] in old(estaciones[..])
    ensures forall x :: x in old(estaciones[..]) ==> Key(estaciones[0], k) <= Key(x, k)
  {
    ghost var original := estaciones[..];
    SortBy(estaciones, k);
    SortedHeadIsLeast(original, estaciones[..], k);
    r := Some(estaciones[0]);
  }

  /**
   * Sort by distance, copy the first 15 into `cercanas`, sort that by price
   * and take its head: the cheapest of the 15 nearest.
   */
  method CheapestOfNearest(estaciones: array<Station>) returns (r: Option<Station>)
    requires estaciones.Length > 0
    modifies estaciones
    ensures multiset(estaciones[..]) == multiset(old(estaciones[..]))
    ensures SortedBy(estaciones[..], ByDistance)
    ensures r.Some? && IsCheapestOfNearest(old(estaciones[..]), r.value)
    ensures var m := Min(NearestGroupSize, estaciones.Length);
      r.value in estaciones[..m] && forall j :: 0 <= j < m ==> r.value.precio <= estaciones[j].precio
  {
    ghost var original := estaciones[..];
    SortBy(estaciones, ByDistance);
    var m := Min(NearestGroupSize, estaciones.Length);
    var cercanas := new Station[m](j requires 0 <= j < m reads estaciones => estaciones[j]);
    assert cercanas[..] == estaciones[..m];
    SortBy(cercanas, ByPrice);
    ghost var sorted := estaciones[..];
    SortedHeadIsLeast(sorted[..m], cercanas[..], ByPrice);
    var best := cercanas[0];
    forall j | 0 <= j < m
      ensures best.precio <= sorted[j].precio
    {
      assert sorted[j] in sorted[..m];
      assert Key(best, ByPrice) <= Key(sorted[j], ByPrice);
    }
    assert CheapestOfFirst(sorted, best);
    assert best in original by {
      assert best in multiset(sorted);
    }
    r := Some(best);
  }

  /** build_error_response: the record whose `error` is the message. */
  function BuildErrorResponse(message: string): (r: Response)
    ensures r.Error? && r.error == message
  {
    Error(message)
  }

  /**
   * validate_coordinates: the point lies in the box from 56 to 17 degrees
   * south and from 109 to 66 degrees west (ends included).
   */
  function ValidateCoordinates(lat: real, lng: real): (r: bool)
    ensures r ==> lat < 0.0 && lng < 0.0
  {
    (-56.0 <= lat <= -17.0) && (-109.0 <= lng <= -66.0)
  }

  lemma CoordinateExamples()
    ensures ValidateCoordinates(-33.45, -70.65)
    ensures ValidateCoordinates(-23.65, -70.40)
    ensures !ValidateCoordinates(40.7128, -74.0060)
    ensures !ValidateCoordinates(0.0, 0.0)
  {
  }

  /** The box includes its edges: both corners are valid, and a point just past an edge is not. */
  lemma CoordinateBoxEdges()
    ensures ValidateCoordinates(-56.0, -109.0) && ValidateCoordinates(-17.0, -66.0)
    ensures ValidateCoordinates(-56.0, -66.0) && ValidateCoordinates(-17.0, -109.0)
    ensures !ValidateCoordinates(-16.99, -70.0) && !ValidateCoordinates(-56.01, -70.0)
    ensures !ValidateCoordinates(-33.0, -65.99) && !ValidateCoordinates(-33.0, -109.01)
  {
  }
}
