/**
 * The selection logic of the HTTP API in app.py: the time-to-live cache in
 * front of the upstream fetch, the lookup by id, the lazy geocoding of a
 * record, the map view, the filter by category and the status counters.
 *
 * Routing and JSON rendering are left out; each endpoint returns either its
 * payload or the HTTP error status it would answer with. The clock reading
 * and the outcome of the upstream fetch are parameters.
 */
module App {
  import opened Wrappers
  import opened Text
  import opened Seqs
  import opened Scraper
  import opened Geocoding

  // ---------------------------------------------------------------------
  // get_incidencias_con_cache

  /** Seconds a fetched page is served from the cache. */
  const Ttl: real := 60.0

  /** The module-level cache: the records last fetched and the time of that
      fetch (`None` before the first one). */
  datatype Cache = Cache(data: seq<Incidencia>, lastUpdate: Option<real>)

  const EmptyCache: Cache := Cache([], None)

  /** What `fetch_balizas_activas` gives: the records extracted from the
      upstream page, or an exception. */
  datatype Fetch = Fetched(incs: seq<Incidencia>) | Unreachable

  /** The fetch of a page whose table has the given rows. */
  function FetchPage(rows: seq<Row>): (f: Fetch)
    ensures FetchOk(f)
  {
    ParseIncidenciasWellFormed(rows);
    Fetched(ParseIncidencias(rows))
  }

  /** A fetch yields records as the extractor builds them. */
  predicate FetchOk(f: Fetch) {
    f.Fetched? ==> Extracted(f.incs)
  }

  /** Records as the extractor builds them, possibly geocoded since. */
  predicate Extracted(incs: seq<Incidencia>) {
    forall k :: 0 <= k < |incs| ==> WellFormed(incs[k]) && AllDigits(incs[k].id)
  }

  /** Replacing one record by another extracted one keeps the list extracted. */
  lemma ExtractedUpdate(incs: seq<Incidencia>, k: nat, inc: Incidencia)
    requires Extracted(incs) && k < |incs|
    requires WellFormed(inc) && AllDigits(inc.id)
    ensures Extracted(incs[k := inc])
  {
  }

  /** An endpoint's answer: its payload, or the HTTP error status 404, 400 or 500. */
  datatype Response<T> = Ok(value: T) | NotFound | BadRequest | ServerError

  /** Every cached record is one the extractor built, possibly geocoded since. */
  predicate CacheOk(c: Cache) {
    Extracted(c.data)
  }

  /** The cached page may be served at time `now`. A time of 0.0 counts as
      no time at all, as Python's truthiness test does. */
  predicate Fresh(c: Cache, now: real) {
    c.lastUpdate.Some? && c.lastUpdate.value != 0.0 && now - c.lastUpdate.value < Ttl
  }

  /** The cache after a request, and the records served (`None`: the fetch
      failed and there was nothing to fall back on). */
  datatype Served = Served(cache: Cache, data: Option<seq<Incidencia>>)

  /** `get_incidencias_con_cache`: a fresh cache is served as it is; otherwise
      the upstream page is fetched and cached; when that fails, a non-empty
      stale cache is served instead. What is served is always the cached list. */
  function GetIncidenciasConCache(c: Cache, now: real, fetch: Fetch): (r: Served)
    ensures Fresh(c, now) ==> r == Served(c, Some(c.data))
    ensures !Fresh(c, now) && fetch.Fetched? ==> r.cache == Cache(fetch.incs, Some(now)) && r.data.Some?
    ensures !Fresh(c, now) && fetch.Unreachable? ==> r.cache == c && (r.data.Some? <==> c.data != [])
    ensures r.data.Some? ==> r.data.value == r.cache.data
    ensures CacheOk(c) && FetchOk(fetch) ==> CacheOk(r.cache)
  {
    if Fresh(c, now) then Served(c, Some(c.data))
    else
      match fetch
      case Fetched(incs) => Served(Cache(incs, Some(now)), Some(incs))
      case Unreachable =>
        if c.data != [] then Served(c, Some(c.data)) else Served(c, None)
  }

  /** After a successful fetch at a non-zero time, every request in the next
      sixty seconds is served from the cache, whatever the upstream would say. */
  lemma FetchedPageServedWithinTtl(c: Cache, now: real, incs: seq<Incidencia>, later: real, fetch: Fetch)
    requires !Fresh(c, now) && now != 0.0 && now <= later < now + Ttl
    ensures var r := GetIncidenciasConCache(c, now, Fetched(incs));
            GetIncidenciasConCache(r.cache, later, fetch) == Served(r.cache, Some(r.cache.data))
  {
  }

  /** A failed refresh never loses records: the cache is kept, and served
      whenever it holds any. */
  lemma FailedFetchKeepsCache(c: Cache, now: real)
    requires !Fresh(c, now) && c.data != []
    ensures GetIncidenciasConCache(c, now, Unreachable) == Served(c, Some(c.data))
  {
  }

  // ---------------------------------------------------------------------
  // get_baliza_por_id

  /** The index of the first record with the given id at or after `from`. */
  function FindFrom(incs: seq<Incidencia>, id: string, from: nat): (r: Option<nat>)
    requires from <= |incs|
    ensures r.Some? ==> from <= r.value < |incs| && incs[r.value].id == id
    ensures r.Some? ==> forall j :: from <= j < r.value ==> incs[j].id != id
    ensures r.None? <==> forall j :: from <= j < |incs| ==> incs[j].id != id
    decreases |incs| - from
  {
    if from == |incs| then None
    else if incs[from].id == id then Some(from)
    else FindFrom(incs, id, from + 1)
  }

  /** `next(inc for inc in incidencias if inc.id == id)`, as an index. */
  function FindById(incs: seq<Incidencia>, id: string): (r: Option<nat>)
    ensures r.Some? ==> r.value < |incs| && incs[r.value].id == id
    ensures r.Some? ==> forall j :: 0 <= j < r.value ==> incs[j].id != id
    ensures r.None? <==> forall j :: 0 <= j < |incs| ==> incs[j].id != id
  {
    FindFrom(incs, id, 0)
  }

  /** `get_baliza_por_id`: the first record with the id, 404 when there is
      none, 500 when no records can be had. */
  function GetBalizaPorId(c: Cache, now: real, fetch: Fetch, id: string): (r: (Cache, Response<Incidencia>))
    ensures r.0 == GetIncidenciasConCache(c, now, fetch).cache
    ensures r.1.ServerError? <==> GetIncidenciasConCache(c, now, fetch).data.None?
    ensures r.1.Ok? ==> r.1.value.id == id && r.1.value in r.0.data
    ensures r.1.Ok? ==> exists k :: 0 <= k < |r.0.data| && r.0.data[k] == r.1.value &&
                          forall j :: 0 <= j < k ==> r.0.data[j].id != id
    ensures r.1.NotFound? <==> GetIncidenciasConCache(c, now, fetch).data.Some? &&
                               forall j :: 0 <= j < |r.0.data| ==> r.0.data[j].id != id
    ensures !r.1.BadRequest?
  {
    var served := GetIncidenciasConCache(c, now, fetch);
    match served.data
    case None => (served.cache, ServerError)
    case Some(incs) =>
      match FindById(incs, id)
      case Some(k) => (served.cache, Ok(incs[k]))
      case None => (served.cache, NotFound)
  }

  // ---------------------------------------------------------------------
  // Lazy geocoding

  /** `a` and `b` agree on everything but the coordinates and their precision. */
  predicate SameButCoords(a: Incidencia, b: Incidencia) {
    a.(latitud := b.latitud, longitud := b.longitud, precisionGeo := b.precisionGeo) == b
  }

  /** The record with the coordinates found for it and their precision label. */
  function Attach(inc: Incidencia, at: Coordenadas): (r: Incidencia)
    ensures SameButCoords(r, inc)
    ensures r.latitud == Some(at.latitud) && r.longitud == Some(at.longitud)
    ensures r.precisionGeo == Some(at.precision.Label())
  {
    inc.(latitud := Some(at.latitud), longitud := Some(at.longitud), precisionGeo := Some(at.precision.Label()))
  }

  /** The lookup for a record without coordinates: the cascade runs on its
      road, marker, province, locality and community, and what it finds is
      attached (the record is unchanged when it finds nothing). */
  function Geolocate(inc: Incidencia, st: Resolver, svc: Service): (r: (Incidencia, Resolver))
    ensures SameButCoords(r.0, inc)
    ensures WellFormed(inc) ==> WellFormed(r.0)
    ensures Extends(st.memo, r.1.memo)
    ensures Valid(st) ==> Valid(r.1)
  {
    var o := GeocodificarBaliza(st, inc.carretera, inc.pk, inc.provincia, inc.poblacion, inc.comunidad, svc);
    (if o.coords.Some? then Attach(inc, o.coords.value) else inc, o.st)
  }

  /** Where a record belongs on the map, independent of memo and clock: at
      the hit of the first applicable strategy the service can place, or
      nowhere. */
  function Placed(inc: Incidencia, svc: Service): Incidencia {
    match FirstLocated(Candidates(inc.carretera, NormalizePk(inc.pk), inc.provincia, LimpiarPoblacion(inc.poblacion)), svc)
    case Some(h) => Attach(inc, h)
    case None => inc
  }

  /** With a memo that agrees with the service, the lookup places the record
      where it belongs, and the memo keeps agreeing. */
  lemma GeolocatePlaces(inc: Incidencia, st: Resolver, svc: Service)
    requires Faithful(st.memo, svc)
    ensures Geolocate(inc, st, svc).0 == Placed(inc, svc)
    ensures Faithful(Geolocate(inc, st, svc).1.memo, svc)
  {
    GeocodificarBalizaFinds(st, inc.carretera, inc.pk, inc.provincia, inc.poblacion, inc.comunidad, svc);
  }

  /** Geocodes a record that has no latitude yet, with its road, marker,
      province, locality and community, and attaches what is found; a record
      that has a latitude is left alone and costs no lookup. */
  method Locate(inc: Incidencia, st: Resolver, svc: Service) returns (located: Incidencia, st': Resolver)
    ensures SameButCoords(located, inc)
    ensures inc.latitud.Some? ==> located == inc && st' == st
    ensures inc.latitud.None? ==> (located, st') == Geolocate(inc, st, svc)
    ensures WellFormed(inc) ==> WellFormed(located)
    ensures Extends(st.memo, st'.memo)
    ensures Valid(st) ==> Valid(st')
  {
    located, st' := inc, st;
    if inc.latitud.None? {
      located, st' := Geolocate(inc, st, svc).0, Geolocate(inc, st, svc).1;
    }
  }

  /** One step of the map view, as a function: an active record without
      coordinates is looked up, any other record is left as it is. */
  function LocateStep(inc: Incidencia, st: Resolver, svc: Service): (r: (Incidencia, Resolver))
    ensures SameButCoords(r.0, inc)
    ensures !(inc.activa && inc.latitud.None?) ==> r == (inc, st)
    ensures WellFormed(inc) ==> WellFormed(r.0)
    ensures Extends(st.memo, r.1.memo)
    ensures Valid(st) ==> Valid(r.1)
  {
    if inc.activa && inc.latitud.None? then Geolocate(inc, st, svc) else (inc, st)
  }

  /** One turn of a loop over the records: a record and the resolver in, the
      record and the resolver out. */
  type Step = (Incidencia, Resolver) -> (Incidencia, Resolver)

  /** A loop over the records, as a function: each record in turn, the
      resolver threaded from one to the next. */
  function Thread(data: seq<Incidencia>, st: Resolver, step: Step): (r: (seq<Incidencia>, Resolver))
    ensures |r.0| == |data|
    decreases |data|
  {
    if data == [] then ([], st)
    else
      var front := Thread(data[..|data| - 1], st, step);
      var last := step(data[|data| - 1], front.1);
      (front.0 + [last.0], last.1)
  }

  /** One more record at the end is one more turn of the loop. */
  lemma ThreadSnoc(data: seq<Incidencia>, x: Incidencia, st: Resolver, step: Step)
    ensures var front := Thread(data, st, step);
            var last := step(x, front.1);
            Thread(data + [x], st, step) == (front.0 + [last.0], last.1)
  {
    assert (data + [x])[..|data|] == data;
  }

  /** A turn that changes only the coordinates of an active record without
      them, keeps it well formed, only adds to the memo and keeps the
      resolver valid. */
  ghost predicate Keeps(step: Step) {
    forall inc: Incidencia, s: Resolver ::
      && SameButCoords(step(inc, s).0, inc)
      && (!(inc.activa && inc.latitud.None?) ==> step(inc, s) == (inc, s))
      && (WellFormed(inc) ==> WellFormed(step(inc, s).0))
      && Extends(s.memo, step(inc, s).1.memo)
      && (Valid(s) ==> Valid(step(inc, s).1))
  }

  /** A turn that, with a memo agreeing with the service, puts an active
      record without coordinates at `place` of it, leaves any other record,
      and keeps the memo agreeing. */
  ghost predicate Places(step: Step, svc: Service, place: Incidencia -> Incidencia) {
    forall inc: Incidencia, s: Resolver :: Faithful(s.memo, svc) ==>
      && step(inc, s).0 == (if inc.activa && inc.latitud.None? then place(inc) else inc)
      && Faithful(step(inc, s).1.memo, svc)
  }

  /** Record `k` after the loop is record `k` after its own turn: changed only
      in its coordinates, only when active without them, and well formed
      when it was. */
  lemma {:induction false} ThreadKeeps(data: seq<Incidencia>, st: Resolver, step: Step, k: nat)
    requires Keeps(step) && k < |data|
    ensures var r := Thread(data, st, step);
      && SameButCoords(r.0[k], data[k])
      && (!(data[k].activa && data[k].latitud.None?) ==> r.0[k] == data[k])
      && (WellFormed(data[k]) ==> WellFormed(r.0[k]))
    decreases |data|
  {
    var n := |data|;
    var front := Thread(data[..n - 1], st, step);
    var last := step(data[n - 1], front.1);
    assert Thread(data, st, step).0 == front.0 + [last.0];
    if k < n - 1 {
      ThreadKeeps(data[..n - 1], st, step, k);
      assert data[..n - 1][k] == data[k];
    }
  }

  /** The loop only adds to the memo, and keeps the resolver valid. */
  lemma {:induction false} ThreadResolver(data: seq<Incidencia>, st: Resolver, step: Step)
    requires Keeps(step)
    ensures Extends(st.memo, Thread(data, st, step).1.memo)
    ensures Valid(st) ==> Valid(Thread(data, st, step).1)
    decreases |data|
  {
    if data != [] {
      ThreadResolver(data[..|data| - 1], st, step);
    }
  }

  /** When every active record has coordinates, the loop changes nothing. */
  lemma {:induction false} ThreadLocated(data: seq<Incidencia>, st: Resolver, step: Step)
    requires Keeps(step) && AllLocated(data)
    ensures Thread(data, st, step) == (data, st)
    decreases |data|
  {
    if data != [] {
      var n := |data|;
      var init := data[..n - 1];
      assert AllLocated(init) by {
        forall k | 0 <= k < |init| && init[k].activa ensures init[k].latitud.Some? {
          assert init[k] == data[k];
        }
      }
      ThreadLocated(init, st, step);
      assert step(data[n - 1], st) == (data[n - 1], st);
      ThreadSnoc(init, data[n - 1], st, step);
      assert init + [data[n - 1]] == data;
    }
  }

  /** With a memo that agrees with the service, the loop puts every active
      record without coordinates at its place and leaves the others. */
  lemma {:induction false} ThreadPlaces(data: seq<Incidencia>, st: Resolver, step: Step, svc: Service,
                                        place: Incidencia -> Incidencia)
    requires Places(step, svc, place) && Faithful(st.memo, svc)
    ensures forall k :: 0 <= k < |data| ==>
              Thread(data, st, step).0[k] == if data[k].activa && data[k].latitud.None? then place(data[k]) else data[k]
    ensures Faithful(Thread(data, st, step).1.memo, svc)
    decreases |data|
  {
    if data != [] {
      var n := |data|;
      var front := Thread(data[..n - 1], st, step);
      ThreadPlaces(data[..n - 1], st, step, svc, place);
      var last := step(data[n - 1], front.1);
      var r := Thread(data, st, step);
      assert r == (front.0 + [last.0], last.1);
      forall k | 0 <= k < n
        ensures r.0[k] == if data[k].activa && data[k].latitud.None? then place(data[k]) else data[k]
      {
        if k < n - 1 {
          assert r.0[k] == front.0[k] && data[..n - 1][k] == data[k];
        } else {
          assert r.0[k] == last.0;
        }
      }
    }
  }

  /** The loop over the records, for any turn. */
  method ThreadEach(data: seq<Incidencia>, st: Resolver, step: Step)
    returns (out: seq<Incidencia>, st': Resolver)
    ensures (out, st') == Thread(data, st, step)
  {
    out, st' := [], st;
    for i := 0 to |data|
      invariant (out, st') == Thread(data[..i], st, step)
    {
      var next := step(data[i], st');
      ThreadSnoc(data[..i], data[i], st, step);
      assert data[..i] + [data[i]] == data[..i + 1];
      out, st' := out + [next.0], next.1;
    }
    assert data[..|data|] == data;
  }

  /** The turn of the map view. */
  function Locator(svc: Service): Step {
    (inc, s) => LocateStep(inc, s, svc)
  }

  /** The turn of the map view keeps every record but its coordinates. */
  lemma LocatorKeeps(svc: Service)
    ensures Keeps(Locator(svc))
  {
  }

  /** Where each record belongs on the map. */
  function Placer(svc: Service): Incidencia -> Incidencia {
    inc => Placed(inc, svc)
  }

  /** The turn of the map view puts a record where it belongs. */
  lemma LocatorPlaces(svc: Service)
    ensures Places(Locator(svc), svc, Placer(svc))
  {
    forall inc: Incidencia, s: Resolver | Faithful(s.memo, svc)
      ensures Locator(svc)(inc, s).0 == (if inc.activa && inc.latitud.None? then Placed(inc, svc) else inc)
      ensures Faithful(Locator(svc)(inc, s).1.memo, svc)
    {
      if inc.activa && inc.latitud.None? {
        GeolocatePlaces(inc, s, svc);
      }
    }
  }

  /** The loop of the map view, as a function. */
  function LocateAll(data: seq<Incidencia>, st: Resolver, svc: Service): (seq<Incidencia>, Resolver) {
    Thread(data, st, Locator(svc))
  }

  /** With a memo that agrees with the service, the map view's loop places
      every active record without coordinates where it belongs and leaves the
      others: the order of the records and the memo make no difference. */
  lemma LocateAllPlaces(data: seq<Incidencia>, st: Resolver, svc: Service)
    requires Faithful(st.memo, svc)
    ensures forall k :: 0 <= k < |data| ==>
              LocateAll(data, st, svc).0[k] == if data[k].activa && data[k].latitud.None? then Placed(data[k], svc) else data[k]
    ensures Faithful(LocateAll(data, st, svc).1.memo, svc)
  {
    LocatorPlaces(svc);
    ThreadPlaces(data, st, Locator(svc), svc, Placer(svc));
  }

  /** What a loop of keeping turns does to the list and the resolver, as a whole. */
  lemma ThreadSummary(data: seq<Incidencia>, st: Resolver, step: Step)
    requires Keeps(step)
    ensures var r := Thread(data, st, step);
      && (forall k :: 0 <= k < |data| ==> SameButCoords(r.0[k], data[k]))
      && (forall k :: 0 <= k < |data| && !(data[k].activa && data[k].latitud.None?) ==> r.0[k] == data[k])
      && (AllLocated(data) ==> r == (data, st))
      && (Extracted(data) ==> Extracted(r.0))
      && Extends(st.memo, r.1.memo)
      && (Valid(st) ==> Valid(r.1))
  {
    var r := Thread(data, st, step);
    forall k | 0 <= k < |data|
      ensures SameButCoords(r.0[k], data[k])
      ensures !(data[k].activa && data[k].latitud.None?) ==> r.0[k] == data[k]
      ensures WellFormed(data[k]) ==> WellFormed(r.0[k])
    {
      ThreadKeeps(data, st, step, k);
    }
    ThreadResolver(data, st, step);
    if AllLocated(data) {
      ThreadLocated(data, st, step);
    }
  }

  /** What the map view's loop does to the list and the resolver, as a whole. */
  lemma LocateAllSummary(data: seq<Incidencia>, st: Resolver, svc: Service)
    ensures var r := LocateAll(data, st, svc);
      && |r.0| == |data|
      && (forall k :: 0 <= k < |data| ==> SameButCoords(r.0[k], data[k]))
      && (forall k :: 0 <= k < |data| && !(data[k].activa && data[k].latitud.None?) ==> r.0[k] == data[k])
      && (AllLocated(data) ==> r == (data, st))
      && (Extracted(data) ==> Extracted(r.0))
      && Extends(st.memo, r.1.memo)
      && (Valid(st) ==> Valid(r.1))
  {
    LocatorKeeps(svc);
    ThreadSummary(data, st, Locator(svc));
  }

  /** The body of `get_baliza_ubicacion` on the served records: the first
      record with the id, located on demand; the located record takes its
      place in the list. */
  method LocateById(incs: seq<Incidencia>, st: Resolver, svc: Service, id: string)
    returns (incs': seq<Incidencia>, st': Resolver, r: Response<Incidencia>)
    ensures r.Ok? || r.NotFound?
    ensures r.NotFound? <==> FindById(incs, id).None?
    ensures r.NotFound? ==> incs' == incs && st' == st
    ensures r.Ok? ==> var k := FindById(incs, id).value;
                      && r.value.id == id
                      && SameButCoords(r.value, incs[k])
                      && incs' == incs[k := r.value]
                      && (incs[k].latitud.Some? ==> r.value == incs[k] && st' == st)
                      && (incs[k].latitud.None? ==> (r.value, st') == Geolocate(incs[k], st, svc))
    ensures Extracted(incs) ==> Extracted(incs')
    ensures Valid(st) ==> Valid(st')
  {
    incs', st' := incs, st;
    var found := FindById(incs, id);
    if found.None? {
      r := NotFound;
      return;
    }
    var k := found.value;
    var inc;
    inc, st' := Locate(incs[k], st, svc);
    incs' := incs[k := inc];
    if Extracted(incs) {
      ExtractedUpdate(incs, k, inc);
    }
    r := Ok(inc);
  }

  /** `get_baliza_ubicacion`: the record with the id, geocoded on its first
      request; the located record replaces the cached one, so a record that
      has coordinates is served as it is, without a lookup. */
  method GetBalizaUbicacion(c: Cache, st: Resolver, now: real, fetch: Fetch, svc: Service, id: string)
    returns (c': Cache, st': Resolver, r: Response<Incidencia>)
    ensures var served := GetIncidenciasConCache(c, now, fetch);
            && (r.ServerError? <==> served.data.None?)
            && (r.NotFound? <==> served.data.Some? && FindById(served.cache.data, id).None?)
            && (!r.Ok? ==> c' == served.cache && st' == st)
            && (r.Ok? ==> var k := FindById(served.cache.data, id).value;
                  && r.value.id == id
                  && SameButCoords(r.value, served.cache.data[k])
                  && c' == served.cache.(data := served.cache.data[k := r.value])
                  && (served.cache.data[k].latitud.Some? ==> r.value == served.cache.data[k] && st' == st)
                  && (served.cache.data[k].latitud.None? ==> (r.value, st') == Geolocate(served.cache.data[k], st, svc)))
    ensures !r.BadRequest?
    ensures CacheOk(c) && FetchOk(fetch) ==> CacheOk(c')
    ensures Valid(st) ==> Valid(st')
  {
    var served := GetIncidenciasConCache(c, now, fetch);
    c', st' := served.cache, st;
    if served.data.None? {
      r := ServerError;
      return;
    }
    var incs';
    incs', st', r := LocateById(served.cache.data, st, svc, id);
    c' := served.cache.(data := incs');
  }

  // ---------------------------------------------------------------------
  // get_balizas_mapa

  /** The map view: the active records that have coordinates, and how many
      active records have none. */
  datatype MapView = MapView(total: nat, geocodificadas: nat, sinGeocodificar: nat, data: seq<Incidencia>)

  /** Every active record of `s` already has coordinates. */
  predicate AllLocated(s: seq<Incidencia>) {
    forall k :: 0 <= k < |s| && s[k].activa ==> s[k].latitud.Some?
  }

  /** A record the map shows: active, with coordinates. */
  predicate Shown(inc: Incidencia) {
    inc.activa && inc.latitud.Some?
  }

  /** The loop of `get_balizas_mapa`: each active record without a latitude is
      geocoded in turn and the located record takes its place; inactive and
      already located records are left as they are. */
  method LocateActivas(data: seq<Incidencia>, st: Resolver, svc: Service)
    returns (located: seq<Incidencia>, st': Resolver)
    ensures |located| == |data|
    ensures forall k :: 0 <= k < |data| ==> SameButCoords(located[k], data[k])
    ensures forall k :: 0 <= k < |data| && !(data[k].activa && data[k].latitud.None?) ==> located[k] == data[k]
    ensures AllLocated(data) ==> located == data && st' == st
    ensures Extracted(data) ==> Extracted(located)
    ensures Extends(st.memo, st'.memo)
    ensures Valid(st) ==> Valid(st')
    ensures (located, st') == LocateAll(data, st, svc)
  {
    located, st' := ThreadEach(data, st, Locator(svc));
    LocateAllSummary(data, st, svc);
  }

  /** `get_balizas_mapa`: the active records are located in turn and the
      located ones replace the cached ones; the view lists, in order, the
      active records that have coordinates, and counts the active ones that
      still have none. */
  method GetBalizasMapa(c: Cache, st: Resolver, now: real, fetch: Fetch, svc: Service)
    returns (c': Cache, st': Resolver, r: Response<MapView>)
    ensures var served := GetIncidenciasConCache(c, now, fetch);
            && (r.ServerError? <==> served.data.None?)
            && (r.ServerError? ==> c' == served.cache && st' == st)
            && (r.Ok? ==> c'.lastUpdate == served.cache.lastUpdate && |c'.data| == |served.cache.data|)
            && (r.Ok? ==> forall k :: 0 <= k < |c'.data| ==> SameButCoords(c'.data[k], served.cache.data[k]))
            && (r.Ok? && AllLocated(served.cache.data) ==> c' == served.cache && st' == st)
            && (r.Ok? ==> (c'.data, st') == LocateAll(served.cache.data, st, svc))
    ensures r.Ok? ==> r.value.data == Filter(c'.data, Shown)
    ensures r.Ok? ==> r.value.total == r.value.geocodificadas == |r.value.data|
    ensures r.Ok? ==> r.value.geocodificadas + r.value.sinGeocodificar == Count(c'.data, IsActiva)
    ensures !r.NotFound? && !r.BadRequest?
    ensures CacheOk(c) && FetchOk(fetch) ==> CacheOk(c')
    ensures Valid(st) ==> Valid(st')
  {
    var served := GetIncidenciasConCache(c, now, fetch);
    c', st' := served.cache, st;
    if served.data.None? {
      r := ServerError;
      return;
    }
    var located;
    located, st' := LocateActivas(served.cache.data, st, svc);
    c' := served.cache.(data := located);
    var shown := Filter(located, Shown);
    FilterStronger(located, Shown, IsActiva);
    FilterCount(located, IsActiva);
    r := Ok(MapView(|shown|, |shown|, Count(located, IsActiva) - |shown|, shown));
  }

  /** When every active record already has coordinates, the map shows exactly
      the active records, and nothing is left to geocode. */
  lemma MapaOfLocated(incs: seq<Incidencia>)
    requires AllLocated(incs)
    ensures Filter(incs, Shown) == FiltrarActivas(incs)
  {
    FilterAgree(incs, Shown, IsActiva);
  }

  // ---------------------------------------------------------------------
  // get_por_tipo and get_status

  /** The category names an accident: `'ACCIDENTE' in inc.tipo`. */
  predicate PorAccidenteTipo(inc: Incidencia) {
    Contains(inc.tipo, Accidente)
  }

  predicate FijoTipo(inc: Incidencia) {
    !Contains(inc.tipo, Accidente)
  }

  /** One-pass references for the two category lists: active and of that category. */
  predicate ActivaPorAccidente(inc: Incidencia) {
    inc.activa && PorAccidenteTipo(inc)
  }

  predicate ActivaFija(inc: Incidencia) {
    inc.activa && FijoTipo(inc)
  }

  /** For an extracted record the substring test is the category test. */
  lemma AccidenteMeansPorAccidente(inc: Incidencia)
    requires WellFormed(inc)
    ensures PorAccidenteTipo(inc) <==> inc.tipo == PorAccidente
  {
    AccidentMarksCategory();
  }

  /** `get_por_tipo`: the active records of one category, chosen by the
      lower-cased name "accidente" or "fijo"; any other name is a 400, but
      only after the records were obtained (a failed fetch is a 500 first). */
  function GetPorTipo(c: Cache, now: real, fetch: Fetch, tipo: string): (r: (Cache, Response<seq<Incidencia>>))
    ensures r.0 == GetIncidenciasConCache(c, now, fetch).cache
    ensures r.1.ServerError? <==> GetIncidenciasConCache(c, now, fetch).data.None?
    ensures r.1.BadRequest? <==> GetIncidenciasConCache(c, now, fetch).data.Some? &&
                                 Lower(tipo) != "accidente" && Lower(tipo) != "fijo"
    ensures r.1.Ok? && Lower(tipo) == "accidente" ==>
              forall x :: x in r.1.value <==> x in r.0.data && x.activa && PorAccidenteTipo(x)
    ensures r.1.Ok? && Lower(tipo) == "fijo" ==>
              forall x :: x in r.1.value <==> x in r.0.data && x.activa && !PorAccidenteTipo(x)
    ensures r.1.Ok? && Lower(tipo) == "accidente" ==> r.1.value == Filter(r.0.data, ActivaPorAccidente)
    ensures r.1.Ok? && Lower(tipo) == "fijo" ==> r.1.value == Filter(r.0.data, ActivaFija)
    ensures !r.1.NotFound?
  {
    var served := GetIncidenciasConCache(c, now, fetch);
    match served.data
    case None => (served.cache, ServerError)
    case Some(incs) =>
      var activas := FiltrarActivas(incs);
      FilterFilter(incs, IsActiva, PorAccidenteTipo, ActivaPorAccidente);
      FilterFilter(incs, IsActiva, FijoTipo, ActivaFija);
      if Lower(tipo) == "accidente" then (served.cache, Ok(Filter(activas, PorAccidenteTipo)))
      else if Lower(tipo) == "fijo" then (served.cache, Ok(Filter(activas, FijoTipo)))
      else (served.cache, BadRequest)
  }

  /** The two categories split the active records: each active record is in
      exactly one of them, as often as it is active. */
  lemma PorTipoPartition(c: Cache, now: real, fetch: Fetch, t1: string, t2: string)
    requires Lower(t1) == "accidente" && Lower(t2) == "fijo"
    requires GetIncidenciasConCache(c, now, fetch).data.Some?
    ensures var incs := GetIncidenciasConCache(c, now, fetch).cache.data;
            multiset(GetPorTipo(c, now, fetch, t1).1.value) + multiset(GetPorTipo(c, now, fetch, t2).1.value)
              == multiset(FiltrarActivas(incs))
  {
    var incs := GetIncidenciasConCache(c, now, fetch).cache.data;
    FilterPartition(FiltrarActivas(incs), PorAccidenteTipo, FijoTipo);
  }

  /** The counters of the status endpoint. */
  datatype Stats = Stats(totalIncidencias: nat, balizasActivas: nat, porAccidente: nat, obstaculosFijos: nat,
                         lastUpdate: Option<real>, ttlSeconds: real)

  /** The time the status reports: none before the first fetch, and none for a
      fetch at time 0.0, which Python's truthiness test treats as missing. */
  function ReportedTime(c: Cache): Option<real> {
    if c.lastUpdate.Some? && c.lastUpdate.value != 0.0 then c.lastUpdate else None
  }

  /** `get_status`: how many records, how many active, and how the active
      ones split by category. */
  function GetStatus(c: Cache, now: real, fetch: Fetch): (r: (Cache, Response<Stats>))
    ensures r.0 == GetIncidenciasConCache(c, now, fetch).cache
    ensures r.1.ServerError? <==> GetIncidenciasConCache(c, now, fetch).data.None?
    ensures r.1.Ok? ==> r.1.value.porAccidente + r.1.value.obstaculosFijos == r.1.value.balizasActivas
    ensures r.1.Ok? ==> r.1.value.balizasActivas <= r.1.value.totalIncidencias == |r.0.data|
    ensures r.1.Ok? ==> r.1.value.balizasActivas == Count(r.0.data, IsActiva)
    ensures r.1.Ok? ==> r.1.value.porAccidente == Count(FiltrarActivas(r.0.data), PorAccidenteTipo)
    ensures r.1.Ok? ==> r.1.value.obstaculosFijos == Count(FiltrarActivas(r.0.data), FijoTipo)
    ensures r.1.Ok? ==> (r.1.value.lastUpdate.Some? <==> r.0.lastUpdate.Some? && r.0.lastUpdate.value != 0.0)
    ensures r.1.Ok? && r.1.value.lastUpdate.Some? ==> r.1.value.lastUpdate == r.0.lastUpdate
    ensures r.1.Ok? ==> r.1.value.ttlSeconds == Ttl
    ensures !r.1.NotFound? && !r.1.BadRequest?
  {
    var served := GetIncidenciasConCache(c, now, fetch);
    match served.data
    case None => (served.cache, ServerError)
    case Some(incs) =>
      var activas := FiltrarActivas(incs);
      FilterPartition(activas, PorAccidenteTipo, FijoTipo);
      FilterCount(activas, PorAccidenteTipo);
      FilterCount(activas, FijoTipo);
      (served.cache, Ok(Stats(|incs|, |activas|, |Filter(activas, PorAccidenteTipo)|,
                              |Filter(activas, FijoTipo)|, ReportedTime(served.cache), Ttl)))
  }
}
