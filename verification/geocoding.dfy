/**
 * The geocoder of geocoding.py: a memoised, rate-limited lookup of free-text
 * queries against an OpenStreetMap Nominatim service, and the cascade of seven
 * query strategies that turns a road, a kilometre marker, a province and a
 * locality into coordinates.
 *
 * The service, the clock and `time.sleep` are not code this model can see:
 * the service is a parameter (a reply and its latency for every query), and
 * the resolver state carries the memo, the time of the last request, the
 * current time and the log of the times at which requests were sent.
 */
module Geocoding {
  import opened Wrappers
  import opened Text

  // ---------------------------------------------------------------------
  // The service

  /** A latitude/longitude pair as the service reports it. */
  datatype Coord = Coord(lat: real, lon: real)

  /** Durations, in seconds. */
  type Seconds = r: real | 0.0 <= r witness 0.0

  /** What one request yields: the first element of a non-empty result list,
      an empty result list, or an exception (network error, error status,
      unreadable body or coordinates). */
  datatype Answer = Found(coord: Coord) | NoResults | Failed

  /** One reply of the service and the time the request took. */
  datatype Reply = Reply(answer: Answer, latency: Seconds)

  type Service = string -> Reply

  /** The coordinates an answer yields to the caller. */
  function AnswerCoord(a: Answer): (r: Option<Coord>)
    ensures r.Some? <==> a.Found?
  {
    if a.Found? then Some(a.coord) else None
  }

  // ---------------------------------------------------------------------
  // Resolver state

  /** The module-level state: the memo `_geocode_cache`, the time of the
      last request `_last_request_time`, the clock, and the times at which
      requests were sent, oldest first. */
  datatype Resolver = Resolver(
    memo: map<string, Option<Coord>>,
    last: real,
    clock: real,
    sent: seq<real>)

  /** Requests at least one second apart. */
  predicate Spaced(sent: seq<real>) {
    forall i :: 0 < i < |sent| ==> sent[i - 1] + 1.0 <= sent[i]
  }

  /** What every reachable resolver state satisfies. */
  predicate Valid(st: Resolver) {
    && Spaced(st.sent)
    && (st.sent != [] ==> st.sent[|st.sent| - 1] == st.last)
    && st.last <= st.clock
  }

  /** Every remembered answer is the one the service gives for its query. */
  predicate Faithful(memo: map<string, Option<Coord>>, svc: Service) {
    forall q :: q in memo ==> memo[q] == AnswerCoord(svc(q).answer)
  }

  /** Every entry of `m1` is in `m2` with the same value. */
  predicate Extends(m1: map<string, Option<Coord>>, m2: map<string, Option<Coord>>) {
    forall q :: q in m1 ==> q in m2 && m2[q] == m1[q]
  }

  /** The state at import: empty memo, last request at time 0. */
  function Init(clock: Seconds): (st: Resolver)
    ensures Valid(st) && st.memo == map[] && st.sent == []
  {
    Resolver(map[], 0.0, clock, [])
  }

  /** `_rate_limit`: waits until a second has passed since the last request,
      then records the current time as the time of this request. */
  function RateLimit(st: Resolver): (r: Resolver)
    ensures r.memo == st.memo && r.sent == st.sent
    ensures r.last == r.clock && r.clock >= st.clock
    ensures r.last >= st.last + 1.0
    ensures r.clock == st.clock || r.clock == st.last + 1.0
  {
    var elapsed := st.clock - st.last;
    var now := if elapsed < 1.0 then st.clock + (1.0 - elapsed) else st.clock;
    st.(last := now, clock := now)
  }

  /** The resolver state after a lookup, and the coordinates found. */
  datatype Lookup = Lookup(st: Resolver, coord: Option<Coord>)

  /** `geocodificar_nominatim`: a remembered query is answered from the memo
      without a request; otherwise the request is rate limited and sent, and
      its answer remembered unless it failed. */
  function Nominatim(st: Resolver, query: string, svc: Service): (r: Lookup)
    ensures query in st.memo ==> r == Lookup(st, st.memo[query])
    ensures query !in st.memo ==> r.coord == AnswerCoord(svc(query).answer)
    ensures query !in st.memo ==> |r.st.sent| == |st.sent| + 1 && r.st.sent[..|st.sent|] == st.sent
    ensures query !in st.memo ==> r.st.sent[|st.sent|] >= st.last + 1.0
    ensures Extends(st.memo, r.st.memo)
    ensures forall q :: q in r.st.memo && q !in st.memo ==> q == query
    ensures query in r.st.memo <==> query in st.memo || !svc(query).answer.Failed?
    ensures query in r.st.memo ==> r.st.memo[query] == r.coord
    ensures Valid(st) ==> Valid(r.st)
    ensures Faithful(st.memo, svc) ==> r.coord == AnswerCoord(svc(query).answer) && Faithful(r.st.memo, svc)
    ensures r.st.clock >= st.clock
  {
    if query in st.memo then Lookup(st, st.memo[query])
    else
      var ready := RateLimit(st);
      var reply := svc(query);
      var after := ready.(sent := ready.sent + [ready.last], clock := ready.clock + reply.latency);
      match reply.answer
      case Found(c) => Lookup(after.(memo := after.memo[query := Some(c)]), Some(c))
      case NoResults => Lookup(after.(memo := after.memo[query := None]), None)
      case Failed => Lookup(after, None)
  }

  /** `limpiar_cache`: forgets every remembered answer and nothing else. */
  function LimpiarCache(st: Resolver): (r: Resolver)
    ensures r.memo == map[]
    ensures r.last == st.last && r.clock == st.clock && r.sent == st.sent
    ensures Valid(st) ==> Valid(r)
  {
    st.(memo := map[])
  }

  // ---------------------------------------------------------------------
  // Input normalisation

  /** The kilometre marker with decimal commas made points. */
  function NormalizePk(pk: string): (r: string)
    ensures |r| == |pk| && ',' !in r
    ensures forall i :: 0 <= i < |pk| && pk[i] != ',' ==> r[i] == pk[i]
    ensures forall i :: 0 <= i < |pk| && pk[i] == ',' ==> r[i] == '.'
  {
    ReplaceChar(pk, ',', '.')
  }

  /** The locality without any parenthesised suffix, stripped: "OUTEIRO (O)"
      becomes "OUTEIRO". */
  function LimpiarPoblacion(poblacion: string): (r: string)
    ensures '(' !in r && NoEdgeSpace(r)
    ensures Contains(poblacion, r)
    ensures '(' !in poblacion ==> r == Strip(poblacion)
    ensures forall k: nat :: ParenthesisAt(poblacion, k) ==> r == Strip(poblacion[..k])
  {
    var head := Before(poblacion, '(');
    forall k: nat | ParenthesisAt(poblacion, k) ensures k == |head| {
    }
    StripWithin(head);
    ContainsFromPrefix(poblacion, |head|, Strip(head));
    PoblacionWithoutParenthesis(poblacion);
    StripKeepsOut(head, '(');
    Strip(head)
  }

  /** `k` is where `split('(')[0]` ends: the first '(' of `s`, or its end when there is none. */
  predicate ParenthesisAt(s: string, k: nat) {
    k <= |s| && '(' !in s[..k] && (k == |s| || s[k] == '(')
  }

  lemma PoblacionWithoutParenthesis(poblacion: string)
    ensures '(' !in poblacion ==> Before(poblacion, '(') == poblacion
  {
    if '(' !in poblacion {
      BeforeAbsent(poblacion, '(');
    }
  }

  /** Cleaning the kilometre marker twice is cleaning it once. */
  lemma NormalizePkIdempotent(pk: string)
    ensures NormalizePk(NormalizePk(pk)) == NormalizePk(pk)
  {
  }

  /** Cleaning the locality twice is cleaning it once. */
  lemma LimpiarPoblacionIdempotent(poblacion: string)
    ensures LimpiarPoblacion(LimpiarPoblacion(poblacion)) == LimpiarPoblacion(poblacion)
  {
    var r := LimpiarPoblacion(poblacion);
    BeforeAbsent(r, '(');
    StripStripped(r);
  }

  // ---------------------------------------------------------------------
  // The strategies

  /** The precision label of a strategy, from most to least precise. */
  datatype Precision = MuyAlta | Alta | Media | Baja | Estimada
  {
    function Label(): (s: string)
      ensures s != []
    {
      match this
      case MuyAlta => "muy_alta"
      case Alta => "alta"
      case Media => "media"
      case Baja => "baja"
      case Estimada => "estimada"
    }

    /** Higher is more precise. */
    function Rank(): (n: nat)
      ensures n <= 4
    {
      match this
      case MuyAlta => 4
      case Alta => 3
      case Media => 2
      case Baja => 1
      case Estimada => 0
    }
  }

  /** `Coordenadas`: a position, its precision label and a description of the
      query that found it. */
  datatype Coordenadas = Coordenadas(latitud: real, longitud: real, precision: Precision, fuente: string)

  /** One strategy ready to run: its query, the precision a hit gets, and the
      prefix of the description of a hit. */
  datatype Candidate = Candidate(query: string, precision: Precision, source: string)

  const Espana: string := ", España"
  const FromNominatim: string := "Nominatim: "
  const FromPoblacion: string := "Nominatim (población): "
  const FromProvincia: string := "Nominatim (provincia): "

  predicate EndsWith(s: string, suffix: string) {
    |suffix| <= |s| && s[|s| - |suffix|..] == suffix
  }

  /** Every query is a free-text address closed by the country. */
  function InSpain(address: string): (q: string)
    ensures EndsWith(q, Espana) && |q| == |address| + |Espana|
  {
    assert (address + Espana)[|address|..] == Espana;
    address + Espana
  }

  /** The coordinates a hit of candidate `c` yields. */
  function Hit(c: Candidate, at: Coord): (r: Coordenadas)
    ensures r.precision == c.precision && r.fuente == c.source + c.query
    ensures r.latitud == at.lat && r.longitud == at.lon
  {
    Coordenadas(at.lat, at.lon, c.precision, c.source + c.query)
  }

  /** The candidates are tried from the most to the least precise. */
  predicate Descending(cands: seq<Candidate>) {
    forall i :: 0 < i < |cands| ==> cands[i - 1].precision.Rank() >= cands[i].precision.Rank()
  }

  /** Every query is a free-text address closed by the country. */
  predicate AllInSpain(cands: seq<Candidate>) {
    forall i :: 0 <= i < |cands| ==> EndsWith(cands[i].query, Espana)
  }

  /** No candidate but the last is labelled "estimada". */
  predicate EstimadaLast(cands: seq<Candidate>) {
    forall i :: 0 <= i < |cands| - 1 ==> cands[i].precision != Estimada
  }

  /** One of the seven strategies: whether the texts it needs are known, and
      the candidate it runs. */
  datatype Strategy = Strategy(applies: bool, cand: Candidate)

  /** The candidates of the strategies that apply, in their order. */
  function Applicable(ss: seq<Strategy>): (r: seq<Candidate>)
    ensures |r| <= |ss|
  {
    if ss == [] then []
    else if ss[0].applies then [ss[0].cand] + Applicable(ss[1..])
    else Applicable(ss[1..])
  }

  /** What holds of every strategy's candidate holds of every applicable one. */
  lemma {:induction false} ApplicableAll(ss: seq<Strategy>, p: Candidate -> bool)
    requires forall i :: 0 <= i < |ss| ==> p(ss[i].cand)
    ensures forall k :: 0 <= k < |Applicable(ss)| ==> p(Applicable(ss)[k])
    decreases |ss|
  {
    if ss != [] {
      assert forall i :: 0 <= i < |ss[1..]| ==> ss[1..][i] == ss[i + 1];
      ApplicableAll(ss[1..], p);
    }
  }

  /** A strategy that always applies, placed last, supplies the last candidate. */
  lemma {:induction false} ApplicableLast(ss: seq<Strategy>)
    requires ss != [] && ss[|ss| - 1].applies
    ensures Applicable(ss) != [] && Applicable(ss)[|Applicable(ss)| - 1] == ss[|ss| - 1].cand
    decreases |ss|
  {
    if |ss| > 1 {
      assert ss[1..][|ss| - 2] == ss[|ss| - 1];
      ApplicableLast(ss[1..]);
    }
  }

  /** Strategies listed from the most to the least precise give descending candidates. */
  lemma {:induction false} ApplicableDescending(ss: seq<Strategy>)
    requires forall i, j :: 0 <= i < j < |ss| ==> ss[i].cand.precision.Rank() >= ss[j].cand.precision.Rank()
    ensures Descending(Applicable(ss))
    decreases |ss|
  {
    if ss != [] {
      var rest := ss[1..];
      assert forall i :: 0 <= i < |rest| ==> rest[i] == ss[i + 1];
      ApplicableDescending(rest);
      if ss[0].applies {
        var top := ss[0].cand.precision.Rank();
        ApplicableAll(rest, (c: Candidate) => c.precision.Rank() <= top);
      }
    }
  }

  /** When only the last strategy may be labelled "estimada", only the last
      candidate is. */
  lemma {:induction false} ApplicableEstimadaLast(ss: seq<Strategy>)
    requires ss != [] && ss[|ss| - 1].applies
    requires forall i :: 0 <= i < |ss| - 1 ==> ss[i].cand.precision != Estimada
    ensures EstimadaLast(Applicable(ss))
    decreases |ss|
  {
    if |ss| > 1 {
      var rest := ss[1..];
      assert forall i :: 0 <= i < |rest| ==> rest[i] == ss[i + 1];
      ApplicableEstimadaLast(rest);
      ApplicableLast(rest);
    }
  }

  /** Strategies that do not apply contribute nothing. */
  lemma {:induction false} ApplicableSkip(ss: seq<Strategy>, n: nat)
    requires n <= |ss|
    requires forall i :: 0 <= i < n ==> !ss[i].applies
    ensures Applicable(ss) == Applicable(ss[n..])
    decreases n
  {
    if n > 0 {
      assert ss[1..][n - 1..] == ss[n..];
      ApplicableSkip(ss[1..], n - 1);
    }
  }

  /** An applicable strategy before an always-applicable last one makes at
      least two candidates. */
  lemma {:induction false} ApplicableTwo(ss: seq<Strategy>, i: nat)
    requires i < |ss| - 1 && ss[i].applies && ss[|ss| - 1].applies
    ensures |Applicable(ss)| >= 2
    decreases i
  {
    var rest := ss[1..];
    assert rest[|rest| - 1] == ss[|ss| - 1];
    if i == 0 {
      ApplicableLast(rest);
    } else {
      assert rest[i - 1] == ss[i];
      ApplicableTwo(rest, i - 1);
    }
  }

  /** The seven strategies of `geocodificar_baliza`, from the most to the
      least precise, for a road, a cleaned kilometre marker, a province and a
      cleaned locality; an empty text disables the strategies that need it,
      and the province alone always applies. */
  function Strategies(carretera: string, pk: string, provincia: string, poblacion: string): (ss: seq<Strategy>)
    ensures |ss| == 7 && ss[6] == Strategy(true, LastResort(provincia))
    ensures forall i, j :: 0 <= i < j < |ss| ==> ss[i].cand.precision.Rank() >= ss[j].cand.precision.Rank()
    ensures forall i :: 0 <= i < |ss| ==> EndsWith(ss[i].cand.query, Espana)
    ensures forall i :: 0 <= i < |ss| - 1 ==> ss[i].cand.precision != Estimada
    ensures forall i :: 0 <= i < |ss| ==> ss[i].cand.precision == StrategyPrecisions[i]
  {
    [ Strategy(carretera != [] && pk != [] && poblacion != [],
               Candidate(InSpain(carretera + " km " + pk + ", " + poblacion + ", " + provincia), MuyAlta, FromNominatim)),
      Strategy(poblacion != [] && carretera != [],
               Candidate(InSpain(poblacion + ", " + carretera + ", " + provincia), Alta, FromNominatim)),
      Strategy(carretera != [] && pk != [],
               Candidate(InSpain(carretera + " kilómetro " + pk + ", " + provincia), Alta, FromNominatim)),
      Strategy(carretera != [] && pk != [],
               Candidate(InSpain(carretera + " km " + pk), Media, FromNominatim)),
      Strategy(poblacion != [],
               Candidate(InSpain(poblacion + ", " + provincia), Media, FromPoblacion)),
      Strategy(carretera != [],
               Candidate(InSpain("carretera " + carretera + ", " + provincia), Baja, FromNominatim)),
      Strategy(true, LastResort(provincia)) ]
  }

  /** Each of the first six strategies applies exactly when the texts its query
      is built from are known; the last resort always applies. */
  lemma StrategiesApply(carretera: string, pk: string, provincia: string, poblacion: string)
    ensures var ss := Strategies(carretera, pk, provincia, poblacion);
      && (ss[0].applies <==> carretera != [] && pk != [] && poblacion != [])
      && (ss[1].applies <==> poblacion != [] && carretera != [])
      && (ss[2].applies <==> carretera != [] && pk != [])
      && (ss[3].applies <==> carretera != [] && pk != [])
      && (ss[4].applies <==> poblacion != [])
      && (ss[5].applies <==> carretera != [])
      && ss[6].applies
  {
  }

  /** The precisions of the seven strategies, in order. */
  const StrategyPrecisions: seq<Precision> := [MuyAlta, Alta, Alta, Media, Media, Baja, Estimada]

  /** The precision labels of the seven strategies, in order. */
  const StrategyLabels: seq<string> := ["muy_alta", "alta", "alta", "media", "media", "baja", "estimada"]

  /** The seven strategies carry the labels "muy_alta", "alta", "alta",
      "media", "media", "baja" and "estimada", in that order. */
  lemma StrategiesLabels(carretera: string, pk: string, provincia: string, poblacion: string)
    ensures var ss := Strategies(carretera, pk, provincia, poblacion);
            forall i :: 0 <= i < |ss| ==> ss[i].cand.precision.Label() == StrategyLabels[i]
  {
    var ss := Strategies(carretera, pk, provincia, poblacion);
    forall i | 0 <= i < |ss| ensures ss[i].cand.precision.Label() == StrategyLabels[i] {
      assert ss[i].cand.precision == StrategyPrecisions[i];
    }
  }

  /** The candidates `geocodificar_baliza` runs, in the order it runs them. */
  function Candidates(carretera: string, pk: string, provincia: string, poblacion: string): (r: seq<Candidate>)
    ensures 1 <= |r| <= 7
    ensures r[|r| - 1] == LastResort(provincia)
    ensures Descending(r) && AllInSpain(r) && EstimadaLast(r)
  {
    var ss := Strategies(carretera, pk, provincia, poblacion);
    ApplicableLast(ss);
    ApplicableDescending(ss);
    ApplicableAll(ss, (c: Candidate) => EndsWith(c.query, Espana));
    ApplicableEstimadaLast(ss);
    Applicable(ss)
  }

  /** The most precise strategy leads exactly when road, marker and locality
      are all known. */
  lemma CandidatesMostPrecise(carretera: string, pk: string, provincia: string, poblacion: string)
    ensures Candidates(carretera, pk, provincia, poblacion)[0].precision == MuyAlta
            <==> carretera != [] && pk != [] && poblacion != []
  {
    var ss := Strategies(carretera, pk, provincia, poblacion);
    var r := Candidates(carretera, pk, provincia, poblacion);
    assert r == Applicable(ss);
    if ss[0].applies {
      assert r[0] == ss[0].cand;
    } else {
      var rest := ss[1..];
      assert forall i :: 0 <= i < |rest| ==> rest[i] == ss[i + 1];
      ApplicableAll(rest, (c: Candidate) => c.precision != MuyAlta);
      assert r == Applicable(rest);
    }
  }

  /** With road, marker and locality known, the first query names all four. */
  lemma CandidatesFirst(carretera: string, pk: string, provincia: string, poblacion: string)
    requires carretera != [] && pk != [] && poblacion != []
    ensures Candidates(carretera, pk, provincia, poblacion)[0]
            == Candidate(InSpain(carretera + " km " + pk + ", " + poblacion + ", " + provincia), MuyAlta, FromNominatim)
  {
  }

  /** Without road and locality only the province is tried. */
  lemma CandidatesProvinceOnly(carretera: string, pk: string, provincia: string, poblacion: string)
    ensures |Candidates(carretera, pk, provincia, poblacion)| == 1 <==> carretera == [] && poblacion == []
  {
    var ss := Strategies(carretera, pk, provincia, poblacion);
    if carretera == [] && poblacion == [] {
      ApplicableSkip(ss, 6);
      assert ss[6..] == [ss[6]];
    } else if carretera != [] {
      ApplicableTwo(ss, 5);
    } else {
      ApplicableTwo(ss, 4);
    }
  }

  /** The last strategy: the province alone. */
  function LastResort(provincia: string): (c: Candidate)
    ensures c.precision == Estimada && EndsWith(c.query, Espana)
  {
    Candidate(InSpain(provincia), Estimada, FromProvincia)
  }

  // ---------------------------------------------------------------------
  // The cascade

  /** The state after a cascade, the coordinates found, and how many
      strategies were run. */
  datatype Outcome = Outcome(st: Resolver, coords: Option<Coordenadas>, tried: nat)

  /** Runs the candidates in order and stops at the first that finds
      coordinates. */
  function Cascade(st: Resolver, cands: seq<Candidate>, svc: Service): (r: Outcome)
    ensures r.tried <= |cands|
    ensures r.coords.None? ==> r.tried == |cands|
    ensures r.coords.Some? ==> 1 <= r.tried && r.coords.value.precision == cands[r.tried - 1].precision
    ensures r.coords.Some? ==> r.coords.value.fuente == cands[r.tried - 1].source + cands[r.tried - 1].query
    ensures |st.sent| <= |r.st.sent| <= |st.sent| + r.tried && r.st.sent[..|st.sent|] == st.sent
    ensures Extends(st.memo, r.st.memo)
    ensures Valid(st) ==> Valid(r.st)
    ensures r.st.clock >= st.clock
    decreases |cands|
  {
    if cands == [] then Outcome(st, None, 0)
    else
      var look := Nominatim(st, cands[0].query, svc);
      match look.coord
      case Some(at) => Outcome(look.st, Some(Hit(cands[0], at)), 1)
      case None =>
        var rest := Cascade(look.st, cands[1..], svc);
        assert rest.st.sent[..|st.sent|] == rest.st.sent[..|look.st.sent|][..|st.sent|];
        Outcome(rest.st, rest.coords, rest.tried + 1)
  }

  /** The reference semantics of the cascade, without memo or clock: the hit
      of the first candidate the service locates. */
  function FirstLocated(cands: seq<Candidate>, svc: Service): (r: Option<Coordenadas>)
    ensures r.None? <==> forall k :: 0 <= k < |cands| ==> !svc(cands[k].query).answer.Found?
  {
    if cands == [] then None
    else if svc(cands[0].query).answer.Found? then Some(Hit(cands[0], svc(cands[0].query).answer.coord))
    else
      assert forall k :: 1 <= k < |cands| ==> cands[k] == cands[1..][k - 1];
      FirstLocated(cands[1..], svc)
  }

  /** With a memo that agrees with the service, the memo and the rate limit
      are invisible: the cascade finds what the reference semantics finds,
      and the memo still agrees with the service afterwards. */
  lemma {:induction false} CascadeTransparent(st: Resolver, cands: seq<Candidate>, svc: Service)
    requires Faithful(st.memo, svc)
    ensures Cascade(st, cands, svc).coords == FirstLocated(cands, svc)
    ensures Faithful(Cascade(st, cands, svc).st.memo, svc)
    decreases |cands|
  {
    if cands != [] {
      var look := Nominatim(st, cands[0].query, svc);
      if look.coord.None? {
        CascadeTransparent(look.st, cands[1..], svc);
      }
    }
  }

  /** Running the same cascade again on the state it left behind sends no
      request and changes nothing, provided no query it sent failed. */
  lemma {:induction false} CascadeRepeat(st: Resolver, cands: seq<Candidate>, svc: Service)
    requires forall k :: 0 <= k < Cascade(st, cands, svc).tried ==>
               cands[k].query in st.memo || !svc(cands[k].query).answer.Failed?
    ensures Cascade(Cascade(st, cands, svc).st, cands, svc) == Cascade(st, cands, svc)
    decreases |cands|
  {
    var r := Cascade(st, cands, svc);
    if cands != [] {
      var look := Nominatim(st, cands[0].query, svc);
      assert cands[0].query in look.st.memo;
      if look.coord.None? {
        var rest := Cascade(look.st, cands[1..], svc);
        forall k | 0 <= k < rest.tried
          ensures cands[1..][k].query in look.st.memo || !svc(cands[1..][k].query).answer.Failed?
        {
          assert cands[1..][k] == cands[k + 1];
        }
        CascadeRepeat(look.st, cands[1..], svc);
        assert r.st == rest.st;
      }
    }
  }

  /** Forgetting the memo does not change what a cascade finds, as long as
      the memo agreed with the service. */
  lemma LimpiarCacheKeepsAnswers(st: Resolver, cands: seq<Candidate>, svc: Service)
    requires Faithful(st.memo, svc)
    ensures Cascade(LimpiarCache(st), cands, svc).coords == Cascade(st, cands, svc).coords
  {
    CascadeTransparent(st, cands, svc);
    CascadeTransparent(LimpiarCache(st), cands, svc);
  }

  /** The request log of a valid state spans at least one second per gap:
      `n` requests take at least `n - 1` seconds. */
  lemma {:induction false} SpacedSpan(sent: seq<real>)
    requires Spaced(sent) && sent != []
    ensures sent[|sent| - 1] - sent[0] >= (|sent| - 1) as real
    decreases |sent|
  {
    if |sent| > 1 {
      var front := sent[..|sent| - 1];
      assert forall i :: 0 <= i < |front| ==> front[i] == sent[i];
      SpacedSpan(front);
      assert sent[|sent| - 2] + 1.0 <= sent[|sent| - 1];
    }
  }

  // ---------------------------------------------------------------------
  // geocodificar_baliza

  /** `geocodificar_baliza`: cleans the kilometre marker and the locality and
      runs the strategies that apply. The community is accepted and unused. */
  function GeocodificarBaliza(st: Resolver, carretera: string, pk: string, provincia: string,
                              poblacion: string, comunidad: string, svc: Service): (r: Outcome)
    ensures 1 <= r.tried <= 7 && |r.st.sent| <= |st.sent| + 7
    ensures r.coords.None? ==> r.tried == |Candidates(carretera, NormalizePk(pk), provincia, LimpiarPoblacion(poblacion))|
    ensures Extends(st.memo, r.st.memo)
    ensures Valid(st) ==> Valid(r.st)
    ensures r.coords.Some? && r.coords.value.precision == Estimada ==>
              r.coords.value.fuente == FromProvincia + InSpain(provincia)
  {
    var cands := Candidates(carretera, NormalizePk(pk), provincia, LimpiarPoblacion(poblacion));
    CascadeEstimada(st, cands, svc, provincia);
    Cascade(st, cands, svc)
  }

  /** With a memo that agrees with the service, a record is located at the
      hit of the first applicable strategy the service can place. */
  lemma {:induction false} GeocodificarBalizaFinds(st: Resolver, carretera: string, pk: string, provincia: string,
                                poblacion: string, comunidad: string, svc: Service)
    requires Faithful(st.memo, svc)
    ensures GeocodificarBaliza(st, carretera, pk, provincia, poblacion, comunidad, svc).coords
            == FirstLocated(Candidates(carretera, NormalizePk(pk), provincia, LimpiarPoblacion(poblacion)), svc)
    ensures Faithful(GeocodificarBaliza(st, carretera, pk, provincia, poblacion, comunidad, svc).st.memo, svc)
  {
    CascadeTransparent(st, Candidates(carretera, NormalizePk(pk), provincia, LimpiarPoblacion(poblacion)), svc);
  }

  /** The community argument changes neither the requests nor the result. */
  lemma GeocodificarBalizaIgnoresComunidad(st: Resolver, carretera: string, pk: string, provincia: string,
                                           poblacion: string, c1: string, c2: string, svc: Service)
    ensures GeocodificarBaliza(st, carretera, pk, provincia, poblacion, c1, svc)
            == GeocodificarBaliza(st, carretera, pk, provincia, poblacion, c2, svc)
  {
  }

  /** In a cascade whose only "estimada" candidate is the last resort, an
      "estimada" hit comes from the last resort. */
  lemma CascadeEstimada(st: Resolver, cands: seq<Candidate>, svc: Service, provincia: string)
    requires cands != [] && EstimadaLast(cands) && cands[|cands| - 1] == LastResort(provincia)
    ensures var r := Cascade(st, cands, svc);
            r.coords.Some? && r.coords.value.precision == Estimada ==>
              r.coords.value.fuente == FromProvincia + InSpain(provincia)
  {
    var r := Cascade(st, cands, svc);
    if r.coords.Some? && r.coords.value.precision == Estimada {
      assert r.tried - 1 == |cands| - 1;
    }
  }
}
