# Balizas DGT: a Dafny model of the incident extractor, the geocoder and the API logic

The system publishes the V16 warning beacons ("balizas") that the Spanish
traffic authority (DGT) lists as fixed obstacles on its incident page. This
project models three parts of it:

- the record extractor of `scraper.py`. It turns table rows into `Incidencia`
  records. Rows are selected by the marker phrase "OBSTÁCULO FIJO" and by having
  at least six cells. The id, dates, level, province, locality, road, kilometre
  marker, category and direction are then read from fixed cells with
  regular-expression rules. The module also holds the province-to-community
  lookup, the filtered URL builder and the active filter.
- the geocoder of `geocoding.py`. It is a memoised, rate-limited lookup against
  a Nominatim service. Seven query strategies are tried in a fixed order, from
  the most to the least precise. A normaliser cleans the kilometre marker and
  the locality, and the memo can be cleared.
- the selection logic of `app.py`. It has a 60-second cache in front of the
  upstream fetch that falls back to stale data. It finds a record by id,
  geocodes a record lazily, builds the map view, filters by category and counts
  for the status endpoint.

The HTML is abstracted into `Row` and `Cell` values. These expose exactly the
queries the extractor makes: texts, first `span`, `a`, `img`, `b`, and the
`onclick` and `alt` attributes. The six regular expressions are hand-written
scanners. Each scanner is proved against a predicate that says where the
pattern matches: it finds a match exactly when one exists, and it returns the
group of the leftmost match, which takes in the whole character run after the
pattern's fixed part, as the regular expression's greedy group does. The Nominatim service is a
function parameter: each query gets an answer and a latency. The upstream
fetch is a parameter value: the records of the page, or a failure. The
resolver state (memo, last request time, clock, and the log of request times)
and the cache are threaded explicitly through the operations.

Files:

- `wrappers.dfy`: `Option` and `FirstSome`, the first element of a sequence
  that yields a value.
- `text.dfy`: Python's `strip`, `upper`, `lower`, `replace`,
  `split(c)[0]` and `re.sub(r'\s+', ' ', ...)` on strings.
- `patterns.dfy`: the scanners for `inciCodigo=(\d+)`, `/(\d+)$`,
  `\d{2}/\d{2}/\d{4}`, `nivel_(\w+)\.gif`, `km\s*([\d.,]+)` and
  `sentido\s+(\w+)`.
- `tables.dfy`: the three lookup tables, entry for entry.
- `seqs.dfy`: order-preserving `Filter` and `Count`.
- `scraper.dfy`, `geocoding.dfy`, `app.dfy`: the three modules of the system.

## Model

| member | source | states |
|---|---|---|
| Scraper.GetComunidad | scraper.py:177-180 | The result is never empty. It is "DESCONOCIDA" exactly when the upper-cased, stripped province is not a key of the province table; otherwise it is that entry's community name |
| Scraper.GetComunidadIgnoresCase | scraper.py:179 | Upper-casing the province first does not change the community |
| Scraper.GetComunidadIgnoresPadding | scraper.py:179 | Whitespace around the province does not change the community |
| Tables.CommunitiesHaveIds | scraper.py:25-45 | Every community the province table yields is also a key of the community id table |
| Scraper.FirstOnclickCode | scraper.py:261-265 | The first link, in document order, whose `onclick` holds `inciCodigo=<digits>` gives the code; there is none only when no link has a code; the code is non-empty digits |
| Scraper.FirstAltCode | scraper.py:268-272 | The first image whose `alt` ends in `/<digits>` gives the code; there is none only when no image has one |
| Scraper.ExtractId | scraper.py:249-274 | The id is all digits. It is the onclick code whenever a link has one; only otherwise the alt code; "" exactly when neither exists |
| Patterns.SearchCodigo | scraper.py:263 | None exactly when `inciCodigo=` followed by a digit occurs nowhere; otherwise the group of the leftmost such occurrence |
| Patterns.CodigoGroup | scraper.py:263 | The group of a match is the whole digit run after `inciCodigo=`: it is followed by the end of the text or a non-digit |
| Patterns.SearchTrailingCode | scraper.py:270 | None exactly when no slash is followed by digits only up to the end (a final newline excepted); otherwise the digits that end the text after a slash |
| Patterns.SearchDate | scraper.py:310-312 | None exactly when no `dd/dd/dddd` occurs; otherwise the ten characters of the leftmost occurrence |
| Patterns.DateGroup | scraper.py:312 | The match at a position is the date-shaped ten characters there |
| Patterns.SearchNivel | scraper.py:318-321 | None exactly when no `nivel_<word>.gif` occurs; otherwise the word of the leftmost occurrence |
| Patterns.NivelGroupMaximal | scraper.py:320 | The word of a match is the text right after `nivel_`, and the next character is not a word character |
| Patterns.SearchKm | scraper.py:355-357 | None exactly when no case-insensitive "km", optional whitespace and a marker character occur; otherwise the marker of the leftmost occurrence |
| Patterns.KmGroupMaximal | scraper.py:356 | The marker of a match starts after "km" and all the whitespace that follows it, and the next character is not a digit, dot or comma |
| Patterns.SearchSentido | scraper.py:368-370 | None exactly when no case-insensitive "sentido", whitespace and a word character occur; otherwise the word of the leftmost occurrence |
| Patterns.SentidoGroupMaximal | scraper.py:369 | The word of a match starts after "sentido" and all the whitespace that follows it, and the next character is not a word character |
| Scraper.StartStamp | scraper.py:288-298 | The start date is the stripped link text and the start hour the stripped span text; each is "" when its element is absent |
| Scraper.EndOf | scraper.py:301-312 | An end hour exists exactly when the span has non-blank text, and it is that text stripped. An end date exists only then; it is the leftmost date in the cell text, and it is missing exactly when the cell text holds no date |
| Scraper.NivelOf | scraper.py:315-321 | The level is "desconocido" when there is no image, no or empty `src`, or no `nivel_<word>.gif` in it; otherwise it is the word of the leftmost match in `src` |
| Scraper.PlaceOf | scraper.py:324-335 | The province is the stripped bold text. The locality is "" when the province is empty or absent from the stripped cell text; otherwise it is that text with every occurrence of the province removed, stripped, and shorter by at least the province's length |
| Scraper.RoadOf | scraper.py:338-344 | The road is the stripped text of the first bold, or "" when the cell has none |
| Text.GapsOfCollapse | scraper.py:351 | Collapsing each whitespace run into one space does not change which visible characters there are, in which order, and which of them follow whitespace |
| Text.StripLayout | scraper.py:352 | Stripping does not change that layout either |
| Text.SameLayoutSame | scraper.py:350-352 | Two stripped, single-spaced texts with the same layout are equal |
| Scraper.DescriptionOf | scraper.py:350-352 | The description has no edge whitespace and no whitespace but single spaces, and it has the cell text's layout: the same visible characters in order, with a space between two of them exactly when whitespace separates them in the cell |
| Scraper.DescriptionOfUnique | scraper.py:350-352 | Any stripped, single-spaced text with the cell text's layout is the description |
| Scraper.PkOf | scraper.py:354-357 | The marker is "" exactly when the description has no kilometre match; otherwise it is the marker of the leftmost match |
| Scraper.TipoOf | scraper.py:359-364 | The category is "by accident" exactly when the upper-cased description holds both "OBSTÁCULO FIJO" and "ACCIDENTE"; it is always one of the two categories |
| Scraper.AccidentMarksCategory | scraper.py:362-364 | Of the two category names, only the accident one contains "ACCIDENTE" |
| Scraper.SentidoOf | scraper.py:366-378 | When the description names a direction, the direction is the word of the leftmost match; otherwise it is the stripped text of the first bold whose previous sibling mentions "sentido", or "" |
| Scraper.ParseRow | scraper.py:277-396 | Cell 0 gives the start, cell 1 the end, cell 2 the level, cell 3 province and locality, cell 4 the road, cell 5 the description, and category, marker and direction come from the description. The record is well formed and active exactly when it has no end date. The community is the lookup of the province, and the record has no coordinates yet |
| Scraper.ParseIncidencias | scraper.py:226-246 | Exactly one record per retained row, so never more records than rows |
| Scraper.ParseIncidenciasWellFormed | scraper.py:226-246 | Every extracted record is well formed and has an all-digit id |
| Scraper.ParseIncidenciasAppend | scraper.py:226-246 | Rows are processed independently: the records of `a + b` are those of `a` followed by those of `b` |
| Scraper.DroppedRowChangesNothing | scraper.py:227-234 | A row without the marker phrase or with fewer than six cells changes nothing around it |
| Scraper.RetainedRowYieldsOne | scraper.py:236-241 | A retained row contributes exactly its own record, in its place |
| Scraper.SameKeptRowsSameRecords | scraper.py:226-246 | The records depend only on the retained rows |
| Scraper.DecimalValue | scraper.py:414 | The decimal digits of a number read back as that number |
| Scraper.IdFor | scraper.py:410-417 | An id is "" exactly when the name is missing, empty or, upper-cased and unstripped, not a table key; otherwise it is the table's number written in decimal, without leading zeros |
| Scraper.BuildUrl | scraper.py:399-419 | The URL is the fixed URL with the two ids inserted and nothing else added |
| Scraper.BuildUrlDecodes | scraper.py:419 | Both filter ids can be read back out of the URL at their parameters |
| Scraper.BuildUrlUnfiltered | scraper.py:16 | Without filters the builder yields the module's fixed URL |
| Scraper.FiltrarActivas | scraper.py:441-451 | The result holds exactly the active records, as many as there are active records in the input |
| Scraper.FiltrarActivasAppend | scraper.py:451 | Filtering a concatenation filters each part, so the active records keep their order |
| Scraper.FiltrarActivasIdempotent | scraper.py:451 | Filtering the active records twice is filtering once |
| Seqs.FilterFilter | app.py:267-272 | Filtering the active records and then by category equals filtering once by both tests, order included |
| Seqs.FilterPartition | app.py:269-277 | A test and its negation split a sequence into two parts whose multisets add up to the whole |
| Geocoding.RateLimit | geocoding.py:37-44 | After the wait, the last request time is the current time and at least one second after the previous request; the clock never goes back; memo and request log are untouched |
| Geocoding.Nominatim | geocoding.py:47-87 | A remembered query is answered from the memo with no request and no state change. Otherwise exactly one request is sent, at least a second after the previous one. A hit or an empty answer is remembered under that query; a failure is not remembered and yields None. No other memo entry changes. Validity and agreement with the service are kept |
| Geocoding.LimpiarCache | geocoding.py:196-199 | The memo is emptied and nothing else changes |
| Geocoding.LimpiarCacheKeepsAnswers | geocoding.py:196-199 | While the memo agrees with the service, clearing it does not change what a cascade finds |
| Geocoding.SpacedSpan | geocoding.py:37-44 | In a valid state `n` requests span at least `n - 1` seconds |
| Geocoding.NormalizePk | geocoding.py:105 | The result has the marker's length; each comma becomes a dot and every other character is kept |
| Geocoding.NormalizePkIdempotent | geocoding.py:105 | Normalising twice is normalising once |
| Geocoding.LimpiarPoblacion | geocoding.py:108 | The result is the stripped part of the locality before its first "(", or the whole locality stripped when it has none |
| Geocoding.LimpiarPoblacionIdempotent | geocoding.py:108 | Cleaning twice is cleaning once |
| Geocoding.Strategies | geocoding.py:110-191 | Seven strategies with the precisions muy_alta, alta, alta, media, media, baja, estimada in that order. Every query ends in ", España", and the last is the province alone and always applies |
| Geocoding.StrategiesLabels | geocoding.py:110-191 | The seven precision labels are "muy_alta", "alta", "alta", "media", "media", "baja" and "estimada" |
| Geocoding.StrategiesApply | geocoding.py:110-191 | Each strategy applies exactly when the texts its query is built from are non-empty; the province query always applies |
| Geocoding.Candidates | geocoding.py:110-191 | Between one and seven queries are run, in descending precision, all ending in ", España"; only the last may be "estimada", and it is the province alone |
| Geocoding.CandidatesMostPrecise | geocoding.py:111 | The "muy_alta" query leads exactly when road, marker and locality are all non-empty |
| Geocoding.CandidatesFirst | geocoding.py:111-112 | With road, marker and locality known, the first query is "road km marker, locality, province, España" |
| Geocoding.CandidatesProvinceOnly | geocoding.py:110-191 | Only the province query is run exactly when road and locality are both empty |
| Geocoding.Cascade | geocoding.py:110-193 | Stops at the first hit, which carries that strategy's precision and source text; without a hit every query was run. Requests are only appended to the log, the memo only grows, and validity is kept |
| Geocoding.CascadeTransparent | geocoding.py:58-59 | While the memo agrees with the service, memo and rate limit are invisible: the cascade finds the hit of the first query the service can place |
| Geocoding.CascadeRepeat | geocoding.py:58-59 | Re-running a cascade whose requests did not fail sends no request and changes nothing |
| Geocoding.CascadeEstimada | geocoding.py:183-191 | When only the last query may be "estimada" and it is the province query, an "estimada" hit comes from the province query |
| Geocoding.GeocodificarBaliza | geocoding.py:90-193 | Between one and seven strategies are tried and at most seven requests sent; without a hit every applicable strategy was tried; an "estimada" hit comes from the province query; the memo only grows and validity is kept |
| Geocoding.GeocodificarBalizaFinds | geocoding.py:90-193 | While the memo agrees with the service, the result is the hit of the first applicable strategy the service can place, and the memo keeps agreeing |
| Geocoding.GeocodificarBalizaIgnoresComunidad | geocoding.py:90-193 | The community argument changes neither the requests nor the result |
| App.GetIncidenciasConCache | app.py:26-43 | A fresh cache is served unchanged, with no fetch. Otherwise a successful fetch replaces the data and sets the time. A failed fetch keeps the cache and serves it only when it is non-empty. A last-update time of 0 counts as unset, as Python's truthiness does |
| App.FetchedPageServedWithinTtl | app.py:30-31 | For 60 seconds after a fetch, requests are served from the cache whatever the upstream does |
| App.FailedFetchKeepsCache | app.py:38-42 | A failed refresh of a non-empty cache serves the stale records and keeps them |
| App.FindById | app.py:97 | The index of the first record with the id, or None exactly when no record has it |
| App.GetBalizaPorId | app.py:90-113 | 500 exactly when no records can be had; 404 exactly when none has the id; otherwise the first record with the id |
| App.Attach | app.py:138-141 | Latitude, longitude and precision label are set together and nothing else changes |
| App.Geolocate | app.py:130-141 | The lookup of a record changes only its coordinates, keeps it well formed, only adds to the memo and keeps the resolver valid |
| App.GeolocatePlaces | app.py:130-141 | While the memo agrees with the service, the lookup puts the record at the hit of the first applicable strategy the service can place, or leaves it when there is none |
| App.Locate | app.py:129-141 | A record with a latitude is returned as is, with no lookup. Otherwise it is the lookup of the record on its road, marker, province, locality and community, with a hit attached |
| App.LocateById | app.py:121-141 | 404 exactly when no record has the id, with nothing changed. Otherwise the first such record is located, replaced in the list and returned |
| App.GetBalizaUbicacion | app.py:116-151 | 500 exactly when no records can be had; 404 exactly when none has the id. Otherwise the first record with the id, located by the lookup when it has no latitude, which is stored back into the cache |
| App.LocateStep | app.py:165-178 | One turn of the map view's loop: an active record without a latitude gets the lookup; every other record and the resolver are left as they are |
| App.ThreadEach | app.py:165-178 | The loop computes the records and the resolver the fold over the records gives |
| App.ThreadKeeps | app.py:165-178 | After the loop, each record differs from the input only in its coordinates, and only when its own turn changes it |
| App.ThreadLocated | app.py:165-178 | When every active record has coordinates, the loop changes nothing and sends no request |
| App.ThreadPlaces | app.py:165-178 | With a memo that agrees with the service, every active record without coordinates ends where it belongs, whatever the order of the records and the memo |
| App.LocateAllPlaces | app.py:165-178 | With a memo that agrees with the service, the map view's loop places every active record without coordinates at the hit of its first applicable strategy the service can place |
| App.LocateAllSummary | app.py:165-178 | The map view's loop keeps the length, changes only the coordinates of active records without them, changes nothing when all active records are located, only adds to the memo and keeps the resolver valid |
| App.LocateActivas | app.py:165-178 | Every active record without a latitude is located by the lookup in turn; every other record and the length are unchanged; when all active records are located, nothing changes and no request is made |
| App.GetBalizasMapa | app.py:154-195 | The located records replace the cached ones. The map shows exactly the active records with coordinates, in order. `total == geocodificadas` is their number, and `geocodificadas + sin_geocodificar` is the number of active records |
| App.MapaOfLocated | app.py:181-182 | When every active record is located, the map holds exactly the active records |
| App.AccidenteMeansPorAccidente | app.py:270-271 | For an extracted record the substring test "ACCIDENTE" in the category is the test for the accident category |
| App.GetPorTipo | app.py:259-290 | "accidente" (any case) gives the active records whose category contains "ACCIDENTE", "fijo" the other active ones, each list in the order of the records, as one pass over them would produce it. Any other name is a 400, but only after the records were obtained |
| App.PorTipoPartition | app.py:269-277 | The two categories split the active records: together they hold each active record as often as it occurs |
| App.GetStatus | app.py:293-319 | The active count is the number of active records, at most the total; `por_accidente` counts the active records whose category contains "ACCIDENTE" and `obstaculos_fijos` the others, so the two add up to the active count. The last update is reported exactly when it is set and not 0, and the TTL is 60 |

## Left out

- HTTP: `fetch_balizas_activas`, `requests.get`, status checks and timeouts are not modelled. The upstream fetch is a parameter, either the records of the page or a failure. `FetchPage` says that a page's records are those of `ParseIncidencias` on its rows.
- HTML parsing: BeautifulSoup's tree, `get_text` and `find` are abstracted into `Row` and `Cell`. These carry the texts and attributes the extractor reads.
- Unicode: `\s` and `str.strip` cover every character for which Python's `isspace` holds. `\w`, `upper` and `lower` are modelled only on characters up to U+00FF, with the one-to-one case mappings. `\d` is modelled as the ASCII digits, while Python's also matches other scripts' digits. Python's length-changing mappings (such as "ß" to "SS") and other scripts are not modelled. Under `re.IGNORECASE`, Python also matches the Kelvin sign (U+212A) for "k", the long s (U+017F) for "s", and the dotless ı (U+0131) and dotted İ (U+0130) for the "i" of "sentido"; the "km" and "sentido" scanners do not.
- `float()` parsing of the service's coordinates is not modelled. A coordinate is an opaque pair of reals, and an unreadable one counts as a failed request.
- Time: the clock is part of the resolver state. `time.sleep` moves it forward by the wait, and each request moves it forward by the latency the service reports. The real wall clock and the Flask request time are parameters.
- The Nominatim service is deterministic: one reply per query.
- Flask routing, `jsonify`, CORS, `datetime` formatting, `to_dict` and every `print` are left out. Each endpoint returns its payload or the HTTP status it would answer with.
- App.GetPorTipo: the `last_update` field of the answer is not modelled; `GetStatus` states how that field is reported.
- The thin endpoints `home`, `get_balizas`, `get_todas`, `get_por_provincia` and `get_por_comunidad` are left out. They only serve or filter the cached list.
- `generar_mapa.py` (HTML templating and file output) is not part of this model.
- The `except` branch of `parse_incidencias` is not modelled. With the abstract rows `parse_row` cannot raise, so every retained row yields a record.
- Thread safety of the module-level memo and cache is not modelled; the code runs single-threaded.
- The `ttl` entry of the cache is the constant 60.
- Geocoding.CandidatesFirst: stated for any road, marker, province and locality, not for the literal A-1 / 23 / MADRID / Alcobendas example.
- Scraper.BuildUrl: its own contract only gives the URL's length. The content is stated by the round trip in `BuildUrlDecodes` and by `BuildUrlUnfiltered`.
- Geocoding.Strategies: its own contract gives the precisions, the order and the queries' country. Which strategies apply is stated by `StrategiesApply`, and the label texts by `StrategiesLabels`.
