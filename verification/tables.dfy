/**
 * The three lookup tables of scraper.py, entry for entry: the upstream
 * service's numeric ids for autonomous communities and for provinces, and the
 * province-to-community table. Every key is written in upper case. The source
 * stores the ids as decimal strings; here they are numbers rendered in decimal
 * where the URL is built. The community names the province table yields form a
 * closed set, written as the enumeration `Comunidad`.
 */
module Tables {
  import opened Text

  /** The communities that `PROVINCIAS_COMUNIDADES` can yield. */
  datatype Comunidad = Andalucia | Aragon | Asturias | IllesBalears | Canarias | Cantabria | CastillaLaMancha | CastillaYLeon | Cataluna | ComunidadValenciana | Extremadura | Galicia | Madrid | Murcia | Navarra | PaisVasco | LaRioja | Ceuta | Melilla {

    /** The name the source writes for this community. */
    function Name(): (n: string)
      ensures n != []
    {
      match this
      case Andalucia => "ANDALUCÍA"
      case Aragon => "ARAGÓN"
      case Asturias => "ASTURIAS"
      case IllesBalears => "ILLES BALEARS"
      case Canarias => "CANARIAS"
      case Cantabria => "CANTABRIA"
      case CastillaLaMancha => "CASTILLA-LA MANCHA"
      case CastillaYLeon => "CASTILLA Y LEÓN"
      case Cataluna => "CATALUÑA"
      case ComunidadValenciana => "COMUNIDAD VALENCIANA"
      case Extremadura => "EXTREMADURA"
      case Galicia => "GALICIA"
      case Madrid => "COMUNIDAD DE MADRID"
      case Murcia => "REGIÓN DE MURCIA"
      case Navarra => "NAVARRA"
      case PaisVasco => "PAÍS VASCO"
      case LaRioja => "LA RIOJA"
      case Ceuta => "CEUTA"
      case Melilla => "MELILLA"
    }
  }

  /** Community name -> the upstream `ca` id (scraper.py:25-45). */
  const ComunidadesIds: map<string, nat> :=
    map[
      "ANDALUCÍA" := 1, "ANDALUCIA" := 1, "ARAGÓN" := 2, "ARAGON" := 2,
      "ASTURIAS" := 3, "PRINCIPADO DE ASTURIAS" := 3, "ILLES BALEARS" := 4, "BALEARES" := 4,
      "ISLAS BALEARES" := 4, "CANARIAS" := 5, "CANTABRIA" := 6, "CASTILLA Y LEÓN" := 7,
      "CASTILLA Y LEON" := 7, "CASTILLA-LA MANCHA" := 8, "CASTILLA LA MANCHA" := 8, "CATALUÑA" := 9,
      "CATALUNA" := 9, "CATALUNYA" := 9, "COMUNIDAD VALENCIANA" := 10, "COMUNITAT VALENCIANA" := 10,
      "VALENCIA" := 10, "EXTREMADURA" := 11, "GALICIA" := 12, "COMUNIDAD DE MADRID" := 13,
      "MADRID" := 13, "REGIÓN DE MURCIA" := 14, "MURCIA" := 14, "NAVARRA" := 15,
      "COMUNIDAD FORAL DE NAVARRA" := 15, "PAÍS VASCO" := 16, "PAIS VASCO" := 16, "EUSKADI" := 16,
      "LA RIOJA" := 17, "RIOJA" := 17, "CEUTA" := 18, "MELILLA" := 19
    ]

  /** Province name -> the upstream `provIci` id (scraper.py:48-119). */
  const ProvinciasIds: map<string, nat> :=
    map[
      "ALMERÍA" := 4, "ALMERIA" := 4, "CÁDIZ" := 11, "CADIZ" := 11,
      "CÓRDOBA" := 14, "CORDOBA" := 14, "GRANADA" := 18, "HUELVA" := 21,
      "JAÉN" := 23, "JAEN" := 23, "MÁLAGA" := 29, "MALAGA" := 29,
      "SEVILLA" := 41, "HUESCA" := 22, "TERUEL" := 44, "ZARAGOZA" := 50,
      "ASTURIAS" := 33, "BALEARS, ILLES" := 7, "BALEARES" := 7, "ILLES BALEARS" := 7,
      "LAS PALMAS" := 35, "PALMAS, LAS" := 35, "SANTA CRUZ DE TENERIFE" := 38, "S.C.TENERIFE" := 38,
      "TENERIFE" := 38, "CANTABRIA" := 39, "ALBACETE" := 2, "CIUDAD REAL" := 13,
      "CUENCA" := 16, "GUADALAJARA" := 19, "TOLEDO" := 45, "ÁVILA" := 5,
      "AVILA" := 5, "BURGOS" := 9, "LEÓN" := 24, "LEON" := 24,
      "PALENCIA" := 34, "SALAMANCA" := 37, "SEGOVIA" := 40, "SORIA" := 42,
      "VALLADOLID" := 47, "ZAMORA" := 49, "BARCELONA" := 8, "GIRONA" := 17,
      "GERONA" := 17, "LLEIDA" := 25, "LÉRIDA" := 25, "LERIDA" := 25,
      "TARRAGONA" := 43, "ALICANTE" := 3, "ALACANT" := 3, "CASTELLÓN" := 12,
      "CASTELLÓ" := 12, "CASTELLON" := 12, "VALENCIA" := 46, "VALÈNCIA" := 46,
      "BADAJOZ" := 6, "CÁCERES" := 10, "CACERES" := 10, "A CORUÑA" := 15,
      "CORUÑA, A" := 15, "LA CORUÑA" := 15, "CORUÑA" := 15, "LUGO" := 27,
      "OURENSE" := 32, "ORENSE" := 32, "PONTEVEDRA" := 36, "MADRID" := 28,
      "MURCIA" := 30, "NAVARRA" := 31, "ÁLAVA" := 1, "ALAVA" := 1,
      "ARABA" := 1, "BIZKAIA" := 48, "VIZCAYA" := 48, "GIPUZKOA" := 20,
      "GUIPÚZCOA" := 20, "GUIPUZCOA" := 20, "LA RIOJA" := 26, "RIOJA, LA" := 26,
      "CEUTA" := 51, "MELILLA" := 52
    ]

  /** Province name -> community (scraper.py:122-174). */
  const ProvinciasComunidades: map<string, Comunidad> :=
    map[
      "ALMERÍA" := Andalucia, "CÁDIZ" := Andalucia, "CÓRDOBA" := Andalucia,
      "GRANADA" := Andalucia, "HUELVA" := Andalucia, "JAÉN" := Andalucia,
      "MÁLAGA" := Andalucia, "SEVILLA" := Andalucia, "HUESCA" := Aragon,
      "TERUEL" := Aragon, "ZARAGOZA" := Aragon, "ASTURIAS" := Asturias,
      "BALEARS, ILLES" := IllesBalears, "BALEARES" := IllesBalears, "LAS PALMAS" := Canarias,
      "SANTA CRUZ DE TENERIFE" := Canarias, "PALMAS, LAS" := Canarias, "S.C.TENERIFE" := Canarias,
      "CANTABRIA" := Cantabria, "ALBACETE" := CastillaLaMancha, "CIUDAD REAL" := CastillaLaMancha,
      "CUENCA" := CastillaLaMancha, "GUADALAJARA" := CastillaLaMancha, "TOLEDO" := CastillaLaMancha,
      "ÁVILA" := CastillaYLeon, "BURGOS" := CastillaYLeon, "LEÓN" := CastillaYLeon,
      "PALENCIA" := CastillaYLeon, "SALAMANCA" := CastillaYLeon, "SEGOVIA" := CastillaYLeon,
      "SORIA" := CastillaYLeon, "VALLADOLID" := CastillaYLeon, "ZAMORA" := CastillaYLeon,
      "BARCELONA" := Cataluna, "GIRONA" := Cataluna, "LLEIDA" := Cataluna,
      "TARRAGONA" := Cataluna, "ALICANTE" := ComunidadValenciana, "ALACANT" := ComunidadValenciana,
      "CASTELLÓN" := ComunidadValenciana, "CASTELLÓ" := ComunidadValenciana, "VALENCIA" := ComunidadValenciana,
      "VALÈNCIA" := ComunidadValenciana, "BADAJOZ" := Extremadura, "CÁCERES" := Extremadura,
      "CORUÑA, A" := Galicia, "A CORUÑA" := Galicia, "LA CORUÑA" := Galicia,
      "LUGO" := Galicia, "OURENSE" := Galicia, "PONTEVEDRA" := Galicia,
      "MADRID" := Madrid, "MURCIA" := Murcia, "NAVARRA" := Navarra,
      "ÁLAVA" := PaisVasco, "ARABA" := PaisVasco, "BIZKAIA" := PaisVasco,
      "VIZCAYA" := PaisVasco, "GIPUZKOA" := PaisVasco, "GUIPÚZCOA" := PaisVasco,
      "LA RIOJA" := LaRioja, "RIOJA, LA" := LaRioja, "CEUTA" := Ceuta,
      "MELILLA" := Melilla
    ]

  /** Every community the province table can yield has an upstream community id. */
  lemma CommunitiesHaveIds(c: Comunidad)
    ensures c.Name() in ComunidadesIds
  {
  }
}
