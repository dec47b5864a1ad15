/**
 * The InfoDengue extractor (infodengue-extractor/app/main.py): three
 * constant tables that map an IBGE capital geocode to its state (UF), a UF
 * to the state's name and a UF to its region, and the composition of the
 * request URL for the `alertcity` API.
 *
 * Reading the CSV over the network is a parameter: `fetch` gives the table
 * read from a URL, or nothing when reading raised.
 */
module Infodengue {
  import opened Common
  import opened Text

  const GeocodeToUf: map<int, string> := map[
    1200401 := "AC", 2704302 := "AL", 1302603 := "AM", 1600303 := "AP", 2927408 := "BA",
    2304400 := "CE", 5300108 := "DF", 3205309 := "ES", 5208707 := "GO", 2111300 := "MA",
    5103403 := "MT", 5002704 := "MS", 3106200 := "MG", 1501402 := "PA", 2507507 := "PB",
    4115200 := "PR", 2611606 := "PE", 2207702 := "PI", 3304557 := "RJ", 2408102 := "RN",
    4314902 := "RS", 1100023 := "RO", 1400100 := "RR", 4205407 := "SC", 3550308 := "SP",
    2800308 := "SE", 1721000 := "TO"]

  const UfToName: map<string, string> := map[
    "AC" := "Acre", "AL" := "Alagoas", "AM" := "Amazonas",
    "AP" := "Amapá", "BA" := "Bahia", "CE" := "Ceará",
    "DF" := "Distrito Federal", "ES" := "Espírito Santo", "GO" := "Goiás",
    "MA" := "Maranhão", "MT" := "Mato Grosso", "MS" := "Mato Grosso do Sul",
    "MG" := "Minas Gerais", "PA" := "Pará", "PB" := "Paraíba",
    "PR" := "Paraná", "PE" := "Pernambuco", "PI" := "Piauí",
    "RJ" := "Rio de Janeiro", "RN" := "Rio Grande do Norte", "RS" := "Rio Grande do Sul",
    "RO" := "Rondônia", "RR" := "Roraima", "SC" := "Santa Catarina",
    "SP" := "São Paulo", "SE" := "Sergipe", "TO" := "Tocantins"]

  const UfToRegion: map<string, string> := map[
    "AC" := "Norte", "AP" := "Norte", "AM" := "Norte", "PA" := "Norte", "RO" := "Norte", "RR" := "Norte", "TO" := "Norte",
    "AL" := "Nordeste", "BA" := "Nordeste", "CE" := "Nordeste", "MA" := "Nordeste", "PB" := "Nordeste",
    "PE" := "Nordeste", "PI" := "Nordeste", "RN" := "Nordeste", "SE" := "Nordeste",
    "DF" := "Centro-Oeste", "GO" := "Centro-Oeste", "MT" := "Centro-Oeste", "MS" := "Centro-Oeste",
    "ES" := "Sudeste", "MG" := "Sudeste", "RJ" := "Sudeste", "SP" := "Sudeste",
    "PR" := "Sul", "RS" := "Sul", "SC" := "Sul"]

  /** The UFs of a region. */
  function RegionOf(region: string): set<string> {
    set uf | uf in UfToRegion && UfToRegion[uf] == region
  }

  const Regions: set<string> := {"Norte", "Nordeste", "Centro-Oeste", "Sudeste", "Sul"}

  /** The states of each region, as the region table lists them. */
  const NorteUfs: set<string> := {"AC", "AP", "AM", "PA", "RO", "RR", "TO"}
  const NordesteUfs: set<string> := {"AL", "BA", "CE", "MA", "PB", "PE", "PI", "RN", "SE"}
  const CentroOesteUfs: set<string> := {"DF", "GO", "MT", "MS"}
  const SudesteUfs: set<string> := {"ES", "MG", "RJ", "SP"}
  const SulUfs: set<string> := {"PR", "RS", "SC"}

  /** How many states each region's table lists, for counting `RegionOf`. */
  lemma RegionSizes()
    ensures |NorteUfs| == 7 && |NordesteUfs| == 9 && |CentroOesteUfs| == 4 && |SudesteUfs| == 4 && |SulUfs| == 3
  {
  }

  /** The states of the Norte region. */
  lemma NorteStates()
    ensures RegionOf("Norte") == NorteUfs
  {
  }

  /** Each state of the Norte region has its capital in the geocode table. */
  lemma NorteHasCapitals()
    ensures forall u :: u in NorteUfs ==> u in GeocodeToUf.Values
  {
    assert GeocodeToUf[1200401] == "AC";
    assert GeocodeToUf[1600303] == "AP";
    assert GeocodeToUf[1302603] == "AM";
    assert GeocodeToUf[1501402] == "PA";
    assert GeocodeToUf[1100023] == "RO";
    assert GeocodeToUf[1400100] == "RR";
    assert GeocodeToUf[1721000] == "TO";
  }

  /** The states of the Nordeste region. */
  lemma NordesteStates()
    ensures RegionOf("Nordeste") == NordesteUfs
  {
  }

  /** Each state of the Nordeste region has its capital in the geocode table. */
  lemma NordesteHasCapitals()
    ensures forall u :: u in NordesteUfs ==> u in GeocodeToUf.Values
  {
    assert GeocodeToUf[2704302] == "AL";
    assert GeocodeToUf[2927408] == "BA";
    assert GeocodeToUf[2304400] == "CE";
    assert GeocodeToUf[2111300] == "MA";
    assert GeocodeToUf[2507507] == "PB";
    assert GeocodeToUf[2611606] == "PE";
    assert GeocodeToUf[2207702] == "PI";
    assert GeocodeToUf[2408102] == "RN";
    assert GeocodeToUf[2800308] == "SE";
  }

  /** The states of the Centro-Oeste region. */
  lemma CentroOesteStates()
    ensures RegionOf("Centro-Oeste") == CentroOesteUfs
  {
  }

  /** Each state of the Centro-Oeste region has its capital in the geocode table. */
  lemma CentroOesteHasCapitals()
    ensures forall u :: u in CentroOesteUfs ==> u in GeocodeToUf.Values
  {
    assert GeocodeToUf[5300108] == "DF";
    assert GeocodeToUf[5208707] == "GO";
    assert GeocodeToUf[5103403] == "MT";
    assert GeocodeToUf[5002704] == "MS";
  }

  /** The states of the Sudeste region. */
  lemma SudesteStates()
    ensures RegionOf("Sudeste") == SudesteUfs
  {
  }

  /** Each state of the Sudeste region has its capital in the geocode table. */
  lemma SudesteHasCapitals()
    ensures forall u :: u in SudesteUfs ==> u in GeocodeToUf.Values
  {
    assert GeocodeToUf[3205309] == "ES";
    assert GeocodeToUf[3106200] == "MG";
    assert GeocodeToUf[3304557] == "RJ";
    assert GeocodeToUf[3550308] == "SP";
  }

  /** The states of the Sul region. */
  lemma SulStates()
    ensures RegionOf("Sul") == SulUfs
  {
  }

  /** Each state of the Sul region has its capital in the geocode table. */
  lemma SulHasCapitals()
    ensures forall u :: u in SulUfs ==> u in GeocodeToUf.Values
  {
    assert GeocodeToUf[4115200] == "PR";
    assert GeocodeToUf[4314902] == "RS";
    assert GeocodeToUf[4205407] == "SC";
  }

  /** The five region names are exactly the values of the region table. */
  lemma RegionNames()
    ensures UfToRegion.Values == Regions
  {
    assert forall u :: u in UfToRegion ==> UfToRegion[u] in Regions;
    assert UfToRegion["AC"] == "Norte" && UfToRegion["AL"] == "Nordeste" && UfToRegion["DF"] == "Centro-Oeste";
    assert UfToRegion["ES"] == "Sudeste" && UfToRegion["PR"] == "Sul";
  }

  /** Every state lies in exactly one region. */
  lemma RegionsCover()
    ensures UfToRegion.Keys == RegionOf("Norte") + RegionOf("Nordeste") + RegionOf("Centro-Oeste")
                               + RegionOf("Sudeste") + RegionOf("Sul")
    ensures forall r, r' :: r != r' ==> RegionOf(r) !! RegionOf(r')
  {
    RegionNames();
  }

  /** The regions partition the states, 7 + 9 + 4 + 4 + 3 of them. */
  lemma RegionCounts()
    ensures |RegionOf("Norte")| == 7 && |RegionOf("Nordeste")| == 9 && |RegionOf("Centro-Oeste")| == 4
    ensures |RegionOf("Sudeste")| == 4 && |RegionOf("Sul")| == 3
    ensures |UfToRegion| == 27
  {
    NorteStates();
    NordesteStates();
    CentroOesteStates();
    SudesteStates();
    SulStates();
    RegionSizes();
    RegionsCover();
    var n, ne, co, se, s := RegionOf("Norte"), RegionOf("Nordeste"), RegionOf("Centro-Oeste"), RegionOf("Sudeste"), RegionOf("Sul");
    assert n !! ne && (n + ne) !! co && (n + ne + co) !! se && (n + ne + co + se) !! s;
  }

  /** Every state of the region table has its capital in the geocode table. */
  lemma EveryStateHasCapital()
    ensures UfToRegion.Keys <= GeocodeToUf.Values
  {
    RegionsCover();
    NorteStates();
    NordesteStates();
    CentroOesteStates();
    SudesteStates();
    SulStates();
    NorteHasCapitals();
    NordesteHasCapitals();
    CentroOesteHasCapitals();
    SudesteHasCapitals();
    SulHasCapitals();
  }

  /** The name table and the region table list the same states. */
  lemma NamesAndRegionsAgree()
    ensures UfToName.Keys == UfToRegion.Keys
  {
  }

  /** The capitals' geocodes in increasing order. */
  const Geocodes: seq<int> := [1100023, 1200401, 1302603, 1400100, 1501402, 1600303, 1721000, 2111300, 2207702, 2304400, 2408102, 2507507, 2611606, 2704302, 2800308, 2927408, 3106200, 3205309, 3304557, 3550308, 4115200, 4205407, 4314902, 5002704, 5103403, 5208707, 5300108]

  /** The geocode table has 27 entries. */
  lemma GeocodeCount()
    ensures |GeocodeToUf| == 27
  {
    assert Increasing(Geocodes);
    assert GeocodeToUf.Keys == set g | g in Geocodes;
    IncreasingCard(Geocodes);
  }

  /**
   * The three tables name the same 27 states: the UFs of the geocode table
   * are the keys of the name table and of the region table.
   */
  lemma TablesAgree()
    ensures GeocodeToUf.Values == UfToName.Keys == UfToRegion.Keys
    ensures |UfToName| == 27
  {
    NamesAndRegionsAgree();
    EveryStateHasCapital();
    RegionCounts();
    GeocodeCount();
    ValuesAtMostKeys(GeocodeToUf);
    SubsetOfSmallerIsEqual(UfToRegion.Keys, GeocodeToUf.Values);
  }

  /** The geocode table has 27 entries and no two geocodes share a UF. */
  lemma GeocodeToUfInjective()
    ensures |GeocodeToUf| == 27
    ensures forall g, h :: g in GeocodeToUf && h in GeocodeToUf && GeocodeToUf[g] == GeocodeToUf[h] ==> g == h
  {
    GeocodeCount();
    TablesAgree();
    FullImageInjective(GeocodeToUf);
  }

  predicate Increasing(s: seq<int>) {
    forall i :: 0 <= i < |s| - 1 ==> s[i] < s[i + 1]
  }

  /** An increasing sequence has as many distinct elements as it is long. */
  lemma {:induction false} IncreasingCard(s: seq<int>)
    requires Increasing(s)
    ensures |set x | x in s| == |s|
    decreases |s|
  {
    if s != [] {
      var t := s[1..];
      IncreasingCard(t);
      IncreasingStart(s);
      assert (set x | x in s) == (set x | x in t) + {s[0]};
    }
  }

  lemma {:induction false} IncreasingStart(s: seq<int>)
    requires Increasing(s) && s != []
    ensures forall j :: 0 < j < |s| ==> s[0] < s[j]
    decreases |s|
  {
    if |s| > 1 {
      IncreasingStart(s[1..]);
      assert forall j :: 0 < j < |s| - 1 ==> s[1..][j] == s[j + 1];
    }
  }

  /** A map has no more distinct values than keys. */
  lemma {:induction false} ValuesAtMostKeys<K, V>(m: map<K, V>)
    ensures |m.Values| <= |m.Keys|
    decreases |m.Keys|
  {
    if m.Keys != {} {
      var k :| k in m;
      var rest := m - {k};
      ValuesAtMostKeys(rest);
      forall v | v in m.Values ensures v in rest.Values + {m[k]} {
        var j :| j in m && m[j] == v;
        if j != k {
          assert j in rest && rest[j] == v;
        }
      }
      SubsetCard(m.Values, rest.Values + {m[k]});
    }
  }

  lemma SubsetCard<T>(a: set<T>, b: set<T>)
    requires a <= b
    ensures |a| <= |b|
  {
    assert b == a + (b - a);
  }

  lemma SubsetOfSmallerIsEqual<T>(a: set<T>, b: set<T>)
    requires a <= b && |b| <= |a|
    ensures a == b
  {
    assert b == a + (b - a);
  }

  /** A map with as many distinct values as keys sends distinct keys to distinct values. */
  lemma FullImageInjective<K, V>(m: map<K, V>)
    requires |m.Values| == |m.Keys|
    ensures forall a, b :: a in m && b in m && m[a] == m[b] ==> a == b
  {
    forall a, b | a in m && b in m && m[a] == m[b] ensures a == b {
      if a != b {
        var rest := m - {a};
        forall v | v in m.Values ensures v in rest.Values {
          var k :| k in m && m[k] == v;
          if k == a {
            assert b in rest && rest[b] == v;
          } else {
            assert k in rest && rest[k] == v;
          }
        }
        assert rest.Values == m.Values;
        ValuesAtMostKeys(rest);
        assert false;
      }
    }
  }

  // ---------------------------------------------------------------------
  // The request
  // ---------------------------------------------------------------------

  /** The API's address, up to the query. */
  const AlertCityPath := "https://info.dengue.mat.br/api/alertcity"

  /** The query `BASE_URL` already carries, in five parts. */
  const DefaultGeocode := "geocode=2408102"
  const DefaultDisease := "&disease=dengue"
  const DefaultFormat := "&format=csv"
  const DefaultWeeks := "&ew_start=1&ew_end=2"
  const DefaultYears := "&ey_start=2024&ey_end=2024"
  const DefaultQuery := DefaultGeocode + DefaultDisease + DefaultFormat + DefaultWeeks + DefaultYears

  /** `BASE_URL`: Natal's dengue alerts for weeks 1 and 2 of 2024. */
  const BaseUrl := AlertCityPath + "?" + DefaultQuery

  /** The query text `get_data_infodengue` writes after its own '?'. */
  function Params(geocode: int, disease: string, ewStart: int, ewEnd: int, eyStart: int, eyEnd: int): string {
    "geocode=" + IntText(geocode) + "&disease=" + disease + "&format=csv"
    + "&ew_start=" + IntText(ewStart) + "&ew_end=" + IntText(ewEnd)
    + "&ey_start=" + IntText(eyStart) + "&ey_end=" + IntText(eyEnd)
  }

  /** The URL `get_data_infodengue` reads: `BASE_URL`, '?', then its own query. */
  function DataUrl(geocode: int, disease: string, ewStart: int, ewEnd: int, eyStart: int, eyEnd: int): string {
    BaseUrl + "?" + Params(geocode, disease, ewStart, ewEnd, eyStart, eyEnd)
  }

  /** The text holds no '?'. */
  predicate NoQuestionMark(s: string) {
    forall i :: 0 <= i < |s| ==> s[i] != '?'
  }

  lemma NoQuestionMarkCat(a: string, b: string)
    requires NoQuestionMark(a) && NoQuestionMark(b)
    ensures NoQuestionMark(a + b)
  {
    assert forall i :: |a| <= i < |a + b| ==> (a + b)[i] == b[i - |a|];
  }

  /** `str` of an integer holds digits and at most a minus sign, never a '?'. */
  lemma IntTextHasNoQuestionMark(n: int)
    ensures NoQuestionMark(IntText(n))
  {
    var t := IntText(n);
    if n < 0 {
      assert forall i :: 1 <= i < |t| ==> t[1..][i - 1] == t[i];
    }
  }

  /** The literal pieces of both queries hold no '?'. */
  lemma LiteralsHaveNoQuestionMark()
    ensures NoQuestionMark(AlertCityPath)
    ensures NoQuestionMark(DefaultGeocode) && NoQuestionMark(DefaultDisease) && NoQuestionMark(DefaultFormat)
    ensures NoQuestionMark(DefaultWeeks) && NoQuestionMark(DefaultYears)
    ensures NoQuestionMark("geocode=") && NoQuestionMark("&disease=") && NoQuestionMark("&format=csv")
    ensures NoQuestionMark("&ew_start=") && NoQuestionMark("&ew_end=") && NoQuestionMark("&ey_start=")
    ensures NoQuestionMark("&ey_end=")
  {
  }

  /** The query `BASE_URL` already carries holds no '?'. */
  lemma DefaultQueryHasNoQuestionMark()
    ensures NoQuestionMark(DefaultQuery)
  {
    LiteralsHaveNoQuestionMark();
    NoQuestionMarkCat(DefaultGeocode, DefaultDisease);
    NoQuestionMarkCat(DefaultGeocode + DefaultDisease, DefaultFormat);
    NoQuestionMarkCat(DefaultGeocode + DefaultDisease + DefaultFormat, DefaultWeeks);
    NoQuestionMarkCat(DefaultGeocode + DefaultDisease + DefaultFormat + DefaultWeeks, DefaultYears);
  }

  /** The query `get_data_infodengue` appends holds no '?' unless the disease name does. */
  lemma ParamsHaveNoQuestionMark(geocode: int, disease: string, ewStart: int, ewEnd: int, eyStart: int, eyEnd: int)
    requires NoQuestionMark(disease)
    ensures NoQuestionMark(Params(geocode, disease, ewStart, ewEnd, eyStart, eyEnd))
  {
    LiteralsHaveNoQuestionMark();
    IntTextHasNoQuestionMark(geocode);
    IntTextHasNoQuestionMark(ewStart);
    IntTextHasNoQuestionMark(ewEnd);
    IntTextHasNoQuestionMark(eyStart);
    IntTextHasNoQuestionMark(eyEnd);
    var q := "geocode=";
    NoQuestionMarkCat(q, IntText(geocode));
    q := q + IntText(geocode);
    NoQuestionMarkCat(q, "&disease=");
    q := q + "&disease=";
    NoQuestionMarkCat(q, disease);
    q := q + disease;
    NoQuestionMarkCat(q, "&format=csv");
    q := q + "&format=csv";
    NoQuestionMarkCat(q, "&ew_start=");
    q := q + "&ew_start=";
    NoQuestionMarkCat(q, IntText(ewStart));
    q := q + IntText(ewStart);
    NoQuestionMarkCat(q, "&ew_end=");
    q := q + "&ew_end=";
    NoQuestionMarkCat(q, IntText(ewEnd));
    q := q + IntText(ewEnd);
    NoQuestionMarkCat(q, "&ey_start=");
    q := q + "&ey_start=";
    NoQuestionMarkCat(q, IntText(eyStart));
    q := q + IntText(eyStart);
    NoQuestionMarkCat(q, "&ey_end=");
    q := q + "&ey_end=";
    NoQuestionMarkCat(q, IntText(eyEnd));
  }

  /**
   * `BASE_URL` already carries a query, so the composed URL holds exactly
   * two '?' (unless the disease name brings more): the one inside
   * `BASE_URL` and the one written right after it. The URL starts with
   * `BASE_URL` unchanged.
   */
  lemma TwoQuestionMarks(geocode: int, disease: string, ewStart: int, ewEnd: int, eyStart: int, eyEnd: int)
    requires NoQuestionMark(disease)
    ensures var url := DataUrl(geocode, disease, ewStart, ewEnd, eyStart, eyEnd);
      && url[..|BaseUrl|] == BaseUrl
      && forall i :: 0 <= i < |url| ==> (url[i] == '?' <==> i == |AlertCityPath| || i == |BaseUrl|)
  {
    var p := Params(geocode, disease, ewStart, ewEnd, eyStart, eyEnd);
    LiteralsHaveNoQuestionMark();
    DefaultQueryHasNoQuestionMark();
    ParamsHaveNoQuestionMark(geocode, disease, ewStart, ewEnd, eyStart, eyEnd);
    MarkBetween(AlertCityPath, DefaultQuery);
    MarkBetween(BaseUrl, p);
  }

  /** In `x + "?" + y` with no '?' in `y`, the '?' are those of `x` and the one after it. */
  lemma MarkBetween(x: string, y: string)
    requires NoQuestionMark(y)
    ensures var s := x + "?" + y;
      && s[..|x|] == x
      && forall i :: 0 <= i < |s| ==> (s[i] == '?' <==> (i < |x| && x[i] == '?') || i == |x|)
  {
    var s := x + "?" + y;
    assert forall i :: |x| < i < |s| ==> s[i] == y[i - |x| - 1];
  }

  // ---------------------------------------------------------------------
  // Reading the data
  // ---------------------------------------------------------------------

  const Columns: seq<string> := ["data_iniSE", "SE", "casos_est", "casos_est_min", "casos_est_max", "casos"]

  /** A table read from CSV: each column name with its cells. */
  type Frame = map<string, seq<string>>

  /** `frame[columns]`: the listed columns in order, or a `KeyError` when one is missing. */
  function Select(frame: Frame, columns: seq<string>): (r: Option<seq<(string, seq<string>)>>)
    ensures r.Some? <==> forall k :: 0 <= k < |columns| ==> columns[k] in frame
    ensures r.Some? ==> |r.value| == |columns|
    ensures r.Some? ==> forall k :: 0 <= k < |columns| ==> r.value[k] == (columns[k], frame[columns[k]])
  {
    if forall k :: 0 <= k < |columns| ==> columns[k] in frame
    then Some(seq(|columns|, k requires 0 <= k < |columns| => (columns[k], frame[columns[k]])))
    else None
  }

  /**
   * `get_data_infodengue`: reads the URL and keeps the six columns; any
   * failure, of the read or of the selection, gives `None`.
   */
  function GetDataInfodengue(geocode: int, disease: string, ewStart: int, ewEnd: int, eyStart: int, eyEnd: int,
                             fetch: string -> Option<Frame>): (r: Option<seq<(string, seq<string>)>>)
    ensures var read := fetch(DataUrl(geocode, disease, ewStart, ewEnd, eyStart, eyEnd));
      && (r.Some? <==> read.Some? && forall k :: 0 <= k < |Columns| ==> Columns[k] in read.value)
      && (r.Some? ==> |r.value| == 6 && forall k :: 0 <= k < 6 ==> r.value[k] == (Columns[k], read.value[Columns[k]]))
  {
    match fetch(DataUrl(geocode, disease, ewStart, ewEnd, eyStart, eyEnd))
    case None => None
    case Some(frame) => Select(frame, Columns)
  }
}
