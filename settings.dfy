/**
 * The three LinkedIn selectors of the sidebar (app.py, lines 20-27) and the
 * search parameters line 98 hands to `fetch_linkedin`.
 *
 * Each selectbox offers the keys of its table; the workplace and recency
 * choices are looked up in their tables, but the country choice is passed
 * as its label. `ParamsAsWritten` is line 98 as it stands, and is what the
 * pipeline uses; `Params` looks the country up in its table too, which is
 * what the table of LinkedIn geo IDs is for.
 */
module Settings {
  import opened Collectors

  /** "Modalidade" (lines 20-21). */
  datatype Workplace = AnyPlace | Remote | Hybrid | OnSite

  /** The `f_WT` code of a workplace choice. */
  function WorkplaceCode(w: Workplace): string {
    match w
    case AnyPlace => ""
    case Remote => "2"
    case Hybrid => "3"
    case OnSite => "1"
  }

  /** "Data de Publicação" (lines 23-24). */
  datatype Posted = AnyTime | LastDay | LastWeek | LastMonth

  /** The `f_TPR` code of a recency choice. */
  function PostedCode(p: Posted): string {
    match p
    case AnyTime => ""
    case LastDay => "r86400"
    case LastWeek => "r604800"
    case LastMonth => "r2592000"
  }

  /** "País" (lines 26-27). */
  datatype Country = Brasil | Portugal | EUA | Global

  /** The label the selectbox shows, and returns, for a country. */
  function CountryLabel(c: Country): string {
    match c
    case Brasil => "Brasil"
    case Portugal => "Portugal"
    case EUA => "EUA"
    case Global => "Global"
  }

  /** The LinkedIn geo ID of a country; empty for no restriction. */
  function GeoId(c: Country): string {
    match c
    case Brasil => "106057199"
    case Portugal => "100364837"
    case EUA => "103644278"
    case Global => ""
  }

  /** A value LinkedIn takes as `geoId`: digits only, or empty for no restriction. */
  predicate IsGeoId(s: string) {
    forall k :: 0 <= k < |s| ==> '0' <= s[k] <= '9'
  }

  /** Line 98 as written: the country goes out as its label. */
  function ParamsAsWritten(role: string, c: Country, w: Workplace, p: Posted): SearchParams {
    SearchParams(role, CountryLabel(c), WorkplaceCode(w), PostedCode(p))
  }

  /** Line 98 with the country looked up in its table, like the other two choices. */
  function Params(role: string, c: Country, w: Workplace, p: Posted): SearchParams {
    SearchParams(role, GeoId(c), WorkplaceCode(w), PostedCode(p))
  }

  /** As written, no country ever reaches LinkedIn as a geo ID: "Brasil" is sent as `geoId=Brasil`. */
  lemma LabelSentAsGeoId(role: string, c: Country, w: Workplace, p: Posted)
    ensures !IsGeoId(ParamsAsWritten(role, c, w, p).geo)
    ensures ParamsAsWritten(role, Brasil, w, p).geo == "Brasil" != GeoId(Brasil)
  {
    var g := ParamsAsWritten(role, c, w, p).geo;
    assert !('0' <= g[0] <= '9');
  }

  /**
   * Looked up, every country is sent as a geo ID, distinct countries as
   * distinct IDs, and only "Global" leaves the location unrestricted.
   */
  lemma ParamsSendGeoId(role: string, c: Country, c': Country, w: Workplace, p: Posted)
    ensures IsGeoId(Params(role, c, w, p).geo)
    ensures Params(role, c, w, p).geo == Params(role, c', w, p).geo ==> c == c'
    ensures Params(role, c, w, p).geo == "" <==> c == Global
  {
    match c
    case Brasil =>
      assert "106057199"[0] == '1';
    case Portugal =>
      assert "100364837"[3] == '3';
    case EUA =>
      assert "103644278"[2] == '3';
    case Global =>
  }

  /** The workplace and recency choices are sent as their codes, and distinct choices as distinct codes. */
  lemma ParamsSendCodes(role: string, c: Country, w: Workplace, w': Workplace, p: Posted, p': Posted)
    ensures ParamsAsWritten(role, c, w, p).workplace == ParamsAsWritten(role, c, w', p).workplace ==> w == w'
    ensures ParamsAsWritten(role, c, w, p).recency == ParamsAsWritten(role, c, w, p').recency ==> p == p'
    ensures ParamsAsWritten(role, c, w, p).role == role
  {
  }
}
