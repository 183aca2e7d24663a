/**
 * The place-name table, the result records the searches emit, and the
 * null guard in front of the coordinate transform.
 */
module Gazetteer {
  import opened Wrappers

  /**
   * One gazetteer row: its text cells by column name (a missing key or `None` is a null
   * cell), its municipality, and its projected ETRS-TM35FIN easting `x` and northing `y`,
   * either of which may be null.
   */
  datatype Row = Row(names: map<string, Option<string>>, kunta: string, x: Option<real>, y: Option<real>)

  /** The table: its schema (column names) and its rows, whose positions are their labels. */
  datatype Table = Table(columns: set<string>, rows: seq<Row>)

  /** The value of the cell in column `col` of row `r`; `None` when it is null. */
  function Cell(r: Row, col: string): (v: Option<string>)
    ensures col !in r.names ==> v == None
  {
    if col in r.names then r.names[col] else None
  }

  /** No row of `t` has a null in column `col`. */
  predicate AllPresent(t: Table, col: string)
  {
    forall i :: 0 <= i < |t.rows| ==> Cell(t.rows[i], col).Some?
  }

  /** Every row of `t` has a null in column `col`, so dropping nulls leaves nothing. */
  predicate AllNull(t: Table, col: string)
  {
    forall i :: 0 <= i < |t.rows| ==> Cell(t.rows[i], col).None?
  }

  /** The EPSG:3067 to EPSG:4326 transform, easting/northing to longitude/latitude; an external library. */
  type Transform = (real, real) -> (real, real)

  /**
   * The coordinates a result carries: `(None, None)` when either input is null, in which
   * case the transform is not consulted; otherwise the transform's longitude and latitude.
   */
  function Project(x: Option<real>, y: Option<real>, transform: Transform): (lonLat: (Option<real>, Option<real>))
    ensures x.None? || y.None? <==> lonLat == (None, None)
    ensures x.Some? && y.Some? ==>
              lonLat.0 == Some(transform(x.value, y.value).0) && lonLat.1 == Some(transform(x.value, y.value).1)
  {
    if x.Some? && y.Some? then
      var (lon, lat) := transform(x.value, y.value);
      (Some(lon), Some(lat))
    else
      (None, None)
  }

  /**
   * One result record. `nimi` is the matched cell as stored (null only for a substring match
   * on a missing name), `score` is present for fuzzy matches only, `x`/`y` hold the transformed
   * longitude and latitude, and `lon`/`lat` are the keys the web handler adds afterwards.
   */
  datatype Match = Match(
    nimi: Option<string>,
    kunta: string,
    score: Option<real>,
    language: Option<string>,
    x: Option<real>,
    y: Option<real>,
    lon: Option<real>,
    lat: Option<real>)
}
