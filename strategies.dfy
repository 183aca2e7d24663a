/**
 * The three search strategies over one text column of the table: fuzzy
 * (ranked by the hybrid score), prefix and substring. Each builds its result
 * list by appending one record per match, in a loop.
 */
module Strategies {
  import opened Wrappers
  import opened Sequences
  import opened Text
  import opened Gazetteer
  import opened Scoring

  /** The `limit` passed to `process.extract`: at most this many candidates are scored and returned. */
  const ExtractLimit: nat := 100

  /** The message Python raises when `.lower()` is called on a null (float NaN) cell. */
  const NullLowerError: string := "'float' object has no attribute 'lower'"

  /** One triple returned by `process.extract`: the matched value, its score and its row label. */
  datatype Extracted = Extracted(name: string, score: real, key: nat)

  /**
   * What `process.extract(query, column.dropna(), scorer=advanced_hybrid_scorer, limit=100)`
   * promises about its output `ex` on the non-null cells of column `col`: at most 100 triples,
   * in non-increasing score order, with distinct labels; each triple is a non-null cell of its
   * row, scored by the hybrid scorer on the processed query and value; and with fewer than 100
   * triples every non-null cell is among them.
   */
  ghost predicate ValidExtract(t: Table, col: string, query: string, lib: Library, ex: seq<Extracted>)
  {
    && |ex| <= ExtractLimit
    && (forall i, j :: 0 <= i < j < |ex| ==> ex[i].score >= ex[j].score)
    && (forall i, j :: 0 <= i < j < |ex| ==> ex[i].key != ex[j].key)
    && (forall e :: e in ex ==>
          && e.key < |t.rows|
          && Cell(t.rows[e.key], col) == Some(e.name)
          && e.score == HybridScore(lib, lib.process(query), lib.process(e.name)))
    && (|ex| < ExtractLimit ==>
          forall i :: 0 <= i < |t.rows| && Cell(t.rows[i], col).Some? ==> exists e :: e in ex && e.key == i)
  }

  /** Every label in `ex` names a row of `t`. */
  predicate KeysInRange(t: Table, ex: seq<Extracted>)
  {
    forall k :: 0 <= k < |ex| ==> ex[k].key < |t.rows|
  }

  /** The `Language` of a fuzzy result: set only for the columns "suomi" and "ruotsi". */
  function FuzzyLanguage(col: string): (lang: Option<string>)
    ensures lang.Some? <==> col == "suomi" || col == "ruotsi"
    ensures lang.Some? ==> lang.value == col
  {
    if col == "suomi" then Some("suomi") else if col == "ruotsi" then Some("ruotsi") else None
  }

  /** The `Language` of a prefix or substring result: "suomi" for the column "suomi", "ruotsi" for every other. */
  function LanguageTag(col: string): (lang: string)
    ensures lang == "suomi" <==> col == "suomi"
    ensures lang != "suomi" ==> lang == "ruotsi"
  {
    if col == "suomi" then "suomi" else "ruotsi"
  }

  // ---------------------------------------------------------------- fuzzy

  /** The triples that pass the threshold. */
  function AtLeast(threshold: int): Extracted -> bool
  {
    (e: Extracted) => e.score >= threshold as real
  }

  /** The row a label names; labels outside the table never come out of the extract, and get an empty row. */
  function RowAt(t: Table, key: nat): Row
  {
    if key < |t.rows| then t.rows[key] else Row(map[], "", None, None)
  }

  /** The record of one kept triple: its value and score, and its row's municipality and coordinates. */
  function FuzzyRecord(t: Table, col: string, e: Extracted, transform: Transform): Match
  {
    var row := RowAt(t, e.key);
    var (lon, lat) := Project(row.x, row.y, transform);
    Match(Some(e.name), row.kunta, Some(e.score), FuzzyLanguage(col), lon, lat, None, None)
  }

  function FuzzyRecords(t: Table, col: string, kept: seq<Extracted>, transform: Transform): (rs: seq<Match>)
    ensures |rs| == |kept|
    ensures forall k :: 0 <= k < |kept| ==> rs[k] == FuzzyRecord(t, col, kept[k], transform)
  {
    seq(|kept|, k requires 0 <= k < |kept| => FuzzyRecord(t, col, kept[k], transform))
  }

  /**
   * The results of `fuzzy_search`: none when the column is not in the schema or holds only
   * nulls; otherwise one record per extracted triple scoring at least the threshold, in the
   * order of the extract.
   */
  function FuzzySpec(t: Table, col: string, threshold: int, ex: seq<Extracted>, transform: Transform): (rs: seq<Match>)
    ensures col !in t.columns || AllNull(t, col) ==> rs == []
    ensures |rs| <= |ex|
    ensures forall k :: 0 <= k < |rs| ==> rs[k].score.Some? && rs[k].score.value >= threshold as real
    ensures forall k :: 0 <= k < |rs| ==> rs[k].nimi.Some? && rs[k].language == FuzzyLanguage(col)
  {
    if col !in t.columns || AllNull(t, col) then []
    else FuzzyRecords(t, col, Filter(ex, AtLeast(threshold)), transform)
  }

  /** `fuzzy_search(data, column_name, query, threshold)`, given the extract `ex` the library returned. */
  method FuzzySearch(t: Table, col: string, threshold: int, ex: seq<Extracted>, transform: Transform)
    returns (results: seq<Match>)
    requires KeysInRange(t, ex)
    ensures results == FuzzySpec(t, col, threshold, ex, transform)
  {
    if col !in t.columns {
      return [];
    }
    if AllNull(t, col) {
      return [];
    }
    results := [];
    for i := 0 to |ex|
      invariant results == FuzzyRecords(t, col, Filter(ex[..i], AtLeast(threshold)), transform)
    {
      FuzzyRecordsStep(t, col, threshold, ex, i, transform);
      if ex[i].score >= threshold as real {
        results := results + [FuzzyRecord(t, col, ex[i], transform)];
      }
    }
    assert ex[..|ex|] == ex;
  }

  /** One step of the fuzzy loop: the records of the kept triples among the first i + 1. */
  lemma FuzzyRecordsStep(t: Table, col: string, threshold: int, ex: seq<Extracted>, i: nat, transform: Transform)
    requires i < |ex|
    ensures FuzzyRecords(t, col, Filter(ex[..i + 1], AtLeast(threshold)), transform) ==
            FuzzyRecords(t, col, Filter(ex[..i], AtLeast(threshold)), transform)
              + (if ex[i].score >= threshold as real then [FuzzyRecord(t, col, ex[i], transform)] else [])
  {
    var p := AtLeast(threshold);
    assert ex[..i + 1] == ex[..i] + [ex[i]];
    FilterSnoc(ex[..i], ex[i], p);
    var before := Filter(ex[..i], p);
    if p(ex[i]) {
      var after := before + [ex[i]];
      assert FuzzyRecords(t, col, after, transform) ==
             FuzzyRecords(t, col, before, transform) + [FuzzyRecord(t, col, ex[i], transform)];
    }
  }

  /** The kept triples are the extract's entries at increasing positions. */
  lemma KeptInExtractOrder(ex: seq<Extracted>, threshold: int)
    ensures var kept := Filter(ex, AtLeast(threshold));
      var idx := Positions(ex, AtLeast(threshold));
      |idx| == |kept| && forall k :: 0 <= k < |kept| ==> kept[k] == ex[idx[k]]
  {
    FilterIsSelect(ex, AtLeast(threshold));
  }

  /** On a genuine extract the fuzzy results number at most 100 and come in non-increasing score order. */
  lemma FuzzyResultsRanked(t: Table, col: string, query: string, lib: Library, threshold: int,
                           ex: seq<Extracted>, transform: Transform)
    requires ValidExtract(t, col, query, lib, ex)
    ensures var rs := FuzzySpec(t, col, threshold, ex, transform);
      && |rs| <= ExtractLimit
      && (forall i, j :: 0 <= i < j < |rs| ==> rs[i].score.value >= rs[j].score.value)
  {
    var rs := FuzzySpec(t, col, threshold, ex, transform);
    if !(col !in t.columns || AllNull(t, col)) {
      var idx := Positions(ex, AtLeast(threshold));
      KeptInExtractOrder(ex, threshold);
      forall i, j | 0 <= i < j < |rs|
        ensures rs[i].score.value >= rs[j].score.value
      {
        assert idx[i] < idx[j];
      }
    }
  }

  /**
   * On a genuine extract every fuzzy result scores at most 100 and is the non-null value of
   * some row, together with that row's municipality and its guarded coordinates.
   */
  lemma FuzzyResultsFromRows(t: Table, col: string, query: string, lib: Library, threshold: int,
                             ex: seq<Extracted>, transform: Transform)
    requires ValidExtract(t, col, query, lib, ex)
    ensures var rs := FuzzySpec(t, col, threshold, ex, transform);
      forall k :: 0 <= k < |rs| ==>
        && rs[k].score.value <= MaxScore
        && exists i :: 0 <= i < |t.rows| && Cell(t.rows[i], col) == rs[k].nimi && rs[k].kunta == t.rows[i].kunta
             && (rs[k].x, rs[k].y) == Project(t.rows[i].x, t.rows[i].y, transform)
  {
    var rs := FuzzySpec(t, col, threshold, ex, transform);
    if !(col !in t.columns || AllNull(t, col)) {
      var kept := Filter(ex, AtLeast(threshold));
      var idx := Positions(ex, AtLeast(threshold));
      KeptInExtractOrder(ex, threshold);
      forall k | 0 <= k < |rs|
        ensures rs[k].score.value <= MaxScore
        ensures exists i :: 0 <= i < |t.rows| && Cell(t.rows[i], col) == rs[k].nimi && rs[k].kunta == t.rows[i].kunta
                 && (rs[k].x, rs[k].y) == Project(t.rows[i].x, t.rows[i].y, transform)
      {
        var e := ex[idx[k]];
        assert e in ex;
        assert rs[k] == FuzzyRecord(t, col, e, transform);
        assert Cell(t.rows[e.key], col) == rs[k].nimi;
      }
    }
  }

  /**
   * When the extract returned fewer than 100 triples, every non-null cell whose hybrid score
   * reaches the threshold appears among the results with its row's municipality.
   */
  lemma FuzzyComplete(t: Table, col: string, query: string, lib: Library, threshold: int,
                      ex: seq<Extracted>, transform: Transform, i: nat)
    requires ValidExtract(t, col, query, lib, ex)
    requires |ex| < ExtractLimit && col in t.columns
    requires i < |t.rows| && Cell(t.rows[i], col).Some?
    requires HybridScore(lib, lib.process(query), lib.process(Cell(t.rows[i], col).value)) >= threshold as real
    ensures var rs := FuzzySpec(t, col, threshold, ex, transform);
      exists k :: 0 <= k < |rs| && rs[k].nimi == Cell(t.rows[i], col) && rs[k].kunta == t.rows[i].kunta
  {
    var e :| e in ex && e.key == i;
    var p := AtLeast(threshold);
    var j :| 0 <= j < |ex| && ex[j] == e;
    FilterKeeps(ex, p, j);
    var kept := Filter(ex, p);
    var k :| 0 <= k < |kept| && kept[k] == e;
    assert !AllNull(t, col);
    var rs := FuzzySpec(t, col, threshold, ex, transform);
    assert rs[k] == FuzzyRecord(t, col, e, transform);
  }

  // ---------------------------------------------------------------- prefix

  /** The row's value in `col` is present and, lower-cased, starts with the lower-cased query. */
  predicate PrefixMatches(r: Row, col: string, query: string)
  {
    Cell(r, col).Some? && Lower(query) <= Lower(Cell(r, col).value)
  }

  function PrefixTest(col: string, query: string): Row -> bool
  {
    (r: Row) => PrefixMatches(r, col, query)
  }

  /** The record a prefix or substring match emits: `nimi`, and the municipality and coordinates of `r`. */
  function RowRecord(nimi: Option<string>, r: Row, col: string, transform: Transform): Match
  {
    var (lon, lat) := Project(r.x, r.y, transform);
    Match(nimi, r.kunta, None, Some(LanguageTag(col)), lon, lat, None, None)
  }

  /**
   * The prefix matches of `rows`: one record per matching row, in table order, carrying
   * the row's own value as stored (original casing), municipality and coordinates.
   */
  function StartsWithRows(rows: seq<Row>, col: string, query: string, transform: Transform): (rs: seq<Match>)
    ensures var m := Filter(rows, PrefixTest(col, query));
      |rs| == |m| && forall k :: 0 <= k < |m| ==> rs[k] == RowRecord(Cell(m[k], col), m[k], col, transform)
  {
    var m := Filter(rows, PrefixTest(col, query));
    seq(|m|, k requires 0 <= k < |m| => RowRecord(Cell(m[k], col), m[k], col, transform))
  }

  /**
   * Every prefix result holds a present value that, lower-cased, starts with the lower-cased
   * query, keeps the value's original casing, has no score and is tagged by `LanguageTag`.
   */
  lemma StartsWithResultsMatch(rows: seq<Row>, col: string, query: string, transform: Transform)
    ensures var rs := StartsWithRows(rows, col, query, transform);
      forall k :: 0 <= k < |rs| ==>
        && (exists i :: 0 <= i < |rows| && rs[k].nimi == Cell(rows[i], col) && rs[k].kunta == rows[i].kunta)
        && rs[k].nimi.Some? && Lower(query) <= Lower(rs[k].nimi.value)
        && rs[k].score == None && rs[k].language == Some(LanguageTag(col))
  {
    var rs := StartsWithRows(rows, col, query, transform);
    var m := Filter(rows, PrefixTest(col, query));
    FilterMembers(rows, PrefixTest(col, query));
    forall k | 0 <= k < |rs|
      ensures exists i :: 0 <= i < |rows| && rs[k].nimi == Cell(rows[i], col) && rs[k].kunta == rows[i].kunta
      ensures rs[k].nimi.Some? && Lower(query) <= Lower(rs[k].nimi.value)
    {
      assert m[k] in m;
      assert PrefixMatches(m[k], col, query);
      var i :| 0 <= i < |rows| && rows[i] == m[k];
    }
  }

  /** Every row whose present value, lower-cased, starts with the lower-cased query yields a result. */
  lemma StartsWithComplete(rows: seq<Row>, col: string, query: string, transform: Transform, i: nat)
    requires i < |rows| && PrefixMatches(rows[i], col, query)
    ensures var rs := StartsWithRows(rows, col, query, transform);
      exists k :: 0 <= k < |rs| && rs[k] == RowRecord(Cell(rows[i], col), rows[i], col, transform)
  {
    var m := Filter(rows, PrefixTest(col, query));
    FilterKeeps(rows, PrefixTest(col, query), i);
    var k :| 0 <= k < |m| && m[k] == rows[i];
    assert StartsWithRows(rows, col, query, transform)[k] == RowRecord(Cell(rows[i], col), rows[i], col, transform);
  }

  /** One step of the prefix loop: the matches among the first i + 1 rows. */
  lemma StartsWithRowsStep(rows: seq<Row>, i: nat, col: string, query: string, transform: Transform)
    requires i < |rows|
    ensures StartsWithRows(rows[..i + 1], col, query, transform) ==
            StartsWithRows(rows[..i], col, query, transform)
              + (if PrefixMatches(rows[i], col, query)
                 then [RowRecord(Cell(rows[i], col), rows[i], col, transform)] else [])
  {
    var p := PrefixTest(col, query);
    assert rows[..i + 1] == rows[..i] + [rows[i]];
    FilterSnoc(rows[..i], rows[i], p);
  }

  /** The outcome of `startswith_search`: it raises as soon as it meets a null cell, so any null fails the call. */
  function StartsWithSpec(t: Table, col: string, query: string, transform: Transform): (r: Result<seq<Match>>)
    ensures r.Err? <==> !AllPresent(t, col)
    ensures r.Ok? ==> r.value == StartsWithRows(t.rows, col, query, transform)
  {
    if AllPresent(t, col) then Ok(StartsWithRows(t.rows, col, query, transform)) else Err(NullLowerError)
  }

  /** `startswith_search(data, column_name, query)`. */
  method StartsWithSearch(t: Table, col: string, query: string, transform: Transform) returns (r: Result<seq<Match>>)
    requires col in t.columns
    ensures r == StartsWithSpec(t, col, query, transform)
  {
    var queryLower := Lower(query);
    var results: seq<Match> := [];
    for i := 0 to |t.rows|
      invariant forall j :: 0 <= j < i ==> Cell(t.rows[j], col).Some?
      invariant results == StartsWithRows(t.rows[..i], col, query, transform)
    {
      var value := Cell(t.rows[i], col);
      if value.None? {
        return Err(NullLowerError);
      }
      StartsWithRowsStep(t.rows, i, col, query, transform);
      if queryLower <= Lower(value.value) {
        results := results + [RowRecord(value, t.rows[i], col, transform)];
      }
    }
    assert t.rows[..|t.rows|] == t.rows;
    return Ok(results);
  }

  // ---------------------------------------------------------------- substring

  /** The row's value in `col` as text ("nan" when null), lower-cased, contains the lower-cased query. */
  predicate SubstringMatches(r: Row, col: string, query: string)
  {
    Contains(Lower(AsText(Cell(r, col))), Lower(query))
  }

  function SubstringTest(col: string, query: string): Row -> bool
  {
    (r: Row) => SubstringMatches(r, col, query)
  }

  /** The k-th record takes `nimi` from the k-th match but municipality and coordinates from the k-th table row. */
  function ContainsRecords(rows: seq<Row>, matching: seq<Row>, col: string, transform: Transform): (rs: seq<Match>)
    requires |matching| <= |rows|
    ensures |rs| == |matching|
    ensures forall k :: 0 <= k < |matching| ==> rs[k] == RowRecord(Cell(matching[k], col), rows[k], col, transform)
  {
    seq(|matching|, k requires 0 <= k < |matching| => RowRecord(Cell(matching[k], col), rows[k], col, transform))
  }

  /** One step of the substring loop: the records of the first i + 1 matches. */
  lemma ContainsRecordsStep(rows: seq<Row>, matching: seq<Row>, i: nat, col: string, transform: Transform)
    requires i < |matching| <= |rows|
    ensures ContainsRecords(rows, matching[..i + 1], col, transform) ==
            ContainsRecords(rows, matching[..i], col, transform) + [RowRecord(Cell(matching[i], col), rows[i], col, transform)]
  {
  }

  /**
   * The results of `contains_search`: as many as there are matching rows; the k-th carries the
   * value of the k-th matching row, but the municipality and coordinates of the k-th row of the
   * whole table.
   */
  function ContainsSpec(t: Table, col: string, query: string, transform: Transform): (rs: seq<Match>)
    ensures var m := Filter(t.rows, SubstringTest(col, query));
      && |rs| == |m| && |rs| <= |t.rows|
      && forall k :: 0 <= k < |rs| ==>
           && rs[k].nimi == Cell(m[k], col)
           && SubstringMatches(m[k], col, query)
           && rs[k].kunta == t.rows[k].kunta
           && (rs[k].x, rs[k].y) == Project(t.rows[k].x, t.rows[k].y, transform)
           && rs[k].score == None && rs[k].language == Some(LanguageTag(col))
  {
    var m := Filter(t.rows, SubstringTest(col, query));
    assert forall k :: 0 <= k < |m| ==> m[k] in m;
    ContainsRecords(t.rows, m, col, transform)
  }

  /** `contains_search(data, column_name, query)`. */
  method ContainsSearch(t: Table, col: string, query: string, transform: Transform) returns (results: seq<Match>)
    requires col in t.columns
    ensures results == ContainsSpec(t, col, query, transform)
  {
    var matching := Filter(t.rows, SubstringTest(col, query));
    results := [];
    for i := 0 to |matching|
      invariant results == ContainsRecords(t.rows, matching[..i], col, transform)
    {
      ContainsRecordsStep(t.rows, matching, i, col, transform);
      results := results + [RowRecord(Cell(matching[i], col), t.rows[i], col, transform)];
    }
    assert matching[..|matching|] == matching;
  }

  /** Every prefix match is also a substring match: the prefix results are among the substring matches. */
  lemma PrefixMatchIsSubstringMatch(r: Row, col: string, query: string)
    requires PrefixMatches(r, col, query)
    ensures SubstringMatches(r, col, query)
  {
    StartsWithContains(Lower(AsText(Cell(r, col))), Lower(query));
  }

  /** A null cell reads as "nan", so it matches exactly the queries that "nan" contains. */
  lemma MissingNameReadsAsNan(r: Row, col: string, query: string)
    requires Cell(r, col).None?
    ensures SubstringMatches(r, col, query) <==> Contains("nan", Lower(query))
  {
    assert Lower("nan") == "nan";
  }

  /**
   * With rows ["B" in Espoo, "A" in Vantaa], the substring query "a" matches only the second
   * row, yet its result carries the municipality of the first.
   */
  lemma ContainsTakesMunicipalityByPosition(transform: Transform)
    ensures var t := Table({"suomi"}, [Row(map["suomi" := Some("B")], "Espoo", None, None),
                                       Row(map["suomi" := Some("A")], "Vantaa", None, None)]);
            var rs := ContainsSpec(t, "suomi", "a", transform);
            |rs| == 1 && rs[0].nimi == Some("A") && rs[0].kunta == "Espoo"
  {
    var b := Row(map["suomi" := Some("B")], "Espoo", None, None);
    var a := Row(map["suomi" := Some("A")], "Vantaa", None, None);
    var rows := [b, a];
    var p := SubstringTest("suomi", "a");
    assert Lower("a") == "a" && Lower("A") == "a" && Lower("B") == "b";
    assert !p(b) by {
      forall k: nat | k <= 1 ensures !OccursAt("a", "b", k) {
        if k == 0 { assert "b"[0..1][0] == 'b'; }
      }
    }
    assert p(a) by {
      assert OccursAt("a", "a", 0);
    }
    FilterSnoc([], b, p);
    FilterSnoc([b], a, p);
    assert [b] + [a] == rows;
    assert Filter(rows, p) == [a];
    var rs := ContainsSpec(Table({"suomi"}, rows), "suomi", "a", transform);
    assert |rs| == 1;
  }
}
