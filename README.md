# Place-name search: a Dafny model of the matching engine

The service searches a gazetteer of Helsinki and Vantaa place names. The table has a Finnish
and a Swedish name column, a municipality (`kunta`) and ETRS-TM35FIN coordinates `x`, `y`.
A user sends a query, picks one or more name columns and one or more of three strategies:
fuzzy (`Sumea`), prefix (`Alkaa merkkijonolla`) and substring (`Sisältää merkkijonon`).
The user may also restrict the search to some municipalities. The response groups the matches
by strategy, and each match carries WGS84 coordinates.

This project models the matching engine of `fuzzy_search.py` and the request handler
`search()` of `app.py`. The model is written in Dafny and its properties are proved.

- `wrappers.dfy` (`Wrappers`): `Option` for null cells and absent keys. `Result` for calls that may raise.
- `sequences.dfy` (`Sequences`): order-preserving selection. `Filter`, and `Positions` of the kept elements. This models a pandas boolean mask and a conditional list comprehension.
- `text.dfy` (`Text`): character-wise lower-casing, prefix and substring tests, the `"nan"` text of a null cell and `str.join`.
- `gazetteer.dfy` (`Gazetteer`): rows, the table, result records and the null guard in front of the coordinate transform.
- `scoring.dfy` (`Scoring`): `advanced_hybrid_scorer` as a pure function over `real`. The similarity library is a record of uninterpreted functions.
- `strategies.dfy` (`Strategies`): `fuzzy_search`, `startswith_search` and `contains_search`. Each is a method whose loop appends one record per match. Each is proved equal to a specification function, and the lemmas state what the results are.
- `app.py`'s `search()` is modelled in `app.dfy` (`App`):
  - validation in the source's order;
  - the municipality filter;
  - the loop that runs the chosen strategies for each requested column and extends three fixed groups;
  - the handler's `lon`/`lat` enrichment of every result.

Behaviour of the code that the model reproduces as written:

- `contains_search` takes each result's name from the k-th matching row. It takes the municipality and coordinates from the k-th row of the whole table (`Strategies.ContainsSpec`). `Strategies.ContainsTakesMunicipalityByPosition` shows a two-row table on which a match gets the other row's municipality.
- `contains_search` reads cells through `astype(str)`, so a null name is the text `"nan"` and can match. `startswith_search` calls `.lower()` on the raw cell, so a null anywhere in the column raises. The handler turns that exception into a 500 response (`App.ServerError`).
- Prefix and substring results are tagged `"suomi"` only for a column named exactly `suomi`, and `"ruotsi"` for every other column. Fuzzy results are tagged only for the columns `suomi` and `ruotsi`. The page offers the columns `nimi_suomi` and `nimi_ruotsi` (app.py:33), so in practice fuzzy results carry no tag and the other results say `"ruotsi"`.

Further facts about the code that the model keeps:
- Only `fuzzy_search` checks that the column exists (fuzzy_search.py:50-51). `startswith_search` and `contains_search` index the column directly, so an unknown column raises `KeyError`. Their methods require a known column, which the handler has already checked (app.py:52-54).
- `contains_search` looks rows up by their position among the results, not by the matching row's own label (fuzzy_search.py:123-133).
- The handler never checks the strategy selection. An empty selection renders three empty groups (app.py:58-85).

## Model

| member | source | states |
|---|---|---|
| Gazetteer.Project | fuzzy_search.py:60-65 | if either coordinate is missing, the result is (None, None); if both are present, it is the transform's longitude and latitude |
| Text.LowerChar | fuzzy_search.py:85-86 | each ASCII capital and each Latin-1 capital (U+00C0 to U+00DE except U+00D7, covering Å, Ä, Ö) becomes its own small letter, 0x20 higher; characters outside the capital ranges are unchanged |
| Text.AsText | fuzzy_search.py:117 | a null cell reads as "nan" under `astype(str)`; a present cell reads as its value |
| Text.Join | app.py:54 | `", ".join`: an empty list gives "", one part gives that part, and the length covers the separators |
| Text.JoinSnoc | app.py:54 | joining one more part appends the separator and then that part, so the parts appear in order with `sep` between them |
| Text.JoinContainsParts | app.py:54 | every joined part occurs in the joined string |
| Text.ContainsAfterPrefix | app.py:54 | text put in front of a string keeps every substring of it, so the prefixed error message still names each column |
| Scoring.FirstLetterSimilarity | fuzzy_search.py:33-41 | the first-letter similarity is 0 when the query or the choice is empty |
| Scoring.HybridScore | fuzzy_search.py:13-47 | the score is never above 100 and never above the uncapped sum (weighted signals plus bonus); it equals that sum unless the cap of 100 applies |
| Scoring.NoBonusWhenEmpty | fuzzy_search.py:29-47 | with an empty query or choice the bonus is 0, and the score is min(0.1·ratio + 0.4·partial + 0.1·token_set + 0.2·WRatio, 100) |
| Scoring.BonusWindow | fuzzy_search.py:35-45 | the bonus is added if and only if both strings are non-empty and 120·prefix-ratio > 66; it is then 0.2 times that value, in (13.2, 24] |
| Scoring.ScoreRange | fuzzy_search.py:29-47 | with all signals in [0,100] and the prefix ratio in [0,1], the weighted sum lies in [0,80] and the score in [0,100] |
| Scoring.ExactMatchSaturates | fuzzy_search.py:29-47 | a non-empty string scored against itself with perfect signals scores exactly 100 (80 + 24, capped) |
| Strategies.FuzzyLanguage | fuzzy_search.py:75-78 | the fuzzy `Language` tag is present if and only if the column is "suomi" or "ruotsi", and then it is the column name |
| Strategies.LanguageTag | fuzzy_search.py:102 | the prefix/substring tag is "suomi" if and only if the column is "suomi", otherwise "ruotsi" |
| Strategies.FuzzySpec | fuzzy_search.py:49-80 | no results when the column is not in the schema or holds only nulls; otherwise at most as many results as extracted triples; each result has a name, a score at least the threshold, and the column's tag |
| Strategies.FuzzySearch | fuzzy_search.py:57-80 | the loop over the extracted triples returns exactly `FuzzySpec`: one record per triple scoring at least the threshold, in extract order |
| Strategies.FuzzyResultsRanked | fuzzy_search.py:58-59 | on a genuine extract there are at most 100 results, in non-increasing score order |
| Strategies.FuzzyResultsFromRows | fuzzy_search.py:53-69 | on a genuine extract every result scores at most 100; its name is the non-null cell of some row, and it carries that row's municipality and that row's coordinates through the null guard |
| Strategies.FuzzyComplete | fuzzy_search.py:53-59 | when the extract returned fewer than 100 triples, every non-null cell scoring at least the threshold appears among the results with its row's municipality |
| Strategies.StartsWithRows | fuzzy_search.py:88-105 | the results are one record per row of `Filter(rows, PrefixTest)`, in table order; each carries that row's own cell, municipality and guarded coordinates |
| Strategies.StartsWithResultsMatch | fuzzy_search.py:90-105 | every prefix result comes from some row; its name is present and keeps its casing, and lower-cased it starts with the lower-cased query; it has no score and carries `LanguageTag(col)` |
| Strategies.StartsWithComplete | fuzzy_search.py:90-105 | every row whose present value, lower-cased, starts with the lower-cased query yields a result built from that row |
| Strategies.StartsWithSpec | fuzzy_search.py:90-91 | the call fails (AttributeError on `.lower()`) if and only if some cell in the column is null; otherwise it returns `StartsWithRows` |
| Strategies.StartsWithSearch | fuzzy_search.py:83-108 | the loop over the rows returns exactly `StartsWithSpec`: it raises on a null cell, and otherwise appends a record for each matching row in table order |
| Strategies.ContainsSpec | fuzzy_search.py:116-137 | the results number as many as the rows whose text ("nan" when null), lower-cased, contains the lower-cased query; the k-th holds the k-th matching row's name but the municipality and coordinates of the k-th table row |
| Strategies.ContainsSearch | fuzzy_search.py:110-139 | the loop over the matching rows returns exactly `ContainsSpec` |
| Strategies.PrefixMatchIsSubstringMatch | fuzzy_search.py:85-121 | every row the prefix test accepts is also accepted by the substring test |
| Strategies.MissingNameReadsAsNan | fuzzy_search.py:117-121 | a row with a null name matches the substring search if and only if "nan" contains the lower-cased query |
| Strategies.ContainsTakesMunicipalityByPosition | fuzzy_search.py:123-133 | on rows ["B" in Espoo, "A" in Vantaa] the query "a" gives one result, named "A" but with municipality Espoo |
| Sequences.FilterSelectsInOrder | fuzzy_search.py:121 | a boolean-mask selection lists exactly the elements that pass the test, each once per occurrence, in their original order |
| App.ThresholdOf | app.py:43 | the threshold is 80 when the form omits it, otherwise the given value |
| App.InvalidColumns | app.py:52 | the invalid columns are exactly the requested columns missing from the schema, in request order |
| App.Validate | app.py:46-54 | an empty query is rejected first; then an empty column list; then, if and only if some requested column is unknown, the message "Invalid column(s): " followed by those columns joined by ", " |
| App.FilterByKunta | app.py:56 | with no municipality selected the table is unchanged; otherwise it keeps exactly the rows whose municipality is selected, in order, under the same schema |
| App.Enriched | app.py:63-66 | `lon`/`lat` are the handler's conversion of the result's `x`/`y`; every other field is unchanged |
| App.Enrich | app.py:63-66 | the loop over a result list returns the list with every element enriched |
| App.SearchColumn | app.py:60-83 | one column's pass fails if and only if the prefix strategy is selected and the column holds a null; otherwise each group gets its selected strategy's enriched results, or stays empty |
| App.MergeColumns | app.py:58-83 | the loop over the columns fails if and only if the prefix strategy raises on some column; otherwise each group is the concatenation of its per-column results, in request order |
| App.Search | app.py:37-88 | the handler returns a 400 with the validation message, a 500 when the prefix strategy raises, or the rendered groups; it agrees with `SearchSpec` on every request |
| App.EmptyQueryRejectedFirst | app.py:46-47 | an empty query yields "Search query cannot be empty", whatever the columns |
| App.NoColumnsRejected | app.py:49-50 | a non-empty query with no columns yields "No search columns selected." |
| App.UnknownColumnsRejected | app.py:52-54 | a request with an unknown column is rejected, and the message names that column |
| App.UnselectedGroupsStayEmpty | app.py:58-83 | a strategy that is not selected leaves its group empty for any column list |
| App.NoMethodsRendersEmptyGroups | app.py:58-85 | a valid request with no strategy selected is not rejected; it renders three empty groups |
| App.ConcatAppend | app.py:60-83 | the groups for a column list are those of its two parts, concatenated in order |
| App.FuzzyGroupMeetsThreshold | app.py:43-67 | every result in the fuzzy group has a score of at least the request's threshold |
| App.PrefixGroupMatchesQuery | app.py:69-75 | every result in the prefix group has a name that, lower-cased, starts with the lower-cased query |

## Left out

- Coordinate transforms: the pyproj EPSG:3067 to EPSG:4326 transform in the strategies and the handler's `transform_coords` with its `try/except` are uninterpreted function parameters (`Transform`, `CoordinateFix`). Their numerics and failures are not modelled, and neither is the handler re-transforming coordinates that are already longitude and latitude.
- The similarity library is uninterpreted: `fuzz.ratio`, `partial_ratio`, `token_set_ratio`, `WRatio`, difflib's `SequenceMatcher` and `process.extract`'s default processor are fields of `Scoring.Library`.
- `process.extract` is an input: its output is given to `FuzzySearch`. `ValidExtract` states its limit, order, distinct labels and scores, and says it is complete when it returns fewer than 100 triples. It does not state that it keeps the best 100 of a larger column.
- `round(score, 1)` is not modelled: scores are carried unrounded.
- `str.contains` uses regular expressions by default. The model uses plain substring containment, as for a query without regex metacharacters.
- Lower-casing is per character: ASCII and Latin-1 capitals only. Full Unicode case mapping is not modelled.
- Row labels equal positions, as in an unfiltered table. After a municipality filter, the source looks labels up positionally in `startswith_search` and `fuzzy_search`. It can then read another row or raise `IndexError`. The model treats the filtered table as re-indexed and does not capture this.
- Scoring.HybridScore: the weighted sum is computed in exact real arithmetic, while the source sums binary floats. A score that equals an integer threshold exactly in the model may fall just below it in the source. For example ratio 3, partial 80, token set 23 and WRatio 77 with no bonus give 50 here and 49.99999999999999 in Python, so `Strategies.FuzzySpec` keeps a candidate at threshold 50 that the source drops.
- Strategies.RowAt: the placeholder row for a label outside the table is never reached by `FuzzySearch`, which requires labels in range, as the extract guarantees.
- Strategies.StartsWithSearch: a column missing from the schema raises `KeyError` in the source. This is a precondition here because the handler validates columns first. The same holds for `Strategies.ContainsSearch`.
- Strategies.FuzzySearch: the `query` argument is not a parameter, because it only reaches the library's extract, which is an input.
- The handler's catch-all 500 path is modelled only for the exception the prefix strategy raises on a null cell. Other exceptions are not modelled: a non-integer threshold field, a missing form key.
- Flask routing, templates, form parsing, the `show_map` flag, CSV loading, `exit()` and the `index` route are I/O.
- The municipality column is one field: the source reads `kunta` in the handler and `Kunta` in the strategies.
- `transform_coordinates` and `substring_match` are not used by any search, so they are not modelled.
- Table columns are all read as text: numeric columns requested by name are not distinguished.
- The handler sets `lon`/`lat` on the very dictionaries that its result lists hold. The model updates values, which gives the same result because no other reference to them is read.
