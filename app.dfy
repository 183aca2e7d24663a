/**
 * The search request handler: validation of the request, the optional
 * municipality filter, and the merge of every selected strategy's results,
 * column by column, into three fixed groups.
 */
module App {
  import opened Wrappers
  import opened Sequences
  import opened Text
  import opened Gazetteer
  import opened Scoring
  import opened Strategies

  /** The strategy names as the form sends them, which are also the group names of the response. */
  const FuzzyMethod: string := "Sumea"
  const PrefixMethod: string := "Alkaa merkkijonolla"
  const SubstringMethod: string := "Sisältää merkkijonon"

  /** The threshold the handler reads when the form has no `threshold` field. */
  const FormThreshold: int := 80

  const EmptyQueryError: string := "Search query cannot be empty"
  const NoColumnsError: string := "No search columns selected."
  const InvalidColumnsPrefix: string := "Invalid column(s): "

  /** The parsed form: query, selected strategies, columns and municipalities, and the threshold field if given. */
  datatype Request = Request(
    query: string,
    methods: seq<string>,
    columns: seq<string>,
    kuntas: seq<string>,
    threshold: Option<int>)

  /** The handler's own coordinate conversion of a result's `x`/`y`, with its failure fallback; an external library. */
  type CoordinateFix = (Option<real>, Option<real>) -> (Option<real>, Option<real>)

  /**
   * The external collaborators: the similarity library, the extract the library returns for
   * each column of the filtered table, the strategies' transform and the handler's conversion.
   */
  datatype Env = Env(lib: Library, extract: string -> seq<Extracted>, transform: Transform, fix: CoordinateFix)

  /** The three result groups, keyed in the source by the strategy names. */
  datatype Groups = Groups(fuzzy: seq<Match>, prefix: seq<Match>, substring: seq<Match>)

  /** A 400 response with its message, a rendered result page, or a 500 response with the exception's message. */
  datatype Response = BadRequest(error: string) | Rendered(results: Groups) | ServerError(error: string)

  /** The threshold field, 80 when the form omits it. */
  function ThresholdOf(field: Option<int>): (threshold: int)
    ensures field.None? ==> threshold == FormThreshold
    ensures field.Some? ==> threshold == field.value
  {
    match field
    case Some(v) => v
    case None => FormThreshold
  }

  function Unknown(schema: set<string>): string -> bool
  {
    (c: string) => c !in schema
  }

  /** The requested columns missing from the schema: exactly those, in request order. */
  function InvalidColumns(columns: seq<string>, schema: set<string>): (invalid: seq<string>)
    ensures forall c :: c in invalid <==> c in columns && c !in schema
    ensures SelectsInOrder(invalid, columns, Unknown(schema))
  {
    FilterMembers(columns, Unknown(schema));
    FilterSelectsInOrder(columns, Unknown(schema));
    Filter(columns, Unknown(schema))
  }

  /**
   * The request checks, in order: an empty query, then an empty column selection, then unknown
   * columns, whose message lists them in request order joined by ", ". `None` when all pass.
   */
  function Validate(req: Request, schema: set<string>): (error: Option<string>)
    ensures req.query == [] ==> error == Some(EmptyQueryError)
    ensures req.query != [] && req.columns == [] ==> error == Some(NoColumnsError)
    ensures req.query != [] && req.columns != [] ==>
              (error.None? <==> forall c :: c in req.columns ==> c in schema)
    ensures req.query != [] && req.columns != [] && error.Some? ==>
              error.value == InvalidColumnsPrefix + Join(InvalidColumns(req.columns, schema), ", ")
  {
    if req.query == [] then Some(EmptyQueryError)
    else if req.columns == [] then Some(NoColumnsError)
    else
      var invalid := InvalidColumns(req.columns, schema);
      if invalid != [] then Some(InvalidColumnsPrefix + Join(invalid, ", ")) else None
  }

  function InKuntas(kuntas: seq<string>): Row -> bool
  {
    (r: Row) => r.kunta in kuntas
  }

  /**
   * The table the strategies search: the whole table when no municipality is selected,
   * otherwise exactly the rows whose municipality is selected, in table order.
   */
  function FilterByKunta(t: Table, kuntas: seq<string>): (f: Table)
    ensures f.columns == t.columns
    ensures kuntas == [] ==> f == t
    ensures kuntas != [] ==> SelectsInOrder(f.rows, t.rows, InKuntas(kuntas))
    ensures forall r :: r in f.rows ==> r in t.rows && (kuntas != [] ==> r.kunta in kuntas)
  {
    if kuntas == [] then t
    else
      FilterSelectsInOrder(t.rows, InKuntas(kuntas));
      Table(t.columns, Filter(t.rows, InKuntas(kuntas)))
  }

  /** A result after the handler sets `lon` and `lat` from its `x` and `y`; nothing else changes. */
  function Enriched(m: Match, fix: CoordinateFix): (e: Match)
    ensures (e.lon, e.lat) == fix(m.x, m.y)
    ensures e.nimi == m.nimi && e.kunta == m.kunta && e.score == m.score && e.language == m.language
    ensures e.x == m.x && e.y == m.y
  {
    var (lon, lat) := fix(m.x, m.y);
    m.(lon := lon, lat := lat)
  }

  function EnrichedAll(rs: seq<Match>, fix: CoordinateFix): (es: seq<Match>)
    ensures |es| == |rs|
    ensures forall k :: 0 <= k < |rs| ==> es[k] == Enriched(rs[k], fix)
  {
    seq(|rs|, k requires 0 <= k < |rs| => Enriched(rs[k], fix))
  }

  /** The handler's `for r in results: r["lon"], r["lat"] = transform_coords(r["x"], r["y"])`. */
  method Enrich(rs: seq<Match>, fix: CoordinateFix) returns (out: seq<Match>)
    ensures out == EnrichedAll(rs, fix)
  {
    out := rs;
    for i := 0 to |rs|
      invariant |out| == |rs|
      invariant forall k :: 0 <= k < i ==> out[k] == Enriched(rs[k], fix)
      invariant forall k :: i <= k < |rs| ==> out[k] == rs[k]
    {
      var (lon, lat) := fix(out[i].x, out[i].y);
      out := out[i := out[i].(lon := lon, lat := lat)];
    }
  }

  /** Every column the extract is consulted for has labels within the table. */
  predicate ExtractsInRange(f: Table, columns: seq<string>, env: Env)
  {
    forall c :: c in columns ==> KeysInRange(f, env.extract(c))
  }

  /** What one requested column contributes to each group: the selected strategies' enriched results. */
  function ColumnGroups(f: Table, req: Request, env: Env, col: string): Groups
  {
    var threshold := ThresholdOf(req.threshold);
    Groups(
      if FuzzyMethod in req.methods
      then EnrichedAll(FuzzySpec(f, col, threshold, env.extract(col), env.transform), env.fix) else [],
      if PrefixMethod in req.methods
      then EnrichedAll(StartsWithRows(f.rows, col, req.query, env.transform), env.fix) else [],
      if SubstringMethod in req.methods
      then EnrichedAll(ContainsSpec(f, col, req.query, env.transform), env.fix) else [])
  }

  function Append(a: Groups, b: Groups): Groups
  {
    Groups(a.fuzzy + b.fuzzy, a.prefix + b.prefix, a.substring + b.substring)
  }

  /** The groups after a loop over `columns` that appends `per(c)` for each column `c`, in order. */
  function Concat(columns: seq<string>, per: string -> Groups): Groups
    decreases |columns|
  {
    if columns == [] then Groups([], [], [])
    else
      var last := |columns| - 1;
      Append(Concat(columns[..last], per), per(columns[last]))
  }

  function PerColumn(f: Table, req: Request, env: Env): string -> Groups
  {
    (c: string) => ColumnGroups(f, req, env, c)
  }

  /** The three groups after the handler's loop: each the concatenation of its per-column results, in request order. */
  function MergedGroups(f: Table, req: Request, env: Env, columns: seq<string>): Groups
  {
    Concat(columns, PerColumn(f, req, env))
  }

  /** The prefix strategy is selected and one of `columns` of `f` holds a null, on which it raises. */
  predicate PrefixRaisesOn(f: Table, methods: seq<string>, columns: seq<string>)
  {
    PrefixMethod in methods && exists c :: c in columns && !AllPresent(f, c)
  }

  predicate PrefixRaises(f: Table, req: Request)
  {
    PrefixRaisesOn(f, req.methods, req.columns)
  }

  /** Whether the prefix strategy raises within the first i + 1 columns. */
  lemma PrefixRaisesStep(f: Table, methods: seq<string>, columns: seq<string>, i: nat)
    requires i < |columns|
    ensures PrefixRaisesOn(f, methods, columns[..i + 1]) <==>
            PrefixRaisesOn(f, methods, columns[..i]) || (PrefixMethod in methods && !AllPresent(f, columns[i]))
  {
    assert columns[..i + 1] == columns[..i] + [columns[i]];
  }

  /** The response of `search()` for a request against the table `t`. */
  function SearchSpec(t: Table, req: Request, env: Env): Response
  {
    match Validate(req, t.columns)
    case Some(error) => BadRequest(error)
    case None =>
      var f := FilterByKunta(t, req.kuntas);
      if PrefixRaises(f, req) then ServerError(NullLowerError)
      else Rendered(MergedGroups(f, req, env, req.columns))
  }

  /**
   * One pass of the handler's loop body for column `col`: the selected strategies' enriched
   * results, or the exception the prefix strategy raises on a null cell.
   */
  method SearchColumn(f: Table, req: Request, env: Env, col: string) returns (r: Result<Groups>)
    requires col in f.columns && KeysInRange(f, env.extract(col))
    ensures r.Err? <==> PrefixMethod in req.methods && !AllPresent(f, col)
    ensures r.Err? ==> r.error == NullLowerError
    ensures r.Ok? ==> r.value == ColumnGroups(f, req, env, col)
  {
    var fuzzy, prefix, substring := [], [], [];
    if FuzzyMethod in req.methods {
      var rs := FuzzySearch(f, col, ThresholdOf(req.threshold), env.extract(col), env.transform);
      fuzzy := Enrich(rs, env.fix);
    }
    if PrefixMethod in req.methods {
      var outcome := StartsWithSearch(f, col, req.query, env.transform);
      if outcome.Err? {
        return Err(outcome.error);
      }
      prefix := Enrich(outcome.value, env.fix);
    }
    if SubstringMethod in req.methods {
      var rs := ContainsSearch(f, col, req.query, env.transform);
      substring := Enrich(rs, env.fix);
    }
    return Ok(Groups(fuzzy, prefix, substring));
  }

  /** One step of the handler's loop: the groups after the first i + 1 columns. */
  lemma ConcatStep(columns: seq<string>, per: string -> Groups, i: nat)
    requires i < |columns|
    ensures Concat(columns[..i + 1], per) == Append(Concat(columns[..i], per), per(columns[i]))
  {
    assert columns[..i + 1][..i] == columns[..i];
  }

  /**
   * The handler's loop over the requested columns, each already known to the schema: the merged
   * groups, or the exception the prefix strategy raises on the first column holding a null.
   */
  method MergeColumns(f: Table, req: Request, env: Env) returns (r: Result<Groups>)
    requires forall c :: c in req.columns ==> c in f.columns
    requires ExtractsInRange(f, req.columns, env)
    ensures r.Err? <==> PrefixRaises(f, req)
    ensures r.Err? ==> r.error == NullLowerError
    ensures r.Ok? ==> r.value == MergedGroups(f, req, env, req.columns)
  {
    var results := Groups([], [], []);
    ghost var per := PerColumn(f, req, env);
    for i := 0 to |req.columns|
      invariant results == Concat(req.columns[..i], per)
      invariant !PrefixRaisesOn(f, req.methods, req.columns[..i])
    {
      var col := req.columns[i];
      ConcatStep(req.columns, per, i);
      PrefixRaisesStep(f, req.methods, req.columns, i);
      var outcome := SearchColumn(f, req, env, col);
      if outcome.Err? {
        return Err(outcome.error);
      }
      results := Append(results, outcome.value);
    }
    assert req.columns[..|req.columns|] == req.columns;
    return Ok(results);
  }

  /** `search()`: validate, filter by municipality, then run the selected strategies column by column. */
  method Search(t: Table, req: Request, env: Env) returns (resp: Response)
    requires ExtractsInRange(FilterByKunta(t, req.kuntas), req.columns, env)
    ensures resp == SearchSpec(t, req, env)
  {
    var error := Validate(req, t.columns);
    if error.Some? {
      return BadRequest(error.value);
    }
    var f := FilterByKunta(t, req.kuntas);
    var outcome := MergeColumns(f, req, env);
    if outcome.Err? {
      return ServerError(outcome.error);
    }
    return Rendered(outcome.value);
  }

  // ---------------------------------------------------------------- properties of the handler

  /** An empty query is rejected with its message before anything else is looked at. */
  lemma EmptyQueryRejectedFirst(t: Table, req: Request, env: Env)
    requires req.query == []
    ensures SearchSpec(t, req, env) == BadRequest(EmptyQueryError)
  {
  }

  /** A non-empty query with no columns is rejected with its message, whatever else the request holds. */
  lemma NoColumnsRejected(t: Table, req: Request, env: Env)
    requires req.query != [] && req.columns == []
    ensures SearchSpec(t, req, env) == BadRequest(NoColumnsError)
  {
  }

  /**
   * With a non-empty query, a request naming an unknown column is rejected, and the message
   * names every unknown requested column (and, by `InvalidColumns`, only those).
   */
  lemma UnknownColumnsRejected(schema: set<string>, req: Request, c: string)
    requires req.query != [] && c in req.columns && c !in schema
    ensures Validate(req, schema) == Some(InvalidColumnsPrefix + Join(InvalidColumns(req.columns, schema), ", "))
    ensures Contains(Validate(req, schema).value, c)
  {
    var invalid := InvalidColumns(req.columns, schema);
    var i :| 0 <= i < |invalid| && invalid[i] == c;
    JoinContainsParts(invalid, ", ", i);
    ContainsAfterPrefix(InvalidColumnsPrefix, Join(invalid, ", "), c);
  }

  /** A strategy that is not selected leaves its group empty, however many columns are searched. */
  lemma {:induction false} UnselectedGroupsStayEmpty(f: Table, req: Request, env: Env, columns: seq<string>)
    ensures FuzzyMethod !in req.methods ==> MergedGroups(f, req, env, columns).fuzzy == []
    ensures PrefixMethod !in req.methods ==> MergedGroups(f, req, env, columns).prefix == []
    ensures SubstringMethod !in req.methods ==> MergedGroups(f, req, env, columns).substring == []
    decreases |columns|
  {
    if columns != [] {
      UnselectedGroupsStayEmpty(f, req, env, columns[..|columns| - 1]);
    }
  }

  /** A valid request that selects no strategy is not rejected: it renders three empty groups. */
  lemma NoMethodsRendersEmptyGroups(t: Table, req: Request, env: Env)
    requires req.methods == [] && Validate(req, t.columns).None?
    ensures SearchSpec(t, req, env) == Rendered(Groups([], [], []))
  {
    UnselectedGroupsStayEmpty(FilterByKunta(t, req.kuntas), req, env, req.columns);
  }

  /** The groups for a column list are those of its two parts, concatenated in order. */
  lemma {:induction false} ConcatAppend(first: seq<string>, second: seq<string>, per: string -> Groups)
    ensures Concat(first + second, per) == Append(Concat(first, per), Concat(second, per))
    decreases |second|
  {
    if second == [] {
      assert first + second == first;
    } else {
      var last := |second| - 1;
      var all := first + second;
      assert all[..|all| - 1] == first + second[..last];
      assert all[|all| - 1] == second[last];
      ConcatAppend(first, second[..last], per);
    }
  }

  /** Every result in the fuzzy group carries a score of at least the request's threshold (80 when the form omits it). */
  lemma {:induction false} FuzzyGroupMeetsThreshold(f: Table, req: Request, env: Env, columns: seq<string>)
    ensures var g := MergedGroups(f, req, env, columns).fuzzy;
      forall k :: 0 <= k < |g| ==> g[k].score.Some? && g[k].score.value >= ThresholdOf(req.threshold) as real
    decreases |columns|
  {
    if columns != [] {
      var last := |columns| - 1;
      FuzzyGroupMeetsThreshold(f, req, env, columns[..last]);
      var g := ColumnGroups(f, req, env, columns[last]).fuzzy;
      assert forall k :: 0 <= k < |g| ==> g[k].score.Some? && g[k].score.value >= ThresholdOf(req.threshold) as real;
    }
  }

  /** Every result in the prefix group holds a present name that, lower-cased, starts with the lower-cased query. */
  lemma {:induction false} PrefixGroupMatchesQuery(f: Table, req: Request, env: Env, columns: seq<string>)
    ensures var g := MergedGroups(f, req, env, columns).prefix;
      forall k :: 0 <= k < |g| ==> g[k].nimi.Some? && Lower(req.query) <= Lower(g[k].nimi.value)
    decreases |columns|
  {
    if columns != [] {
      var last := |columns| - 1;
      PrefixGroupMatchesQuery(f, req, env, columns[..last]);
      StartsWithResultsMatch(f.rows, columns[last], req.query, env.transform);
      var g := ColumnGroups(f, req, env, columns[last]).prefix;
      assert forall k :: 0 <= k < |g| ==> g[k].nimi.Some? && Lower(req.query) <= Lower(g[k].nimi.value);
    }
  }
}
