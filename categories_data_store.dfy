/** The category report data store: merges defaults into the query
    arguments, consults the report cache, builds the grouped subquery (and,
    for an explicit category include-list, an outer query that RIGHT JOINs
    the requested ids), executes it against an abstract database, pages the
    grouped rows in memory, attaches extended info and caches the result. */
module CategoriesReport {
  import opened Basics
  import opened SqlQueryModel

  // ---------------------------------------------------------------------
  // Tables (the `wp_` table prefix is assumed) and constants.
  // ---------------------------------------------------------------------

  const TableName: string := "wp_wc_order_product_lookup"
  const TermRelationships: string := "wp_term_relationships"
  const CategoryLookup: string := "wp_wc_category_lookup"
  const Terms: string := "wp_terms"

  /** The data store's cache identifier and filter context. */
  const Context: string := "categories"

  const ResultFailedCode: string := "woocommerce_reports_categories_result_failed"
  const ResultFailedStatus: int := 500

  /** `column_types`: how each output column is cast (tags only; casts are not modelled). */
  datatype CastTag = IntCast | FloatCast

  const ColumnTypes: map<string, CastTag> := map[
    "category_id" := IntCast,
    "items_sold" := IntCast,
    "net_revenue" := FloatCast,
    "orders_count" := IntCast,
    "products_count" := IntCast
  ]

  /** `assign_report_columns()`: output column name to aggregate expression. */
  const ReportColumnNames: seq<string> := ["items_sold", "net_revenue", "orders_count", "products_count"]

  function ReportColumns(): map<string, string>
  {
    map[
      "items_sold" := "SUM(product_qty) as items_sold",
      "net_revenue" := "SUM(product_net_revenue) AS net_revenue",
      "orders_count" := "COUNT(DISTINCT " + TableName + ".order_id) as orders_count",
      "products_count" := "COUNT(DISTINCT " + TableName + ".product_id) as products_count"
    ]
  }

  // ---------------------------------------------------------------------
  // Query arguments.
  // ---------------------------------------------------------------------

  /** A list-valued argument as PHP sees it: absent, null, a scalar, or an array of ids. */
  datatype Param = Missing | Null | Scalar(text: string) | IdList(ids: seq<nat>)

  /** The arguments as supplied by the caller; `None` means the key is absent. */
  datatype RawArgs = RawArgs(
    perPage: Option<int>,
    page: Option<int>,
    order: Option<string>,
    orderby: Option<string>,
    before: Option<int>,
    after: Option<int>,
    fields: Option<seq<string>>,
    categories: Param,
    products: Param,
    extendedInfo: Option<bool>)

  /** The arguments after `wp_parse_args` merged in the defaults. */
  datatype QueryArgs = QueryArgs(
    perPage: int,
    page: int,
    order: string,
    orderby: string,
    before: int,
    after: int,
    fields: seq<string>,
    categories: Param,
    products: Param,
    extendedInfo: bool)

  /** A grouped result row: its category id, the other columns, and `extended_info`. */
  datatype Row = Row(categoryId: int, columns: map<string, string>, extendedInfo: map<string, string>)

  /** What `get_data` works against: the defaults it reads, the database
      (`$wpdb->get_results`: the rows a statement yields, `None` for a failed
      query; the statement is given by its clause map) and the category name
      lookup. */
  datatype Env = Env(
    postsPerPage: int,
    defaultBefore: int,
    defaultAfter: int,
    db: Clauses -> Option<seq<Row>>,
    categoryName: int -> string)

  /** `wp_parse_args( $query_args, $defaults )`: caller values win, absent keys get the defaults. */
  function ParseArgs(raw: RawArgs, env: Env): QueryArgs
  {
    QueryArgs(
      perPage := if raw.perPage.Some? then raw.perPage.value else env.postsPerPage,
      page := if raw.page.Some? then raw.page.value else 1,
      order := if raw.order.Some? then raw.order.value else "DESC",
      orderby := if raw.orderby.Some? then raw.orderby.value else "date",
      before := if raw.before.Some? then raw.before.value else env.defaultBefore,
      after := if raw.after.Some? then raw.after.value else env.defaultAfter,
      fields := if raw.fields.Some? then raw.fields.value else ["*"],
      categories := if raw.categories.Missing? then IdList([]) else raw.categories,
      products := raw.products,
      extendedInfo := if raw.extendedInfo.Some? then raw.extendedInfo.value else false)
  }

  /** The merged arguments, handed back as caller arguments. */
  function AsRaw(a: QueryArgs): RawArgs
  {
    RawArgs(Some(a.perPage), Some(a.page), Some(a.order), Some(a.orderby), Some(a.before),
            Some(a.after), Some(a.fields), a.categories, a.products, Some(a.extendedInfo))
  }

  /** Merging the defaults a second time changes nothing, and the category
      argument is always present afterwards. */
  lemma ParseArgsIdempotent(raw: RawArgs, env: Env)
    ensures ParseArgs(AsRaw(ParseArgs(raw, env)), env) == ParseArgs(raw, env)
    ensures !ParseArgs(raw, env).categories.Missing?
  {
  }

  /** The cache key: the context tag together with the full merged arguments. */
  datatype CacheKey = CacheKey(context: string, args: QueryArgs)

  // ---------------------------------------------------------------------
  // Pure helpers of the data store.
  // ---------------------------------------------------------------------

  /** `normalize_order_by`. */
  function NormalizeOrderBy(orderBy: string): string
  {
    if orderBy == "date" then "time_interval"
    else if orderBy == "category" then "_terms.name"
    else orderBy
  }

  /** Only the two user-facing keys are renamed; every other key passes through. */
  lemma NormalizeOrderByRenames(orderBy: string)
    ensures orderBy == "date" ==> NormalizeOrderBy(orderBy) == "time_interval"
    ensures orderBy == "category" ==> NormalizeOrderBy(orderBy) == "_terms.name"
    ensures orderBy != "date" && orderBy != "category" ==> NormalizeOrderBy(orderBy) == orderBy
    ensures NormalizeOrderBy(NormalizeOrderBy(orderBy)) == NormalizeOrderBy(orderBy)
  {
  }

  /** A string lacking some character of `sub` does not contain `sub`. */
  lemma {:induction false} MissingCharNotContained(s: string, sub: string, c: char)
    requires c in sub && c !in s
    ensures !Contains(s, sub)
    decreases |s|
  {
    if |s| > 0 {
      MissingCharNotContained(s[1..], sub, c);
    }
  }

  /** The sort key asks for the `_terms` JOIN exactly when the user sorts by
      category or passes a raw key that already mentions `_terms`. */
  lemma NormalizeOrderByNeedsTerms(orderBy: string)
    ensures Contains(NormalizeOrderBy(orderBy), "_terms") <==>
            (orderBy == "category" || Contains(orderBy, "_terms"))
  {
    if orderBy == "date" {
      DateKeysHaveNoTerms();
    } else if orderBy == "category" {
      assert "_terms" <= "_terms.name";
    }
  }

  /** Neither spelling of the date key mentions `_terms` (neither has an `s`). */
  lemma DateKeysHaveNoTerms()
    ensures !Contains("time_interval", "_terms")
    ensures !Contains("date", "_terms")
  {
    assert "_terms"[5] == 's';
    MissingCharNotContained("time_interval", "_terms", 's');
    MissingCharNotContained("date", "_terms", 's');
  }

  /** `get_included_categories_array`: the `categories` argument when it is
      set, an array and non-empty; otherwise the empty array. */
  function IncludedCategoriesArray(args: QueryArgs): (r: seq<nat>)
    ensures r == [] || (args.categories.IdList? && r == args.categories.ids)
    ensures r != [] <==> (args.categories.IdList? && args.categories.ids != [])
  {
    match args.categories
    case IdList(ids) => if |ids| > 0 then ids else []
    case _ => []
  }

  /** The same test on the `products` argument (base class helper). */
  function IncludedProductsArray(args: QueryArgs): seq<nat>
  {
    match args.products
    case IdList(ids) => if |ids| > 0 then ids else []
    case _ => []
  }

  function IdStrings(ids: seq<nat>): (r: seq<string>)
    ensures |r| == |ids|
    ensures forall i :: 0 <= i < |ids| ==> r[i] == NatToString(ids[i])
  {
    if ids == [] then [] else [NatToString(ids[0])] + IdStrings(ids[1..])
  }

  /** `implode( ',', ids )`: the SQL list the base class produces from an id array. */
  function IdListSql(ids: seq<nat>): string
  {
    JoinWith(IdStrings(ids), ",")
  }

  lemma {:induction false} JoinLengthAtLeast(parts: seq<string>, sep: string)
    requires |parts| >= 2
    requires forall i :: 0 <= i < |parts| ==> |parts[i]| >= 1
    ensures |JoinWith(parts, sep)| >= 2
  {
    if |parts| == 2 {
      assert JoinWith(parts[1..], sep) == parts[1];
    } else {
      JoinLengthAtLeast(parts[1..], sep);
    }
  }

  /** PHP reads the imploded id list as true exactly when the list is
      non-empty and is not the single id 0 (the string "0" is falsy). */
  lemma IdListSqlTruthy(ids: seq<nat>)
    ensures PhpTruthy(IdListSql(ids)) <==> (ids != [] && ids != [0])
  {
    var parts := IdStrings(ids);
    if |ids| == 1 {
      assert IdListSql(ids) == NatToString(ids[0]);
      if ids[0] == 0 {
        assert ids == [0];
      }
    } else if |ids| >= 2 {
      JoinLengthAtLeast(parts, ",");
    }
  }

  /** PHP `array_slice( data, offset, length )` for a non-negative length;
      a negative offset counts from the end. */
  function ArraySlice<T>(data: seq<T>, offset: int, length: nat): (r: seq<T>)
    ensures |r| <= length
    ensures offset >= 0 ==> r == data[Min(offset, |data|)..Min(offset + length, |data|)]
  {
    var start := if offset >= 0 then (if offset <= |data| then offset else |data|)
                 else (if |data| + offset >= 0 then |data| + offset else 0);
    var end := if start + length <= |data| then start + length else |data|;
    data[start..end]
  }


  /** `page_records`. */
  function PageRecords<T>(data: seq<T>, pageNo: int, itemsPerPage: nat): (r: seq<T>)
    ensures |r| <= itemsPerPage
    ensures pageNo >= 1 ==>
      var offset := (pageNo - 1) * itemsPerPage;
      r == data[Min(offset, |data|)..Min(offset + itemsPerPage, |data|)]
  {
    var offset := (pageNo - 1) * itemsPerPage;
    assert pageNo >= 1 ==> offset >= 0 by {
      if pageNo >= 1 {
        MulMonotone(0, pageNo - 1, itemsPerPage);
      }
    }
    ArraySlice(data, offset, itemsPerPage)
  }

  /** Every grouped row is on exactly the page its index says: row `i` is
      item `i % n` of page `i / n + 1`. */
  lemma PageRecordsCover<T>(data: seq<T>, itemsPerPage: nat, i: nat)
    requires itemsPerPage >= 1
    requires i < |data|
    ensures var p := i / itemsPerPage + 1;
            var page := PageRecords(data, p, itemsPerPage);
            i % itemsPerPage < |page| && page[i % itemsPerPage] == data[i]
  {
    var n := itemsPerPage;
    var q, m := i / n, i % n;
    assert i == q * n + m;
    assert (q + 1 - 1) * n == q * n;
    assert q * n <= i;
    var page := PageRecords(data, q + 1, n);
    assert page == data[q * n..Min(q * n + n, |data|)];
  }

  /** `(int) ceil( record_count / per_page )`. */
  function TotalPages(recordCount: nat, perPage: int): (pages: nat)
    requires perPage >= 1
    ensures pages * perPage >= recordCount
    ensures pages == 0 || (pages - 1) * perPage < recordCount
  {
    var q := (recordCount + perPage - 1) / perPage;
    DivBounds(recordCount + perPage - 1, perPage, q);
    q
  }

  lemma DivBounds(a: nat, d: int, q: int)
    requires d >= 1
    requires q == a / d
    ensures q * d <= a < q * d + d
    ensures q >= 0
  {
  }

  /** A page number is served exactly when it is at least 1 and at most the
      page count; for such numbers the page is non-empty. */
  lemma ValidPageIsNonEmpty<T>(data: seq<T>, pageNo: int, perPage: int)
    requires perPage >= 1
    requires pageNo >= 1
    ensures pageNo <= TotalPages(|data|, perPage) <==> PageRecords(data, pageNo, perPage) != []
  {
    var pages := TotalPages(|data|, perPage);
    var offset := (pageNo - 1) * perPage;
    var page := PageRecords(data, pageNo, perPage);
    assert page == data[Min(offset, |data|)..Min(offset + perPage, |data|)];
    if pageNo <= pages {
      MulMonotone(pageNo - 1, pages - 1, perPage);
      assert offset < |data|;
      assert |page| > 0;
    } else {
      MulMonotone(pages, pageNo - 1, perPage);
      assert offset >= |data|;
      assert |page| == 0;
    }
  }

  // ---------------------------------------------------------------------
  // Extended info.
  // ---------------------------------------------------------------------

  /** One row after `include_extended_info`: an empty object, or one holding the name. */
  function ExtendRow(row: Row, extendedInfo: bool, categoryName: int -> string): Row
  {
    row.(extendedInfo := if extendedInfo then map["name" := categoryName(row.categoryId)] else map[])
  }

  function ExtendedRows(rows: seq<Row>, extendedInfo: bool, categoryName: int -> string): seq<Row>
  {
    seq(|rows|, i requires 0 <= i < |rows| => ExtendRow(rows[i], extendedInfo, categoryName))
  }

  /** Enrichment keeps every row and its columns, adds a name exactly when
      asked to, and doing it twice is the same as doing it once. */
  lemma ExtendedRowsProperties(rows: seq<Row>, extendedInfo: bool, categoryName: int -> string)
    ensures var r := ExtendedRows(rows, extendedInfo, categoryName);
      && |r| == |rows|
      && (forall i :: 0 <= i < |rows| ==>
            r[i].categoryId == rows[i].categoryId && r[i].columns == rows[i].columns
            && ("name" in r[i].extendedInfo <==> extendedInfo)
            && (extendedInfo ==> r[i].extendedInfo["name"] == categoryName(rows[i].categoryId))
            && (!extendedInfo ==> r[i].extendedInfo == map[]))
      && ExtendedRows(r, extendedInfo, categoryName) == r
  {
  }

  // ---------------------------------------------------------------------
  // The report result.
  // ---------------------------------------------------------------------

  datatype ReportResult = ReportResult(data: seq<Row>, total: int, pages: int, pageNo: int)

  datatype ReportError = ReportError(code: string, status: int)

  /** The `$data` object `get_data` starts from and returns for an invalid page. */
  const EmptyReport: ReportResult := ReportResult([], 0, 0, 0)

  predicate PageInRange(pageNo: int, pages: int)
  {
    1 <= pageNo <= pages
  }

  /** Whether `get_data` serves a page of rows rather than the empty object.
      A non-positive `per_page` never does: for a negative one `ceil` of the
      quotient is at most 0, so no page number is in range; for a zero one
      PHP 7's division gives INF or NAN, which the `(int)` cast makes 0. */
  predicate Served(recordCount: nat, args: QueryArgs)
  {
    args.perPage >= 1 && PageInRange(args.page, TotalPages(recordCount, args.perPage))
  }

  /** What `get_data` makes of the query's outcome (everything after the
      database call). */
  function ComputeReport(rows: Option<seq<Row>>, args: QueryArgs, categoryName: int -> string): (r: Result<ReportResult, ReportError>)
    ensures rows.None? <==> r.Err?
    ensures r.Err? ==> r.error == ReportError(ResultFailedCode, ResultFailedStatus)
    ensures r.Ok? && !Served(|rows.value|, args) ==> r.value == EmptyReport
    ensures r.Ok? && Served(|rows.value|, args) ==>
      && r.value.total == |rows.value|
      && r.value.pages * args.perPage >= r.value.total > (r.value.pages - 1) * args.perPage
      && r.value.pageNo == args.page
      && 1 <= |r.value.data| <= args.perPage
      && r.value.data == ExtendedRows(PageRecords(rows.value, args.page, args.perPage), args.extendedInfo, categoryName)
  {
    match rows
    case None => Err(ReportError(ResultFailedCode, ResultFailedStatus))
    case Some(data) =>
      var recordCount := |data|;
      if args.perPage < 1 then Ok(EmptyReport)
      else
      var totalPages := TotalPages(recordCount, args.perPage);
      if args.page < 1 || args.page > totalPages then Ok(EmptyReport)
      else
        ValidPageIsNonEmpty(data, args.page, args.perPage);
        var page := PageRecords(data, args.page, args.perPage);
        Ok(ReportResult(ExtendedRows(page, args.extendedInfo, categoryName), recordCount, totalPages, args.page))
  }

  /** An empty grouped result is not an error: it is a well-formed result with nothing in it. */
  lemma EmptyResultIsNotAnError(args: QueryArgs, categoryName: int -> string)
    ensures ComputeReport(Some([]), args, categoryName) == Ok(EmptyReport)
  {
  }

  /** Whether `get_data` stores what it computed: only for a successful query and a page in range. */
  predicate Cacheable(rows: Option<seq<Row>>, args: QueryArgs)
  {
    rows.Some? && Served(|rows.value|, args)
  }

  // ---------------------------------------------------------------------
  // The clauses the data store adds, as functions of the arguments.
  // Helpers of the base data store that are not part of this model
  // (selected_columns, get_fields, format_join_selections, get_ids_table,
  // add_time_period_sql_params) are stand-ins producing fixed shapes.
  // ---------------------------------------------------------------------

  const CategoryIdSelect: string := CategoryLookup + ".category_tree_id as category_id,"
  const CategoryGroupBy: string := CategoryLookup + ".category_tree_id"
  const RelationshipsJoin: string :=
    "LEFT JOIN " + TermRelationships + " ON " + TableName + ".product_id = " + TermRelationships + ".object_id"
  const CategoryLookupJoin: string :=
    "LEFT JOIN " + CategoryLookup + " ON " + TermRelationships + ".term_taxonomy_id = " + CategoryLookup + ".category_id"
  const NotNullFilter: string := "AND " + CategoryLookup + ".category_tree_id IS NOT NULL"
  const OuterIdCell: string := "default_results.category_id"
  const InnerIdCell: string := CategoryLookup + ".category_tree_id"

  function CategoryFilter(ids: string): string
  {
    "AND " + CategoryLookup + ".category_tree_id IN (" + ids + ")"
  }

  function ProductFilter(ids: string): string
  {
    "AND " + TableName + ".product_id IN (" + ids + ")"
  }

  function TermsJoin(idCell: string): string
  {
    "JOIN " + Terms + " AS _terms ON " + idCell + " = _terms.term_id"
  }

  /** The report columns a `fields` argument asks for ("*" asks for all). */
  function RequestedColumns(fields: seq<string>): seq<string>
  {
    if "*" in fields then ReportColumnNames
    else seq(|fields|, i requires 0 <= i < |fields| => fields[i])
  }

  function SelectedColumns(args: QueryArgs): string
  {
    var names := RequestedColumns(args.fields);
    JoinWith(seq(|names|, i requires 0 <= i < |names| =>
      if names[i] in ReportColumns() then ReportColumns()[names[i]] else names[i]), ", ")
  }

  function JoinSelections(args: QueryArgs): string
  {
    var names := RequestedColumns(args.fields);
    JoinWith([OuterIdCell] + seq(|names|, i requires 0 <= i < |names| => TableName + "." + names[i]), ", ")
  }

  function IdsTable(ids: seq<nat>): string
  {
    var parts := IdStrings(ids);
    JoinWith(seq(|parts|, i requires 0 <= i < |parts| => "SELECT " + parts[i] + " AS category_id"), " UNION ")
  }

  function TimePeriodFilter(args: QueryArgs): string
  {
    "AND " + TableName + ".date_created <= '" + IntToString(args.before) + "' AND "
      + TableName + ".date_created >= '" + IntToString(args.after) + "'"
  }

  function RightJoinFragment(ids: seq<nat>): string
  {
    "RIGHT JOIN ( " + IdsTable(ids) + " ) AS default_results ON default_results.category_id = " + TableName + ".category_id"
  }

  /** The subquery and the data store's own (outer) query, side by side. */
  datatype QueryPair = QueryPair(sub: Clauses, outer: Clauses)

  datatype JoinTarget = Inner | Outer

  /** `initialize_queries`. */
  function InitialSubquery(): Clauses
  {
    AddClause(AddClause(AddClause(map[], Select, CategoryIdSelect), From, TableName), GroupBy, CategoryGroupBy)
  }

  /** `add_order_by_params`: the base class puts the normalised sort key and
      the direction on the outer query; a `_terms` sort needs a JOIN, placed
      on the query `target` names. */
  function OrderByParams(q: QueryPair, args: QueryArgs, target: JoinTarget, idCell: string): QueryPair
  {
    var clause := NormalizeOrderBy(args.orderby);
    var outer := AddClause(AddClause(q.outer, OrderBy, clause), OrderBy, args.order);
    if Contains(clause, "_terms") then
      if target == Inner then QueryPair(AddClause(q.sub, Join, TermsJoin(idCell)), outer)
      else QueryPair(q.sub, AddClause(outer, Join, TermsJoin(idCell)))
    else QueryPair(q.sub, outer)
  }

  /** `add_sql_query_params` (the order-status filter is not modelled). */
  function QueryParams(q: QueryPair, args: QueryArgs): QueryPair
  {
    var sub0 := AddClause(q.sub, WhereTime, TimePeriodFilter(args));
    var sub1 := AddClause(AddClause(sub0, LeftJoin, RelationshipsJoin), LeftJoin, CategoryLookupJoin);
    var cats := IdListSql(IncludedCategoriesArray(args));
    var q2 := if PhpTruthy(cats) then
                OrderByParams(QueryPair(AddClause(sub1, Where, CategoryFilter(cats)), q.outer), args, Outer, OuterIdCell)
              else
                OrderByParams(QueryPair(sub1, q.outer), args, Inner, InnerIdCell);
    var prods := IdListSql(IncludedProductsArray(args));
    var sub3 := if PhpTruthy(prods) then AddClause(q2.sub, Where, ProductFilter(prods)) else q2.sub;
    QueryPair(AddClause(sub3, Where, NotNullFilter), q2.outer)
  }

  /** The two queries once `get_data` has added everything, starting from the
      outer query's clauses `start`. */
  function BuiltQueries(start: Clauses, args: QueryArgs): QueryPair
  {
    var q := QueryParams(QueryPair(AddClause(InitialSubquery(), Select, SelectedColumns(args)), start), args);
    var included := IncludedCategoriesArray(args);
    if |included| > 0 then
      var o1 := AddClause(q.outer, Select, JoinSelections(args));
      var o2 := AddClause(AddClause(AddClause(o1, From, "("), From, Render(q.sub)), From, ") AS " + TableName);
      QueryPair(q.sub, AddClause(o2, RightJoin, RightJoinFragment(included)))
    else
      QueryPair(AddClause(q.sub, OrderBy, ClauseText(q.outer, OrderBy)), q.outer)
  }

  /** Which of the two built queries `get_data` executes: the outer query
      with an include-list, the subquery without. */
  function ExecutedQuery(q: QueryPair, args: QueryArgs): Clauses
  {
    if |IncludedCategoriesArray(args)| > 0 then q.outer else q.sub
  }

  /** The statement `get_data` executes, starting from the outer query's clauses `start`. */
  function CategoriesStatement(start: Clauses, args: QueryArgs): Clauses
  {
    ExecutedQuery(BuiltQueries(start, args), args)
  }

  // ---------------------------------------------------------------------
  // Where the clauses go.
  // ---------------------------------------------------------------------

  /** What `initialize_queries` leaves in each clause the routing looks at. */
  lemma InitialSubqueryFragments(columns: string)
    ensures var c := AddClause(InitialSubquery(), Select, columns);
      && Fragments(c, Where) == [] && Fragments(c, OrderBy) == []
      && Fragments(c, Join) == [] && Fragments(c, GroupBy) == [CategoryGroupBy]
  {
  }

  /** `add_order_by_params`: the sort key and direction always go on the
      outer query, and the `_terms` JOIN, when needed, on the target query. */
  lemma OrderByParamsEffect(q: QueryPair, args: QueryArgs, target: JoinTarget, idCell: string)
    ensures var r := OrderByParams(q, args, target, idCell);
      var key := NormalizeOrderBy(args.orderby);
      var terms := Contains(key, "_terms");
      && Fragments(r.outer, OrderBy) == Fragments(q.outer, OrderBy) + [key, args.order]
      && Fragments(r.outer, Join) == Fragments(q.outer, Join) + (if terms && target == Outer then [TermsJoin(idCell)] else [])
      && Fragments(r.sub, Join) == Fragments(q.sub, Join) + (if terms && target == Inner then [TermsJoin(idCell)] else [])
      && Fragments(r.sub, Where) == Fragments(q.sub, Where)
      && Fragments(r.sub, OrderBy) == Fragments(q.sub, OrderBy)
      && Fragments(r.sub, GroupBy) == Fragments(q.sub, GroupBy)
  {
    var key := NormalizeOrderBy(args.orderby);
    var o1 := AddClause(q.outer, OrderBy, key);
    var o2 := AddClause(o1, OrderBy, args.order);
    assert Fragments(o2, OrderBy) == Fragments(q.outer, OrderBy) + [key] + [args.order];
  }

  /** `add_sql_query_params`: the filters the subquery receives, in order;
      the grouping is left alone. */
  lemma QueryParamsFilters(q: QueryPair, args: QueryArgs)
    ensures var r := QueryParams(q, args);
      var cats := IdListSql(IncludedCategoriesArray(args));
      var prods := IdListSql(IncludedProductsArray(args));
      && Fragments(r.sub, Where) == Fragments(q.sub, Where)
           + (if PhpTruthy(cats) then [CategoryFilter(cats)] else [])
           + (if PhpTruthy(prods) then [ProductFilter(prods)] else [])
           + [NotNullFilter]
      && Fragments(r.sub, GroupBy) == Fragments(q.sub, GroupBy)
  {
    var sub0 := AddClause(q.sub, WhereTime, TimePeriodFilter(args));
    var sub1 := AddClause(AddClause(sub0, LeftJoin, RelationshipsJoin), LeftJoin, CategoryLookupJoin);
    var cats := IdListSql(IncludedCategoriesArray(args));
    var p := if PhpTruthy(cats) then QueryPair(AddClause(sub1, Where, CategoryFilter(cats)), q.outer)
             else QueryPair(sub1, q.outer);
    var target := if PhpTruthy(cats) then Outer else Inner;
    var idCell := if PhpTruthy(cats) then OuterIdCell else InnerIdCell;
    var q2 := OrderByParams(p, args, target, idCell);
    OrderByParamsEffect(p, args, target, idCell);
    assert Fragments(p.sub, Where) == Fragments(q.sub, Where) + (if PhpTruthy(cats) then [CategoryFilter(cats)] else []);
    var prods := IdListSql(IncludedProductsArray(args));
    var sub3 := if PhpTruthy(prods) then AddClause(q2.sub, Where, ProductFilter(prods)) else q2.sub;
    assert Fragments(sub3, Where) == Fragments(q2.sub, Where) + (if PhpTruthy(prods) then [ProductFilter(prods)] else []);
    assert QueryParams(q, args) == QueryPair(AddClause(sub3, Where, NotNullFilter), q2.outer);
  }

  /** `add_sql_query_params`: with a truthy category list the sort key and
      any `_terms` JOIN go on the outer query, otherwise the JOIN goes on
      the subquery; the subquery's own ordering is left alone. */
  lemma QueryParamsOrdering(q: QueryPair, args: QueryArgs)
    ensures var r := QueryParams(q, args);
      var inc := PhpTruthy(IdListSql(IncludedCategoriesArray(args)));
      var key := NormalizeOrderBy(args.orderby);
      var terms := Contains(key, "_terms");
      && Fragments(r.sub, OrderBy) == Fragments(q.sub, OrderBy)
      && Fragments(r.sub, Join) == Fragments(q.sub, Join) + (if terms && !inc then [TermsJoin(InnerIdCell)] else [])
      && Fragments(r.outer, OrderBy) == Fragments(q.outer, OrderBy) + [key, args.order]
      && Fragments(r.outer, Join) == Fragments(q.outer, Join) + (if terms && inc then [TermsJoin(OuterIdCell)] else [])
  {
    var sub0 := AddClause(q.sub, WhereTime, TimePeriodFilter(args));
    var sub1 := AddClause(AddClause(sub0, LeftJoin, RelationshipsJoin), LeftJoin, CategoryLookupJoin);
    var cats := IdListSql(IncludedCategoriesArray(args));
    var p := if PhpTruthy(cats) then QueryPair(AddClause(sub1, Where, CategoryFilter(cats)), q.outer)
             else QueryPair(sub1, q.outer);
    var target := if PhpTruthy(cats) then Outer else Inner;
    var idCell := if PhpTruthy(cats) then OuterIdCell else InnerIdCell;
    OrderByParamsEffect(p, args, target, idCell);
    var q2 := OrderByParams(p, args, target, idCell);
    var prods := IdListSql(IncludedProductsArray(args));
    var sub3 := if PhpTruthy(prods) then AddClause(q2.sub, Where, ProductFilter(prods)) else q2.sub;
    assert QueryParams(q, args) == QueryPair(AddClause(sub3, Where, NotNullFilter), q2.outer);
  }

  /** Wrapping the subquery: the outer query selects from the rendered
      subquery and RIGHT JOINs the id table, and gains no ordering or JOIN. */
  lemma OuterWrapEffect(qp: QueryPair, args: QueryArgs, ids: seq<nat>)
    ensures var o1 := AddClause(qp.outer, Select, JoinSelections(args));
      var o2 := AddClause(AddClause(AddClause(o1, From, "("), From, Render(qp.sub)), From, ") AS " + TableName);
      var w := AddClause(o2, RightJoin, RightJoinFragment(ids));
      && Render(qp.sub) in Fragments(w, From)
      && RightJoinFragment(ids) in Fragments(w, RightJoin)
      && Fragments(w, OrderBy) == Fragments(qp.outer, OrderBy)
      && Fragments(w, Join) == Fragments(qp.outer, Join)
  {
    var o1 := AddClause(qp.outer, Select, JoinSelections(args));
    var o2 := AddClause(AddClause(AddClause(o1, From, "("), From, Render(qp.sub)), From, ") AS " + TableName);
    assert Fragments(o2, From) == Fragments(qp.outer, From) + ["("] + [Render(qp.sub)] + [") AS " + TableName];
  }

  /** The subquery always keeps only rows with a category and groups by it. */
  lemma SubqueryAlwaysFiltersNullCategories(start: Clauses, args: QueryArgs)
    ensures NotNullFilter in Fragments(BuiltQueries(start, args).sub, Where)
    ensures Fragments(BuiltQueries(start, args).sub, GroupBy) == [CategoryGroupBy]
  {
    var q0 := QueryPair(AddClause(InitialSubquery(), Select, SelectedColumns(args)), start);
    InitialSubqueryFragments(SelectedColumns(args));
    QueryParamsFilters(q0, args);
    QueryParamsOrdering(q0, args);
    var q := QueryParams(q0, args);
    var w := Fragments(q.sub, Where);
    assert w[|w| - 1] == NotNullFilter;
  }

  /** With a category include-list, the subquery is filtered to the listed
      categories and receives neither the ordering nor the `_terms` JOIN. */
  lemma IncludeListFiltersSubquery(start: Clauses, args: QueryArgs)
    requires IncludedCategoriesArray(args) != []
    requires IncludedCategoriesArray(args) != [0]
    ensures var q := BuiltQueries(start, args);
      var filter := CategoryFilter(IdListSql(IncludedCategoriesArray(args)));
      && filter in Fragments(q.sub, Where)
      && Contains(Render(q.sub), filter)
      && Fragments(q.sub, OrderBy) == []
      && Fragments(q.sub, Join) == []
  {
    var ids := IncludedCategoriesArray(args);
    IdListSqlTruthy(ids);
    var q0 := QueryPair(AddClause(InitialSubquery(), Select, SelectedColumns(args)), start);
    InitialSubqueryFragments(SelectedColumns(args));
    QueryParamsFilters(q0, args);
    QueryParamsOrdering(q0, args);
    var qp := QueryParams(q0, args);
    assert Fragments(qp.sub, Where)[0] == CategoryFilter(IdListSql(ids));
    RenderedContainsFragment(qp.sub, Where, CategoryFilter(IdListSql(ids)));
  }

  /** With a category include-list, the sort key, the direction and any
      `_terms` JOIN (on the RIGHT JOINed id column) go on the outer query,
      which selects from the rendered subquery and is what runs. */
  lemma IncludeListWrapsSubquery(start: Clauses, args: QueryArgs)
    requires IncludedCategoriesArray(args) != []
    requires IncludedCategoriesArray(args) != [0]
    ensures var q := BuiltQueries(start, args);
      var ids := IncludedCategoriesArray(args);
      var key := NormalizeOrderBy(args.orderby);
      && Fragments(q.outer, OrderBy) == Fragments(start, OrderBy) + [key, args.order]
      && Fragments(q.outer, Join) == Fragments(start, Join) + (if Contains(key, "_terms") then [TermsJoin(OuterIdCell)] else [])
      && Render(q.sub) in Fragments(q.outer, From)
      && RightJoinFragment(ids) in Fragments(q.outer, RightJoin)
      && CategoriesStatement(start, args) == q.outer
  {
    var ids := IncludedCategoriesArray(args);
    IdListSqlTruthy(ids);
    var q0 := QueryPair(AddClause(InitialSubquery(), Select, SelectedColumns(args)), start);
    QueryParamsFilters(q0, args);
    QueryParamsOrdering(q0, args);
    var qp := QueryParams(q0, args);
    OuterWrapEffect(qp, args, ids);
  }

  /** Without an include-list: no category filter, the subquery receives the
      ordering and any `_terms` JOIN, the outer query gains no JOIN, and the
      subquery alone is executed. */
  lemma NoIncludeListRouting(start: Clauses, args: QueryArgs)
    requires IncludedCategoriesArray(args) == []
    ensures var q := BuiltQueries(start, args);
      var key := NormalizeOrderBy(args.orderby);
      && (forall f :: f in Fragments(q.sub, Where) ==> f == NotNullFilter || f == ProductFilter(IdListSql(IncludedProductsArray(args))))
      && Fragments(q.sub, OrderBy) == [JoinWith(Fragments(start, OrderBy) + [key, args.order], " ")]
      && Fragments(q.outer, Join) == Fragments(start, Join)
      && (Contains(key, "_terms") <==> Fragments(q.sub, Join) == [TermsJoin(InnerIdCell)])
      && (!Contains(key, "_terms") <==> Fragments(q.sub, Join) == [])
      && CategoriesStatement(start, args) == q.sub
  {
    IdListSqlTruthy([]);
    var q0 := QueryPair(AddClause(InitialSubquery(), Select, SelectedColumns(args)), start);
    InitialSubqueryFragments(SelectedColumns(args));
    QueryParamsFilters(q0, args);
    QueryParamsOrdering(q0, args);
    var qp := QueryParams(q0, args);
    var s := AddClause(qp.sub, OrderBy, ClauseText(qp.outer, OrderBy));
    assert Fragments(s, Where) == Fragments(qp.sub, Where);
    assert Fragments(s, Join) == Fragments(qp.sub, Join);
  }

  // ---------------------------------------------------------------------
  // The data store object.
  // ---------------------------------------------------------------------

  class DataStore {
    /** The query the data store itself is (it extends the query builder). */
    var query: SqlQuery
    var subquery: SqlQuery
    var cache: map<CacheKey, ReportResult>

    ghost predicate Valid()
      reads this
    {
      query != subquery
    }

    constructor ()
      ensures Valid()
      ensures fresh(query) && fresh(subquery)
      ensures query.clauses == map[] && cache == map[]
    {
      query := new SqlQuery(Context);
      subquery := new SqlQuery(Context + "_subquery");
      cache := map[];
    }

    method InitializeQueries()
      modifies this
      ensures fresh(subquery) && subquery.clauses == InitialSubquery()
      ensures query == old(query) && cache == old(cache)
    {
      subquery := new SqlQuery(Context + "_subquery");
      subquery.AddSqlClause(Select, CategoryIdSelect);
      subquery.AddSqlClause(From, TableName);
      subquery.AddSqlClause(GroupBy, CategoryGroupBy);
    }

    method AddOrderByParams(args: QueryArgs, target: JoinTarget, idCell: string)
      requires Valid()
      modifies query, subquery
      ensures QueryPair(subquery.clauses, query.clauses) ==
              OrderByParams(QueryPair(old(subquery.clauses), old(query.clauses)), args, target, idCell)
    {
      var orderByClause := NormalizeOrderBy(args.orderby);
      query.AddSqlClause(OrderBy, orderByClause);
      query.AddSqlClause(OrderBy, args.order);
      if Contains(orderByClause, "_terms") {
        var join := TermsJoin(idCell);
        if target == Inner {
          subquery.AddSqlClause(Join, join);
        } else {
          query.AddSqlClause(Join, join);
        }
      }
    }

    method AddSqlQueryParams(args: QueryArgs)
      requires Valid()
      modifies query, subquery
      ensures QueryPair(subquery.clauses, query.clauses) ==
              QueryParams(QueryPair(old(subquery.clauses), old(query.clauses)), args)
    {
      subquery.AddSqlClause(WhereTime, TimePeriodFilter(args));
      subquery.AddSqlClause(LeftJoin, RelationshipsJoin);
      subquery.AddSqlClause(LeftJoin, CategoryLookupJoin);
      var includedCategories := IdListSql(IncludedCategoriesArray(args));
      if PhpTruthy(includedCategories) {
        subquery.AddSqlClause(Where, CategoryFilter(includedCategories));
        AddOrderByParams(args, Outer, OuterIdCell);
      } else {
        AddOrderByParams(args, Inner, InnerIdCell);
      }
      var includedProducts := IdListSql(IncludedProductsArray(args));
      if PhpTruthy(includedProducts) {
        subquery.AddSqlClause(Where, ProductFilter(includedProducts));
      }
      subquery.AddSqlClause(Where, NotNullFilter);
    }

    /** `include_extended_info`, in place over the page's rows. */
    static method IncludeExtendedInfo(rows: array<Row>, args: QueryArgs, categoryName: int -> string)
      modifies rows
      ensures rows[..] == ExtendedRows(old(rows[..]), args.extendedInfo, categoryName)
    {
      for k := 0 to rows.Length
        invariant forall j :: 0 <= j < k ==> rows[j] == ExtendRow(old(rows[j]), args.extendedInfo, categoryName)
        invariant forall j :: k <= j < rows.Length ==> rows[j] == old(rows[j])
      {
        rows[k] := ExtendRow(rows[k], args.extendedInfo, categoryName);
      }
    }

    /** The query-building part of `get_data` (everything between the cache
        check and the database call); returns the statement to execute. */
    method BuildCategoriesQuery(args: QueryArgs) returns (categoriesQuery: Clauses)
      requires Valid()
      modifies this, query
      ensures Valid() && query == old(query) && cache == old(cache) && fresh(subquery)
      ensures QueryPair(subquery.clauses, query.clauses) == BuiltQueries(old(query.clauses), args)
      ensures categoriesQuery == CategoriesStatement(old(query.clauses), args)
    {
      ghost var start := query.clauses;
      InitializeQueries();
      subquery.AddSqlClause(Select, SelectedColumns(args));
      var includedCategories := IncludedCategoriesArray(args);
      ghost var before := QueryPair(subquery.clauses, query.clauses);
      assert before == QueryPair(AddClause(InitialSubquery(), Select, SelectedColumns(args)), start);
      AddSqlQueryParams(args);
      ghost var q := QueryParams(before, args);
      assert QueryPair(subquery.clauses, query.clauses) == q;

      if |includedCategories| > 0 {
        query.AddSqlClause(Select, JoinSelections(args));
        query.AddSqlClause(From, "(");
        query.AddSqlClause(From, subquery.GetQueryStatement());
        query.AddSqlClause(From, ") AS " + TableName);
        query.AddSqlClause(RightJoin, RightJoinFragment(includedCategories));
        categoriesQuery := query.clauses;
      } else {
        subquery.AddSqlClause(OrderBy, query.GetSqlClause(OrderBy));
        categoriesQuery := subquery.clauses;
      }
    }

    /** The in-range branch of `get_data`: page the grouped rows, enrich
        them in place and assemble the result object. */
    static method PagedReport(categoriesData: seq<Row>, args: QueryArgs, categoryName: int -> string)
      returns (data: ReportResult)
      requires Served(|categoriesData|, args)
      ensures Ok(data) == ComputeReport(Some(categoriesData), args, categoryName)
    {
      var page := PageRecords(categoriesData, args.page, args.perPage);
      var rows := new Row[|page|](i requires 0 <= i < |page| => page[i]);
      assert rows[..] == page;
      IncludeExtendedInfo(rows, args, categoryName);
      data := ReportResult(rows[..], |categoriesData|, TotalPages(|categoriesData|, args.perPage), args.page);
    }

    /** What `get_data` does with the database's answer: the error result,
        the empty page, or the paged and enriched report, cached only then. */
    method FinishReport(categoriesData: Option<seq<Row>>, args: QueryArgs, categoryName: int -> string)
      returns (r: Result<ReportResult, ReportError>)
      modifies this
      ensures query == old(query) && subquery == old(subquery)
      ensures r == ComputeReport(categoriesData, args, categoryName)
      ensures var key := CacheKey(Context, args);
        cache == if Cacheable(categoriesData, args) then old(cache)[key := r.value] else old(cache)
    {
      if categoriesData.None? {
        return Err(ReportError(ResultFailedCode, ResultFailedStatus));
      }
      var data := EmptyReport;
      if args.perPage < 1 {
        return Ok(data);
      }
      var recordCount := |categoriesData.value|;
      var totalPages := TotalPages(recordCount, args.perPage);
      if args.page < 1 || args.page > totalPages {
        return Ok(data);
      }
      data := PagedReport(categoriesData.value, args, categoryName);
      cache := cache[CacheKey(Context, args) := data];
      r := Ok(data);
    }

    /** `get_data`. */
    method GetData(raw: RawArgs, env: Env) returns (r: Result<ReportResult, ReportError>)
      requires Valid()
      modifies this, query
      ensures Valid() && query == old(query)
      ensures var args := ParseArgs(raw, env);
        var key := CacheKey(Context, args);
        && (key in old(cache) ==>
              && r == Ok(old(cache)[key])
              && cache == old(cache)
              && subquery == old(subquery)
              && query.clauses == old(query.clauses))
        && (key !in old(cache) ==>
              var rows := env.db(CategoriesStatement(old(query.clauses), args));
              && fresh(subquery)
              && r == ComputeReport(rows, args, env.categoryName)
              && cache == if Cacheable(rows, args) then old(cache)[key := r.value] else old(cache))
    {
      var args := ParseArgs(raw, env);
      var key := CacheKey(Context, args);
      if key in cache {
        return Ok(cache[key]);
      }
      var categoriesQuery := BuildCategoriesQuery(args);
      var categoriesData := env.db(categoriesQuery);
      r := FinishReport(categoriesData, args, env.categoryName);
    }

    /** Two requests with the same arguments against the same database: once
        a report has been served, the second request is answered from the
        cache with the very same report. */
    method RepeatedGetData(raw: RawArgs, env: Env) returns (r1: Result<ReportResult, ReportError>, r2: Result<ReportResult, ReportError>)
      requires Valid()
      modifies this, query
      ensures Valid()
      ensures r1.Ok? && r1.value != EmptyReport ==> r2 == r1
    {
      r1 := GetData(raw, env);
      r2 := GetData(raw, env);
    }
  }
}
