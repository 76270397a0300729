/**
 * The paginated read of `ApiService.read` in src/lib/api.ts: the query it
 * builds (equality filters, a name search, a sort and a row range) and
 * the page arithmetic of its answer. The backend's answer is an input.
 */
module ApiRead {
  import opened Wrappers

  /** A filter value as it is handed on to the backend. */
  type FilterValue = string

  /** The optional `PaginationParams` and `filters`; `None` for a missing field. */
  datatype ReadParams = ReadParams(
    page: Option<int>, limit: Option<int>, search: Option<string>,
    sortBy: Option<string>, sortOrder: Option<string>,
    filters: Option<seq<(string, FilterValue)>>)

  const NO_PARAMS: ReadParams := ReadParams(None, None, None, None, None, None)

  /** One step of the query builder. */
  datatype Constraint =
    | Eq(column: string, value: FilterValue)
    | ILike(column: string, pattern: string)
    | OrderBy(column: string, ascending: bool)
    | Range(from: int, to: int)

  /** A number is truthy when present and not zero. */
  predicate TruthyInt(x: Option<int>) {
    x.Some? && x.value != 0
  }

  /** A string is truthy when present and not empty. */
  predicate TruthyText(x: Option<string>) {
    x.Some? && x.value != ""
  }

  /** One equality constraint per filter entry, in order. */
  function FilterConstraints(filters: seq<(string, FilterValue)>): (cs: seq<Constraint>)
    ensures |cs| == |filters|
    ensures forall i :: 0 <= i < |filters| ==> cs[i] == Eq(filters[i].0, filters[i].1)
  {
    if filters == [] then []
    else FilterConstraints(filters[..|filters| - 1]) + [Eq(filters[|filters| - 1].0, filters[|filters| - 1].1)]
  }

  /** The rows of page `page` of `limit` rows, first and last index inclusive. */
  function PageRange(page: int, limit: int): Constraint {
    var from := (page - 1) * limit;
    Range(from, from + limit - 1)
  }

  /** The constraints after the filters: search, then sort, then range, each when asked for. */
  function Refinements(p: ReadParams): seq<Constraint> {
    (if TruthyText(p.search) then [ILike("name", "%" + p.search.value + "%")] else [])
    + (if TruthyText(p.sortBy) then [OrderBy(p.sortBy.value, p.sortOrder == Some("asc"))] else [])
    + (if TruthyInt(p.page) && TruthyInt(p.limit) then [PageRange(p.page.value, p.limit.value)] else [])
  }

  /** Builds the query for `read`: the filters in order, then the other refinements. */
  method BuildQuery(params: Option<ReadParams>) returns (query: seq<Constraint>)
    ensures var p := params.GetOr(NO_PARAMS);
      query == (if p.filters.Some? then FilterConstraints(p.filters.value) else []) + Refinements(p)
  {
    var p := params.GetOr(NO_PARAMS);
    query := [];
    if p.filters.Some? {
      var filters := p.filters.value;
      var i := 0;
      while i < |filters|
        invariant 0 <= i <= |filters|
        invariant query == FilterConstraints(filters[..i])
      {
        assert filters[..i + 1][..i] == filters[..i];
        query := query + [Eq(filters[i].0, filters[i].1)];
        i := i + 1;
      }
      assert filters[..|filters|] == filters;
    }
    if TruthyText(p.search) {
      query := query + [ILike("name", "%" + p.search.value + "%")];
    }
    if TruthyText(p.sortBy) {
      query := query + [OrderBy(p.sortBy.value, p.sortOrder == Some("asc"))];
    }
    if TruthyInt(p.page) && TruthyInt(p.limit) {
      var from := (p.page.value - 1) * p.limit.value;
      var to := from + p.limit.value - 1;
      query := query + [Range(from, to)];
    }
  }

  /** The refinements hold no equality; they end in the row range exactly when both page and limit are truthy. */
  lemma RefinementsShape(p: ReadParams)
    ensures forall i :: 0 <= i < |Refinements(p)| ==> !Refinements(p)[i].Eq?
    ensures (exists i :: 0 <= i < |Refinements(p)| && Refinements(p)[i].Range?) <==> TruthyInt(p.page) && TruthyInt(p.limit)
    ensures TruthyInt(p.page) && TruthyInt(p.limit) ==>
      |Refinements(p)| > 0 && Refinements(p)[|Refinements(p)| - 1] == PageRange(p.page.value, p.limit.value)
  {
    var r := Refinements(p);
    if TruthyInt(p.page) && TruthyInt(p.limit) {
      assert r[|r| - 1].Range?;
    } else {
      assert forall i :: 0 <= i < |r| ==> !r[i].Range?;
    }
  }

  /**
   * The query starts with one equality per filter entry, in order; it
   * restricts to a row range exactly when both page and limit are truthy,
   * and then as its last constraint.
   */
  lemma QueryShape(p: ReadParams)
    ensures var fs := if p.filters.Some? then p.filters.value else [];
      var q := FilterConstraints(fs) + Refinements(p);
      && |q| >= |fs|
      && (forall i :: 0 <= i < |fs| ==> q[i] == Eq(fs[i].0, fs[i].1))
      && (forall i :: |fs| <= i < |q| ==> !q[i].Eq?)
      && ((exists i :: 0 <= i < |q| && q[i].Range?) <==> TruthyInt(p.page) && TruthyInt(p.limit))
      && (TruthyInt(p.page) && TruthyInt(p.limit) ==> q[|q| - 1] == PageRange(p.page.value, p.limit.value))
  {
    var fs := if p.filters.Some? then p.filters.value else [];
    var f := FilterConstraints(fs);
    var r := Refinements(p);
    var q := f + r;
    RefinementsShape(p);
    forall i | |fs| <= i < |q| ensures q[i] == r[i - |fs|] {
    }
    if exists i :: 0 <= i < |q| && q[i].Range? {
      var i :| 0 <= i < |q| && q[i].Range?;
      assert q[i] == r[i - |fs|];
    }
    if TruthyInt(p.page) && TruthyInt(p.limit) {
      var i := |r| - 1;
      assert q[|fs| + i] == r[i] && r[i].Range?;
    }
  }

  /** A page range covers exactly `limit` rows, and consecutive pages meet without gap or overlap. */
  lemma PageRangesTile(page: int, limit: int)
    ensures PageRange(page, limit).to - PageRange(page, limit).from + 1 == limit
    ensures PageRange(page + 1, limit).from == PageRange(page, limit).to + 1
  {
    assert page * limit == (page - 1) * limit + limit;
  }

  // ---------------------------------------------------------------------
  // The answer

  /** `Math.ceil(a / b)` for integers, `b` not zero. */
  function CeilDiv(a: int, b: int): (r: int)
    requires b != 0
    ensures b > 0 ==> (r - 1) * b < a <= r * b
    ensures b < 0 ==> r * b <= a < (r - 1) * b
  {
    if b > 0 then
      var q := (-a) / b;
      assert -a == q * b + (-a) % b;
      -q
    else
      var q := a / (-b);
      assert a == q * (-b) + a % (-b);
      -q
  }

  datatype Pagination = Pagination(page: int, limit: int, total: int, totalPages: int, hasNext: bool, hasPrev: bool)

  /** What the backend answered: an error, rows with the exact count, or an exception. */
  datatype Backend<T> = BackendError(message: string) | BackendRows(rows: seq<T>, count: Option<int>) | BackendThrew

  datatype ReadResponse<T> = Ok(data: seq<T>, pagination: Pagination) | Failed(error: string)

  /** The pagination block of a successful answer. */
  function PaginationOf(params: Option<ReadParams>, count: Option<int>): (pg: Pagination)
    ensures pg.limit != 0
  {
    var p := params.GetOr(NO_PARAMS);
    var total := if TruthyInt(count) then count.value else 0;
    var page := if TruthyInt(p.page) then p.page.value else 1;
    var limit := if TruthyInt(p.limit) then p.limit.value else 10;
    var totalPages := CeilDiv(total, limit);
    Pagination(page, limit, total, totalPages, page < totalPages, page > 1)
  }

  /** `ApiService.read`, given the backend's answer. */
  function Read<T>(table: string, params: Option<ReadParams>, backend: Backend<T>): ReadResponse<T> {
    match backend
    case BackendThrew => Failed("Failed to fetch " + table + " records")
    case BackendError(message) => Failed(message)
    case BackendRows(rows, count) => Ok(rows, PaginationOf(params, count))
  }

  /** From `x <= y` and a positive factor, `x * l <= y * l`. */
  lemma MulMonotone(x: int, y: int, l: int)
    requires x <= y && l > 0
    ensures x * l <= y * l
  {
    assert y * l - x * l == (y - x) * l;
  }

  /**
   * With a positive page size: the page count is the least number of
   * pages holding all rows, a next page exists exactly when the rows run
   * past this page, and a previous page exactly when this is not the
   * first page. The total is a truthy count, else 0; a missing or zero
   * page means page 1, and a missing or zero limit means 10 rows.
   */
  lemma PaginationSpec(params: Option<ReadParams>, count: Option<int>)
    ensures var pg := PaginationOf(params, count);
      && (pg.limit > 0 ==> (pg.totalPages - 1) * pg.limit < pg.total <= pg.totalPages * pg.limit)
      && (pg.limit > 0 ==> (pg.hasNext <==> pg.page * pg.limit < pg.total))
      && (pg.hasPrev <==> pg.page > 1)
      && (count.None? || count == Some(0) ==> pg.total == 0)
      && (params.None? ==> pg.page == 1 && pg.limit == 10)
      && pg.total == (if TruthyInt(count) then count.value else 0)
      && pg.page == (if params.Some? && TruthyInt(params.value.page) then params.value.page.value else 1)
      && pg.limit == (if params.Some? && TruthyInt(params.value.limit) then params.value.limit.value else 10)
  {
    var pg := PaginationOf(params, count);
    if pg.limit > 0 {
      if pg.page < pg.totalPages {
        MulMonotone(pg.page, pg.totalPages - 1, pg.limit);
      } else {
        MulMonotone(pg.totalPages, pg.page, pg.limit);
      }
    }
  }

  /** No rows at all: zero pages, and without parameters neither a next nor a previous page. */
  lemma EmptyTable(params: Option<ReadParams>)
    ensures var pg := PaginationOf(params, Some(0));
      pg.total == 0 && pg.totalPages == 0 && (params.None? ==> !pg.hasNext && !pg.hasPrev)
  {
    var pg := PaginationOf(params, Some(0));
    if pg.limit > 0 {
      assert (pg.totalPages - 1) * pg.limit < 0 <= pg.totalPages * pg.limit;
      if pg.totalPages > 0 {
        MulMonotone(1, pg.totalPages, pg.limit);
      } else if pg.totalPages < 0 {
        MulMonotone(pg.totalPages, -1, pg.limit);
      }
    } else {
      assert pg.totalPages * pg.limit <= 0 < (pg.totalPages - 1) * pg.limit;
      if pg.totalPages > 0 {
        MulMonotone(1, pg.totalPages, -pg.limit);
      } else if pg.totalPages < 0 {
        MulMonotone(pg.totalPages, -1, -pg.limit);
      }
    }
  }

  /** A backend error passes its message on; an exception gets the fixed message; neither carries rows. */
  lemma ReadErrors<T>(table: string, params: Option<ReadParams>, backend: Backend<T>)
    ensures Read(table, params, backend).Failed? <==> !backend.BackendRows?
    ensures backend.BackendError? ==> Read(table, params, backend) == Failed(backend.message)
    ensures backend.BackendThrew? ==> Read(table, params, backend) == Failed("Failed to fetch " + table + " records")
    ensures backend.BackendRows? ==> Read(table, params, backend).data == backend.rows
  {
  }
}
