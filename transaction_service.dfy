/** The two read services of the backend (backend/src/services/
    transactionService.ts): one page of filtered, sorted transactions with
    its pagination envelope, and the option lists for the filter panel. */
module TransactionService {
  import opened Wrappers
  import opened JsStrings
  import opened Ordering
  import opened Records
  import opened QueryBuilder
  import opened Store

  // ---------------------------------------------------------------------------
  // Page arithmetic
  // ---------------------------------------------------------------------------

  /** `parseInt(text) || fallback`: `NaN` and 0 are falsy and give the
      fallback; any other number, negative ones included, passes. */
  function IntOr(text: Option<string>, fallback: int): (r: int)
    requires fallback != 0
    ensures r != 0
    ensures r == fallback <==> ParseOptionalInt(text).None? || ParseOptionalInt(text).value in {0, fallback}
    ensures ParseOptionalInt(text).Some? && ParseOptionalInt(text).value != 0 ==> r == ParseOptionalInt(text).value
  {
    match ParseOptionalInt(text)
    case Some(n) => if n != 0 then n else fallback
    case None => fallback
  }

  /** The requested page, 1 when absent, empty, not a number or 0. */
  function PageNumber(p: Params): (r: int)
    ensures r != 0
  {
    IntOr(Lookup(p, "page"), 1)
  }

  /** The page size, 10 when absent, empty, not a number or 0. */
  function PageLimit(p: Params): (r: int)
    ensures r != 0
  {
    IntOr(Lookup(p, "limit"), 10)
  }

  /** A client that sends `String(n)` for a non-zero page and page size gets
      that page and that size back. */
  lemma PageParamsRoundTrip(p: Params, page: int, limit: int)
    requires page != 0 && limit != 0
    requires Lookup(p, "page") == Some(IntText(page))
    requires Lookup(p, "limit") == Some(IntText(limit))
    ensures PageNumber(p) == page && PageLimit(p) == limit
  {
    IntOrOfText(page, 1);
    IntOrOfText(limit, 10);
  }

  /** The decimal text of a non-zero number survives the fallback. */
  lemma IntOrOfText(n: int, fallback: int)
    requires n != 0 && fallback != 0
    ensures IntOr(Some(IntText(n)), fallback) == n
  {
    ParseIntText("", n, "");
    assert "" + IntText(n) + "" == IntText(n);
  }

  /** Missing or meaningless paging parameters give the first page of ten. */
  lemma PageDefaults(p: Params)
    requires "page" !in p || ParseInt(p["page"]).None? || ParseInt(p["page"]) == Some(0)
    requires "limit" !in p || ParseInt(p["limit"]).None? || ParseInt(p["limit"]) == Some(0)
    ensures PageNumber(p) == 1 && PageLimit(p) == 10
  {
  }

  /** `Math.ceil(total / limit)` for a non-zero limit of either sign. */
  function CeilDiv(total: nat, limit: int): (r: int)
    requires limit != 0
    ensures limit > 0 ==> (r - 1) * limit < total <= r * limit
    ensures limit < 0 ==> r * limit <= total < (r - 1) * limit
  {
    if limit > 0 then
      var q := total / limit;
      var m := total % limit;
      assert total == q * limit + m;
      if m == 0 then q
      else
        assert (q + 1) * limit == q * limit + limit;
        q + 1
    else
      var l := -limit;
      var q := total / l;
      assert total == q * l + total % l;
      assert (-q) * limit == q * l;
      assert (-q - 1) * limit == q * l + l;
      -q
  }

  lemma MulMonotone(a: int, b: int, c: int)
    requires a <= b && c > 0
    ensures a * c <= b * c
  {
    assert b * c - a * c == (b - a) * c;
  }

  /** Below the ceiling exactly when the pages before it do not hold every
      record. */
  lemma BelowCeil(k: int, total: nat, limit: int)
    requires limit > 0
    ensures k < CeilDiv(total, limit) <==> k * limit < total
  {
    var r := CeilDiv(total, limit);
    if k < r {
      MulMonotone(k, r - 1, limit);
    } else {
      MulMonotone(r, k, limit);
    }
  }

  // ---------------------------------------------------------------------------
  // One page of transactions
  // ---------------------------------------------------------------------------

  datatype Pagination = Pagination(
    currentPage: int,
    totalPages: int,
    totalRecords: nat,
    recordsPerPage: int,
    hasNextPage: bool,
    hasPrevPage: bool)

  datatype TransactionsPage = TransactionsPage(data: seq<Transaction>, pagination: Pagination)

  /** The envelope around what the store answered for one page: find and
      count under the same filter, either of which may refuse it. */
  function Respond(store: seq<Transaction>, f: Filter, sort: SortSpec, page: int, limit: int,
                   o: Oracles): (r: Result<TransactionsPage, StoreError>)
    requires limit != 0
    ensures r.Ok? <==> Castable(f, o) && PatternsCompile(f, o) && (page - 1) * limit >= 0
    ensures !Castable(f, o) ==> r == Err(CastError)
    ensures r.Ok? ==> r.value.pagination.currentPage == page && r.value.pagination.recordsPerPage == limit
    ensures r.Ok? ==> |r.value.data| <= Abs(limit) && r.value.pagination.totalRecords <= |store|
    ensures r.Ok? ==> forall t :: t in r.value.data ==> t in store && Matches(f, t, o)
  {
    match Find(store, f, sort, (page - 1) * limit, limit, o)
    case Err(e) => Err(e)
    case Ok(data) =>
      match Count(store, f, o)
      case Err(e) => Err(e)
      case Ok(total) =>
        var pages := CeilDiv(total, limit);
        Ok(TransactionsPage(data, Pagination(page, pages, total, limit, page < pages, page > 1)))
  }

  /** The answer of `getTransactionsService` for the request's parameters. */
  function Transactions(store: seq<Transaction>, p: Params, o: Oracles): (r: Result<TransactionsPage, StoreError>)
    ensures r.Ok? ==> Castable(QueryFilter(p), o) && PatternsCompile(QueryFilter(p), o)
    ensures r.Ok? ==> |r.value.data| <= Abs(PageLimit(p)) && r.value.pagination.currentPage == PageNumber(p)
    ensures r.Ok? ==> forall t :: t in r.value.data ==> t in store && Matches(QueryFilter(p), t, o)
  {
    Respond(store, QueryFilter(p), BuildSortQuery(Lookup(p, "sortBy")), PageNumber(p), PageLimit(p), o)
  }

  /** `getTransactionsService`, step by step. */
  method GetTransactionsService(store: seq<Transaction>, p: Params, o: Oracles)
    returns (r: Result<TransactionsPage, StoreError>)
    ensures r == Transactions(store, p, o)
  {
    var page := PageNumber(p);
    var limit := PageLimit(p);
    var skip := (page - 1) * limit;
    var filters := BuildQueryFilters(p);
    var sort := BuildSortQuery(Lookup(p, "sortBy"));
    var found := Find(store, filters, sort, skip, limit, o);
    var counted := Count(store, filters, o);
    match (found, counted)
    case (Err(e), _) =>
      r := Err(e);
    case (_, Err(e)) =>
      r := Err(e);
    case (Ok(data), Ok(total)) =>
      var pages := CeilDiv(total, limit);
      r := Ok(TransactionsPage(data, Pagination(page, pages, total, limit, page < pages, page > 1)));
  }

  /** The sorted matches the pages are cut from. */
  function Ranked(store: seq<Transaction>, f: Filter, sort: SortSpec, o: Oracles): (r: seq<Transaction>)
    requires Castable(f, o)
    ensures forall t :: t in r <==> t in store && Matches(f, t, o)
    ensures SortedBy(sort, r)
    ensures multiset(r) == multiset(Select(store, f, o))
    ensures |r| == |Select(store, f, o)|
  {
    var s := Select(store, f, o);
    var r := SortRecords(sort, s);
    assert forall t :: t in r <==> t in multiset(r);
    assert forall t :: t in s <==> t in multiset(s);
    r
  }

  /** For a page and a page size of at least 1, the page holds the ranked
      matches from position `(page - 1) * limit` up to `page * limit`, the
      envelope echoes the page and the page size and counts every match, the
      page is non-empty exactly when it is one of the `totalPages` pages,
      and there is a next page exactly when the matches go beyond this
      one. */
  lemma PageContents(store: seq<Transaction>, f: Filter, sort: SortSpec, page: int, limit: int,
                     o: Oracles)
    requires page >= 1 && limit >= 1
    requires Castable(f, o) && PatternsCompile(f, o)
    ensures Respond(store, f, sort, page, limit, o).Ok?
    ensures var ranked := Ranked(store, f, sort, o);
            Respond(store, f, sort, page, limit, o).value.data ==
              ranked[Min((page - 1) * limit, |ranked|)..Min(page * limit, |ranked|)]
    ensures var r := Respond(store, f, sort, page, limit, o).value.pagination;
            var n := |Ranked(store, f, sort, o)|;
            && r.currentPage == page
            && r.recordsPerPage == limit
            && r.totalRecords == n
            && r.totalPages == CeilDiv(n, limit)
  {
    PageSkip(page, limit);
    RespondPage(store, f, sort, page, limit, (page - 1) * limit, o);
  }

  /** A page holds records exactly when it is within the page count; there
      is a next page exactly when records remain after this one, and a
      previous page for every page after the first. */
  lemma PageFlags(store: seq<Transaction>, f: Filter, sort: SortSpec, page: int, limit: int,
                  o: Oracles)
    requires page >= 1 && limit >= 1
    requires Castable(f, o) && PatternsCompile(f, o)
    ensures Respond(store, f, sort, page, limit, o).Ok?
    ensures var r := Respond(store, f, sort, page, limit, o).value;
            r.data != [] <==> page <= r.pagination.totalPages
    ensures var r := Respond(store, f, sort, page, limit, o).value.pagination;
            r.hasNextPage <==> page * limit < |Ranked(store, f, sort, o)|
    ensures Respond(store, f, sort, page, limit, o).value.pagination.hasPrevPage <==> page > 1
  {
    var total := |Ranked(store, f, sort, o)|;
    PageSkip(page, limit);
    RespondPage(store, f, sort, page, limit, (page - 1) * limit, o);
    BelowCeil(page, total, limit);
    BelowCeil(page - 1, total, limit);
  }

  /** The records before a page, and the records up to its end. */
  lemma PageSkip(page: int, limit: int)
    requires page >= 1 && limit >= 1
    ensures 0 <= (page - 1) * limit
    ensures (page - 1) * limit + limit == page * limit
  {
    MulMonotone(0, page - 1, limit);
  }

  /** The answer for a valid page, with the records before it named. */
  lemma RespondPage(store: seq<Transaction>, f: Filter, sort: SortSpec, page: int, limit: int,
                    skip: int, o: Oracles)
    requires limit >= 1 && skip >= 0 && skip == (page - 1) * limit
    requires Castable(f, o) && PatternsCompile(f, o)
    ensures var ranked := Ranked(store, f, sort, o);
            var n := |ranked|;
            var pages := CeilDiv(n, limit);
            Respond(store, f, sort, page, limit, o) ==
              Ok(TransactionsPage(ranked[Min(skip, n)..Min(skip + limit, n)],
                                  Pagination(page, pages, n, limit, page < pages, page > 1)))
  {
    var ranked := Ranked(store, f, sort, o);
    assert ranked == SortRecords(sort, Select(store, f, o));
    FindWindow(store, f, sort, skip, limit, o);
    RespondOk(store, f, sort, page, limit, o, ranked[Min(skip, |ranked|)..Min(skip + limit, |ranked|)],
              |ranked|);
  }

  /** Both store calls answered: the envelope holds the records found
      and the pages counted from the total. */
  lemma RespondOk(store: seq<Transaction>, f: Filter, sort: SortSpec, page: int, limit: int,
                  o: Oracles, data: seq<Transaction>, total: nat)
    requires limit != 0
    requires Find(store, f, sort, (page - 1) * limit, limit, o) == Ok(data)
    requires Count(store, f, o) == Ok(total)
    ensures var pages := CeilDiv(total, limit);
            Respond(store, f, sort, page, limit, o) ==
              Ok(TransactionsPage(data, Pagination(page, pages, total, limit, page < pages, page > 1)))
  {
  }

  /** No matching record: no page, no next page, and an empty page. */
  lemma NothingMatches(store: seq<Transaction>, f: Filter, sort: SortSpec, page: int, limit: int,
                       o: Oracles)
    requires page >= 1 && limit >= 1
    requires Castable(f, o) && PatternsCompile(f, o)
    requires forall t :: t in store ==> !Matches(f, t, o)
    ensures var r := Respond(store, f, sort, page, limit, o);
            r.Ok? && r.value.data == [] && r.value.pagination.totalPages == 0
            && !r.value.pagination.hasNextPage
  {
    SelectNone(store, f, o);
  }

  /** A filter the store cannot cast fails the whole request, whatever the
      page. */
  lemma UncastableFilterFails(store: seq<Transaction>, f: Filter, sort: SortSpec, page: int,
                              limit: int, o: Oracles)
    requires limit != 0
    requires !Castable(f, o)
    ensures Respond(store, f, sort, page, limit, o) == Err(CastError)
  {
  }

  /** A given `ageMin` that `parseInt` cannot read puts `NaN` into the filter,
      and the request fails rather than ignoring the bound. */
  lemma NonNumericAgeFails(store: seq<Transaction>, p: Params, o: Oracles)
    requires Given(p, "ageMin") && ParseInt(p["ageMin"]).None?
    ensures Transactions(store, p, o) == Err(CastError)
  {
    var f := QueryFilter(p);
    assert "age" in f && !ClauseCastable(f["age"], o);
    UncastableFilterFails(store, f, BuildSortQuery(Lookup(p, "sortBy")), PageNumber(p), PageLimit(p), o);
  }

  /** A search pattern the store cannot compile fails the whole request,
      whatever the page. */
  lemma UncompilablePatternFails(store: seq<Transaction>, f: Filter, sort: SortSpec, page: int,
                                 limit: int, o: Oracles)
    requires limit != 0
    requires Castable(f, o) && !PatternsCompile(f, o)
    ensures Respond(store, f, sort, page, limit, o) == Err(InvalidPattern)
  {
  }

  /** The search text goes to the store as a pattern as it is: a text the
      store cannot compile, such as `(` or the `+91 ...` form the phone
      column shows, fails the request instead of matching nothing. */
  lemma InvalidSearchFails(store: seq<Transaction>, p: Params, o: Oracles)
    requires Given(p, "search") && !o.regexCompiles(p["search"], "i")
    requires Castable(QueryFilter(p), o)
    ensures Transactions(store, p, o) == Err(InvalidPattern)
  {
    var f := QueryFilter(p);
    SearchInstallsOr(p);
    assert !ClauseCompiles(f["$or"], o);
    UncompilablePatternFails(store, f, BuildSortQuery(Lookup(p, "sortBy")), PageNumber(p), PageLimit(p), o);
  }

  /** A negative page with a positive page size asks the store for a negative
      skip, which it refuses. */
  lemma NegativePageFails(store: seq<Transaction>, f: Filter, sort: SortSpec, page: int,
                          limit: int, o: Oracles)
    requires page < 0 && limit > 0
    requires Castable(f, o) && PatternsCompile(f, o)
    ensures Respond(store, f, sort, page, limit, o) == Err(NegativeSkip)
  {
    MulMonotone(page - 1, 0, limit);
  }
  // ---------------------------------------------------------------------------
  // Filter options
  // ---------------------------------------------------------------------------

  /** `{ minDate, maxDate }`, both `null` for an empty collection. */
  datatype DateSpan = DateSpan(minDate: Option<int>, maxDate: Option<int>)

  datatype FilterOptions = FilterOptions(
    customerRegion: seq<string>,
    gender: seq<string>,
    productCategory: seq<string>,
    tags: seq<string>,
    paymentMethod: seq<string>,
    dateRange: DateSpan)

  /** Does `s` list, in ascending order and once each, the values field `name`
      takes in the store? */
  ghost predicate ListsValues(s: seq<string>, store: seq<Transaction>, name: string) {
    && StrictlyAscending(s)
    && forall x :: x in s <==> exists i :: 0 <= i < |store| && x in ValuesOf(store[i], name)
  }

  /** `Transaction.distinct(name)` followed by the in-place `sort()`. */
  method SortedDistinct(store: seq<Transaction>, name: string) returns (r: seq<string>)
    ensures ListsValues(r, store, name)
  {
    var values := DistinctValues(store, name);
    var a := new string[|values|](i => if 0 <= i < |values| then values[i] else "");
    assert a[..] == values;
    SortInPlace(a);
    r := a[..];
    assert forall x :: x in r <==> x in multiset(r);
    assert forall x :: x in values <==> x in multiset(values);
    DistinctByCount(r);
    SortedDistinctAscending(r);
  }

  /** `getFiltersService`: the five option lists and the date range. */
  method GetFiltersService(store: seq<Transaction>) returns (r: FilterOptions)
    ensures ListsValues(r.customerRegion, store, "customerRegion")
    ensures ListsValues(r.gender, store, "gender")
    ensures ListsValues(r.productCategory, store, "productCategory")
    ensures ListsValues(r.tags, store, "tags")
    ensures ListsValues(r.paymentMethod, store, "paymentMethod")
    ensures r.dateRange.minDate.Some? <==> |store| > 0
    ensures r.dateRange.maxDate.Some? <==> |store| > 0
    ensures |store| > 0 ==>
      (forall i :: 0 <= i < |store| ==>
         r.dateRange.minDate.value <= store[i].date <= r.dateRange.maxDate.value)
      && (exists i :: 0 <= i < |store| && store[i].date == r.dateRange.minDate.value)
      && (exists i :: 0 <= i < |store| && store[i].date == r.dateRange.maxDate.value)
  {
    var regions := SortedDistinct(store, "customerRegion");
    var genders := SortedDistinct(store, "gender");
    var categories := SortedDistinct(store, "productCategory");
    var allTags := SortedDistinct(store, "tags");
    var paymentMethods := SortedDistinct(store, "paymentMethod");
    var dateRange := if |store| > 0 then DateSpan(MinDate(store), MaxDate(store))
                     else DateSpan(None, None);
    r := FilterOptions(regions, genders, categories, allTags, paymentMethods, dateRange);
  }

  /** The option lists are fully determined by the store: two lists that both
      satisfy the service's promise for the same field are the same list. */
  lemma OptionListUnique(s: seq<string>, t: seq<string>, store: seq<Transaction>, name: string)
    requires ListsValues(s, store, name) && ListsValues(t, store, name)
    ensures s == t
  {
    AscendingUnique(s, t);
  }

  /** Every tag of every transaction appears in the tag options, and nothing
      else does. */
  lemma TagOptionsFlatten(options: FilterOptions, store: seq<Transaction>)
    requires ListsValues(options.tags, store, "tags")
    ensures forall i, j :: 0 <= i < |store| && 0 <= j < |store[i].tags| ==> store[i].tags[j] in options.tags
    ensures forall x :: x in options.tags ==> exists i :: 0 <= i < |store| && x in store[i].tags
  {
  }
}
