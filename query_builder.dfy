/** Translation of the request's query parameters into a document filter and
    a sort order (backend/src/utils/queryBuilder.ts). */
module QueryBuilder {
  import opened Wrappers
  import opened JsStrings

  /** The request's query parameters: each key is absent or holds text. */
  type Params = map<string, string>

  function Lookup(p: Params, key: string): Option<string> {
    if key in p then Some(p[key]) else None
  }

  /** The JavaScript test `if (queryParams[key])`: the key is present and its
      text is not empty. */
  predicate Given(p: Params, key: string) {
    key in p && p[key] != ""
  }

  /** One side of a range: absent, or present with a value. */
  datatype Bound<T> = Unbounded | Bound(value: T)

  /** `{ field: { $regex: regex, $options: options } }`. */
  datatype Pattern = Pattern(field: string, regex: string, options: string)

  /** The value a filter holds under one key. A number bound is the result of
      `parseInt`, `None` standing for `NaN`; a date bound is the text that
      was handed to `new Date`. */
  datatype Clause =
    | AnyOf(alternatives: seq<Pattern>)
    | OneOf(values: seq<string>)
    | NumberRange(gte: Bound<Option<int>>, lte: Bound<Option<int>>)
    | DateRange(since: Bound<string>, until: Bound<string>)

  /** The filter object: a conjunction of one clause per key. */
  type Filter = map<string, Clause>

  /** The five multi-select parameters, which are also the document fields
      they constrain. */
  const MultiSelectKeys: set<string> :=
    {"customerRegion", "gender", "productCategory", "tags", "paymentMethod"}

  /** Every key a filter can hold; `AppliedInOrder` gives the order the
      builder installs them in. */
  const FilterKeys: set<string> :=
    {"$or", "customerRegion", "gender", "age", "productCategory", "tags", "paymentMethod", "date"}

  /** Every parameter the filter builder reads. */
  const FilterParams: set<string> :=
    MultiSelectKeys + {"search", "ageMin", "ageMax", "dateFrom", "dateTo"}

  /** Is the filter key `key` installed for these parameters? */
  predicate Installs(p: Params, key: string) {
    if key == "$or" then Given(p, "search")
    else if key == "age" then Given(p, "ageMin") || Given(p, "ageMax")
    else if key == "date" then Given(p, "dateFrom") || Given(p, "dateTo")
    else key in MultiSelectKeys && Given(p, key)
  }

  function SearchClause(text: string): Clause {
    AnyOf([Pattern("customerName", text, "i"), Pattern("phoneNumber", text, "i")])
  }

  function AgeBound(p: Params, key: string): Bound<Option<int>> {
    if Given(p, key) then Bound(ParseInt(p[key])) else Unbounded
  }

  function DateBound(p: Params, key: string): Bound<string> {
    if Given(p, key) then Bound(p[key]) else Unbounded
  }

  /** The clause installed under `key`. */
  function ClauseFor(p: Params, key: string): Clause
    requires Installs(p, key)
  {
    if key == "$or" then SearchClause(p["search"])
    else if key == "age" then NumberRange(AgeBound(p, "ageMin"), AgeBound(p, "ageMax"))
    else if key == "date" then DateRange(DateBound(p, "dateFrom"), DateBound(p, "dateTo"))
    else OneOf(Split(p[key], ','))
  }

  /** The effect of one rule of the builder on the filter built so far. */
  function Installed(p: Params, filters: Filter, key: string): Filter {
    if Installs(p, key) then filters[key := ClauseFor(p, key)] else filters
  }

  /** The clauses of the filter under the given keys. */
  function FilterOver(p: Params, keys: set<string>): Filter {
    map key | key in keys && Installs(p, key) :: ClauseFor(p, key)
  }

  /** The filter `buildQueryFilters` returns, key by key. */
  function QueryFilter(p: Params): (r: Filter)
    ensures r.Keys <= FilterKeys
    ensures "$or" in r <==> Given(p, "search")
    ensures "age" in r <==> Given(p, "ageMin") || Given(p, "ageMax")
    ensures "date" in r <==> Given(p, "dateFrom") || Given(p, "dateTo")
    ensures forall k :: k in MultiSelectKeys ==> (k in r <==> Given(p, k))
    ensures forall k :: k in r ==> (r[k].AnyOf? <==> k == "$or") && (r[k].NumberRange? <==> k == "age")
                                   && (r[k].DateRange? <==> k == "date")
  {
    FilterOver(p, FilterKeys)
  }

  /** Installing one more key extends the filter by that key's clause, if any. */
  lemma FilterOverAdd(p: Params, keys: set<string>, key: string)
    ensures FilterOver(p, keys + {key}) == Installed(p, FilterOver(p, keys), key)
  {
  }

  /** The search rule: a non-empty `search` sets `$or`. */
  method InstallSearch(p: Params, filters: Filter) returns (r: Filter)
    ensures r == Installed(p, filters, "$or")
  {
    r := filters;
    if Given(p, "search") {
      r := r["$or" := AnyOf([Pattern("customerName", p["search"], "i"),
                             Pattern("phoneNumber", p["search"], "i")])];
    }
  }

  /** A multi-select rule: a non-empty parameter becomes `{ $in: split }`
      under the field of the same name. */
  method InstallMultiSelect(p: Params, filters: Filter, key: string) returns (r: Filter)
    requires key in MultiSelectKeys
    ensures r == Installed(p, filters, key)
  {
    r := filters;
    if Given(p, key) {
      var values := Split(p[key], ',');
      r := r[key := OneOf(values)];
    }
  }

  /** The age rule: an empty range object, then each side whose parameter is
      given. */
  method InstallAgeRange(p: Params, filters: Filter) returns (r: Filter)
    ensures r == Installed(p, filters, "age")
  {
    r := filters;
    if Given(p, "ageMin") || Given(p, "ageMax") {
      var age := NumberRange(Unbounded, Unbounded);
      if Given(p, "ageMin") {
        age := age.(gte := Bound(ParseInt(p["ageMin"])));
      }
      if Given(p, "ageMax") {
        age := age.(lte := Bound(ParseInt(p["ageMax"])));
      }
      r := r["age" := age];
    }
  }

  /** The date rule, the same shape with `dateFrom` and `dateTo`. */
  method InstallDateRange(p: Params, filters: Filter) returns (r: Filter)
    ensures r == Installed(p, filters, "date")
  {
    r := filters;
    if Given(p, "dateFrom") || Given(p, "dateTo") {
      var date := DateRange(Unbounded, Unbounded);
      if Given(p, "dateFrom") {
        date := date.(since := Bound(p["dateFrom"]));
      }
      if Given(p, "dateTo") {
        date := date.(until := Bound(p["dateTo"]));
      }
      r := r["date" := date];
    }
  }

  /** The rules applied one after another, in the source's order, to the
      empty filter. */
  function AppliedInOrder(p: Params): Filter {
    var f := Installed(p, map[], "$or");
    var f := Installed(p, f, "customerRegion");
    var f := Installed(p, f, "gender");
    var f := Installed(p, f, "age");
    var f := Installed(p, f, "productCategory");
    var f := Installed(p, f, "tags");
    var f := Installed(p, f, "paymentMethod");
    Installed(p, f, "date")
  }

  /** The order of the rules does not matter: each key is installed once,
      from the parameters alone. */
  lemma AppliedInOrderIsQueryFilter(p: Params)
    ensures AppliedInOrder(p) == QueryFilter(p)
  {
    var keys: set<string> := {};
    assert map[] == FilterOver(p, keys);
    FilterOverAdd(p, keys, "$or");
    keys := keys + {"$or"};
    FilterOverAdd(p, keys, "customerRegion");
    keys := keys + {"customerRegion"};
    FilterOverAdd(p, keys, "gender");
    keys := keys + {"gender"};
    FilterOverAdd(p, keys, "age");
    keys := keys + {"age"};
    FilterOverAdd(p, keys, "productCategory");
    keys := keys + {"productCategory"};
    FilterOverAdd(p, keys, "tags");
    keys := keys + {"tags"};
    FilterOverAdd(p, keys, "paymentMethod");
    keys := keys + {"paymentMethod"};
    FilterOverAdd(p, keys, "date");
    keys := keys + {"date"};
    assert keys == FilterKeys;
  }

  /** `buildQueryFilters`: start from the empty filter and apply the rules in
      the source's order. */
  method BuildQueryFilters(p: Params) returns (filters: Filter)
    ensures filters == QueryFilter(p)
  {
    filters := map[];
    filters := InstallSearch(p, filters);
    filters := InstallMultiSelect(p, filters, "customerRegion");
    filters := InstallMultiSelect(p, filters, "gender");
    filters := InstallAgeRange(p, filters);
    filters := InstallMultiSelect(p, filters, "productCategory");
    filters := InstallMultiSelect(p, filters, "tags");
    filters := InstallMultiSelect(p, filters, "paymentMethod");
    filters := InstallDateRange(p, filters);
    AppliedInOrderIsQueryFilter(p);
  }

  // ---------------------------------------------------------------------------
  // What the filter means
  // ---------------------------------------------------------------------------

  /** No given filter parameter, no constraint: with every parameter absent or
      empty the filter is empty, and only then. */
  lemma EmptyFilterIff(p: Params)
    ensures QueryFilter(p) == map[] <==> forall key :: key in FilterParams ==> !Given(p, key)
  {
    if QueryFilter(p) == map[] {
      forall key | key in FilterParams ensures !Given(p, key) {
        var k := if key == "search" then "$or"
                 else if key == "ageMin" || key == "ageMax" then "age"
                 else if key == "dateFrom" || key == "dateTo" then "date"
                 else key;
        assert k !in QueryFilter(p);
      }
    }
  }

  /** A non-empty `search` installs one OR of two case-insensitive patterns
      with the same text, over the customer's name and phone number. */
  lemma SearchInstallsOr(p: Params)
    ensures "$or" in QueryFilter(p) <==> Given(p, "search")
    ensures Given(p, "search") ==>
      var c := QueryFilter(p)["$or"];
      && c.AnyOf? && |c.alternatives| == 2
      && c.alternatives[0].field == "customerName" && c.alternatives[1].field == "phoneNumber"
      && (forall i :: 0 <= i < 2 ==> c.alternatives[i].regex == p["search"] && c.alternatives[i].options == "i")
  {
  }

  /** A given multi-select parameter becomes the membership list of its
      comma-separated pieces, kept verbatim: one more piece than commas, no
      piece holds a comma, and joining the pieces back gives the text. */
  lemma {:induction false} MultiSelectMembership(p: Params, key: string)
    requires key in MultiSelectKeys
    ensures key in QueryFilter(p) <==> Given(p, key)
    ensures Given(p, key) ==>
      && QueryFilter(p)[key].OneOf?
      && var xs := QueryFilter(p)[key].values;
      && |xs| == Occurrences(p[key], ',') + 1
      && (forall i :: 0 <= i < |xs| ==> ',' !in xs[i])
      && Join(xs, ',') == p[key]
  {
    if Given(p, key) {
      MultiSelectClause(p, key);
      JoinSplit(p[key], ',');
    }
  }

  /** The clause of a given multi-select parameter is its split. */
  lemma MultiSelectClause(p: Params, key: string)
    requires key in MultiSelectKeys && Given(p, key)
    ensures key in QueryFilter(p) && QueryFilter(p)[key] == OneOf(Split(p[key], ','))
  {
    assert Installs(p, key);
  }

  /** The age clause is there when either bound is given; each side is there
      when its own parameter is given and holds `parseInt` of it, `NaN`
      included. */
  lemma AgeRangeClause(p: Params)
    ensures "age" in QueryFilter(p) <==> Given(p, "ageMin") || Given(p, "ageMax")
    ensures "age" in QueryFilter(p) ==>
      && QueryFilter(p)["age"].NumberRange?
      && (QueryFilter(p)["age"].gte.Bound? <==> Given(p, "ageMin"))
      && (QueryFilter(p)["age"].lte.Bound? <==> Given(p, "ageMax"))
      && (Given(p, "ageMin") ==> QueryFilter(p)["age"].gte.value == ParseInt(p["ageMin"]))
      && (Given(p, "ageMax") ==> QueryFilter(p)["age"].lte.value == ParseInt(p["ageMax"]))
  {
  }

  /** The date clause follows the same rule with `dateFrom` and `dateTo`. */
  lemma DateRangeClause(p: Params)
    ensures "date" in QueryFilter(p) <==> Given(p, "dateFrom") || Given(p, "dateTo")
    ensures "date" in QueryFilter(p) ==>
      && QueryFilter(p)["date"].DateRange?
      && (QueryFilter(p)["date"].since.Bound? <==> Given(p, "dateFrom"))
      && (QueryFilter(p)["date"].until.Bound? <==> Given(p, "dateTo"))
      && (Given(p, "dateFrom") ==> QueryFilter(p)["date"].since.value == p["dateFrom"])
      && (Given(p, "dateTo") ==> QueryFilter(p)["date"].until.value == p["dateTo"])
  {
  }

  /** Only the ten filter parameters matter: two requests that agree on them
      get the same filter, whatever else they carry (`sortBy`, `page`,
      `limit`, or the `ageRange` and `dateRange` keys a screen may send). */
  lemma OnlyFilterParamsMatter(p: Params, q: Params)
    requires forall key :: key in FilterParams ==> Lookup(p, key) == Lookup(q, key)
    ensures QueryFilter(p) == QueryFilter(q)
  {
    forall key | key in FilterParams ensures Given(p, key) == Given(q, key) {
      assert Lookup(p, key) == Lookup(q, key);
    }
    forall key | key in FilterKeys && Installs(p, key)
      ensures Installs(q, key) && ClauseFor(p, key) == ClauseFor(q, key)
    {
      if key == "$or" {
        assert Lookup(p, "search") == Lookup(q, "search");
      } else if key == "age" {
        assert Lookup(p, "ageMin") == Lookup(q, "ageMin");
        assert Lookup(p, "ageMax") == Lookup(q, "ageMax");
      } else if key == "date" {
        assert Lookup(p, "dateFrom") == Lookup(q, "dateFrom");
        assert Lookup(p, "dateTo") == Lookup(q, "dateTo");
      } else {
        assert Lookup(p, key) == Lookup(q, key);
      }
    }
    SameClausesSameFilter(p, q);
  }

  /** An empty parameter is the same as a missing one. */
  lemma EmptyIsAbsent(p: Params, key: string)
    ensures QueryFilter(p[key := ""]) == QueryFilter(map k | k in p && k != key :: p[k])
  {
    var q := map k | k in p && k != key :: p[k];
    forall k | k in FilterParams ensures Given(p[key := ""], k) == Given(q, k) {
    }
    forall k | k in FilterKeys && Installs(p[key := ""], k)
      ensures Installs(q, k) && ClauseFor(p[key := ""], k) == ClauseFor(q, k)
    {
    }
    SameClausesSameFilter(p[key := ""], q);
  }

  /** Parameters that install the same keys with the same clauses build the
      same filter. */
  lemma SameClausesSameFilter(p: Params, q: Params)
    requires forall k :: k in FilterKeys && Installs(p, k) ==> Installs(q, k) && ClauseFor(p, k) == ClauseFor(q, k)
    requires forall k :: k in FilterKeys && Installs(q, k) ==> Installs(p, k)
    ensures QueryFilter(p) == QueryFilter(q)
  {
    assert FilterOver(p, FilterKeys) == FilterOver(q, FilterKeys);
  }

  // ---------------------------------------------------------------------------
  // Sort order
  // ---------------------------------------------------------------------------

  datatype SortField = Date | Quantity | CustomerName

  /** `{ field: direction }`, direction 1 for ascending and -1 for
      descending. */
  datatype SortSpec = SortSpec(field: SortField, direction: int)

  /** The six tokens the resolver knows, in the order of its `switch`. */
  const SortTokens: seq<string> :=
    ["date-newest", "date-oldest", "quantity-high", "quantity-low", "name-asc", "name-desc"]

  /** `buildSortQuery`: one field and one direction for every token, newest
      first for any token it does not know and for none. */
  function BuildSortQuery(sortBy: Option<string>): (r: SortSpec)
    ensures r.direction == 1 || r.direction == -1
  {
    match sortBy
    case Some("date-newest") => SortSpec(Date, -1)
    case Some("date-oldest") => SortSpec(Date, 1)
    case Some("quantity-high") => SortSpec(Quantity, -1)
    case Some("quantity-low") => SortSpec(Quantity, 1)
    case Some("name-asc") => SortSpec(CustomerName, 1)
    case Some("name-desc") => SortSpec(CustomerName, -1)
    case _ => SortSpec(Date, -1)
  }

  /** The six tokens name six different orders, and every order on a
      sortable field is named by exactly one of them. */
  lemma SortTokensBijective()
    ensures forall i, j :: 0 <= i < j < |SortTokens| ==>
      BuildSortQuery(Some(SortTokens[i])) != BuildSortQuery(Some(SortTokens[j]))
    ensures forall f: SortField, d: int :: d == 1 || d == -1 ==>
      exists i :: 0 <= i < |SortTokens| && BuildSortQuery(Some(SortTokens[i])) == SortSpec(f, d)
  {
    var orders := [SortSpec(Date, -1), SortSpec(Date, 1), SortSpec(Quantity, -1),
                   SortSpec(Quantity, 1), SortSpec(CustomerName, 1), SortSpec(CustomerName, -1)];
    assert BuildSortQuery(Some(SortTokens[0])) == orders[0];
    assert BuildSortQuery(Some(SortTokens[1])) == orders[1];
    assert BuildSortQuery(Some(SortTokens[2])) == orders[2];
    assert BuildSortQuery(Some(SortTokens[3])) == orders[3];
    assert BuildSortQuery(Some(SortTokens[4])) == orders[4];
    assert BuildSortQuery(Some(SortTokens[5])) == orders[5];
    forall f: SortField, d: int | d == 1 || d == -1
      ensures exists i :: 0 <= i < |SortTokens| && BuildSortQuery(Some(SortTokens[i])) == SortSpec(f, d)
    {
      var i := match f
        case Date => if d == -1 then 0 else 1
        case Quantity => if d == -1 then 2 else 3
        case CustomerName => if d == 1 then 4 else 5;
      assert BuildSortQuery(Some(SortTokens[i])) == SortSpec(f, d);
    }
  }

  /** Anything but the six tokens, and no token, gives newest first. */
  lemma UnknownSortIsNewestFirst(sortBy: Option<string>)
    requires sortBy.Some? ==> sortBy.value !in SortTokens
    ensures BuildSortQuery(sortBy) == SortSpec(Date, -1)
  {
  }

  /** The `field_asc` / `field_desc` values of the main screen's sort menu are
      not tokens of the resolver, so each of them gives newest first. */
  lemma ScreenSortValuesIgnored()
    ensures forall t :: t in ["customerName_asc", "customerName_desc", "date_desc",
                              "date_asc", "quantity_desc", "quantity_asc"] ==>
      BuildSortQuery(Some(t)) == SortSpec(Date, -1)
  {
  }
}
