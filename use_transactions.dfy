/** The client side of the transaction list (frontend/src/hooks/
    useTransactions.ts): the request parameters built from the screen's
    filters and page, and the hook's transactions, pagination, loading and
    error state across one fetch. */
module UseTransactions {
  import opened Wrappers
  import opened JsStrings
  import opened Records
  import opened QueryBuilder
  import opened TransactionService

  /** A value the screen puts into its filters: a number, a text or a list of
      texts. */
  datatype ParamValue = Num(n: int) | Text(s: string) | List(items: seq<string>)

  /** A JavaScript object of parameters, key by key. */
  type Entries = map<string, ParamValue>

  const PageSize: int := 10

  /** `{ page, limit: 10, ...filters }`: the filters' own keys win. */
  function Spread(filters: Entries, page: int): Entries {
    map["page" := Num(page), "limit" := Num(PageSize)] + filters
  }

  /** `filters[key]?.length` is truthy on a list: the list is joined. */
  predicate JoinsAt(filters: Entries, key: string) {
    key in filters && filters[key].List? && |filters[key].items| > 0
  }

  /** `filters[key]?.length` is truthy on a text, which has no `join`: the
      call throws. */
  predicate ThrowsAt(filters: Entries, key: string) {
    key in filters && filters[key].Text? && filters[key].s != ""
  }

  /** The spread parameters with the non-empty lists under `keys` joined. */
  function EncodedOver(filters: Entries, page: int, keys: set<string>): Entries {
    map k | k in Spread(filters, page) ::
      if k in keys && JoinsAt(filters, k) then Text(Join(filters[k].items, ','))
      else Spread(filters, page)[k]
  }

  /** The parameters the hook hands to the API client, or `None` when building
      them throws. */
  function RequestParams(filters: Entries, page: int): (r: Option<Entries>)
    ensures r.None? <==> exists k :: k in MultiSelectKeys && ThrowsAt(filters, k)
    ensures r.Some? ==> r.value.Keys == filters.Keys + {"page", "limit"}
    ensures r.Some? ==> forall k :: k in filters && !JoinsAt(filters, k) ==> r.value[k] == filters[k]
  {
    if exists k :: k in MultiSelectKeys && ThrowsAt(filters, k) then None
    else Some(EncodedOver(filters, page, MultiSelectKeys))
  }

  /** The effect of one join on the parameters built so far. */
  function JoinedAt(params: Entries, filters: Entries, key: string): Entries {
    if JoinsAt(filters, key) then params[key := Text(Join(filters[key].items, ','))] else params
  }

  lemma EncodedOverAdd(filters: Entries, page: int, keys: set<string>, key: string)
    ensures EncodedOver(filters, page, keys + {key}) == JoinedAt(EncodedOver(filters, page, keys), filters, key)
  {
  }

  /** The five joins in the source's order, applied to the spread
      parameters, give the encoded parameters. */
  lemma JoinsInOrder(filters: Entries, page: int)
    ensures
      var p := JoinedAt(Spread(filters, page), filters, "customerRegion");
      var p := JoinedAt(p, filters, "gender");
      var p := JoinedAt(p, filters, "productCategory");
      var p := JoinedAt(p, filters, "tags");
      JoinedAt(p, filters, "paymentMethod") == EncodedOver(filters, page, MultiSelectKeys)
  {
    var keys: set<string> := {};
    assert Spread(filters, page) == EncodedOver(filters, page, keys);
    EncodedOverAdd(filters, page, keys, "customerRegion");
    keys := keys + {"customerRegion"};
    EncodedOverAdd(filters, page, keys, "gender");
    keys := keys + {"gender"};
    EncodedOverAdd(filters, page, keys, "productCategory");
    keys := keys + {"productCategory"};
    EncodedOverAdd(filters, page, keys, "tags");
    keys := keys + {"tags"};
    EncodedOverAdd(filters, page, keys, "paymentMethod");
    keys := keys + {"paymentMethod"};
    assert keys == MultiSelectKeys;
  }

  /** One `if (filters[key]?.length) params[key] = filters[key].join(',')`. */
  method JoinList(params: Entries, filters: Entries, key: string) returns (r: Entries, thrown: bool)
    ensures thrown <==> ThrowsAt(filters, key)
    ensures !thrown ==> r == JoinedAt(params, filters, key)
  {
    r := params;
    thrown := false;
    if key in filters {
      match filters[key]
      case List(items) =>
        if |items| > 0 {
          r := params[key := Text(Join(items, ','))];
        }
      case Text(s) =>
        thrown := s != "";
      case Num(_) =>
    }
  }

  /** The `params` construction of `fetchTransactions`. */
  method BuildParams(filters: Entries, page: int) returns (r: Option<Entries>)
    ensures r == RequestParams(filters, page)
  {
    var params := map["page" := Num(page), "limit" := Num(PageSize)] + filters;
    var thrown: bool;
    params, thrown := JoinList(params, filters, "customerRegion");
    if thrown {
      return None;
    }
    params, thrown := JoinList(params, filters, "gender");
    if thrown {
      return None;
    }
    params, thrown := JoinList(params, filters, "productCategory");
    if thrown {
      return None;
    }
    params, thrown := JoinList(params, filters, "tags");
    if thrown {
      return None;
    }
    params, thrown := JoinList(params, filters, "paymentMethod");
    if thrown {
      return None;
    }
    JoinsInOrder(filters, page);
    return Some(params);
  }

  // ---------------------------------------------------------------------------
  // What the parameters hold
  // ---------------------------------------------------------------------------

  /** The parameters hold the current page and a page size of 10, unless the
      filters carry keys of those names. */
  lemma ParamsCarryPage(filters: Entries, page: int)
    requires "page" !in filters && "limit" !in filters
    requires RequestParams(filters, page).Some?
    ensures var r := RequestParams(filters, page).value;
            r["page"] == Num(page) && r["limit"] == Num(10)
  {
  }

  /** Every filter key, and nothing else besides `page` and `limit`, is a
      parameter; outside the multi-select keys its value passes unchanged. */
  lemma ParamsPassThrough(filters: Entries, page: int)
    requires RequestParams(filters, page).Some?
    ensures var r := RequestParams(filters, page).value;
            && r.Keys == filters.Keys + {"page", "limit"}
            && forall k :: k in filters && k !in MultiSelectKeys ==> r[k] == filters[k]
  {
  }

  /** Under a multi-select key a non-empty list becomes its elements joined by
      commas, and any other value is left as it is. */
  lemma ParamsJoinLists(filters: Entries, page: int, key: string)
    requires key in MultiSelectKeys && key in filters
    requires RequestParams(filters, page).Some?
    ensures var r := RequestParams(filters, page).value;
            && (JoinsAt(filters, key) ==> r[key] == Text(Join(filters[key].items, ',')))
            && (!JoinsAt(filters, key) ==> r[key] == filters[key])
  {
  }

  // ---------------------------------------------------------------------------
  // What the server reads back
  // ---------------------------------------------------------------------------

  /** The query string the server receives: numbers in decimal, texts as
      they are; an empty list sends nothing. */
  function Serialize(params: Entries): (q: Params)
    ensures forall k :: k in q <==> k in params && !params[k].List?
  {
    map k | k in params && !params[k].List? ::
      match params[k]
      case Num(n) => IntText(n)
      case Text(s) => s
      case List(_) => ""
  }

  /** A selection of values without commas in them, other than the single
      empty value, reaches the server's filter as the same list of values:
      the server's split undoes the client's join. */
  lemma SelectionRoundTrip(filters: Entries, page: int, key: string)
    requires key in MultiSelectKeys && JoinsAt(filters, key)
    requires forall i :: 0 <= i < |filters[key].items| ==> ',' !in filters[key].items[i]
    requires filters[key].items != [""]
    requires RequestParams(filters, page).Some?
    ensures var q := Serialize(RequestParams(filters, page).value);
            key in QueryFilter(q) && QueryFilter(q)[key] == OneOf(filters[key].items)
  {
    var items := filters[key].items;
    var r := RequestParams(filters, page).value;
    ParamsJoinLists(filters, page, key);
    assert r[key] == Text(Join(items, ','));
    var q := Serialize(r);
    assert q[key] == Join(items, ',');
    JoinEmptyIff(items, ',');
    SplitJoin(items, ',');
    MultiSelectClause(q, key);
  }

  /** An empty selection sends nothing, so the server installs no clause for
      it. */
  lemma EmptySelectionIgnored(filters: Entries, page: int, key: string)
    requires key in MultiSelectKeys && key in filters && filters[key] == List([])
    requires RequestParams(filters, page).Some?
    ensures key !in QueryFilter(Serialize(RequestParams(filters, page).value))
  {
    var r := RequestParams(filters, page).value;
    ParamsJoinLists(filters, page, key);
    assert r[key].List?;
    var q := Serialize(r);
    assert key !in q;
    MultiSelectMembership(q, key);
  }

  /** A numeric age bound reaches the server as the same number. */
  lemma AgeRoundTrip(filters: Entries, page: int, key: string, n: int)
    requires key == "ageMin" || key == "ageMax"
    requires key in filters && filters[key] == Num(n)
    requires RequestParams(filters, page).Some?
    ensures AgeBound(Serialize(RequestParams(filters, page).value), key) == Bound(Some(n))
  {
    ParseIntText("", n, "");
    assert "" + IntText(n) + "" == IntText(n);
  }

  /** The server serves the page the client asked for, ten records at a
      time. */
  lemma PageRoundTrip(filters: Entries, page: int)
    requires page != 0
    requires "page" !in filters && "limit" !in filters
    requires RequestParams(filters, page).Some?
    ensures var q := Serialize(RequestParams(filters, page).value);
            PageNumber(q) == page && PageLimit(q) == 10
  {
    var r := RequestParams(filters, page).value;
    ParamsCarryPage(filters, page);
    var q := Serialize(r);
    assert Lookup(q, "page") == Some(IntText(page));
    assert Lookup(q, "limit") == Some(IntText(10));
    PageParamsRoundTrip(q, page, 10);
  }

  // ---------------------------------------------------------------------------
  // The hook's state
  // ---------------------------------------------------------------------------

  const FetchError: string := "Failed to fetch transactions"

  /** What one fetch yields: the server's response, or `None` when building
      the parameters throws or the request is rejected. */
  function Outcome(filters: Entries, page: int, server: Entries -> Option<TransactionsPage>)
    : Option<TransactionsPage>
  {
    match RequestParams(filters, page)
    case None => None
    case Some(params) => server(params)
  }

  class TransactionsHook {
    var transactions: seq<Transaction>
    var pagination: Option<Pagination>
    var loading: bool
    var error: Option<string>

    /** The initial state: no rows, no pagination, idle, no error. */
    constructor ()
      ensures transactions == [] && pagination == None && !loading && error == None
    {
      transactions := [];
      pagination := None;
      loading := false;
      error := None;
    }

    /** `setLoading(true); setError(null)`. */
    method Begin()
      modifies this
      ensures loading && error == None
      ensures transactions == old(transactions) && pagination == old(pagination)
    {
      loading := true;
      error := None;
    }

    /** One run of `fetchTransactions`. On success the rows and the
        pagination are the response's and there is no error; on failure they
        are kept and the error is set. Either way the hook is idle after. */
    method FetchTransactions(filters: Entries, page: int,
                             server: Entries -> Option<TransactionsPage>)
      modifies this
      ensures !loading
      ensures Outcome(filters, page, server).Some? ==>
        && transactions == Outcome(filters, page, server).value.data
        && pagination == Some(Outcome(filters, page, server).value.pagination)
        && error == None
      ensures Outcome(filters, page, server).None? ==>
        && transactions == old(transactions)
        && pagination == old(pagination)
        && error == Some(FetchError)
    {
      Begin();
      var params := BuildParams(filters, page);
      if params.None? {
        error := Some(FetchError);
      } else {
        var response := server(params.value);
        if response.None? {
          error := Some(FetchError);
        } else {
          transactions := response.value.data;
          pagination := Some(response.value.pagination);
        }
      }
      loading := false;
    }
  }
}
