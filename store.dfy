/** The document collection as the service sees it: a finite sequence of
    transactions, read through find (filter, sort, skip, limit), count,
    distinct and a minimum/maximum aggregate. How the store compiles and
    matches a regular expression and how it reads a date from text are not
    modelled; they come in as `Oracles`. */
module Store {
  import opened Wrappers
  import opened Records
  import opened Ordering
  import opened QueryBuilder

  /** `regexCompiles(pattern, options)` (is the text a regular expression the
      store accepts?), `regexMatches(pattern, options, text)` and
      `parseDate(text)` (`None` for an invalid date). */
  datatype Oracles = Oracles(
    regexCompiles: (string, string) -> bool,
    regexMatches: (string, string, string) -> bool,
    parseDate: string -> Option<int>)

  /** Why the store refuses a read: a bound it cannot cast (`NaN`, an invalid
      date), a pattern it cannot compile (an unbalanced `(`, a leading `+`),
      or a negative skip. */
  datatype StoreError = CastError | InvalidPattern | NegativeSkip

  // ---------------------------------------------------------------------------
  // Matching a filter
  // ---------------------------------------------------------------------------

  predicate ClauseCastable(c: Clause, o: Oracles) {
    match c
    case NumberRange(gte, lte) =>
      (gte.Bound? ==> gte.value.Some?) && (lte.Bound? ==> lte.value.Some?)
    case DateRange(since, until) =>
      (since.Bound? ==> o.parseDate(since.value).Some?)
      && (until.Bound? ==> o.parseDate(until.value).Some?)
    case _ => true
  }

  /** Every bound of the filter is a number or a valid date. */
  predicate Castable(f: Filter, o: Oracles) {
    forall key :: key in f ==> ClauseCastable(f[key], o)
  }

  /** Every pattern of the list compiles. */
  predicate AllCompile(ps: seq<Pattern>, o: Oracles) {
    |ps| == 0 || (o.regexCompiles(ps[0].regex, ps[0].options) && AllCompile(ps[1..], o))
  }

  /** Every pattern of a search clause compiles. */
  predicate ClauseCompiles(c: Clause, o: Oracles) {
    c.AnyOf? ==> AllCompile(c.alternatives, o)
  }

  /** Every pattern of the filter compiles. */
  predicate PatternsCompile(f: Filter, o: Oracles) {
    forall key :: key in f ==> ClauseCompiles(f[key], o)
  }

  /** The integer-valued field of a transaction with the given name. */
  function IntField(t: Transaction, name: string): Option<int> {
    if name == "age" then Some(t.age)
    else if name == "quantity" then Some(t.quantity)
    else None
  }

  predicate PatternMatches(pat: Pattern, t: Transaction, o: Oracles) {
    match TextField(t, pat.field)
    case Some(v) => o.regexMatches(pat.regex, pat.options, v)
    case None => false
  }

  /** Does transaction `t` satisfy the clause stored under `key`? A list field
      (`tags`) satisfies a membership clause when one of its elements does. */
  predicate ClauseHolds(key: string, c: Clause, t: Transaction, o: Oracles)
    requires ClauseCastable(c, o)
  {
    match c
    case AnyOf(alternatives) =>
      exists i :: 0 <= i < |alternatives| && PatternMatches(alternatives[i], t, o)
    case OneOf(values) =>
      if key == "tags" then exists j :: 0 <= j < |t.tags| && t.tags[j] in values
      else TextField(t, key).Some? && TextField(t, key).value in values
    case NumberRange(gte, lte) =>
      IntField(t, key).Some?
      && (gte.Bound? ==> IntField(t, key).value >= gte.value.value)
      && (lte.Bound? ==> IntField(t, key).value <= lte.value.value)
    case DateRange(since, until) =>
      (since.Bound? ==> t.date >= o.parseDate(since.value).value)
      && (until.Bound? ==> t.date <= o.parseDate(until.value).value)
  }

  /** The filter is the conjunction of its clauses; the empty filter
      matches every transaction. */
  predicate Matches(f: Filter, t: Transaction, o: Oracles)
    requires Castable(f, o)
    ensures f == map[] ==> Matches(f, t, o)
  {
    forall key :: key in f ==> ClauseHolds(key, f[key], t, o)
  }

  /** Adding clauses under new keys only narrows the match: a transaction
      matches the combined filter exactly when it matches both parts. */
  lemma MatchesUnion(f: Filter, g: Filter, t: Transaction, o: Oracles)
    requires Castable(f, o) && Castable(g, o)
    requires f.Keys !! g.Keys
    ensures Castable(f + g, o)
    ensures Matches(f + g, t, o) <==> Matches(f, t, o) && Matches(g, t, o)
  {
    if Matches(f, t, o) && Matches(g, t, o) {
      forall key | key in f + g ensures ClauseHolds(key, (f + g)[key], t, o) {
        if key in g {
          assert ClauseHolds(key, g[key], t, o);
        } else {
          assert ClauseHolds(key, f[key], t, o);
        }
      }
    }
    if Matches(f + g, t, o) {
      forall key | key in f ensures ClauseHolds(key, f[key], t, o) {
        assert key !in g;
        assert ClauseHolds(key, (f + g)[key], t, o);
      }
      forall key | key in g ensures ClauseHolds(key, g[key], t, o) {
        assert ClauseHolds(key, (f + g)[key], t, o);
      }
    }
  }

  /** The matching transactions, in store order, each as often as the store
      holds it. */
  function Select(store: seq<Transaction>, f: Filter, o: Oracles): (r: seq<Transaction>)
    requires Castable(f, o)
    ensures |r| <= |store|
    ensures forall t :: t in r <==> t in store && Matches(f, t, o)
  {
    if |store| == 0 then []
    else
      var rest := Select(store[1..], f, o);
      assert forall t :: t in store <==> t == store[0] || t in store[1..];
      if Matches(f, store[0], o) then [store[0]] + rest else rest
  }

  /** A matching transaction is selected as often as the store holds it, any
      other not at all: the count of the selection is the number of matching
      documents, duplicates included. */
  lemma {:induction false} SelectMultiplicity(store: seq<Transaction>, f: Filter, o: Oracles)
    requires Castable(f, o)
    ensures forall t :: multiset(Select(store, f, o))[t] == if Matches(f, t, o) then multiset(store)[t] else 0
  {
    if |store| > 0 {
      SelectMultiplicity(store[1..], f, o);
      assert store == [store[0]] + store[1..];
    }
  }

  /** The empty filter matches everything. */
  lemma {:induction false} SelectAll(store: seq<Transaction>, o: Oracles)
    ensures Select(store, map[], o) == store
  {
    if |store| > 0 {
      SelectAll(store[1..], o);
    }
  }

  /** A filter no transaction satisfies selects nothing. */
  lemma {:induction false} SelectNone(store: seq<Transaction>, f: Filter, o: Oracles)
    requires Castable(f, o)
    requires forall t :: t in store ==> !Matches(f, t, o)
    ensures Select(store, f, o) == []
  {
    if |store| > 0 {
      assert store[0] in store;
      SelectNone(store[1..], f, o);
    }
  }

  // ---------------------------------------------------------------------------
  // Sorting on one field
  // ---------------------------------------------------------------------------

  /** May `a` come before `b` in the order `spec` asks for? */
  predicate Precedes(spec: SortSpec, a: Transaction, b: Transaction) {
    match spec.field
    case Date =>
      if spec.direction == 1 then a.date <= b.date else b.date <= a.date
    case Quantity =>
      if spec.direction == 1 then a.quantity <= b.quantity else b.quantity <= a.quantity
    case CustomerName =>
      if spec.direction == 1 then AtMost(a.customerName, b.customerName)
      else AtMost(b.customerName, a.customerName)
  }

  lemma PrecedesTotal(spec: SortSpec, a: Transaction, b: Transaction)
    ensures Precedes(spec, a, b) || Precedes(spec, b, a)
  {
    BelowTotal(a.customerName, b.customerName);
  }

  predicate SortedBy(spec: SortSpec, s: seq<Transaction>) {
    forall k :: 0 < k < |s| ==> Precedes(spec, s[k - 1], s[k])
  }

  /** Put `x` before the first element it may precede. */
  function Insert(spec: SortSpec, x: Transaction, s: seq<Transaction>): (r: seq<Transaction>)
    ensures multiset(r) == multiset{x} + multiset(s)
    ensures |r| > 0 && (r[0] == x || (|s| > 0 && r[0] == s[0]))
    ensures SortedBy(spec, s) ==> SortedBy(spec, r)
  {
    if |s| == 0 then [x]
    else if Precedes(spec, x, s[0]) then [x] + s
    else
      PrecedesTotal(spec, x, s[0]);
      var tail := Insert(spec, x, s[1..]);
      assert s == [s[0]] + s[1..];
      [s[0]] + tail
  }

  /** The store's sort on one field: ordered by `spec`, a permutation of the
      input. Ties keep their store order. */
  function SortRecords(spec: SortSpec, s: seq<Transaction>): (r: seq<Transaction>)
    ensures SortedBy(spec, r)
    ensures multiset(r) == multiset(s)
  {
    if |s| == 0 then []
    else
      assert s == [s[0]] + s[1..];
      Insert(spec, s[0], SortRecords(spec, s[1..]))
  }

  // ---------------------------------------------------------------------------
  // The four reads
  // ---------------------------------------------------------------------------

  function Abs(n: int): nat {
    if n < 0 then -n else n
  }

  /** `find(f).sort(spec).skip(skip).limit(limit)`: the sorted matches from
      position `skip` on, at most `|limit|` of them (no limit when it is 0). */
  function Find(store: seq<Transaction>, f: Filter, spec: SortSpec, skip: int, limit: int,
                o: Oracles): (r: Result<seq<Transaction>, StoreError>)
    ensures r.Ok? <==> Castable(f, o) && PatternsCompile(f, o) && skip >= 0
    ensures !Castable(f, o) ==> r == Err(CastError)
    ensures r.Ok? ==> limit != 0 ==> |r.value| <= Abs(limit)
    ensures r.Ok? ==> forall t :: t in r.value ==> t in store && Matches(f, t, o)
  {
    if !Castable(f, o) then Err(CastError)
    else if !PatternsCompile(f, o) then Err(InvalidPattern)
    else if skip < 0 then Err(NegativeSkip)
    else
      var sorted := SortRecords(spec, Select(store, f, o));
      assert forall t :: t in sorted ==> t in multiset(sorted);
      Ok(Window(sorted, skip, limit))
  }

  /** `skip(skip).limit(limit)` on a sequence: from position `skip` on, at
      most `|limit|` elements, all of them when the limit is 0. */
  function Window(s: seq<Transaction>, skip: nat, limit: int): (r: seq<Transaction>)
    ensures limit != 0 ==> |r| <= Abs(limit)
    ensures forall t :: t in r ==> t in s
  {
    var from := if skip < |s| then skip else |s|;
    var to := if limit == 0 || from + Abs(limit) > |s| then |s| else from + Abs(limit);
    s[from..to]
  }

  function Min(a: int, b: int): int {
    if a <= b then a else b
  }

  /** With a positive limit, find answers the window of `limit` sorted
      matches that starts at `skip`, cut short by the end of the matches. */
  lemma FindWindow(store: seq<Transaction>, f: Filter, spec: SortSpec, skip: int, limit: int,
                   o: Oracles)
    requires Castable(f, o) && PatternsCompile(f, o)
    requires skip >= 0 && limit > 0
    ensures var sorted := SortRecords(spec, Select(store, f, o));
            Find(store, f, spec, skip, limit, o) ==
              Ok(sorted[Min(skip, |sorted|)..Min(skip + limit, |sorted|)])
  {
    WindowBounds(SortRecords(spec, Select(store, f, o)), skip, limit);
  }

  lemma WindowBounds(s: seq<Transaction>, skip: nat, limit: int)
    requires limit > 0
    ensures Window(s, skip, limit) == s[Min(skip, |s|)..Min(skip + limit, |s|)]
  {
  }

  /** `countDocuments(f)`. */
  function Count(store: seq<Transaction>, f: Filter, o: Oracles): (r: Result<nat, StoreError>)
    ensures r.Ok? <==> Castable(f, o) && PatternsCompile(f, o)
    ensures !Castable(f, o) ==> r == Err(CastError)
    ensures r.Ok? ==> r.value <= |store|
    ensures r.Ok? ==> (r.value == 0 <==> forall t :: t in store ==> !Matches(f, t, o))
  {
    if !Castable(f, o) then Err(CastError)
    else if !PatternsCompile(f, o) then Err(InvalidPattern)
    else
      var s := Select(store, f, o);
      assert |s| > 0 ==> s[0] in s;
      Ok(|s|)
  }

  /** The values of one field across the store, the elements of `tags`
      flattened, in store order and with repetitions. */
  function FieldValues(store: seq<Transaction>, name: string): (r: seq<string>)
    ensures forall x :: x in r <==> exists i :: 0 <= i < |store| && x in ValuesOf(store[i], name)
  {
    if |store| == 0 then []
    else
      var r := ValuesOf(store[0], name) + FieldValues(store[1..], name);
      assert forall i :: 1 <= i < |store| ==> store[i] == store[1..][i - 1];
      r
  }

  function ValuesOf(t: Transaction, name: string): seq<string> {
    if name == "tags" then t.tags
    else match TextField(t, name)
      case Some(v) => [v]
      case None => []
  }

  /** Each value once, at its first occurrence. */
  function Dedupe(s: seq<string>): (r: seq<string>)
    ensures forall x :: x in r <==> x in s
    ensures forall x :: multiset(r)[x] <= 1
  {
    if |s| == 0 then []
    else
      var r := Dedupe(s[..|s| - 1]);
      assert forall x :: x in s <==> x in s[..|s| - 1] || x == s[|s| - 1];
      if s[|s| - 1] in r then r else r + [s[|s| - 1]]
  }

  /** `distinct(name)`: the different values of a field, in no particular
      order (here: first occurrence). */
  function DistinctValues(store: seq<Transaction>, name: string): (r: seq<string>)
    ensures forall x :: x in r <==> exists i :: 0 <= i < |store| && x in ValuesOf(store[i], name)
    ensures forall x :: multiset(r)[x] <= 1
  {
    Dedupe(FieldValues(store, name))
  }

  /** `$min` of the dates; `None` for an empty store. */
  function MinDate(store: seq<Transaction>): (r: Option<int>)
    ensures r.Some? <==> |store| > 0
    ensures r.Some? ==> (exists i :: 0 <= i < |store| && store[i].date == r.value)
                        && forall i :: 0 <= i < |store| ==> r.value <= store[i].date
  {
    if |store| == 0 then None
    else
      match MinDate(store[1..])
      case None => Some(store[0].date)
      case Some(m) =>
        assert forall i :: 1 <= i < |store| ==> store[i] == store[1..][i - 1];
        if store[0].date <= m then Some(store[0].date) else Some(m)
  }

  /** `$max` of the dates; `None` for an empty store. */
  function MaxDate(store: seq<Transaction>): (r: Option<int>)
    ensures r.Some? <==> |store| > 0
    ensures r.Some? ==> (exists i :: 0 <= i < |store| && store[i].date == r.value)
                        && forall i :: 0 <= i < |store| ==> store[i].date <= r.value
  {
    if |store| == 0 then None
    else
      match MaxDate(store[1..])
      case None => Some(store[0].date)
      case Some(m) =>
        assert forall i :: 1 <= i < |store| ==> store[i] == store[1..][i - 1];
        if store[0].date >= m then Some(store[0].date) else Some(m)
  }
}
