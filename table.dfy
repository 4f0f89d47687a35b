/**
 * The table: its declared columns, filters and actions, the builder it was
 * given, and the pipeline that turns one request into the payload for the
 * client. The pipeline resolves the state, threads the builder through the
 * filters, then the sort, then the search, paginates and serialises.
 */
module InertiaTable {
  import opened Php
  import opened Query
  import opened Columns
  import opened Filters
  import opened Actions
  import Str

  const DefaultPerPage := 15
  const DefaultPageName := "page"
  const SessionPrefix := "tables."
  const QueryNotSetMessage := "Query must be set before rendering the table."

  /** The request's session store; `Unavailable` is a request without one, where `session()` throws a RuntimeException. */
  datatype Session = Unavailable | Store(data: map<string, PhpArray>)

  datatype Error =
    | QueryNotSet(message: string)
      /** A state value of the wrong type for a strictly typed parameter (`array $filters`, `?string $sort`, `?string $search`). */
    | TypeError(parameter: string)

  datatype Result<T> = Success(value: T) | Failure(error: Error)

  /** The array `getTableData()` returns; `records` is the paginator it was handed. */
  datatype Payload = Payload(
    name: string,
    columns: seq<PhpArray>,
    actions: seq<PhpArray>,
    filters: seq<PhpArray>,
    records: Paginator,
    sortable: seq<string>,
    searchable: seq<string>,
    preserveState: bool)

  datatype Resolved = Resolved(state: PhpArray, session: Session)

  datatype Rendered = Rendered(result: Result<Payload>, session: Session)

  // ---------------------------------------------------------------------
  // Derived column lists
  // ---------------------------------------------------------------------

  /** What a column can be declared to support: `sortable()` or `searchable()`. */
  datatype Capability = Sorting | Searching

  predicate Offers(c: Column, cap: Capability)
    reads c
  {
    match cap
    case Sorting => c.sortable
    case Searching => c.searchable
  }

  /** The names of the columns that offer `cap`, in declaration order: the table's `sortableColumns` or `searchableColumns` list. */
  function NamesOffering(cs: seq<Column>, cap: Capability): (names: seq<string>)
    reads cs
    ensures |names| <= |cs|
  {
    if cs == [] then []
    else
      var last := cs[|cs| - 1];
      NamesOffering(cs[..|cs| - 1], cap) + if Offers(last, cap) then [last.name] else []
  }

  /** The list for a concatenation is the concatenation of the lists. */
  lemma {:induction false} NamesOfferingAppend(a: seq<Column>, b: seq<Column>, cap: Capability)
    ensures NamesOffering(a + b, cap) == NamesOffering(a, cap) + NamesOffering(b, cap)
  {
    if b == [] {
      assert a + b == a;
    } else {
      var ab := a + b;
      assert ab[..|ab| - 1] == a + b[..|b| - 1] && ab[|ab| - 1] == b[|b| - 1];
      NamesOfferingAppend(a, b[..|b| - 1], cap);
    }
  }

  /** A name is listed exactly when some column offering `cap` has it. */
  lemma {:induction false} NamesOfferingMembers(cs: seq<Column>, cap: Capability, n: string)
    ensures n in NamesOffering(cs, cap) <==> exists c :: c in cs && Offers(c, cap) && c.name == n
  {
    if cs != [] {
      NamesOfferingMembers(cs[..|cs| - 1], cap, n);
      assert forall c :: c in cs <==> c == cs[|cs| - 1] || c in cs[..|cs| - 1];
    }
  }

  // ---------------------------------------------------------------------
  // Filters
  // ---------------------------------------------------------------------

  /** The index of the first filter whose name is `key` (`collect($filters)->first(...)` with `===`); an integer key matches none. */
  function FirstNamed(fs: seq<Filter>, key: Key): (r: Option<nat>)
    ensures r.Some? ==> r.value < |fs| && key == StrKey(fs[r.value].name)
    ensures r.Some? ==> forall j :: 0 <= j < r.value ==> key != StrKey(fs[j].name)
    ensures r.None? ==> forall j :: 0 <= j < |fs| ==> key != StrKey(fs[j].name)
  {
    if fs == [] then None
    else if key == StrKey(fs[0].name) then Some(0)
    else match FirstNamed(fs[1..], key)
      case None => None
      case Some(i) => Some(i + 1)
  }

  /** The builder after the filter entries, in order: an empty value or an unknown name is skipped, otherwise the first same-named filter's `apply` gives the builder for the next entry. */
  function ThreadFilters(fs: seq<Filter>, entries: PhpArray, b: Builder): (r: Builder)
    reads fs
    ensures (forall i :: 0 <= i < |entries| ==> !Effective(fs, entries[i])) ==> r == b
    decreases |entries|
  {
    if entries == [] then b
    else
      var e := entries[0];
      var next :=
        if Empty(e.val) then b
        else match FirstNamed(fs, e.key)
          case None => b
          case Some(i) => fs[i].Apply(b, e.val);
      ThreadFilters(fs, entries[1..], next)
  }

  /** An entry that takes part in filtering: a non-empty value under the name of a declared filter. */
  predicate Effective(fs: seq<Filter>, e: Entry)
  {
    !Empty(e.val) && FirstNamed(fs, e.key).Some?
  }

  function EffectiveEntries(fs: seq<Filter>, entries: PhpArray): PhpArray
  {
    if entries == [] then []
    else (if Effective(fs, entries[0]) then [entries[0]] else []) + EffectiveEntries(fs, entries[1..])
  }

  /** The equality conditions the default strategy adds: one `where(name, value)` per effective entry, in entry order. */
  function Equalities(fs: seq<Filter>, entries: PhpArray): seq<Clause>
  {
    if entries == [] then []
    else
      var e := entries[0];
      (if Effective(fs, e) then [Where(e.key.s, e.val)] else []) + Equalities(fs, entries[1..])
  }

  /** Threading through two runs of entries is threading through the first, then the second from where it left off. */
  lemma {:induction false} ThreadFiltersAppend(fs: seq<Filter>, xs: PhpArray, ys: PhpArray, b: Builder)
    ensures ThreadFilters(fs, xs + ys, b) == ThreadFilters(fs, ys, ThreadFilters(fs, xs, b))
    decreases |xs|
  {
    if xs == [] {
      assert xs + ys == ys;
    } else {
      assert (xs + ys)[0] == xs[0] && (xs + ys)[1..] == xs[1..] + ys;
      var e := xs[0];
      var next :=
        if Empty(e.val) then b
        else match FirstNamed(fs, e.key)
          case None => b
          case Some(i) => fs[i].Apply(b, e.val);
      ThreadFiltersAppend(fs, xs[1..], ys, next);
    }
  }

  /** Entries with an empty value or an unknown name have no effect, whatever the strategies do. */
  lemma {:induction false} ThreadFiltersSkips(fs: seq<Filter>, entries: PhpArray, b: Builder)
    ensures ThreadFilters(fs, entries, b) == ThreadFilters(fs, EffectiveEntries(fs, entries), b)
    decreases |entries|
  {
    if entries != [] {
      var e := entries[0];
      var rest := EffectiveEntries(fs, entries[1..]);
      if Effective(fs, e) {
        var i := FirstNamed(fs, e.key).value;
        ThreadFiltersSkips(fs, entries[1..], fs[i].Apply(b, e.val));
        assert ([e] + rest)[0] == e && ([e] + rest)[1..] == rest;
      } else {
        ThreadFiltersSkips(fs, entries[1..], b);
        assert [] + rest == rest;
      }
    }
  }

  /** With every filter on its default strategy, filtering adds exactly the equality conditions of the effective entries, in order. */
  lemma {:induction false} DefaultFiltersAddEqualities(fs: seq<Filter>, entries: PhpArray, b: Builder)
    requires forall i :: 0 <= i < |fs| ==> fs[i].query.None?
    ensures ThreadFilters(fs, entries, b).clauses == b.clauses + Equalities(fs, entries)
    decreases |entries|
  {
    if entries != [] {
      var e := entries[0];
      var rest := Equalities(fs, entries[1..]);
      if Effective(fs, e) {
        var i := FirstNamed(fs, e.key).value;
        var next := fs[i].Apply(b, e.val);
        assert next.clauses == b.clauses + [Where(e.key.s, e.val)];
        assert ThreadFilters(fs, entries, b) == ThreadFilters(fs, entries[1..], next);
        assert Equalities(fs, entries) == [Where(e.key.s, e.val)] + rest;
        DefaultFiltersAddEqualities(fs, entries[1..], next);
      } else {
        assert ThreadFilters(fs, entries, b) == ThreadFilters(fs, entries[1..], b);
        assert Equalities(fs, entries) == rest;
        DefaultFiltersAddEqualities(fs, entries[1..], b);
      }
    }
  }

  // ---------------------------------------------------------------------
  // Sorting
  // ---------------------------------------------------------------------

  datatype SortKey = SortKey(column: string, direction: Direction)

  /** `null`, `""` and `"0"`: a sort or search parameter that asks for nothing. */
  predicate Blank(s: Option<string>)
  {
    s.None? || s.value == "" || s.value == "0"
  }

  /** The sort parameter the client sends for a key: the column, with a leading '-' for descending order. */
  function SortSpec(k: SortKey): string
  {
    match k.direction
    case Asc => k.column
    case Desc => "-" + k.column
  }

  /** Reads a sort parameter: a leading '-' asks for descending order on the rest of it, anything else for ascending order on all of it. */
  function ParseSort(spec: string): (k: SortKey)
    ensures k.direction == Desc <==> Str.StartsWith(spec, "-")
    ensures SortSpec(k) == spec
  {
    if Str.StartsWith(spec, "-") then
      assert spec == "-" + spec[1..];
      SortKey(spec[1..], Desc)
    else SortKey(spec, Asc)
  }

  /** Parsing recovers every key whose column could not be mistaken for a descending one. */
  lemma ParseSortSpec(k: SortKey)
    requires k.direction == Desc || !Str.StartsWith(k.column, "-")
    ensures ParseSort(SortSpec(k)) == k
  {
    if k.direction == Desc {
      assert SortSpec(k)[1..] == k.column;
    }
  }

  /** `applySortingToQuery`: at most one `orderBy`, and only on a sortable column. */
  function ApplySorting(b: Builder, sort: Option<string>, sortable: seq<string>): (r: Builder)
    ensures r != b <==> !Blank(sort) && ParseSort(sort.value).column in sortable
    ensures r != b ==> r == b.With(OrderBy(ParseSort(sort.value).column, ParseSort(sort.value).direction))
  {
    assert b.clauses + [] == b.clauses;
    assert !Blank(sort) ==>
      var c := OrderBy(ParseSort(sort.value).column, ParseSort(sort.value).direction);
      (b.clauses + [c])[|b.clauses|] == c;
    Builder(b.clauses + SortClauses(sort, sortable))
  }

  // ---------------------------------------------------------------------
  // Search
  // ---------------------------------------------------------------------

  function Pattern(term: string): string
  {
    "%" + term + "%"
  }

  /** The grouped condition: `where` on the first searchable column, `orWhere` on each later one, all `LIKE %term%`. */
  function SearchGroup(columns: seq<string>, term: string): seq<Like>
  {
    seq(|columns|, i requires 0 <= i < |columns| => Like(columns[i], Pattern(term), i != 0))
  }

  /** `applySearchToQuery`: nothing for a blank term or no searchable column, otherwise one group of `LIKE %term%` conditions, `where` first and `orWhere` after. */
  function ApplySearch(b: Builder, search: Option<string>, searchable: seq<string>): (r: Builder)
    ensures Blank(search) || searchable == [] ==> r == b
    ensures !Blank(search) && searchable != [] ==>
              && |r.clauses| == |b.clauses| + 1
              && r.clauses[..|b.clauses|] == b.clauses
              && r.clauses[|b.clauses|].Group?
              && var g := r.clauses[|b.clauses|].conditions;
                 && |g| == |searchable|
                 && forall i :: 0 <= i < |g| ==> g[i] == Like(searchable[i], "%" + search.value + "%", i != 0)
  {
    assert b.clauses + [] == b.clauses;
    assert !Blank(search) && searchable != [] ==>
      var g := SearchGroup(searchable, search.value);
      && (forall i :: 0 <= i < |g| ==> g[i] == Like(searchable[i], Pattern(search.value), i != 0))
      && (b.clauses + [Group(g)])[|b.clauses|] == Group(g);
    Builder(b.clauses + SearchClauses(search, searchable))
  }

  // ---------------------------------------------------------------------
  // State
  // ---------------------------------------------------------------------

  function SessionKey(tableName: string): string
  {
    SessionPrefix + tableName
  }

  /** The request carries table state: `sort`, `filters`, `search` or the page parameter is present, even with a null value. */
  predicate CarriesState(request: PhpArray, pageName: string)
  {
    Has(request, StrKey("sort")) || Has(request, StrKey("filters"))
    || Has(request, StrKey("search")) || Has(request, StrKey(pageName))
  }

  /** `getState`: the state that drives one render, and the session after it. */
  function ResolveState(preserve: bool, tableName: string, pageName: string, request: PhpArray, session: Session): (r: Resolved)
    ensures !preserve || session.Unavailable? ==> r == Resolved(request, session)
    ensures r.session != session ==> preserve && CarriesState(request, pageName)
    ensures session.Store? ==> r.session.Store? && r.session.data.Keys <= session.data.Keys + {SessionKey(tableName)}
    ensures session.Store? ==> forall k :: k in session.data && k != SessionKey(tableName) ==> k in r.session.data && r.session.data[k] == session.data[k]
    ensures preserve && session.Store? && !CarriesState(request, pageName) ==> r == Resolved(Stored(tableName, session.data), session)
  {
    if !preserve then Resolved(request, session)
    else match session
      case Unavailable => Resolved(request, session)
      case Store(data) =>
        var key := SessionKey(tableName);
        var stored := Stored(tableName, data);
        if CarriesState(request, pageName) then
          var merged := ArrayMerge(stored, request);
          Resolved(merged, Store(data[key := merged]))
        else
          Resolved(stored, session)
  }

  /** The state a table stores under its key (`[]` when there is none). */
  function Stored(tableName: string, data: map<string, PhpArray>): PhpArray
  {
    if SessionKey(tableName) in data then data[SessionKey(tableName)] else []
  }

  /** When the request carries state, the resolved state keeps every stored key and takes each request key's value over the stored one, and it is what gets written back. */
  lemma RequestWins(tableName: string, pageName: string, request: PhpArray, data: map<string, PhpArray>, s: string)
    requires CarriesState(request, pageName)
    requires Unique(request) && Unique(Stored(tableName, data))
    ensures var r := ResolveState(true, tableName, pageName, request, Store(data));
            && r.session == Store(data[SessionKey(tableName) := r.state])
            && Lookup(r.state, StrKey(s))
               == if Has(request, StrKey(s)) then Lookup(request, StrKey(s))
                  else Lookup(Stored(tableName, data), StrKey(s))
  {
    ArrayMergeLookup(Stored(tableName, data), request, s);
  }

  /** A request without state reads back what the previous request stored, and writes nothing. */
  lemma StateSurvivesRequests(tableName: string, pageName: string, first: PhpArray, next: PhpArray, data: map<string, PhpArray>)
    requires CarriesState(first, pageName) && !CarriesState(next, pageName)
    ensures var r1 := ResolveState(true, tableName, pageName, first, Store(data));
            var r2 := ResolveState(true, tableName, pageName, next, r1.session);
            r2 == r1
  {
  }

  /** Sending the same string-keyed request again leaves both the state and the session as they were. */
  lemma ResubmitIsIdempotent(tableName: string, pageName: string, request: PhpArray, data: map<string, PhpArray>)
    requires CarriesState(request, pageName)
    requires StringKeyed(request) && Unique(request)
    ensures var r1 := ResolveState(true, tableName, pageName, request, Store(data));
            ResolveState(true, tableName, pageName, request, r1.session) == r1
  {
    ArrayMergeIdempotent(Stored(tableName, data), request);
  }

  // ---------------------------------------------------------------------
  // Reading the state's parameters
  // ---------------------------------------------------------------------

  /** `$state['filters'] ?? []` passed to an `array` parameter. */
  function FiltersParam(state: PhpArray): (r: Result<PhpArray>)
    ensures Lookup(state, StrKey("filters")) in {None, Some(Null)} ==> r == Success([])
    ensures forall entries :: Lookup(state, StrKey("filters")) == Some(Arr(entries)) ==> r == Success(entries)
    ensures r.Failure? <==> Lookup(state, StrKey("filters")).Some? && !Lookup(state, StrKey("filters")).value.Null?
                            && !Lookup(state, StrKey("filters")).value.Arr?
    ensures r.Failure? ==> r.error == TypeError("filters")
  {
    match Coalesce(state, StrKey("filters"), Arr([]))
    case Arr(entries) => Success(entries)
    case _ => Failure(TypeError("filters"))
  }

  /** `$state[$key] ?? null` passed to a `?string` parameter. */
  function StringParam(state: PhpArray, key: string): (r: Result<Option<string>>)
    ensures Lookup(state, StrKey(key)) in {None, Some(Null)} ==> r == Success(None)
    ensures forall s :: Lookup(state, StrKey(key)) == Some(Str(s)) ==> r == Success(Some(s))
    ensures r.Failure? <==> Lookup(state, StrKey(key)).Some? && !Lookup(state, StrKey(key)).value.Null?
                            && !Lookup(state, StrKey(key)).value.Str?
    ensures r.Failure? ==> r.error == TypeError(key)
  {
    match Coalesce(state, StrKey(key), Null)
    case Null => Success(None)
    case Str(s) => Success(Some(s))
    case _ => Failure(TypeError(key))
  }

  /** Filters, then sort, then search, each on the builder the previous step returned. */
  function Pipeline(q: Builder, state: PhpArray, fs: seq<Filter>, sortable: seq<string>, searchable: seq<string>): (r: Result<Builder>)
    reads fs
    ensures r.Failure? <==> FiltersParam(state).Failure? || StringParam(state, "sort").Failure? || StringParam(state, "search").Failure?
    ensures FiltersParam(state).Failure? ==> r == Failure(TypeError("filters"))
    ensures FiltersParam(state).Success? && StringParam(state, "sort").Failure? ==> r == Failure(TypeError("sort"))
    ensures FiltersParam(state).Success? && StringParam(state, "sort").Success? && StringParam(state, "search").Failure?
            ==> r == Failure(TypeError("search"))
  {
    match FiltersParam(state)
    case Failure(e) => Failure(e)
    case Success(entries) =>
      var filtered := ThreadFilters(fs, entries, q);
      match StringParam(state, "sort")
      case Failure(e) => Failure(e)
      case Success(sort) =>
        var sorted := ApplySorting(filtered, sort, sortable);
        match StringParam(state, "search")
        case Failure(e) => Failure(e)
        case Success(search) => Success(ApplySearch(sorted, search, searchable))
  }

  /** Whatever the filter strategies do, the pipeline's builder is the filtered one, then at most one `orderBy`, then at most one search group. */
  lemma PipelineOrder(q: Builder, state: PhpArray, fs: seq<Filter>, sortable: seq<string>, searchable: seq<string>)
    requires Pipeline(q, state, fs, sortable, searchable).Success?
    ensures var sort := StringParam(state, "sort").value;
            var search := StringParam(state, "search").value;
            Pipeline(q, state, fs, sortable, searchable).value.clauses
            == ThreadFilters(fs, FiltersParam(state).value, q).clauses + SortClauses(sort, sortable) + SearchClauses(search, searchable)
  {
    var filtered := ThreadFilters(fs, FiltersParam(state).value, q);
    var sort := StringParam(state, "sort").value;
    var search := StringParam(state, "search").value;
    var sorted := ApplySorting(filtered, sort, sortable);
    assert sorted.clauses == filtered.clauses + SortClauses(sort, sortable);
    assert ApplySearch(sorted, search, searchable).clauses == sorted.clauses + SearchClauses(search, searchable);
  }

  /** With default filter strategies the pipeline adds the filters' equalities, then at most one `orderBy`, then at most one search group. */
  lemma DefaultPipelineClauses(q: Builder, state: PhpArray, fs: seq<Filter>, sortable: seq<string>, searchable: seq<string>)
    requires forall i :: 0 <= i < |fs| ==> fs[i].query.None?
    requires Pipeline(q, state, fs, sortable, searchable).Success?
    ensures var entries := FiltersParam(state).value;
            var sort := StringParam(state, "sort").value;
            var search := StringParam(state, "search").value;
            Pipeline(q, state, fs, sortable, searchable).value.clauses
            == q.clauses + Equalities(fs, entries) + SortClauses(sort, sortable) + SearchClauses(search, searchable)
  {
    PipelineOrder(q, state, fs, sortable, searchable);
    DefaultFiltersAddEqualities(fs, FiltersParam(state).value, q);
  }

  /** The clause a sort parameter adds, if any. */
  function SortClauses(sort: Option<string>, sortable: seq<string>): seq<Clause>
  {
    if Blank(sort) then []
    else
      var k := ParseSort(sort.value);
      if k.column in sortable then [OrderBy(k.column, k.direction)] else []
  }

  /** The clause a search parameter adds, if any. */
  function SearchClauses(search: Option<string>, searchable: seq<string>): seq<Clause>
  {
    if Blank(search) || searchable == [] then [] else [Group(SearchGroup(searchable, search.value))]
  }

  // ---------------------------------------------------------------------
  // Serialising the descriptors
  // ---------------------------------------------------------------------

  /** `collect($columns)->map->toArray()->toArray()`. */
  function ColumnArrays(cs: seq<Column>): (arrays: seq<PhpArray>)
    reads cs
    ensures |arrays| == |cs| && forall i :: 0 <= i < |cs| ==> arrays[i] == cs[i].ToArray()
  {
    seq(|cs|, i requires 0 <= i < |cs| reads cs => cs[i].ToArray())
  }

  function FilterArrays(fs: seq<Filter>): (arrays: seq<PhpArray>)
    reads fs
    ensures |arrays| == |fs| && forall i :: 0 <= i < |fs| ==> arrays[i] == fs[i].ToArray()
  {
    seq(|fs|, i requires 0 <= i < |fs| reads fs => fs[i].ToArray())
  }

  function ActionArrays(as_: seq<Action>): (arrays: seq<PhpArray>)
    reads as_
    ensures |arrays| == |as_| && forall i :: 0 <= i < |as_| ==> arrays[i] == as_[i].ToArray()
  {
    seq(|as_|, i requires 0 <= i < |as_| reads as_ => as_[i].ToArray())
  }

  // ---------------------------------------------------------------------
  // The table
  // ---------------------------------------------------------------------

  class Table {
    const name: string
    const pageName: string
    var columns: seq<Column>
    var actions: seq<Action>
    var filters: seq<Filter>
    var query: Option<Builder>
    var perPage: int
    var preserveState: bool
    var sortableColumns: seq<string>
    var searchableColumns: seq<string>

    /** `Table::make($name)`. */
    constructor Make(name: string)
      ensures this.name == name && pageName == DefaultPageName
      ensures columns == [] && actions == [] && filters == [] && query == None
      ensures perPage == DefaultPerPage && !preserveState
      ensures sortableColumns == [] && searchableColumns == []
    {
      this.name := name;
      pageName := DefaultPageName;
      columns, actions, filters := [], [], [];
      query := None;
      perPage := DefaultPerPage;
      preserveState := false;
      sortableColumns, searchableColumns := [], [];
    }

    /** `columns($columns)`: replaces the columns and appends the sortable and searchable names to the lists, which are never cleared. */
    method Columns(cs: seq<Column>)
      modifies this
      ensures columns == cs
      ensures sortableColumns == old(sortableColumns) + NamesOffering(cs, Sorting)
      ensures searchableColumns == old(searchableColumns) + NamesOffering(cs, Searching)
      ensures actions == old(actions) && filters == old(filters) && query == old(query)
      ensures perPage == old(perPage) && preserveState == old(preserveState)
    {
      var sortable, searchable := sortableColumns, searchableColumns;
      ghost var sortable0, searchable0 := sortable, searchable;
      var i := 0;
      while i < |cs|
        invariant 0 <= i <= |cs|
        invariant sortable == sortable0 + NamesOffering(cs[..i], Sorting)
        invariant searchable == searchable0 + NamesOffering(cs[..i], Searching)
      {
        var column := cs[i];
        assert cs[..i + 1][..i] == cs[..i] && cs[..i + 1][i] == column;
        if column.IsSortable() {
          sortable := sortable + [column.GetName()];
        }
        if column.IsSearchable() {
          searchable := searchable + [column.GetName()];
        }
        i := i + 1;
      }
      assert cs[..|cs|] == cs;
      columns, sortableColumns, searchableColumns := cs, sortable, searchable;
    }

    method Actions(as_: seq<Action>)
      modifies this
      ensures actions == as_
      ensures columns == old(columns) && filters == old(filters) && query == old(query)
      ensures perPage == old(perPage) && preserveState == old(preserveState)
      ensures sortableColumns == old(sortableColumns) && searchableColumns == old(searchableColumns)
    {
      actions := as_;
    }

    method Filters(fs: seq<Filter>)
      modifies this
      ensures filters == fs
      ensures columns == old(columns) && actions == old(actions) && query == old(query)
      ensures perPage == old(perPage) && preserveState == old(preserveState)
      ensures sortableColumns == old(sortableColumns) && searchableColumns == old(searchableColumns)
    {
      filters := fs;
    }

    method Query(b: Builder)
      modifies this
      ensures query == Some(b)
      ensures columns == old(columns) && actions == old(actions) && filters == old(filters)
      ensures perPage == old(perPage) && preserveState == old(preserveState)
      ensures sortableColumns == old(sortableColumns) && searchableColumns == old(searchableColumns)
    {
      query := Some(b);
    }

    method PerPage(n: int)
      modifies this
      ensures perPage == n
      ensures columns == old(columns) && actions == old(actions) && filters == old(filters)
      ensures query == old(query) && preserveState == old(preserveState)
      ensures sortableColumns == old(sortableColumns) && searchableColumns == old(searchableColumns)
    {
      perPage := n;
    }

    method PreserveState(preserve: bool := true)
      modifies this
      ensures preserveState == preserve
      ensures columns == old(columns) && actions == old(actions) && filters == old(filters)
      ensures query == old(query) && perPage == old(perPage)
      ensures sortableColumns == old(sortableColumns) && searchableColumns == old(searchableColumns)
    {
      preserveState := preserve;
    }

    /** `applyFiltersToQuery`: threads the builder through the entries in order. */
    method ApplyFiltersToQuery(b: Builder, entries: PhpArray) returns (r: Builder)
      ensures r == ThreadFilters(filters, entries, b)
    {
      r := b;
      var i := 0;
      while i < |entries|
        invariant 0 <= i <= |entries|
        invariant ThreadFilters(filters, entries[i..], r) == ThreadFilters(filters, entries, b)
      {
        var e := entries[i];
        assert entries[i..][0] == e && entries[i..][1..] == entries[i + 1..];
        if !Empty(e.val) {
          var found := FirstNamed(filters, e.key);
          if found.Some? {
            r := filters[found.value].Apply(r, e.val);
          }
        }
        i := i + 1;
      }
    }

    /** `applySearchToQuery`: one grouped condition over the searchable columns, built by the closure's loop. */
    method ApplySearchToQuery(b: Builder, search: Option<string>) returns (r: Builder)
      ensures r == ApplySearch(b, search, searchableColumns)
    {
      if Blank(search) || searchableColumns == [] {
        return b;
      }
      var term := search.value;
      var group: seq<Like> := [];
      var index := 0;
      while index < |searchableColumns|
        invariant 0 <= index <= |searchableColumns|
        invariant |group| == index
        invariant forall i :: 0 <= i < index ==> group[i] == Like(searchableColumns[i], Pattern(term), i != 0)
      {
        var isOr := index != 0;
        group := group + [Like(searchableColumns[index], Pattern(term), isOr)];
        index := index + 1;
      }
      assert group == SearchGroup(searchableColumns, term);
      r := b.With(Group(group));
    }

    /**
     * The payload `getTableData()` builds, and the session after it. The
     * session is written before anything can fail; without a builder the
     * render fails; otherwise it fails exactly when the pipeline does, and on
     * success the payload carries the declared lists, every descriptor's
     * array, and a paginator over the pipeline's builder.
     */
    function TableData(request: PhpArray, session: Session): (r: Rendered)
      reads this, columns, actions, filters
      ensures var resolved := ResolveState(preserveState, name, pageName, request, session);
              && r.session == resolved.session
              && (query.None? ==> r.result == Failure(QueryNotSet(QueryNotSetMessage)))
              && (query.Some? ==>
                    var built := Pipeline(query.value, resolved.state, filters, sortableColumns, searchableColumns);
                    && (built.Failure? ==> r.result == Failure(built.error))
                    && (built.Success? ==>
                          && r.result.Success?
                          && r.result.value.records
                             == Paginator(built.value, perPage, ["*"], pageName, Coalesce(resolved.state, StrKey("page"), Int(1)), true)))
      ensures r.result.Success? ==>
                var p := r.result.value;
                && p.name == name && p.preserveState == preserveState
                && p.sortable == sortableColumns && p.searchable == searchableColumns
                && |p.columns| == |columns| && |p.filters| == |filters| && |p.actions| == |actions|
                && (forall i :: 0 <= i < |columns| ==> p.columns[i] == columns[i].ToArray())
                && (forall i :: 0 <= i < |filters| ==> p.filters[i] == filters[i].ToArray())
                && (forall i :: 0 <= i < |actions| ==> p.actions[i] == actions[i].ToArray())
    {
      var resolved := ResolveState(preserveState, name, pageName, request, session);
      var state := resolved.state;
      if query.None? then
        Rendered(Failure(QueryNotSet(QueryNotSetMessage)), resolved.session)
      else
        match Pipeline(query.value, state, filters, sortableColumns, searchableColumns)
        case Failure(e) => Rendered(Failure(e), resolved.session)
        case Success(built) =>
          var records := Paginator(built, perPage, ["*"], pageName, Coalesce(state, StrKey("page"), Int(1)), true);
          Rendered(
            Success(Payload(name, ColumnArrays(columns), ActionArrays(actions), FilterArrays(filters),
                            records, sortableColumns, searchableColumns, preserveState)),
            resolved.session)
    }

    /** `getTableData()`: state first, then the query check, then filters, sort, search and pagination. */
    method GetTableData(request: PhpArray, session: Session) returns (result: Result<Payload>, session': Session)
      ensures Rendered(result, session') == TableData(request, session)
    {
      var resolved := ResolveState(preserveState, name, pageName, request, session);
      session' := resolved.session;
      var state := resolved.state;
      if query.None? {
        return Failure(QueryNotSet(QueryNotSetMessage)), session';
      }
      var entries := FiltersParam(state);
      if entries.Failure? {
        return Failure(entries.error), session';
      }
      var built := ApplyFiltersToQuery(query.value, entries.value);
      var sort := StringParam(state, "sort");
      if sort.Failure? {
        return Failure(sort.error), session';
      }
      built := ApplySorting(built, sort.value, sortableColumns);
      var search := StringParam(state, "search");
      if search.Failure? {
        return Failure(search.error), session';
      }
      built := ApplySearchToQuery(built, search.value);
      var records := Paginator(built, perPage, ["*"], pageName, Coalesce(state, StrKey("page"), Int(1)), true);
      result := Success(Payload(name, ColumnArrays(columns), ActionArrays(actions), FilterArrays(filters),
                                records, sortableColumns, searchableColumns, preserveState));
    }

    /** `render()`: the payload of `getTableData()`. */
    method Render(request: PhpArray, session: Session) returns (result: Result<Payload>, session': Session)
      ensures Rendered(result, session') == TableData(request, session)
    {
      result, session' := GetTableData(request, session);
    }
  }
}
