/**
 * The users table of the package's feature tests. The descriptors are built
 * through their fluent setters; the requests are run through the pipeline
 * functions the table's `getTableData` is proved against. Each scenario
 * states the clause log or state its request leads to; the database that
 * would run the clauses is not part of this model.
 */
module TableScenarios {
  import opened Php
  import opened Query
  import opened Columns
  import opened Filters
  import opened Actions
  import opened InertiaTable

  const UsersSortable: seq<string> := ["name", "email"]
  const UsersSearchable: seq<string> := ["name", "email"]

  /** `TextColumn::make($name)->sortable()->searchable()`. */
  method SortableSearchableText(name: string) returns (c: Column)
    ensures fresh(c)
    ensures c.name == name && c.sortable && c.searchable
  {
    c := new Column.Text(name);
    c.Sortable();
    c.Searchable();
  }

  /** Name and email, both sortable and searchable, and a plain status column: the lists name them in that order. */
  method UsersColumns() returns (columns: seq<Column>)
    ensures NamesOffering(columns, Sorting) == UsersSortable
    ensures NamesOffering(columns, Searching) == UsersSearchable
  {
    var name := SortableSearchableText("name");
    var email := SortableSearchableText("email");
    var status := new Column.Text("status");
    columns := [name, email, status];
    assert columns[..2] == [name, email] && [name, email][..1] == [name] && [name][..0] == [];
    assert NamesOffering([name], Sorting) == ["name"] && NamesOffering([name], Searching) == ["name"];
    assert NamesOffering([name, email], Sorting) == UsersSortable;
    assert NamesOffering([name, email], Searching) == UsersSearchable;
  }

  /** The users table over an unconstrained builder. */
  method UsersTable(preserve: bool) returns (table: Table)
    ensures fresh(table)
    ensures table.name == "users" && table.query == Some(Builder([]))
    ensures table.sortableColumns == UsersSortable && table.searchableColumns == UsersSearchable
    ensures table.filters == [] && table.perPage == DefaultPerPage && table.preserveState == preserve
  {
    var columns := UsersColumns();
    table := new Table.Make("users");
    table.Columns(columns);
    table.Query(Builder([]));
    table.PreserveState(preserve);
  }

  /** `ButtonAction::make('edit')->url('/users/:id/edit')` serialises its url. */
  method EditAction() returns (serialised: PhpArray)
    ensures Lookup(serialised, StrKey("url")) == Some(Str("/users/:id/edit"))
  {
    var edit := new Action.Button("edit");
    edit.Url("/users/:id/edit");
    serialised := edit.ToArray();
  }

  /** `ButtonAction::make('delete')->requiresConfirmation()` serialises the confirmation flag as true. */
  method DeleteAction() returns (serialised: PhpArray)
    ensures Lookup(serialised, StrKey("requiresConfirmation")) == Some(Bool(true))
  {
    var delete := new Action.Button("delete");
    delete.RequiresConfirmation();
    serialised := delete.ToArray();
  }

  /** A select filter on status serialises the options it was given. */
  method StatusFilter() returns (filter: Filter)
    ensures fresh(filter) && filter.name == "status" && filter.query.None?
    ensures Lookup(filter.ToArray(), StrKey("options"))
            == Some(Arr([Entry(StrKey("active"), Str("Active")), Entry(StrKey("inactive"), Str("Inactive"))]))
  {
    filter := new Filter.Select("status");
    filter.Options([Entry(StrKey("active"), Str("Active")), Entry(StrKey("inactive"), Str("Inactive"))]);
  }

  /** With a status filter on its default strategy, `?filters[status]=active` adds one equality. */
  lemma FilterByStatus(status: Filter)
    requires status.name == "status" && status.query.None?
    ensures var request := [Entry(StrKey("filters"), Arr([Entry(StrKey("status"), Str("active"))]))];
            Pipeline(Builder([]), request, [status], UsersSortable, UsersSearchable)
            == Success(Builder([Where("status", Str("active"))]))
  {
    var entries := [Entry(StrKey("status"), Str("active"))];
    var request := [Entry(StrKey("filters"), Arr(entries))];
    LookupSingle(StrKey("filters"), Arr(entries), StrKey("filters"));
    LookupSingle(StrKey("filters"), Arr(entries), StrKey("sort"));
    LookupSingle(StrKey("filters"), Arr(entries), StrKey("search"));
    assert FirstNamed([status], StrKey("status")) == Some(0);
    assert entries[1..] == [];
    assert ThreadFilters([status], entries, Builder([])) == Builder([Where("status", Str("active"))]);
  }

  /** `?sort=name` orders by name ascending. */
  lemma SortAscending()
    ensures Pipeline(Builder([]), [Entry(StrKey("sort"), Str("name"))], [], ["name"], UsersSearchable)
            == Success(Builder([OrderBy("name", Asc)]))
  {
    LookupSingle(StrKey("sort"), Str("name"), StrKey("filters"));
    LookupSingle(StrKey("sort"), Str("name"), StrKey("sort"));
    LookupSingle(StrKey("sort"), Str("name"), StrKey("search"));
    assert "name"[0] == 'n';
    assert ParseSort("name") == SortKey("name", Asc);
    assert "name" in ["name"];
    assert Builder([]).With(OrderBy("name", Asc)) == Builder([OrderBy("name", Asc)]);
  }

  /** `?sort=-name` orders by name descending. */
  lemma SortDescending()
    ensures Pipeline(Builder([]), [Entry(StrKey("sort"), Str("-name"))], [], ["name"], UsersSearchable)
            == Success(Builder([OrderBy("name", Desc)]))
  {
    LookupSingle(StrKey("sort"), Str("-name"), StrKey("filters"));
    LookupSingle(StrKey("sort"), Str("-name"), StrKey("sort"));
    LookupSingle(StrKey("sort"), Str("-name"), StrKey("search"));
    assert "-name"[..1] == "-" && "-name"[1..] == "name";
    assert ParseSort("-name") == SortKey("name", Desc);
    assert "name" in ["name"];
    assert Builder([]).With(OrderBy("name", Desc)) == Builder([OrderBy("name", Desc)]);
  }

  /** `?sort=status` names a column that is not sortable, so nothing is ordered. */
  lemma SortByUnsortable()
    ensures Pipeline(Builder([]), [Entry(StrKey("sort"), Str("status"))], [], UsersSortable, UsersSearchable)
            == Success(Builder([]))
  {
    LookupSingle(StrKey("sort"), Str("status"), StrKey("filters"));
    LookupSingle(StrKey("sort"), Str("status"), StrKey("sort"));
    LookupSingle(StrKey("sort"), Str("status"), StrKey("search"));
    assert "status"[0] == 's';
    assert ParseSort("status") == SortKey("status", Asc);
  }

  /** `?search=jane` adds one group: name LIKE %jane% or email LIKE %jane%. */
  lemma SearchJane()
    ensures Pipeline(Builder([]), [Entry(StrKey("search"), Str("jane"))], [], UsersSortable, UsersSearchable)
            == Success(Builder([Group([Like("name", "%jane%", false), Like("email", "%jane%", true)])]))
  {
    LookupSingle(StrKey("search"), Str("jane"), StrKey("filters"));
    LookupSingle(StrKey("search"), Str("jane"), StrKey("sort"));
    LookupSingle(StrKey("search"), Str("jane"), StrKey("search"));
    assert Pattern("jane") == "%jane%";
    var group := SearchGroup(UsersSearchable, "jane");
    assert group[0] == Like("name", "%jane%", false) && group[1] == Like("email", "%jane%", true);
    assert group == [Like("name", "%jane%", false), Like("email", "%jane%", true)];
    assert Builder([]).With(Group(group)) == Builder([Group(group)]);
  }

  /** A `filters` parameter that is a string fails the array type check. */
  lemma FiltersNotAnArray()
    ensures Pipeline(Builder([]), [Entry(StrKey("filters"), Str("active"))], [], UsersSortable, UsersSearchable)
            == Failure(TypeError("filters"))
  {
    LookupSingle(StrKey("filters"), Str("active"), StrKey("filters"));
  }

  /** A numeric `sort` parameter fails the string type check, even after valid filters. */
  lemma SortNotAString()
    ensures Pipeline(Builder([]), [Entry(StrKey("sort"), Int(1))], [], UsersSortable, UsersSearchable)
            == Failure(TypeError("sort"))
  {
    LookupSingle(StrKey("sort"), Int(1), StrKey("filters"));
    LookupSingle(StrKey("sort"), Int(1), StrKey("sort"));
  }

  /** With state preserved, a sort sent once is stored, and a later request without parameters reads it back. */
  lemma PreservedSort()
    ensures var request := [Entry(StrKey("sort"), Str("email"))];
            var first := ResolveState(true, "users", DefaultPageName, request, Store(map[]));
            var second := ResolveState(true, "users", DefaultPageName, [], first.session);
            && first == Resolved(request, Store(map["tables.users" := request]))
            && second == first
  {
    var request := [Entry(StrKey("sort"), Str("email"))];
    assert KeysOf(request)[0] == StrKey("sort");
    ArrayMergeDisjoint([], request);
    assert [] + request == request;
    assert SessionKey("users") == "tables.users";
  }

  /** Without preservation the session is left alone and the state is the request as sent. */
  lemma StatelessRequest()
    ensures var request := [Entry(StrKey("page"), Str("2"))];
            ResolveState(false, "users", DefaultPageName, request, Store(map["tables.users" := []]))
            == Resolved(request, Store(map["tables.users" := []]))
  {
  }
}
