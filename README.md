# laravel-inertia-table, modelled in Dafny

This project models the core of laravel-inertia-table, a Laravel package.
A `Table` is declared with text, badge and date columns, select filters and button actions.
It is given an Eloquent query builder.
On each request it turns the request (or the state kept in the session) into a filtered, sorted and searched query.
It then paginates that query and returns the payload an Inertia page renders.

The project has these modules:

- `Php` (php.dfy): the PHP values the pipeline handles.
  - An array is its ordered list of entries.
  - It covers `empty()`, `array_key_exists` and `??`.
  - `array_merge` is written out completely. A string key overwrites in place or appends. An integer key is renumbered and appended.
- `Str` (str.dfy): `Str::startsWith` and a stand-in for `Str::headline`.
- `Query` (query.dfy):
  - The builder is the log of the `where` / `orderBy` / grouped `LIKE` clauses added to it.
  - The paginator is the record of the arguments `paginate` received.
- `Columns`, `Filters`, `Actions` (columns.dfy, filters.dfy, actions.dfy): the descriptors.
  - Each is a class whose fluent setters update it in place.
  - A variant datatype carries each subclass's extra fields.
  - `ToArray` is `array_merge(parent::toArray(), [...])`.
- `InertiaTable` (table.dfy): the `Table` class and the pipeline.
  - The setters and the `columns()` loop update the table's fields.
  - `applyFiltersToQuery` and the search closure are loops, proved against the pure functions `ThreadFilters` and `ApplySearch`.
  - The sort decision, the state resolution (`getState`) and the filter → sort → search `Pipeline` are functions.
  - `GetTableData` / `Render` are proved equal to the function `TableData`.
- `TableScenarios` (scenarios.dfy): the package's feature-test table (users with name, email and status) stated as lemmas and methods.

How failures are modelled:

- A render without a builder fails with the `RuntimeException` message of the source. The message does not contain the table name (src/Table.php:101); the model follows the code.
- `Table.php` declares strict types. A `filters` state value that is neither null nor an array is therefore a `TypeError` (null becomes `[]` through `?? []`), and so is a `sort` or `search` value that is neither null nor a string. These are modelled as `Failure(TypeError(..))` results.
- A request without a session makes `session()` throw. That case is the `Unavailable` session, which falls back to the request's parameters.

## Model

| member | source | states |
|---|---|---|
| Php.Empty | src/Table.php:141 | `empty()` holds exactly for null, false, 0, `""`, `"0"` and the empty array |
| Php.Coalesce | src/Table.php:104-112 | `$a[$k] ?? $d` is `$d` when the key is absent or null, and otherwise a non-null value stored under the key |
| Php.Lookup | src/Table.php:104-106 | `$a[$k]` finds a value exactly when the key is present, and that value is stored under the key |
| Php.Put | src/Table.php:201 | the string-key step of `array_merge` (`MergeEntry`): a key already present keeps its place in the key order; an absent key is appended as one entry |
| Php.PutLookup | src/Table.php:201 | in the string-key step of `array_merge` (`MergeEntry`), the merged key reads back the new value and every other key reads what it read before |
| Php.ArrayMergeLookup | src/Table.php:201 | in `array_merge($a, $b)` of arrays without duplicate keys, a string key of `$b` takes b's value and any other string key keeps a's value; integer keys are renumbered (not stated here) |
| Php.MergeAllLookup | src/Table.php:201 | merging entries one at a time: the last array that has a string key supplies its value |
| Php.ArrayMerge | src/Table.php:201 | `array_merge` always yields unique keys with integer keys renumbered 0..n-1 |
| Php.ArrayMergeDisjoint | src/Columns/TextColumn.php:32-38 | merging arrays with distinct string keys is their concatenation, so a descriptor's array is the base entries followed by the variant's |
| Php.ArrayMergeIdempotent | src/Table.php:201 | merging the same string-keyed array twice equals merging it once |
| Php.ArrayMergeRepeatsIntKeys | src/Table.php:201 | for every array `a` and every `b` that has an integer key, merging `b` again makes the result longer: integer keys are renumbered and appended each time |
| Columns.Column.Text | src/Columns/Column.php:20-31 | `TextColumn::make` sets the name, the headline label, no sort or search, null default and truncate |
| Columns.Column.Badge | src/Columns/BadgeColumn.php:9-13 | `BadgeColumn::make`: null color and icon, no states |
| Columns.Column.Date | src/Columns/DateColumn.php:9-15 | `DateColumn::make`: null default, format `d/m/Y`, null timezone |
| Columns.Column.Label | src/Columns/Column.php:33-38 | sets the label and nothing else |
| Columns.Column.Sortable | src/Columns/Column.php:40-45 | `isSortable()` then returns the flag given; nothing else changes |
| Columns.Column.Searchable | src/Columns/Column.php:47-52 | `isSearchable()` then returns the flag given; nothing else changes |
| Columns.Column.Default | src/Columns/TextColumn.php:13-18 | sets the default, and the serialised column reads it back under `default` |
| Columns.Column.Truncate | src/Columns/TextColumn.php:20-25 | sets the truncation length and nothing else |
| Columns.Column.Color | src/Columns/BadgeColumn.php:15-20 | sets the badge color and nothing else |
| Columns.Column.Icon | src/Columns/BadgeColumn.php:22-27 | sets the badge icon and nothing else |
| Columns.Column.States | src/Columns/BadgeColumn.php:29-34 | sets the states, and the serialised column reads them back under `states` |
| Columns.Column.Format | src/Columns/DateColumn.php:24-29 | sets the date format and nothing else |
| Columns.Column.Timezone | src/Columns/DateColumn.php:31-36 | sets the timezone; the serialised column does not change, because the timezone is not serialised |
| Columns.Column.GetName | src/Columns/Column.php:54-57 | returns the column's name |
| Columns.Column.IsSortable | src/Columns/Column.php:59-62 | returns the sortable flag |
| Columns.Column.IsSearchable | src/Columns/Column.php:64-67 | returns the searchable flag |
| Columns.Column.GetType | src/Columns/TextColumn.php:27-30 | `text`, `badge` or `date`, each exactly for its own column class (also BadgeColumn.php:36-39, DateColumn.php:38-41) |
| Columns.Column.ToArray | src/Columns/Column.php:71-80 | the base entries (name, label, type, sortable, searchable) followed by the variant's entries, with no key twice; the base part is `BaseArray` |
| Columns.ExtensionLookup | src/Columns/Column.php:71-80 | every entry a variant adds reads back from `toArray()` with the variant's value |
| Columns.TextToArray | src/Columns/TextColumn.php:32-38 | a text column serialises to name, label, `text`, sortable, searchable, default, truncate |
| Columns.BadgeToArray | src/Columns/BadgeColumn.php:41-48 | a badge column serialises to the base entries then color, icon, states |
| Columns.DateToArray | src/Columns/DateColumn.php:43-49 | a date column serialises to the base entries then default, format, and has no timezone key |
| Filters.Filter.Select | src/Filters/Filter.php:22-33 | `SelectFilter::make` sets the name, the headline label, a null default, no strategy, no options, single choice |
| Filters.Filter.Label | src/Filters/Filter.php:35-40 | sets the label and nothing else |
| Filters.Filter.Default | src/Filters/Filter.php:42-47 | sets the default, and the serialised filter reads it back under `default` |
| Filters.Filter.Query | src/Filters/Filter.php:49-54 | stores the custom strategy and nothing else |
| Filters.Filter.Apply | src/Filters/Filter.php:56-63 | a custom strategy decides the builder; without one, exactly one `where(name, value)` is appended |
| Filters.Filter.Options | src/Filters/SelectFilter.php:13-18 | sets the options, and the serialised filter reads them back under `options` |
| Filters.Filter.Multiple | src/Filters/SelectFilter.php:20-25 | sets the multiple flag and nothing else |
| Filters.Filter.GetName | src/Filters/Filter.php:65-68 | returns the filter's name |
| Filters.Filter.GetType | src/Filters/SelectFilter.php:27-30 | returns `select` |
| Filters.Filter.ToArray | src/Filters/Filter.php:72-80 | the base entries (name, label, type, default) followed by options and multiple, with no key twice; the base part is `BaseArray` |
| Filters.SelectToArray | src/Filters/SelectFilter.php:32-38 | a select filter serialises to name, label, `select`, default, options, multiple |
| Actions.Action.Button | src/Actions/Actions.php:24-31 | `ButtonAction::make` sets the name, the headline label, no icon, url or handler, no confirmation, color `primary`, size `md` |
| Actions.Action.Label | src/Actions/Actions.php:33-38 | sets the label and nothing else |
| Actions.Action.Icon | src/Actions/Actions.php:40-45 | sets the icon and nothing else |
| Actions.Action.Url | src/Actions/Actions.php:47-52 | sets the url, and the serialised action reads it back under `url` |
| Actions.Action.Handler | src/Actions/Actions.php:54-59 | stores the closure; the serialised action does not change |
| Actions.Action.RequiresConfirmation | src/Actions/Actions.php:61-66 | sets the flag, and the serialised action reads it back under `requiresConfirmation` |
| Actions.Action.Color | src/Actions/ButtonAction.php:13-18 | sets the button color and nothing else |
| Actions.Action.Size | src/Actions/ButtonAction.php:20-25 | sets the button size and nothing else |
| Actions.Action.GetType | src/Actions/ButtonAction.php:27-30 | returns `button` |
| Actions.Action.ToArray | src/Actions/Actions.php:70-80 | the base entries (name, label, type, icon, url, requiresConfirmation) followed by color and size, with no key twice; the closure is never serialised |
| Actions.ButtonToArray | src/Actions/ButtonAction.php:32-38 | a button serialises to name, label, `button`, icon, url, requiresConfirmation, color, size |
| InertiaTable.NamesOffering | src/Table.php:46-54 | the names of the sortable (or searchable) columns, at most one per column; what and in which order is proved in the two lemmas below |
| InertiaTable.NamesOfferingMembers | src/Table.php:46-54 | a name is listed exactly when some column that is sortable (or searchable) has it |
| InertiaTable.NamesOfferingAppend | src/Table.php:46-54 | the names of two runs of columns are the first run's followed by the second's, so the list keeps declaration order |
| InertiaTable.FirstNamed | src/Table.php:145 | the filter found is the first whose name equals the key; none is found only when no name equals it |
| InertiaTable.ThreadFilters | src/Table.php:138-153 | the builder after the filter entries; entries that all have an empty value or an unknown name leave it unchanged |
| InertiaTable.ThreadFiltersAppend | src/Table.php:140-150 | filtering by two runs of entries is filtering by the first, then by the second from the builder it left |
| InertiaTable.ThreadFiltersSkips | src/Table.php:141-149 | entries with an empty value or an unknown name have no effect, whatever the strategies do |
| InertiaTable.DefaultFiltersAddEqualities | src/Table.php:138-153 | with default strategies, filtering appends one equality per effective entry, in entry order, and nothing else |
| InertiaTable.ParseSort | src/Table.php:161-167 | the direction is descending exactly when the parameter starts with `-`, and writing the key back gives the parameter |
| InertiaTable.ParseSortSpec | src/Table.php:161-167 | parsing the parameter written for a key gives the key back, for every key except ascending order on a column whose name starts with `-`: no sort parameter can ask for that |
| InertiaTable.ApplySorting | src/Table.php:155-174 | the builder changes exactly when the parameter is not null, `""` or `"0"` and names a sortable column, and then by one `orderBy` on that column and direction |
| InertiaTable.ResolveState | src/Table.php:190-210 | without preservation or without a session the state is the request; with both and a request carrying no state, the state is what is stored (`[]` when nothing is) and the request's keys are dropped; the session changes only when preservation is on and the request carries state; only the table's key may change |
| InertiaTable.RequestWins | src/Table.php:200-203 | with preservation on, a state-carrying request's string keys override the stored ones and other stored string keys are kept (its integer keys are appended after the stored entries, not stated here); the result is written back |
| InertiaTable.StateSurvivesRequests | src/Table.php:196-205 | a request without state reads back exactly what the previous request stored |
| InertiaTable.ResubmitIsIdempotent | src/Table.php:200-203 | resending the same string-keyed request leaves state and session unchanged |
| InertiaTable.FiltersParam | src/Table.php:104 | `filters ?? []`: absent or null gives `[]`, an array gives its entries, anything else the `filters` type error |
| InertiaTable.StringParam | src/Table.php:105-106 | `sort ?? null` / `search ?? null`: absent or null gives none, a string gives it, anything else that parameter's type error |
| InertiaTable.ApplySearch | src/Table.php:176-188 | null, `""`, `"0"` or no searchable column leave the builder alone; otherwise exactly one group is appended, `where` on the first column and `orWhere` on each later one, all `LIKE %term%` |
| InertiaTable.Pipeline | src/Table.php:104-106 | fails exactly when one of the parameters has the wrong type, with the first such parameter in the order filters, sort, search as the error |
| InertiaTable.PipelineOrder | src/Table.php:104-106 | whatever the filter strategies, a successful pipeline's builder is the filtered one, then at most one `orderBy`, then at most one search group |
| InertiaTable.DefaultPipelineClauses | src/Table.php:104-106 | with default strategies, the pipeline appends the equalities, then at most one `orderBy`, then at most one search group |
| InertiaTable.Table.TableData | src/Table.php:94-125 | the session is resolved first; no builder means the query-not-set failure; otherwise the render fails exactly when the pipeline does, and on success it paginates the pipeline's builder and serialises every descriptor |
| InertiaTable.Table.Make | src/Table.php:14-40 | a new table has no columns, actions, filters or builder, 15 rows per page, page parameter `page`, no preservation |
| InertiaTable.Table.Columns | src/Table.php:42-57 | replaces the columns and appends their sortable and searchable names, in order, to lists that are never cleared |
| InertiaTable.Table.Actions | src/Table.php:59-64 | replaces the actions and nothing else |
| InertiaTable.Table.Filters | src/Table.php:66-71 | replaces the filters and nothing else |
| InertiaTable.Table.Query | src/Table.php:73-78 | sets the builder and nothing else |
| InertiaTable.Table.PerPage | src/Table.php:80-85 | sets the page size and nothing else |
| InertiaTable.Table.PreserveState | src/Table.php:87-92 | sets the preservation flag and nothing else |
| InertiaTable.Table.ApplyFiltersToQuery | src/Table.php:138-153 | the loop yields the builder `ThreadFilters` describes |
| InertiaTable.Table.ApplySearchToQuery | src/Table.php:176-188 | null, `""`, `"0"` or no searchable column leave the builder alone; otherwise one group is appended, `where` on the first column and `orWhere` on each later one, all `LIKE %term%` |
| InertiaTable.Table.GetTableData | src/Table.php:94-125 | the result and the new session are those `TableData` describes |
| InertiaTable.Table.Render | src/Table.php:127-136 | returns what `getTableData()` returns |
| TableScenarios.SortableSearchableText | tests/Feature/TableTest.php:74-75 | a text column made sortable and searchable has both flags |
| TableScenarios.UsersColumns | tests/Feature/TableTest.php:73-77 | name, email and status columns give the sortable and searchable lists `[name, email]` |
| TableScenarios.UsersTable | tests/Feature/TableTest.php:69-85 | the users table carries name `users` and the lists `[name, email]` |
| TableScenarios.EditAction | tests/Feature/TableTest.php:96-106 | the edit button serialises its url |
| TableScenarios.DeleteAction | tests/Feature/TableTest.php:97-108 | the delete button serialises `requiresConfirmation` as true |
| TableScenarios.StatusFilter | tests/Feature/TableTest.php:119-136 | the status filter serialises the options it was given |
| TableScenarios.FilterByStatus | tests/Feature/TableTest.php:140-168 | `filters[status]=active` adds exactly the condition status = active |
| TableScenarios.SortAscending | tests/Feature/TableTest.php:171-190 | `sort=name` orders by name ascending |
| TableScenarios.SortDescending | tests/Feature/TableTest.php:192-207 | `sort=-name` orders by name descending |
| TableScenarios.SortByUnsortable | src/Table.php:169-173 | a sort on a column that is not sortable adds nothing |
| TableScenarios.SearchJane | tests/Feature/TableTest.php:211-232 | `search=jane` adds one group: name LIKE `%jane%` or email LIKE `%jane%` |
| TableScenarios.FiltersNotAnArray | src/Table.php:104 | a string `filters` parameter fails the `array` type check |
| TableScenarios.SortNotAString | src/Table.php:105 | an integer `sort` parameter fails the `?string` type check |
| TableScenarios.PreservedSort | src/Table.php:196-205 | with preservation, a sort sent once is stored under `tables.users` and read back by a later empty request |
| TableScenarios.StatelessRequest | src/Table.php:192-194 | without preservation the state is the request and the session is untouched |

## Left out

- The database is not modelled: no SQL execution, no `LIKE` matching, no rows in the paginator. The builder is a clause log, and the paginator records the arguments it received, including `withQueryString()`.
- The feature tests assert on the records the database returns. The scenarios state the clauses their requests produce instead.
- The `users` table, the model and the migration the tests set up are not part of this model.
- `Str::headline` is a simplified ASCII version. No property depends on how labels are spelled.
- `in_array` at src/Table.php:169 compares loosely. The model compares column names as exact strings.
- The Eloquent builder is an object that `where`/`orderBy` mutate in place. The model threads it as a value, so a builder shared between two renders of one table is not modelled.
- `app(Request::class)` and `$request->session()` are parameters of `GetTableData`/`Render`. The new session is part of their result.
- In the session, `tables.{name}` is a dot-notation path into nested arrays. Here it is one flat key.
- Uploaded files in `$request->all()` are not modelled.
- Keys that are decimal-integer strings are assumed already converted to integer keys, as PHP does when it builds an array.
- `empty()` covers null, booleans, integers, strings and arrays. Floats and objects are not among the values modelled.
- Custom filter strategies are total functions of the builder and the value. Exceptions or side effects inside them are not modelled.
- A stored action closure is an opaque identifier, because the core never calls it.
- The PHP setter `action($closure)` is named `Handler`, because `Action` is the class's own name.
- The date column's `formatted` field is never read or serialised by the source, and it is not modelled.
- The commented-out `Inertia::share` in `render()` is not modelled.
- src/Columns/Columns.php redeclares the abstract column class. Autoloading never uses it, and it is not part of this model.
- Not part of this model:
  - the service provider
  - the facade
  - the publish command
  - config/laravel-inertia-table.php, whose `session_key_prefix` the code never reads; the prefix is fixed at `tables.`
  - the migration
  - the JavaScript
  - the Blade view
- Concurrent requests racing on the same session key are not modelled. The model is single-request.
- The column setters that exist only on one subclass require that variant. PHP would reject calls on other column classes with an undefined-method error.
- `InertiaTable.Table.Columns` collects the names in local lists and assigns the fields after the loop. The source appends to the fields directly. Nothing can observe the difference.
- `InertiaTable.NamesOffering` states only a length bound in its own contract. What it lists, and in which order, is proved in `NamesOfferingMembers` and `NamesOfferingAppend`.
- Php.ArrayMergeLookup: states the lookup of string keys only, for arrays without duplicate keys; the renumbering of integer keys is stated only as `Canonical` on `Php.ArrayMerge` and as the growth in `Php.ArrayMergeRepeatsIntKeys`.
- InertiaTable.RequestWins: states the lookup of string keys only; a request's integer keys are appended after the stored entries, which this lemma does not state.
