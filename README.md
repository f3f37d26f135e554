# Issue table view state, in Dafny

This project models the state logic of a client-side issue tracker's table
(`IssuesTable` and its store). The table lists issue records and offers these
controls:

- a case-insensitive search over title and identifier;
- five filter drop-downs (status, project, priority, assignee, cycle) whose
  options come from the records;
- a single-key "Group by" control;
- sortable column headers;
- a detail dialog opened by clicking a record row.

The view state (global filter, column filters, sorting, grouping, row selection)
is copied into a stored table state by an effect. The stored pagination is
carried along unchanged.

Modules:

- `AsciiText`: ASCII lower-casing and `String.prototype.includes`. It proves
  that `Includes` finds exactly the occurrences of a substring.
- `Issues`: the record fields the table reads. JavaScript's absent values
  (`undefined`/`null`) are modelled as `Missing`, and truthiness is made explicit.
- `Store` (src/store/atoms.js): the stored table state and its default, the
  fallback to an in-memory atom, the initial selection, and `hasActiveFilters`.
- `IssuesTable` (src/components/IssuesTable.jsx):
  - pure functions for the search predicate, the option lists, the filter
    choice, the grouping control and the header-click rule;
  - the class `Component`, which holds the store atoms and the local view state.
    Its methods are the component's event handlers and its sync effect.

Three behaviours of the code are easy to misread; the model follows the code:

- **Sort toggle.** A header click asks for descending exactly when the column is
  ascending, and ascending otherwise. It never clears the sort. Repeated clicks
  therefore go unsorted → asc → desc → asc (`RepeatedClicksAlternate`,
  `ThirdClickKeepsSort`), not back to unsorted.
- **Default page size.** The stored default page size, 25, is not among the sizes
  the page-size drop-down offers (10–50). The stored pagination is never handed
  to the table, so this has no effect on what is shown (`DefaultPageSizeNotOffered`).
- **Filter value for "all".** The filter drop-downs hand the column the empty
  string for "all". The model applies the table library's rule that an empty
  filter value removes the column's entry. So after "all" the column has no filter,
  and the drop-down shows its placeholder.

## Model

| member | source | states |
|---|---|---|
| `AsciiText.ToLower` | src/components/IssuesTable.jsx:466-471 | lower-casing keeps the length and folds each character (ASCII) |
| `AsciiText.Includes` | src/components/IssuesTable.jsx:470-471 | `includes` only finds strings no longer than the searched one, and finds every prefix of it |
| `AsciiText.IncludesIffOccurs` | src/components/IssuesTable.jsx:470-471 | `includes` holds exactly when the query occurs at some offset of the string |
| `IssuesTable.GlobalFilterFn` | src/components/IssuesTable.jsx:465-473 | a record passes iff its present title or its present identifier contains the query ignoring case; the column id plays no part |
| `IssuesTable.GlobalFilterIgnoresCase` | src/components/IssuesTable.jsx:465-472 | any re-casing of the query, asked for any column id, gives the same verdict |
| `IssuesTable.EmptyQueryPassesPresentRecords` | src/components/IssuesTable.jsx:466-472 | the empty query passes exactly the records whose title or identifier is present |
| `IssuesTable.GlobalFilterShorterQuery` | src/components/IssuesTable.jsx:466-472 | a record that passes for a query passes for every substring of that query |
| `IssuesTable.GlobalFilterPrefixQuery` | src/components/IssuesTable.jsx:466-472 | deleting characters from the end of the query never loses a match |
| `IssuesTable.ColumnValues` | src/components/IssuesTable.jsx:483 | `data.map(item => item[key])`: one value per record, in record order |
| `IssuesTable.Distinct` | src/components/IssuesTable.jsx:483 | the `Set` conversion keeps exactly the values of the input, in first-seen order |
| `IssuesTable.KeepTruthy` | src/components/IssuesTable.jsx:483 | `filter(Boolean)` keeps exactly the truthy values |
| `IssuesTable.KeepTruthyKeepsOrder` | src/components/IssuesTable.jsx:483 | dropping the falsy values keeps the first-seen order of the rest |
| `IssuesTable.UniqueValues` | src/components/IssuesTable.jsx:482-484 | an option list holds only truthy values, every truthy value of the field in the data, each once, in first-seen order |
| `IssuesTable.OptionListIsUnique` | src/components/IssuesTable.jsx:482-484 | that description determines the list: any list meeting it equals `getUniqueValues` |
| `IssuesTable.FilterValueFor` | src/components/IssuesTable.jsx:526 | the drop-down hands over the empty string only for "all" (or an empty choice), every other choice unchanged |
| `IssuesTable.DisplayedFilterValue` | src/components/IssuesTable.jsx:524 | `getFilterValue() ?? ""`: a column with an entry shows that entry's value, a column without one shows the placeholder, and a non-empty display is the column's filter value |
| `IssuesTable.SetFilterValue` | src/components/IssuesTable.jsx:526 | after setting a column's filter value, the column reads that value (no entry for the empty string); other columns keep theirs |
| `IssuesTable.FilterChoiceRoundTrip` | src/components/IssuesTable.jsx:524-526 | after choosing an entry the drop-down shows it; "all" shows the placeholder and leaves the column unfiltered; other columns unchanged |
| `IssuesTable.GroupingFor` | src/components/IssuesTable.jsx:667-674 | "none" gives no grouping, any other key a grouping of exactly one; the drop-down then shows the entry chosen |
| `IssuesTable.GroupingDisplay` | src/components/IssuesTable.jsx:667 | the drop-down shows "none" when there is no grouping, otherwise the first grouping key |
| `IssuesTable.GroupingDisplayRoundTrip` | src/components/IssuesTable.jsx:667-674 | choosing the entry shown gives back the grouping exactly when it has no key or one key other than "none" |
| `IssuesTable.HeaderClick` | src/components/IssuesTable.jsx:112 | after a header click the column is the only sort key, descending iff it was ascending before |
| `IssuesTable.RepeatedClicksAlternate` | src/components/IssuesTable.jsx:112 | n clicks alternate ascending and descending from the starting direction and never clear the sort |
| `IssuesTable.ThirdClickKeepsSort` | src/components/IssuesTable.jsx:112 | from unsorted, the third click leaves the column ascending |
| `IssuesTable.DefaultPageSizeNotOffered` | src/components/IssuesTable.jsx:811 | the stored default page size 25 is not one of the offered sizes 10, 20, 30, 40, 50 |
| `IssuesTable.Component.constructor` | src/components/IssuesTable.jsx:38-49 | local state starts from the stored table state, visibility and expansion empty, nothing selected, detail closed; the stored state already mirrors it; a stored state with at most one sort and one grouping key gives a reachable component |
| `IssuesTable.Component.Snapshot` | src/components/IssuesTable.jsx:53-60 | the object the effect writes carries the local global filter, column filters, sorting, grouping and row selection with the stored pagination; its filters are active exactly when the local search, column filters or grouping are |
| `IssuesTable.Component.SyncTableState` | src/components/IssuesTable.jsx:52-61 | the stored state becomes the local global filter, column filters, sorting, grouping and row selection with the old pagination; keeps at most one sort key and one grouping key, locally and in storage |
| `IssuesTable.Component.SetGlobalFilter` | src/components/IssuesTable.jsx:453 | the global filter becomes the value reported, nothing else changes; keeps at most one sort key and one grouping key, locally and in storage |
| `IssuesTable.Component.ChooseColumnFilter` | src/components/IssuesTable.jsx:523-527 | the column's filter is set to the choice ("all" clears it); other columns' filters are unchanged; keeps at most one sort key and one grouping key, locally and in storage |
| `IssuesTable.Component.ChooseGrouping` | src/components/IssuesTable.jsx:666-674 | grouping is replaced, never appended to; it has at most one key and reads back as the choice; keeps at most one sort key and one grouping key, locally and in storage |
| `IssuesTable.Component.ClickHeader` | src/components/IssuesTable.jsx:112 | sorting becomes the header-click result: descending iff it was ascending; keeps at most one sort key and one grouping key, locally and in storage |
| `IssuesTable.Component.HandleRowClick` | src/components/IssuesTable.jsx:476-479 | the clicked issue is selected and the detail view opens |
| `IssuesTable.Component.ClickRow` | src/components/IssuesTable.jsx:723-727 | a group row changes nothing; a record row selects its record and opens the detail view |
| `IssuesTable.Component.SetDetailViewOpen` | src/components/IssuesTable.jsx:866 | the dialog's open flag becomes the value it reports |
| `IssuesTable.Component.Close` | src/components/IssuesTable.jsx:1057 | the detail view closes and the selected issue stays as it was |
| `IssuesTable.Component.FilterOptions` | src/components/IssuesTable.jsx:486-490 | the five option lists are the option lists of the records alone, whatever the view state |
| `Store.CreateStorageAtom` | src/store/atoms.js:5-12 | the atom is storage-backed under the key unless creation throws, then in memory; it starts from the initial value either way |
| `Store.DefaultTableState` | src/store/atoms.js:15-25 | the default has no active filters, empty sorting and row selection, page index 0 and page size 25 |
| `Store.TableStateAtom` | src/store/atoms.js:15-25 | the table state atom starts from the default, stored under its fixed key when storage works |
| `Store.FallbackKeepsInitialState` | src/store/atoms.js:5-25 | with or without storage the table state starts from the same value |
| `Store.InitialSelectionIsEmpty` | src/store/atoms.js:27-31 | no issue is selected and the detail view is closed initially |
| `Store.HasActiveFilters` | src/store/atoms.js:40-47 | the flag is set exactly when clearing the global filter, the column filters and the grouping would change the state |
| `Store.HasActiveFiltersIgnoresSortSelectionPaging` | src/store/atoms.js:40-47 | changing only sorting, row selection or pagination never changes `hasActiveFilters` |

## Left out

- Row derivation (column-filter matching, sorting, grouping trees, expansion,
  paging windows and page counts) happens inside the table library, whose code
  is not part of this model. So is the row-selection and expansion state, which
  only that library changes.
- `IssuesTable.SetFilterValue` follows the table library's `setFilterValue` rule
  (empty value removes, otherwise replace or append). The library is not part of
  this model; the rule is taken from its documented behaviour.
- `IssuesTable.HeaderClick` always leaves one sort key. With an explicit direction
  and no multi-sort, the table library does keep earlier keys in one case: the
  clicked column is already the last of several sort keys. The model leaves that
  case out: `Component.Reachable` (at most one sort key and one grouping key,
  locally and in storage) holds after a mount from a stored state with at most
  one key of each, the default included, and every method that changes sorting, grouping, filters or
  storage keeps it.
- `IssuesTable.Component.ClickHeader` inherits that gap from `HeaderClick`. The
  constructor accepts any stored state, including one with several sort keys
  that only a source other than these controls could have written; from such a
  state the model's click drops the earlier keys where the library could keep them.
- Pagination: the stored pagination is never given to the table, so the page-size
  and page-index controls act on library state. They are not modelled.
- The search box is a static element. No control sets the global filter except
  the library's change callback (`SetGlobalFilter`).
- The sync effect runs after a render in which one of its inputs changed. The
  model makes it an explicit method, `SyncTableState`, for the caller to invoke
  after a change. React's scheduling is not modelled.
- `Store.CreateStorageAtom`: whether creating the storage-backed atom throws is a
  parameter. Reading earlier values back from `localStorage` is not modelled,
  nor is the warning written to the console.
- Lower-casing folds ASCII letters only; full Unicode `toLowerCase` is not modelled.
- Records keep only the fields the search and the option lists read. Labels,
  estimate, dates and description are presentation only. So are the colour and
  indicator helpers, initials, the dialog layout, date formatting and the
  "overdue" comparison against the clock.
- A record field is either a string or absent. Non-string field values are not
  modelled.
- `data` is fixed for the life of a component. Refetching, loading and error
  states are not modelled, nor is the page, provider and configuration wiring.
