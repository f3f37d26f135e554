/**
 * The global store of src/store/atoms.js: the persisted table state with its
 * defaults, the fallback used when the storage-backed atom cannot be created,
 * the initial selection values, and the derived "has active filters" flag.
 */
module Store {
  import opened Wrappers
  import opened Issues

  /** One entry of `columnFilters`: a column id and the value it is filtered by. */
  datatype ColumnFilter = ColumnFilter(id: string, value: string)

  /** One entry of `sorting`: a column id and whether it sorts descending. */
  datatype ColumnSort = ColumnSort(id: string, desc: bool)

  datatype Pagination = Pagination(pageIndex: int, pageSize: int)

  /** The snapshot of the table's view state that is kept in storage. */
  datatype TableState = TableState(
    globalFilter: string,
    columnFilters: seq<ColumnFilter>,
    sorting: seq<ColumnSort>,
    grouping: seq<string>,
    rowSelection: map<string, bool>,
    pagination: Pagination)

  /** The storage key of the table state. */
  const TableStateKey: string := "issues-table-state"

  /**
   * An atom as `createStorageAtom` can return it: one backed by storage under a
   * key, or an in-memory one. Both start from `initial`.
   */
  datatype Atom<T> = StorageAtom(key: string, initial: T) | MemoryAtom(initial: T)

  /**
   * `createStorageAtom(key, initialValue)`: try the storage-backed atom; when its
   * creation throws (`creationThrows`), fall back to an in-memory atom with the
   * same initial value. Either way the atom starts from `initialValue`.
   */
  function CreateStorageAtom<T>(key: string, initialValue: T, creationThrows: bool): (a: Atom<T>)
    ensures a.initial == initialValue
    ensures a.StorageAtom? <==> !creationThrows
    ensures a.StorageAtom? ==> a.key == key
  {
    if creationThrows then MemoryAtom(initialValue) else StorageAtom(key, initialValue)
  }

  /**
   * Whether the table state narrows or regroups the rows (`hasActiveFiltersAtom`):
   * exactly when clearing the search, the column filters and the grouping would
   * change the state.
   */
  predicate HasActiveFilters(state: TableState): (active: bool)
    ensures active <==> state != state.(globalFilter := "", columnFilters := [], grouping := [])
  {
    |state.globalFilter| > 0 || |state.columnFilters| > 0 || |state.grouping| > 0
  }

  /** The initial value of `tableStateAtom`. */
  function DefaultTableState(): (s: TableState)
    ensures !HasActiveFilters(s)
    ensures s.sorting == [] && s.rowSelection == map[]
    ensures s.pagination.pageIndex == 0 && s.pagination.pageSize == 25
  {
    TableState("", [], [], [], map[], Pagination(0, 25))
  }

  /** `tableStateAtom`, created under its fixed key with the default state. */
  function TableStateAtom(creationThrows: bool): (a: Atom<TableState>)
    ensures a.initial == DefaultTableState()
    ensures a.StorageAtom? ==> a.key == TableStateKey
  {
    CreateStorageAtom(TableStateKey, DefaultTableState(), creationThrows)
  }

  /** `selectedIssueAtom` starts with no issue. */
  const InitialSelectedIssue: Option<Issue> := None

  /** `detailViewOpenAtom` starts closed. */
  const InitialDetailViewOpen: bool := false

  /** At the start of a session no issue is selected and the detail view is closed. */
  lemma InitialSelectionIsEmpty()
    ensures InitialSelectedIssue == None && !InitialDetailViewOpen
  {
  }

  /** Whether storage is available or not, the table starts from the same state. */
  lemma FallbackKeepsInitialState()
    ensures TableStateAtom(true).initial == TableStateAtom(false).initial
    ensures TableStateAtom(true).MemoryAtom? && TableStateAtom(false).StorageAtom?
  {
  }

  /**
   * Only the global filter, the column filters and the grouping decide the flag:
   * replacing the sorting, the row selection or the pagination never changes it.
   */
  lemma HasActiveFiltersIgnoresSortSelectionPaging(
    state: TableState, sorting: seq<ColumnSort>, rowSelection: map<string, bool>, pagination: Pagination)
    ensures HasActiveFilters(state.(sorting := sorting, rowSelection := rowSelection, pagination := pagination))
        == HasActiveFilters(state)
  {
  }
}
