/**
 * The state logic of the issue table component (src/components/IssuesTable.jsx):
 * the global search predicate, the filter option lists, the filter, grouping and
 * sort controls, the row-click and close actions of the detail view, and the
 * effect that copies the component's view state into the persisted table state.
 *
 * Row derivation itself (filtering, sorting, grouping, expanding, paging) happens
 * inside the table library and is not part of this module.
 */
module IssuesTable {
  import opened Wrappers
  import opened AsciiText
  import opened Issues
  import opened Store

  // ---------------------------------------------------------------------------
  // Global search
  // ---------------------------------------------------------------------------

  /** `v?.toLowerCase().includes(query)`: an absent field never matches. */
  predicate FieldIncludes(v: Value, loweredQuery: string)
  {
    v.Str? && Includes(ToLower(v.s), loweredQuery)
  }

  /** `q` occurs in `s` at offset `k` when letter case is ignored. */
  ghost predicate MatchesAt(s: string, q: string, k: int)
  {
    0 <= k && k + |q| <= |s| && forall i :: 0 <= i < |q| ==> LowerChar(s[k + i]) == LowerChar(q[i])
  }

  /** Reference meaning of a case-insensitive substring search. */
  ghost predicate ContainsIgnoringCase(s: string, q: string)
  {
    exists k :: MatchesAt(s, q, k)
  }

  lemma MatchesAtIffOccurs(s: string, q: string, k: int)
    requires 0 <= k && k + |q| <= |s|
    ensures MatchesAt(s, q, k) <==> OccursAt(ToLower(s), ToLower(q), k)
  {
    var window, lowered := ToLower(s)[k..k + |q|], ToLower(q);
    if MatchesAt(s, q, k) {
      forall i | 0 <= i < |q| ensures window[i] == lowered[i] {
      }
      assert window == lowered;
    }
    if OccursAt(ToLower(s), ToLower(q), k) {
      forall i | 0 <= i < |q| ensures LowerChar(s[k + i]) == LowerChar(q[i]) {
        assert window[i] == lowered[i];
      }
    }
  }

  /** Searching the lower-cased string for the lower-cased query is a case-insensitive search. */
  lemma IncludesLowerIff(s: string, q: string)
    ensures Includes(ToLower(s), ToLower(q)) <==> ContainsIgnoringCase(s, q)
  {
    IncludesIffOccurs(ToLower(s), ToLower(q));
    if Includes(ToLower(s), ToLower(q)) {
      var k :| OccursAt(ToLower(s), ToLower(q), k);
      MatchesAtIffOccurs(s, q, k);
    }
    if ContainsIgnoringCase(s, q) {
      var k :| MatchesAt(s, q, k);
      MatchesAtIffOccurs(s, q, k);
    }
  }

  /** One field passes the search exactly when it is present and contains the query, ignoring case. */
  lemma FieldIncludesIff(v: Value, q: string)
    ensures FieldIncludes(v, ToLower(q)) <==> v.Str? && ContainsIgnoringCase(v.s, q)
  {
    if v.Str? {
      IncludesLowerIff(v.s, q);
    }
  }

  /**
   * `globalFilterFn(row, columnId, filterValue)`: a record passes when its title or
   * its identifier contains the query, ignoring case. The column id plays no part.
   */
  function GlobalFilterFn(row: Issue, columnId: string, filterValue: string): (passes: bool)
    ensures passes <==>
      (row.title.Str? && ContainsIgnoringCase(row.title.s, filterValue)) ||
      (row.identifier.Str? && ContainsIgnoringCase(row.identifier.s, filterValue))
  {
    FieldIncludesIff(row.title, filterValue);
    FieldIncludesIff(row.identifier, filterValue);
    var searchValue := ToLower(filterValue);
    FieldIncludes(row.title, searchValue) || FieldIncludes(row.identifier, searchValue)
  }

  /** Re-casing the query, or asking on behalf of another column, gives the same verdict. */
  lemma GlobalFilterIgnoresCase(row: Issue, columnId: string, otherColumnId: string, query: string, recased: string)
    requires SameIgnoringCase(query, recased)
    ensures GlobalFilterFn(row, columnId, query) == GlobalFilterFn(row, otherColumnId, recased)
  {
    ToLowerSameIgnoringCase(query, recased);
  }

  /**
   * The empty query passes exactly the records whose title or identifier is present.
   * This is the predicate alone: the table library does not apply a global filter
   * whose value is the empty string, so with an empty search box every record shows.
   */
  lemma EmptyQueryPassesPresentRecords(row: Issue, columnId: string)
    ensures GlobalFilterFn(row, columnId, "") <==> row.title.Str? || row.identifier.Str?
  {
    assert ToLower("") == "";
    if row.title.Str? { IncludesEmpty(ToLower(row.title.s)); }
    if row.identifier.Str? { IncludesEmpty(ToLower(row.identifier.s)); }
  }

  /**
   * Shortening the query never loses a match: a record that passes for `query`
   * passes for every substring of it (in particular for each prefix, as when the
   * last characters are deleted).
   */
  lemma GlobalFilterShorterQuery(row: Issue, columnId: string, query: string, shorter: string)
    requires Includes(query, shorter)
    requires GlobalFilterFn(row, columnId, query)
    ensures GlobalFilterFn(row, columnId, shorter)
  {
    IncludesToLower(query, shorter);
    if FieldIncludes(row.title, ToLower(query)) {
      IncludesTransitive(ToLower(row.title.s), ToLower(query), ToLower(shorter));
    } else {
      IncludesTransitive(ToLower(row.identifier.s), ToLower(query), ToLower(shorter));
    }
  }

  /** Deleting characters from the end of the query never loses a match. */
  lemma GlobalFilterPrefixQuery(row: Issue, columnId: string, query: string, n: nat)
    requires n <= |query|
    requires GlobalFilterFn(row, columnId, query)
    ensures GlobalFilterFn(row, columnId, query[..n])
  {
    PrefixIncluded(query, n);
    GlobalFilterShorterQuery(row, columnId, query, query[..n]);
  }

  // ---------------------------------------------------------------------------
  // Filter option lists
  // ---------------------------------------------------------------------------

  /** `data.map(item => item[key])`. */
  function ColumnValues(data: seq<Issue>, key: Field): (values: seq<Value>)
    ensures |values| == |data|
    ensures forall i :: 0 <= i < |data| ==> values[i] == Get(data[i], key)
  {
    seq(|data|, i requires 0 <= i < |data| => Get(data[i], key))
  }

  /** The index of the first occurrence of `v` in `xs`, or `|xs|` when it does not occur. */
  function FirstIndex(xs: seq<Value>, v: Value): (k: nat)
    ensures k <= |xs|
    ensures v in xs <==> k < |xs|
    ensures k < |xs| ==> xs[k] == v && v !in xs[..k]
  {
    if v !in xs then |xs|
    else if v in xs[..|xs| - 1] then
      var k := FirstIndex(xs[..|xs| - 1], v);
      assert xs[..|xs| - 1][..k] == xs[..k];
      k
    else
      assert xs == xs[..|xs| - 1] + [xs[|xs| - 1]];
      |xs| - 1
  }

  /** The values of `r` appear in the order in which `xs` first shows them. */
  ghost predicate FirstSeenOrder(xs: seq<Value>, r: seq<Value>)
  {
    forall i, j :: 0 <= i < j < |r| ==> FirstIndex(xs, r[i]) < FirstIndex(xs, r[j])
  }

  ghost predicate NoDuplicates(r: seq<Value>)
  {
    forall i, j :: 0 <= i < j < |r| ==> r[i] != r[j]
  }

  /**
   * What a filter drop-down lists for the column values `xs`: every truthy value
   * that occurs, nothing else, in first-seen order.
   */
  ghost predicate IsOptionList(xs: seq<Value>, r: seq<Value>)
  {
    && (forall i :: 0 <= i < |r| ==> r[i].Truthy())
    && (forall v :: v in r <==> v in xs && v.Truthy())
    && FirstSeenOrder(xs, r)
  }

  /** `Array.from(new Set(xs))`: each value once, where it first occurs. */
  function Distinct(xs: seq<Value>): (d: seq<Value>)
    ensures forall v :: v in d <==> v in xs
    ensures FirstSeenOrder(xs, d)
  {
    if xs == [] then []
    else
      var init, last := xs[..|xs| - 1], xs[|xs| - 1];
      var d := Distinct(init);
      assert xs == init + [last];
      assert forall v :: v in init ==> FirstIndex(xs, v) == FirstIndex(init, v);
      if last in d then d else d + [last]
  }

  /** `.filter(Boolean)`: the truthy values, in order. */
  function KeepTruthy(xs: seq<Value>): (r: seq<Value>)
    ensures forall v :: v in r <==> v in xs && v.Truthy()
  {
    if xs == [] then []
    else if xs[0].Truthy() then [xs[0]] + KeepTruthy(xs[1..])
    else KeepTruthy(xs[1..])
  }

  /** Dropping values keeps the first-seen order of those that remain. */
  lemma {:induction false} KeepTruthyKeepsOrder(ys: seq<Value>, xs: seq<Value>)
    requires FirstSeenOrder(ys, xs)
    ensures FirstSeenOrder(ys, KeepTruthy(xs))
    decreases |xs|
  {
    if xs != [] {
      var tail := KeepTruthy(xs[1..]);
      assert FirstSeenOrder(ys, xs[1..]) by {
        forall i, j | 0 <= i < j < |xs[1..]|
          ensures FirstIndex(ys, xs[1..][i]) < FirstIndex(ys, xs[1..][j])
        {
          assert xs[1..][i] == xs[i + 1] && xs[1..][j] == xs[j + 1];
        }
      }
      KeepTruthyKeepsOrder(ys, xs[1..]);
      if xs[0].Truthy() {
        var r := KeepTruthy(xs);
        assert r == [xs[0]] + tail;
        forall i, j | 0 <= i < j < |r| ensures FirstIndex(ys, r[i]) < FirstIndex(ys, r[j]) {
          if i == 0 {
            assert r[j] == tail[j - 1] && tail[j - 1] in xs[1..];
            var m :| 0 <= m < |xs[1..]| && xs[1..][m] == r[j];
            assert xs[m + 1] == r[j];
          } else {
            assert r[i] == tail[i - 1] && r[j] == tail[j - 1];
          }
        }
      }
    }
  }

  /** A sequence in strict first-seen order holds no value twice. */
  lemma FirstSeenOrderHasNoDuplicates(xs: seq<Value>, r: seq<Value>)
    requires FirstSeenOrder(xs, r)
    ensures NoDuplicates(r)
  {
  }

  /**
   * `getUniqueValues(key)`: the option list of one filter drop-down, computed
   * from the whole `data` array.
   */
  function UniqueValues(data: seq<Issue>, key: Field): (options: seq<Value>)
    ensures IsOptionList(ColumnValues(data, key), options)
    ensures NoDuplicates(options)
  {
    var xs := ColumnValues(data, key);
    KeepTruthyKeepsOrder(xs, Distinct(xs));
    FirstSeenOrderHasNoDuplicates(xs, KeepTruthy(Distinct(xs)));
    KeepTruthy(Distinct(xs))
  }

  /** The head of a sequence in first-seen order does not occur again in its tail. */
  lemma FirstSeenOrderTail(xs: seq<Value>, a: seq<Value>)
    requires FirstSeenOrder(xs, a) && a != []
    ensures FirstSeenOrder(xs, a[1..])
    ensures forall v :: v in a[1..] <==> v in a && v != a[0]
  {
    forall v | v in a && v != a[0] ensures v in a[1..] {
      var k :| 0 <= k < |a| && a[k] == v;
      assert a[1..][k - 1] == v;
    }
    forall i, j | 0 <= i < j < |a[1..]| ensures FirstIndex(xs, a[1..][i]) < FirstIndex(xs, a[1..][j]) {
      assert a[1..][i] == a[i + 1] && a[1..][j] == a[j + 1];
    }
  }

  lemma EmptyIffNoMembers(s: seq<Value>)
    ensures s == [] <==> forall v :: v !in s
  {
    if s != [] {
      assert s[0] in s;
    }
  }

  /** Two sequences in first-seen order with the same values are the same sequence. */
  lemma {:induction false} FirstSeenOrderDeterminesSequence(xs: seq<Value>, a: seq<Value>, b: seq<Value>)
    requires FirstSeenOrder(xs, a) && FirstSeenOrder(xs, b)
    requires forall v :: v in a <==> v in b
    ensures a == b
    decreases |a|
  {
    if a == [] || b == [] {
      EmptyIffNoMembers(a);
      EmptyIffNoMembers(b);
    } else {
      assert a[0] in a && b[0] in b;
      var j :| 0 <= j < |b| && b[j] == a[0];
      var i :| 0 <= i < |a| && a[i] == b[0];
      assert FirstIndex(xs, a[0]) <= FirstIndex(xs, b[0]);
      assert FirstIndex(xs, b[0]) <= FirstIndex(xs, a[0]);
      assert i == 0;
      FirstSeenOrderTail(xs, a);
      FirstSeenOrderTail(xs, b);
      FirstSeenOrderDeterminesSequence(xs, a[1..], b[1..]);
      assert a == [a[0]] + a[1..] && b == [b[0]] + b[1..];
    }
  }

  /** The option-list description leaves exactly one answer, so `UniqueValues` is that answer. */
  lemma OptionListIsUnique(data: seq<Issue>, key: Field, r: seq<Value>)
    requires IsOptionList(ColumnValues(data, key), r)
    ensures r == UniqueValues(data, key)
  {
    var xs := ColumnValues(data, key);
    FirstSeenOrderDeterminesSequence(xs, r, UniqueValues(data, key));
  }

  // ---------------------------------------------------------------------------
  // Column filters
  // ---------------------------------------------------------------------------

  /** The drop-down entry that stands for "no filter on this column". */
  const ShowAll: string := "all"

  /**
   * The value a filter drop-down hands to the column: "all" becomes the empty
   * string, every other choice is handed over as it is.
   */
  function FilterValueFor(choice: string): (value: string)
    ensures value == "" <==> choice == ShowAll || choice == ""
    ensures value != "" ==> value == choice
  {
    if choice == ShowAll then "" else choice
  }

  /** `column.getFilterValue()`: the value of the first entry for `id`, if any. */
  function GetFilterValue(filters: seq<ColumnFilter>, id: string): Option<string>
  {
    if filters == [] then None
    else if filters[0].id == id then Some(filters[0].value)
    else GetFilterValue(filters[1..], id)
  }

  /**
   * What a filter drop-down shows: `getFilterValue() ?? ""`. A non-empty display
   * is the column's filter value, a column with an entry shows that entry's value,
   * and a column with no entry shows the placeholder.
   */
  function DisplayedFilterValue(filters: seq<ColumnFilter>, id: string): (shown: string)
    ensures shown != "" ==> GetFilterValue(filters, id) == Some(shown)
    ensures GetFilterValue(filters, id).Some? ==> shown == GetFilterValue(filters, id).value
    ensures GetFilterValue(filters, id) == None ==> shown == ""
  {
    match GetFilterValue(filters, id)
    case Some(v) => v
    case None => ""
  }

  /** `old.filter(d => d.id !== id)`. */
  function RemoveFilter(filters: seq<ColumnFilter>, id: string): (r: seq<ColumnFilter>)
    ensures GetFilterValue(r, id) == None
    ensures forall other :: other != id ==> GetFilterValue(r, other) == GetFilterValue(filters, other)
  {
    if filters == [] then []
    else if filters[0].id == id then RemoveFilter(filters[1..], id)
    else [filters[0]] + RemoveFilter(filters[1..], id)
  }

  /** `old.map(d => d.id === id ? {id, value} : d)`. */
  function ReplaceFilter(filters: seq<ColumnFilter>, id: string, value: string): (r: seq<ColumnFilter>)
    ensures GetFilterValue(filters, id).Some? ==> GetFilterValue(r, id) == Some(value)
    ensures forall other :: other != id ==> GetFilterValue(r, other) == GetFilterValue(filters, other)
  {
    if filters == [] then []
    else
      var head := if filters[0].id == id then ColumnFilter(id, value) else filters[0];
      [head] + ReplaceFilter(filters[1..], id, value)
  }

  /** Looking up a key after appending one entry. */
  lemma {:induction false} GetFilterValueAppend(filters: seq<ColumnFilter>, entry: ColumnFilter, id: string)
    ensures GetFilterValue(filters + [entry], id) ==
      if GetFilterValue(filters, id).Some? then GetFilterValue(filters, id)
      else if entry.id == id then Some(entry.value)
      else None
  {
    if filters != [] {
      assert (filters + [entry])[1..] == filters[1..] + [entry];
      GetFilterValueAppend(filters[1..], entry, id);
    }
  }

  /**
   * `column.setFilterValue(value)` as the table library applies it: an empty
   * string removes the column's entry; otherwise the entry is replaced, or
   * appended when the column has none. Other columns keep their values.
   */
  function SetFilterValue(filters: seq<ColumnFilter>, id: string, value: string): (r: seq<ColumnFilter>)
    ensures GetFilterValue(r, id) == if value == "" then None else Some(value)
    ensures forall other :: other != id ==> GetFilterValue(r, other) == GetFilterValue(filters, other)
  {
    if value == "" then RemoveFilter(filters, id)
    else if GetFilterValue(filters, id).Some? then ReplaceFilter(filters, id, value)
    else
      var entry := ColumnFilter(id, value);
      GetFilterValueAppend(filters, entry, id);
      forall other | other != id ensures GetFilterValue(filters + [entry], other) == GetFilterValue(filters, other) {
        GetFilterValueAppend(filters, entry, other);
      }
      filters + [entry]
  }

  /**
   * Choosing an entry of a filter drop-down: the drop-down then shows the value
   * chosen, or its placeholder (the empty string) after "all", which leaves the
   * column with no filter at all. No other column's filter changes.
   */
  lemma {:induction false} FilterChoiceRoundTrip(filters: seq<ColumnFilter>, column: Field, choice: string)
    ensures var r := SetFilterValue(filters, ColumnId(column), FilterValueFor(choice));
      && DisplayedFilterValue(r, ColumnId(column)) == (if choice == ShowAll then "" else choice)
      && (choice == ShowAll ==> GetFilterValue(r, ColumnId(column)) == None)
      && forall other :: other != ColumnId(column) ==> GetFilterValue(r, other) == GetFilterValue(filters, other)
  {
  }

  // ---------------------------------------------------------------------------
  // Grouping
  // ---------------------------------------------------------------------------

  /** The "Group by" entry that stands for no grouping. */
  const NoGrouping: string := "none"

  /** What the "Group by" drop-down shows: the first grouping key, or "none". */
  function GroupingDisplay(grouping: seq<string>): (shown: string)
    ensures grouping == [] ==> shown == NoGrouping
    ensures grouping != [] ==> shown == grouping[0]
  {
    if |grouping| > 0 then grouping[0] else NoGrouping
  }

  /**
   * The grouping the "Group by" drop-down sets: "none" clears it, any other key
   * replaces it by that one key. The previous grouping plays no part, so it never
   * grows past one key, and the drop-down then shows the entry chosen.
   */
  function GroupingFor(value: string): (grouping: seq<string>)
    ensures |grouping| <= 1
    ensures GroupingDisplay(grouping) == value
    ensures value == NoGrouping <==> grouping == []
  {
    if value == NoGrouping then [] else [value]
  }

  /**
   * Choosing the entry the drop-down shows gives back the grouping exactly when it
   * is one the drop-down can produce: no key, or one key other than "none".
   */
  lemma GroupingDisplayRoundTrip(grouping: seq<string>)
    ensures GroupingFor(GroupingDisplay(grouping)) == grouping <==>
      |grouping| <= 1 && (grouping == [] || grouping[0] != NoGrouping)
  {
    if |grouping| == 1 && grouping[0] != NoGrouping {
      assert [grouping[0]] == grouping;
    }
  }

  // ---------------------------------------------------------------------------
  // Sorting
  // ---------------------------------------------------------------------------

  /** `column.getIsSorted()`: `false`, "asc" or "desc". */
  datatype SortDirection = Unsorted | Asc | Desc

  /** The direction of the first sort entry for `id`. */
  function IsSorted(sorting: seq<ColumnSort>, id: string): SortDirection
  {
    if sorting == [] then Unsorted
    else if sorting[0].id == id then (if sorting[0].desc then Desc else Asc)
    else IsSorted(sorting[1..], id)
  }

  /** The argument a header click passes to `toggleSorting`: descending exactly when now ascending. */
  function ToggleDesc(current: SortDirection): bool
  {
    current == Asc
  }

  /**
   * One click on the header of column `id`: the table library, given an explicit
   * direction and no multi-sort, makes that column the only sort key.
   */
  function HeaderClick(sorting: seq<ColumnSort>, id: string): (next: seq<ColumnSort>)
    ensures |next| == 1 && next[0].id == id
    ensures IsSorted(next, id) == if IsSorted(sorting, id) == Asc then Desc else Asc
  {
    [ColumnSort(id, ToggleDesc(IsSorted(sorting, id)))]
  }

  /** The sorting after `n` clicks on the header of column `id`. */
  function ClickTimes(sorting: seq<ColumnSort>, id: string, n: nat): seq<ColumnSort>
  {
    if n == 0 then sorting else HeaderClick(ClickTimes(sorting, id, n - 1), id)
  }

  /**
   * Repeated clicks on one header alternate between ascending and descending and
   * never clear the sort: from an unsorted or descending column the odd clicks
   * give ascending; from an ascending column they give descending.
   */
  lemma {:induction false} RepeatedClicksAlternate(sorting: seq<ColumnSort>, id: string, n: nat)
    requires n >= 1
    ensures IsSorted(ClickTimes(sorting, id, n), id) ==
      if (n % 2 == 1) == (IsSorted(sorting, id) != Asc) then Asc else Desc
  {
    if n > 1 {
      RepeatedClicksAlternate(sorting, id, n - 1);
    }
  }

  /** From an unsorted column, the third click leaves it ascending, not unsorted. */
  lemma ThirdClickKeepsSort(id: string)
    ensures IsSorted(ClickTimes([], id, 3), id) == Asc
  {
    RepeatedClicksAlternate([], id, 3);
  }

  // ---------------------------------------------------------------------------
  // Pagination options
  // ---------------------------------------------------------------------------

  /** The page sizes the "Rows per page" drop-down offers. */
  const PageSizeOptions: seq<int> := [10, 20, 30, 40, 50]

  /** The stored default page size is not one of the sizes the drop-down offers. */
  lemma DefaultPageSizeNotOffered()
    ensures DefaultTableState().pagination.pageSize !in PageSizeOptions
  {
  }

  // ---------------------------------------------------------------------------
  // The component
  // ---------------------------------------------------------------------------

  /**
   * A rendered row as a click sees it: a group header row (its key, value and
   * sub-rows play no part in the click), or the row of one record.
   */
  datatype Row = GroupRow | RecordRow(original: Issue)

  /**
   * One mounted issue table: the records it was given, the three store atoms it
   * uses, and its local view state.
   */
  class Component {
    const data: seq<Issue>

    // store atoms
    var selectedIssue: Option<Issue>
    var detailViewOpen: bool
    var tableState: TableState

    // local view state
    var sorting: seq<ColumnSort>
    var columnFilters: seq<ColumnFilter>
    var columnVisibility: map<string, bool>
    var rowSelection: map<string, bool>
    var globalFilter: string
    var grouping: seq<string>
    var expanded: map<string, bool>

    /**
     * The table state the sync effect writes: the local state with the stored
     * pagination. Visibility and expansion are not part of it, and its filters
     * are active exactly when the local search, column filters or grouping are.
     */
    function Snapshot(): (snapshot: TableState)
      reads this
      ensures snapshot.globalFilter == globalFilter && snapshot.columnFilters == columnFilters
      ensures snapshot.sorting == sorting && snapshot.grouping == grouping && snapshot.rowSelection == rowSelection
      ensures snapshot.pagination == tableState.pagination
      ensures HasActiveFilters(snapshot) <==> globalFilter != "" || columnFilters != [] || grouping != []
    {
      TableState(globalFilter, columnFilters, sorting, grouping, rowSelection, tableState.pagination)
    }

    /** The stored table state mirrors the local view state. */
    ghost predicate Synced()
      reads this
    {
      tableState == Snapshot()
    }

    /**
     * The states the controls can reach: the header click leaves one sort key and
     * the "Group by" drop-down at most one grouping key, locally and in storage.
     */
    ghost predicate Reachable()
      reads this
    {
      |sorting| <= 1 && |grouping| <= 1 && |tableState.sorting| <= 1 && |tableState.grouping| <= 1
    }

    /**
     * First mount in a session: the local view state is read from the stored
     * table state, visibility and expansion start empty, no issue is selected and
     * the detail view is closed. The stored state already mirrors the local one,
     * so the effect's first run writes back what was read.
     */
    constructor (data: seq<Issue>, stored: TableState)
      ensures this.data == data && tableState == stored
      ensures globalFilter == stored.globalFilter && columnFilters == stored.columnFilters
      ensures sorting == stored.sorting && grouping == stored.grouping && rowSelection == stored.rowSelection
      ensures columnVisibility == map[] && expanded == map[]
      ensures selectedIssue == InitialSelectedIssue && detailViewOpen == InitialDetailViewOpen
      ensures selectedIssue == None && !detailViewOpen
      ensures Synced()
      ensures |stored.sorting| <= 1 && |stored.grouping| <= 1 ==> Reachable()
    {
      this.data := data;
      selectedIssue := InitialSelectedIssue;
      detailViewOpen := InitialDetailViewOpen;
      tableState := stored;
      sorting := stored.sorting;
      columnFilters := stored.columnFilters;
      columnVisibility := map[];
      rowSelection := stored.rowSelection;
      globalFilter := stored.globalFilter;
      grouping := stored.grouping;
      expanded := map[];
    }

    /**
     * The sync effect: overwrite the stored table state with the local global
     * filter, column filters, sorting, grouping and row selection, carrying the
     * stored pagination over unchanged. Visibility and expansion are not stored.
     */
    method SyncTableState()
      modifies this`tableState
      ensures tableState == old(Snapshot())
      ensures tableState.pagination == old(tableState.pagination)
      ensures Synced()
      ensures HasActiveFilters(tableState) <==> globalFilter != "" || columnFilters != [] || grouping != []
      ensures old(Reachable()) ==> Reachable()
    {
      tableState := TableState(globalFilter, columnFilters, sorting, grouping, rowSelection, tableState.pagination);
    }

    /** The table library reports a new global filter. */
    method SetGlobalFilter(filterValue: string)
      modifies this`globalFilter
      ensures globalFilter == filterValue
      ensures old(Reachable()) ==> Reachable()
    {
      globalFilter := filterValue;
    }

    /** A choice in the filter drop-down of `column`. */
    method ChooseColumnFilter(column: Field, choice: string)
      modifies this`columnFilters
      ensures columnFilters == SetFilterValue(old(columnFilters), ColumnId(column), FilterValueFor(choice))
      ensures DisplayedFilterValue(columnFilters, ColumnId(column)) == (if choice == ShowAll then "" else choice)
      ensures choice == ShowAll ==> GetFilterValue(columnFilters, ColumnId(column)) == None
      ensures forall other :: other != ColumnId(column) ==>
        GetFilterValue(columnFilters, other) == GetFilterValue(old(columnFilters), other)
      ensures old(Reachable()) ==> Reachable()
    {
      FilterChoiceRoundTrip(columnFilters, column, choice);
      columnFilters := SetFilterValue(columnFilters, ColumnId(column), FilterValueFor(choice));
    }

    /** A choice in the "Group by" drop-down. */
    method ChooseGrouping(value: string)
      modifies this`grouping
      ensures grouping == GroupingFor(value)
      ensures |grouping| <= 1 && GroupingDisplay(grouping) == value
      ensures old(Reachable()) ==> Reachable()
    {
      grouping := GroupingFor(value);
    }

    /** A click on the header of column `columnId`. */
    method ClickHeader(columnId: string)
      modifies this`sorting
      ensures sorting == HeaderClick(old(sorting), columnId)
      ensures IsSorted(sorting, columnId) == if old(IsSorted(sorting, columnId)) == Asc then Desc else Asc
      ensures old(Reachable()) ==> Reachable()
    {
      sorting := HeaderClick(sorting, columnId);
    }

    /** `handleRowClick(issue)`: select the issue and open the detail view. */
    method HandleRowClick(issue: Issue)
      modifies this`selectedIssue, this`detailViewOpen
      ensures selectedIssue == Some(issue) && detailViewOpen
    {
      selectedIssue := Some(issue);
      detailViewOpen := true;
    }

    /** A click on a rendered row: a group row is ignored, a record row opens its record. */
    method ClickRow(row: Row)
      modifies this`selectedIssue, this`detailViewOpen
      ensures row.GroupRow? ==> selectedIssue == old(selectedIssue) && detailViewOpen == old(detailViewOpen)
      ensures row.RecordRow? ==> selectedIssue == Some(row.original) && detailViewOpen
    {
      if !row.GroupRow? {
        HandleRowClick(row.original);
      }
    }

    /** The dialog reports that it opens or closes. */
    method SetDetailViewOpen(open: bool)
      modifies this`detailViewOpen
      ensures detailViewOpen == open
    {
      detailViewOpen := open;
    }

    /** The "Close" button: the detail view closes and the selected issue stays as it was. */
    method Close()
      modifies this`detailViewOpen
      ensures !detailViewOpen && selectedIssue == old(selectedIssue)
    {
      SetDetailViewOpen(false);
    }

    /**
     * The option lists of the five filter drop-downs. They depend on the records
     * alone: no filter, sort, grouping or selection state enters them.
     */
    method FilterOptions() returns (status: seq<Value>, project: seq<Value>, priority: seq<Value>,
                                    assignee: seq<Value>, cycle: seq<Value>)
      ensures IsOptionList(ColumnValues(data, Status), status)
      ensures IsOptionList(ColumnValues(data, Project), project)
      ensures IsOptionList(ColumnValues(data, Priority), priority)
      ensures IsOptionList(ColumnValues(data, Assignee), assignee)
      ensures IsOptionList(ColumnValues(data, Cycle), cycle)
    {
      status := UniqueValues(data, Status);
      project := UniqueValues(data, Project);
      priority := UniqueValues(data, Priority);
      assignee := UniqueValues(data, Assignee);
      cycle := UniqueValues(data, Cycle);
    }
  }
}
