/**
 * The rankings table (website/app/sections/rankings.tsx): which column it
 * is sorted by and in which direction, the language and the search text it
 * is filtered by, and which rows are expanded. The component's state is a
 * class; each state setter the handlers call is a method. The derived
 * lists (languages, the sorted copy, the filtered rows) are computed from
 * that state.
 */
module Rankings {
  import opened Wrappers
  import opened JsCollections
  import opened DashboardData

  /** The three sortable columns. */
  datatype SortKey = AvgResponseTime | MaxP95 | AvgRPS

  datatype Direction = Asc | Desc

  datatype SortConfig = SortConfig(key: SortKey, direction: Direction)

  /** `framework[key]` */
  function KeyValue(f: Framework, key: SortKey): real {
    match key
    case AvgResponseTime => f.avgResponseTime
    case MaxP95 => f.maxP95
    case AvgRPS => f.avgRPS
  }

  /**
   * requestSort: the column becomes the key; the direction is ascending
   * exactly when that column was already sorted descending, else descending.
   */
  function NextSort(c: SortConfig, key: SortKey): (r: SortConfig)
    ensures r.key == key
    ensures r.direction == Asc <==> c.key == key && c.direction == Desc
  {
    SortConfig(key, if c.key == key && c.direction == Desc then Asc else Desc)
  }

  /** Clicking the same column twice from any state ends descending then ascending: the toggle cycles. */
  lemma SortCycles(c: SortConfig, key: SortKey)
    ensures NextSort(c, key).direction == Desc || c == SortConfig(key, Desc)
    ensures NextSort(NextSort(NextSort(c, key), key), key) == NextSort(c, key)
  {
  }

  /** getSortIndicator: nothing on an inactive column, an up arrow when ascending, a down arrow when descending. */
  function SortIndicator(c: SortConfig, key: SortKey): (r: Option<string>)
    ensures r.None? <==> c.key != key
    ensures c.key == key && c.direction == Asc ==> r == Some("\U{2191}")
    ensures c.key == key && c.direction == Desc ==> r == Some("\U{2193}")
  {
    if c.key != key then None
    else if c.direction == Asc then Some("\U{2191}") else Some("\U{2193}")
  }

  /** `expandedRows[rowId] || false` */
  predicate Expanded(rows: map<string, bool>, id: string) {
    id in rows && rows[id]
  }

  /** toggleRowExpansion applied to a map: id's flag negated (absent counts as false), every other entry kept. */
  function Toggle(rows: map<string, bool>, id: string): (r: map<string, bool>)
    ensures Expanded(r, id) <==> !Expanded(rows, id)
    ensures r.Keys == rows.Keys + {id}
    ensures forall other | other in rows && other != id :: r[other] == rows[other]
  {
    rows[id := !Expanded(rows, id)]
  }

  /** Toggling twice restores what each row shows. */
  lemma ToggleTwice(rows: map<string, bool>, id: string, other: string)
    ensures Expanded(Toggle(Toggle(rows, id), id), other) <==> Expanded(rows, other)
  {
  }

  /** The id of a table row: `${framework}-${language}`. */
  function RowId(f: Framework): string {
    f.framework + "-" + f.language
  }

  /** `a` may stand before `b` in the sorted copy. */
  predicate Before(c: SortConfig, a: Framework, b: Framework) {
    if c.direction == Asc then KeyValue(a, c.key) <= KeyValue(b, c.key)
    else KeyValue(a, c.key) >= KeyValue(b, c.key)
  }

  predicate SortedBy(c: SortConfig, s: seq<Framework>) {
    forall p, q | 0 <= p < q < |s| :: Before(c, s[p], s[q])
  }

  /** The part lo..hi of the array is in order. */
  predicate SortedRange(c: SortConfig, a: array<Framework>, lo: int, hi: int)
    reads a
    requires 0 <= lo <= hi <= a.Length
  {
    forall p, q | lo <= p < q < hi :: Before(c, a[p], a[q])
  }

  /** Exchange a[j - 1] and a[j]. */
  method Swap(a: array<Framework>, j: int)
    requires 0 < j < a.Length
    modifies a
    ensures a[j - 1] == old(a[j]) && a[j] == old(a[j - 1])
    ensures forall k | 0 <= k < a.Length && k != j - 1 && k != j :: a[k] == old(a[k])
    ensures multiset(a[..]) == multiset(old(a[..]))
  {
    a[j - 1], a[j] := a[j], a[j - 1];
  }

  /** One pass of the sort: move a[i] left past every element that must come after it. */
  method InsertLast(a: array<Framework>, i: int, c: SortConfig)
    requires 0 < i < a.Length
    requires SortedRange(c, a, 0, i)
    modifies a
    ensures SortedRange(c, a, 0, i + 1)
    ensures multiset(a[..]) == multiset(old(a[..]))
    ensures forall k | i < k < a.Length :: a[k] == old(a[k])
  {
    var j := i;
    while j > 0 && !Before(c, a[j - 1], a[j])
      invariant 0 <= j <= i
      invariant forall p, q | 0 <= p < q <= i && p != j && q != j :: Before(c, a[p], a[q])
      invariant forall q | j < q <= i :: Before(c, a[j], a[q])
      invariant multiset(a[..]) == multiset(old(a[..]))
      invariant forall k | i < k < a.Length :: a[k] == old(a[k])
      decreases j
    {
      Swap(a, j);
      j := j - 1;
    }
  }

  /**
   * sortedFrameworks: `[...allFrameworks].sort(comparator)`. The copy is a
   * new array, sorted in place by the comparator for the active column and
   * direction; the list it was copied from is untouched.
   */
  method SortedFrameworks(all: seq<Framework>, c: SortConfig) returns (a: array<Framework>)
    ensures fresh(a)
    ensures SortedBy(c, a[..])
    ensures multiset(a[..]) == multiset(all)
  {
    a := new Framework[|all|](k requires 0 <= k < |all| => all[k]);
    assert a[..] == all;
    if a.Length < 2 {
      return;
    }
    for i := 1 to a.Length
      invariant SortedRange(c, a, 0, i)
      invariant multiset(a[..]) == multiset(all)
    {
      InsertLast(a, i, c);
    }
  }

  /**
   * The row filter: an empty query matches everything, otherwise the query
   * must occur, ignoring ASCII case, in the framework's name, its language
   * or its description; and the selected language must be 'all' or the
   * row's language.
   */
  predicate Matches(f: Framework, query: string, selectedLanguage: string) {
    && (query == ""
        || Includes(Lower(f.framework), Lower(query))
        || Includes(Lower(f.language), Lower(query))
        || Includes(Lower(f.description), Lower(query)))
    && (selectedLanguage == "all" || f.language == selectedLanguage)
  }

  /** filteredFrameworks: the rows that match, in their sorted order. */
  function Filter(s: seq<Framework>, query: string, selectedLanguage: string): (r: seq<Framework>)
    ensures forall i | 0 <= i < |r| :: Matches(r[i], query, selectedLanguage)
    ensures |r| <= |s|
    decreases |s|
  {
    if s == [] then []
    else
      var rest := Filter(s[1..], query, selectedLanguage);
      if Matches(s[0], query, selectedLanguage) then [s[0]] + rest else rest
  }

  /** Filtering keeps order: the rows of a + b are those of a followed by those of b; a row is kept or dropped by Matches alone. */
  lemma {:induction false} FilterConcat(a: seq<Framework>, b: seq<Framework>, query: string, selectedLanguage: string)
    ensures Filter(a + b, query, selectedLanguage) == Filter(a, query, selectedLanguage) + Filter(b, query, selectedLanguage)
    decreases |a|
  {
    if a != [] {
      assert (a + b)[0] == a[0];
      assert (a + b)[1..] == a[1..] + b;
      FilterConcat(a[1..], b, query, selectedLanguage);
      var fa, fb := Filter(a[1..], query, selectedLanguage), Filter(b, query, selectedLanguage);
      assert a + b != [];
      if Matches(a[0], query, selectedLanguage) {
        assert Filter(a + b, query, selectedLanguage) == [a[0]] + (fa + fb);
        assert Filter(a, query, selectedLanguage) == [a[0]] + fa;
        assert [a[0]] + fa + fb == [a[0]] + (fa + fb);
      } else {
        assert Filter(a + b, query, selectedLanguage) == fa + fb;
      }
    } else {
      assert a + b == b;
    }
  }

  /** Exactly the matching rows are kept, as many times as they occur. */
  lemma {:induction false} FilterCounts(s: seq<Framework>, query: string, selectedLanguage: string, f: Framework)
    ensures multiset(Filter(s, query, selectedLanguage))[f] == if Matches(f, query, selectedLanguage) then multiset(s)[f] else 0
    decreases |s|
  {
    if s != [] {
      FilterCounts(s[1..], query, selectedLanguage, f);
      assert s == [s[0]] + s[1..];
    }
  }

  /** An empty query with language 'all' shows every row. */
  lemma {:induction false} NoFilterKeepsAll(s: seq<Framework>)
    ensures Filter(s, "", "all") == s
    decreases |s|
  {
    if s != [] {
      NoFilterKeepsAll(s[1..]);
      assert s == [s[0]] + s[1..];
    }
  }

  /** The language buttons: 'all', then each language once, in order of first appearance. */
  function Languages(all: seq<Framework>): (r: seq<string>)
    ensures |r| >= 1 && r[0] == "all"
    ensures forall i | 0 <= i < |all| :: all[i].language in r[1..]
    ensures forall i, j | 1 <= i < j < |r| :: r[i] != r[j]
    ensures InFirstOrder(LanguagesOf(all), r[1..])
  {
    DistinctOrder(LanguagesOf(all));
    ["all"] + Distinct(LanguagesOf(all))
  }

  /** `frameworks.find(f => f.framework.toLowerCase() === query.toLowerCase())`, as a position. */
  function FindByName(frameworks: seq<Framework>, query: string): (r: Option<nat>)
    ensures r.Some? ==> r.value < |frameworks| && Lower(frameworks[r.value].framework) == Lower(query)
    ensures r.Some? ==> forall i | 0 <= i < r.value :: Lower(frameworks[i].framework) != Lower(query)
    ensures r.None? ==> forall i | 0 <= i < |frameworks| :: Lower(frameworks[i].framework) != Lower(query)
    decreases |frameworks|
  {
    if frameworks == [] then None
    else if Lower(frameworks[0].framework) == Lower(query) then Some(0)
    else match FindByName(frameworks[1..], query)
      case None => None
      case Some(k) => Some(k + 1)
  }

  /**
   * The rows expanded after mounting: the row of the first framework named
   * like the `framework` query parameter (ignoring ASCII case) is added as
   * expanded; with no such framework, or an empty or missing parameter,
   * nothing changes.
   */
  function AutoExpand(rows: map<string, bool>, frameworks: seq<Framework>, query: Option<string>): (r: map<string, bool>)
    ensures query.None? || query.value == "" ==> r == rows
    ensures query.Some? && query.value != "" ==>
              match FindByName(frameworks, query.value)
              case None => r == rows
              case Some(k) => r == rows[RowId(frameworks[k]) := true]
  {
    if query.Some? && query.value != "" then
      match FindByName(frameworks, query.value)
      case None => rows
      case Some(k) => rows[RowId(frameworks[k]) := true]
    else rows
  }

  /** The component's state. */
  class RankingsView {
    var sortConfig: SortConfig
    var selectedLanguage: string
    var expandedRows: map<string, bool>
    var allFrameworks: seq<Framework>
    var searchQuery: string

    /** The initial state: by average response time ascending, all languages, nothing expanded, no query, no rows yet. */
    constructor ()
      ensures sortConfig == SortConfig(AvgResponseTime, Asc)
      ensures selectedLanguage == "all" && expandedRows == map[] && allFrameworks == [] && searchQuery == ""
    {
      sortConfig := SortConfig(AvgResponseTime, Asc);
      selectedLanguage := "all";
      expandedRows := map[];
      allFrameworks := [];
      searchQuery := "";
    }

    /**
     * The mount effect: load the frameworks and, when the `framework` query
     * parameter is non-empty, expand the row of the first framework whose
     * name equals it ignoring case.
     */
    method Mount(frameworkQuery: Option<string>)
      requires AllHaveFigures(FrameworkData)
      modifies this`allFrameworks, this`expandedRows
      ensures allFrameworks == AllFrameworks(FrameworkData)
      ensures expandedRows == AutoExpand(old(expandedRows), allFrameworks, frameworkQuery)
    {
      LoadFrameworks();
      ExpandQueried(allFrameworks, frameworkQuery);
    }

    /** `setAllFrameworks(getAllFrameworks())`. */
    method LoadFrameworks()
      requires AllHaveFigures(FrameworkData)
      modifies this`allFrameworks
      ensures allFrameworks == AllFrameworks(FrameworkData)
    {
      allFrameworks := GetAllFrameworks(FrameworkData);
    }

    /** The branch of the mount effect that reads the query parameter. */
    method ExpandQueried(frameworks: seq<Framework>, frameworkQuery: Option<string>)
      modifies this`expandedRows
      ensures expandedRows == AutoExpand(old(expandedRows), frameworks, frameworkQuery)
    {
      if frameworkQuery.Some? && frameworkQuery.value != "" {
        var target := FindByName(frameworks, frameworkQuery.value);
        if target.Some? {
          var rowId := RowId(frameworks[target.value]);
          expandedRows := expandedRows[rowId := true];
        }
      }
    }

    method RequestSort(key: SortKey)
      modifies this
      ensures sortConfig == NextSort(old(sortConfig), key)
      ensures selectedLanguage == old(selectedLanguage) && expandedRows == old(expandedRows)
      ensures allFrameworks == old(allFrameworks) && searchQuery == old(searchQuery)
    {
      var direction := Desc;
      if sortConfig.key == key && sortConfig.direction == Desc {
        direction := Asc;
      }
      sortConfig := SortConfig(key, direction);
    }

    function GetSortIndicator(key: SortKey): (r: Option<string>)
      reads this
      ensures r.None? <==> sortConfig.key != key
      ensures r.Some? ==> r == SortIndicator(sortConfig, key)
    {
      SortIndicator(sortConfig, key)
    }

    method ToggleRowExpansion(id: string)
      modifies this
      ensures expandedRows == Toggle(old(expandedRows), id)
      ensures sortConfig == old(sortConfig) && selectedLanguage == old(selectedLanguage)
      ensures allFrameworks == old(allFrameworks) && searchQuery == old(searchQuery)
    {
      expandedRows := expandedRows[id := !(id in expandedRows && expandedRows[id])];
    }

    method SelectLanguage(language: string)
      modifies this
      ensures selectedLanguage == language
      ensures sortConfig == old(sortConfig) && expandedRows == old(expandedRows)
      ensures allFrameworks == old(allFrameworks) && searchQuery == old(searchQuery)
    {
      selectedLanguage := language;
    }

    method SetSearchQuery(query: string)
      modifies this
      ensures searchQuery == query
      ensures sortConfig == old(sortConfig) && expandedRows == old(expandedRows)
      ensures allFrameworks == old(allFrameworks) && selectedLanguage == old(selectedLanguage)
    {
      searchQuery := query;
    }

    /** The rows the table renders: the sorted copy, filtered. */
    method FilteredFrameworks() returns (rows: seq<Framework>)
      ensures SortedBy(sortConfig, rows)
      ensures forall i | 0 <= i < |rows| :: Matches(rows[i], searchQuery, selectedLanguage)
      ensures forall f :: multiset(rows)[f] == if Matches(f, searchQuery, selectedLanguage) then multiset(allFrameworks)[f] else 0
    {
      var sorted := SortedFrameworks(allFrameworks, sortConfig);
      rows := Filter(sorted[..], searchQuery, selectedLanguage);
      FilterSorted(sorted[..], searchQuery, selectedLanguage, sortConfig);
      forall f {
        FilterCounts(sorted[..], searchQuery, selectedLanguage, f);
      }
    }
  }

  /** Filtering a sorted list leaves it sorted. */
  lemma {:induction false} FilterSorted(s: seq<Framework>, query: string, selectedLanguage: string, c: SortConfig)
    requires SortedBy(c, s)
    ensures SortedBy(c, Filter(s, query, selectedLanguage))
    ensures forall i | 0 <= i < |Filter(s, query, selectedLanguage)| :: Filter(s, query, selectedLanguage)[i] in s
    decreases |s|
  {
    if s != [] {
      assert SortedBy(c, s[1..]);
      FilterSorted(s[1..], query, selectedLanguage, c);
      var rest := Filter(s[1..], query, selectedLanguage);
      forall i | 0 <= i < |rest| ensures Before(c, s[0], rest[i]) {
        assert rest[i] in s[1..];
        var k :| 0 <= k < |s[1..]| && s[1..][k] == rest[i];
        assert s[k + 1] == rest[i];
      }
    }
  }
}
