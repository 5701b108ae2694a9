/** The sidebar: the date-range state with its Day/Week/Month/All presets,
    the behavior and category selections, and the filter that the Apply
    button runs over the table captured on the first apply. */
module SidebarFilters {
  import opened Events
  import opened Seqs
  import opened Grouping
  import opened Ranking
  import opened Names

  /** 2017-11-25 and 2017-12-02, the default date range, as day numbers. */
  const DefaultStart: int := 17495
  const DefaultEnd: int := 17502

  /** A row is inside the window from midnight of `start` up to and including
      midnight after `end`: the end bound is end-date + 1 day, inclusive. */
  predicate InDateWindow(e: Event, start: int, end: int)
  {
    Midnight(start) <= e.timestamp <= Midnight(end) + SecondsPerDay
  }

  /** The date stage of the filter. */
  function DateFilter(t: Table, start: int, end: int): (r: Table)
    ensures forall e :: multiset(r)[e] == if InDateWindow(e, start, end) then multiset(t)[e] else 0
    ensures IsSubsequence(r, t)
  {
    var keep := (e: Event) => InDateWindow(e, start, end);
    FilterCountAll(t, keep);
    FilterIsSubsequence(t, keep);
    Filter(t, keep)
  }

  /** The behavior stage: no selection keeps every row. */
  function BehaviorFilter(t: Table, selected: seq<Behavior>): (r: Table)
    ensures selected == [] ==> r == t
    ensures selected != [] ==> forall e :: multiset(r)[e] == if e.behavior in selected then multiset(t)[e] else 0
    ensures IsSubsequence(r, t)
  {
    if selected == [] then
      SubsequenceOfSelf(t);
      t
    else
      var keep := (e: Event) => e.behavior in selected;
      FilterCountAll(t, keep);
      FilterIsSubsequence(t, keep);
      Filter(t, keep)
  }

  /** The category stage: no selection keeps every row. */
  function CategoryFilter(t: Table, ids: seq<int>): (r: Table)
    ensures ids == [] ==> r == t
    ensures ids != [] ==> forall e :: multiset(r)[e] == if e.category in ids then multiset(t)[e] else 0
    ensures IsSubsequence(r, t)
  {
    if ids == [] then
      SubsequenceOfSelf(t);
      t
    else
      var keep := (e: Event) => e.category in ids;
      FilterCountAll(t, keep);
      FilterIsSubsequence(t, keep);
      Filter(t, keep)
  }

  /** Whether a row passes all three stages. */
  predicate Selected(e: Event, start: int, end: int, behaviors: seq<Behavior>, ids: seq<int>)
  {
    InDateWindow(e, start, end)
    && (behaviors == [] || e.behavior in behaviors)
    && (ids == [] || e.category in ids)
  }

  /** The three stages one after the other, as the Apply button runs them. */
  function AllFilters(t: Table, start: int, end: int, behaviors: seq<Behavior>, ids: seq<int>): Table
  {
    CategoryFilter(BehaviorFilter(DateFilter(t, start, end), behaviors), ids)
  }

  /** A row survives exactly as often as it occurs when it passes every stage,
      and not at all otherwise. */
  lemma AllFiltersCount(t: Table, start: int, end: int, behaviors: seq<Behavior>, ids: seq<int>, e: Event)
    ensures multiset(AllFilters(t, start, end, behaviors, ids))[e]
      == if Selected(e, start, end, behaviors, ids) then multiset(t)[e] else 0
  {
  }

  /** The filtered table keeps the original order of the rows it keeps. */
  lemma AllFiltersSubsequence(t: Table, start: int, end: int, behaviors: seq<Behavior>, ids: seq<int>)
    ensures IsSubsequence(AllFilters(t, start, end, behaviors, ids), t)
  {
    var d := DateFilter(t, start, end);
    var b := BehaviorFilter(d, behaviors);
    SubsequenceTransitive(b, d, t);
    SubsequenceTransitive(AllFilters(t, start, end, behaviors, ids), b, t);
  }

  /** Every row of the filtered table passes every stage. */
  lemma AllFiltersSelected(t: Table, start: int, end: int, behaviors: seq<Behavior>, ids: seq<int>, e: Event)
    requires e in AllFilters(t, start, end, behaviors, ids)
    ensures Selected(e, start, end, behaviors, ids)
  {
    var r := AllFilters(t, start, end, behaviors, ids);
    assert e in multiset(r);
    AllFiltersCount(t, start, end, behaviors, ids, e);
  }

  /** Filtering an already filtered table with the same selection changes nothing. */
  lemma AllFiltersIdempotent(t: Table, start: int, end: int, behaviors: seq<Behavior>, ids: seq<int>)
    ensures AllFilters(AllFilters(t, start, end, behaviors, ids), start, end, behaviors, ids)
      == AllFilters(t, start, end, behaviors, ids)
  {
    var r := AllFilters(t, start, end, behaviors, ids);
    forall e | e in r ensures Selected(e, start, end, behaviors, ids) {
      AllFiltersSelected(t, start, end, behaviors, ids, e);
    }
    var keepDate := (e: Event) => InDateWindow(e, start, end);
    FilterKeepsAll(r, keepDate);
    assert DateFilter(r, start, end) == r;
    if behaviors != [] {
      var keepBehavior := (e: Event) => e.behavior in behaviors;
      FilterKeepsAll(r, keepBehavior);
    }
    if ids != [] {
      var keepCategory := (e: Event) => e.category in ids;
      FilterKeepsAll(r, keepCategory);
    }
  }

  /** The behavior multiselect's options and the behaviors they stand for. */
  const BehaviorDisplays: seq<string> := ["pv (Page View)", "cart (Add to Cart)", "fav (Favorite)", "buy (Purchase)"]

  /** `[behavior_map[d] for d in selected]`, where every selection is one of the options. */
  function SelectedBehaviors(displays: seq<string>): (r: seq<Behavior>)
    requires forall d :: d in displays ==> d in BehaviorDisplays
    ensures |r| == |displays|
    ensures forall i :: 0 <= i < |r| ==> r[i] == FunnelOrder[IndexOf(BehaviorDisplays, displays[i])]
  {
    if displays == [] then []
    else [FunnelOrder[IndexOf(BehaviorDisplays, displays[0])]] + SelectedBehaviors(displays[1..])
  }

  /** The position of `x` in `s`. */
  function IndexOf<T(==)>(s: seq<T>, x: T): (i: nat)
    requires x in s
    ensures i < |s| && s[i] == x
  {
    if s[0] == x then 0 else 1 + IndexOf(s[1..], x)
  }

  /** The selected category names that the reverse dictionary knows, as IDs;
      an unknown name such as "Other" is skipped. */
  function SelectedCategoryIds(names: seq<string>): (r: seq<int>)
    ensures |r| <= |names|
    ensures forall id :: id in r ==> id in CategoryIds
    ensures forall n :: n in names && n in SidebarNames ==> ReverseLookup(CategoryIds, SidebarNames, n).value in r
    ensures (forall n :: n in names ==> n !in SidebarNames) ==> r == []
  {
    if names == [] then []
    else
      var rest := SelectedCategoryIds(names[1..]);
      var id := ReverseLookup(CategoryIds, SidebarNames, names[0]);
      if id.Some? then [id.value] + rest else rest
  }

  /** An ID is selected exactly when some selected name maps back to it. */
  lemma {:induction false} SelectedCategoryIdsExact(names: seq<string>, id: int)
    ensures id in SelectedCategoryIds(names) <==>
      exists n :: n in names && ReverseLookup(CategoryIds, SidebarNames, n) == Some(id)
  {
    if names != [] {
      SelectedCategoryIdsExact(names[1..], id);
      if exists n :: n in names && ReverseLookup(CategoryIds, SidebarNames, n) == Some(id) {
        var n :| n in names && ReverseLookup(CategoryIds, SidebarNames, n) == Some(id);
        if n != names[0] {
          assert n in names[1..];
        }
      }
      forall n | n in names[1..] ensures n in names {
      }
    }
  }

  /** The IDs keep the order of the selection: selecting `a` then `b` gives
      the IDs of `a` followed by those of `b`. */
  lemma {:induction false} SelectedCategoryIdsAppend(a: seq<string>, b: seq<string>)
    ensures SelectedCategoryIds(a + b) == SelectedCategoryIds(a) + SelectedCategoryIds(b)
  {
    if a != [] {
      assert (a + b)[1..] == a[1..] + b;
      SelectedCategoryIdsAppend(a[1..], b);
    } else {
      assert a + b == b;
    }
  }

  /** Selecting only names without an ID, such as "Other", filters no category out. */
  lemma OnlyUnknownNamesKeepAllCategories(t: Table, names: seq<string>)
    requires forall n :: n in names ==> n !in SidebarNames
    ensures CategoryFilter(t, SelectedCategoryIds(names)) == t
  {
  }

  /** The sidebar's label for a category: its name, or "Other". */
  function SidebarName(id: int): (name: string)
    ensures forall i :: 0 <= i < |CategoryIds| && CategoryIds[i] == id ==> name == SidebarNames[i]
    ensures id in CategoryIds ==> name in SidebarNames
    ensures id !in CategoryIds ==> name == "Other"
  {
    CategoryName(SidebarNames, id, "Other")
  }

  function SidebarNameCell(e: Event): Cell { TextCell(SidebarName(e.category)) }

  /** `get_top_category_names(df, n=6)`: the names of the (at most) six most
      frequent category IDs, most frequent first; an unmapped ID reads "Other". */
  function TopCategoryNames(t: Table): (r: seq<string>)
    ensures |r| == Min(6, |Distinct(Map(t, CategoryOf))|)
    ensures forall i :: 0 <= i < |r| ==> r[i] == "Other" || r[i] in SidebarNames
  {
    Map(KeysOf(TopCounts(Map(t, CategoryOf), 6)), SidebarName)
  }

  /** The top names are those of the six most frequent IDs: each belongs to an
      ID that occurs in the table, and no ID left out occurs more often. */
  lemma TopCategoryNamesAreTop(t: Table, i: nat)
    requires i < |TopCategoryNames(t)|
    ensures TopCategoryNames(t)[i] == SidebarName(TopCounts(Map(t, CategoryOf), 6)[i].0)
    ensures TopCounts(Map(t, CategoryOf), 6)[i].0 in Map(t, CategoryOf)
    ensures forall k :: k in Map(t, CategoryOf) && k !in KeysOf(TopCounts(Map(t, CategoryOf), 6)) ==>
      multiset(Map(t, CategoryOf))[k] <= TopCounts(Map(t, CategoryOf), 6)[i].1
  {
    TopCountsFacts(Map(t, CategoryOf), 6);
  }

  /** `st.session_state` as the sidebar uses it: the date range and the table
      captured by the first apply. */
  class SessionState {
    var startDate: int
    var endDate: int
    var originalDf: Option<Table>

    /** The first run sets the default range; nothing is captured yet. */
    constructor ()
      ensures startDate == DefaultStart && endDate == DefaultEnd && originalDf == None
    {
      startDate := DefaultStart;
      endDate := DefaultEnd;
      originalDf := None;
    }

    /** The date inputs write a changed date back to the state. */
    method SyncDates(start: int, end: int)
      modifies this
      ensures startDate == start && endDate == end
      ensures originalDf == old(originalDf)
    {
      if start != startDate {
        startDate := start;
      }
      if end != endDate {
        endDate := end;
      }
    }

    /** Day: the range shrinks to the end date alone. */
    method SetDay()
      modifies this
      ensures startDate == old(endDate) && endDate == old(endDate)
      ensures originalDf == old(originalDf)
    {
      startDate := endDate;
    }

    /** Week: the range starts seven days before the end date. */
    method SetWeek()
      modifies this
      ensures startDate == old(endDate) - 7 && endDate == old(endDate)
      ensures originalDf == old(originalDf)
    {
      startDate := endDate - 7;
    }

    /** Month: the range starts thirty days before the end date. */
    method SetMonth()
      modifies this
      ensures startDate == old(endDate) - 30 && endDate == old(endDate)
      ensures originalDf == old(originalDf)
    {
      startDate := endDate - 30;
    }

    /** All: back to the default range. */
    method SetAll()
      modifies this
      ensures startDate == DefaultStart && endDate == DefaultEnd
      ensures originalDf == old(originalDf)
    {
      startDate := DefaultStart;
      endDate := DefaultEnd;
    }

    /** `apply_all_filters`: captures `df` on the first apply only, then filters
        the captured table stage by stage. */
    method ApplyAllFilters(df: Table, start: int, end: int, behaviors: seq<Behavior>, ids: seq<int>)
      returns (filtered: Table)
      modifies this
      ensures originalDf == if old(originalDf).None? then Some(df) else old(originalDf)
      ensures filtered == AllFilters(originalDf.value, start, end, behaviors, ids)
      ensures startDate == old(startDate) && endDate == old(endDate)
    {
      if originalDf.None? {
        originalDf := Some(df);
      }
      filtered := originalDf.value;
      filtered := DateFilter(filtered, start, end);
      if behaviors != [] {
        filtered := BehaviorFilter(filtered, behaviors);
      }
      if ids != [] {
        filtered := CategoryFilter(filtered, ids);
      }
    }

    /** `reset_filters`: the captured table if there is one, else a fresh load
        (`loaded` stands for what the loader returns). */
    method ResetFilters(loaded: Table) returns (r: Table)
      ensures originalDf.Some? ==> r == originalDf.value
      ensures originalDf.None? ==> r == loaded
    {
      if originalDf.Some? {
        r := originalDf.value;
      } else {
        r := loaded;
      }
    }

    /** One run of the sidebar over the frame `df`: sync the dates, label the
        categories in place, turn the selections into behaviors and IDs, and
        pick the result (Apply before Reset, else `df` unfiltered). */
    method RenderSidebar(df: Frame, startInput: int, endInput: int, displays: seq<string>,
                         names: seq<string>, apply: bool, reset: bool, loaded: Table)
      returns (r: Table)
      requires df.Valid()
      requires forall d :: d in displays ==> d in BehaviorDisplays
      modifies this, df
      ensures df.Valid() && df.events == old(df.events)
      ensures df.columns == old(df.columns)["CategoryName" := Map(old(df.events), SidebarNameCell)]
      ensures startDate == startInput && endDate == endInput
      ensures apply ==> originalDf == (if old(originalDf).None? then Some(df.events) else old(originalDf))
      ensures apply ==> r == AllFilters(originalDf.value, startInput, endInput,
                                        SelectedBehaviors(displays), SelectedCategoryIds(names))
      ensures !apply ==> originalDf == old(originalDf)
      ensures !apply && reset ==> r == (if originalDf.Some? then originalDf.value else loaded)
      ensures !apply && !reset ==> r == df.events
    {
      SyncDates(startInput, endInput);
      df.SetColumn("CategoryName", Map(df.events, SidebarNameCell));
      var behaviors := SelectedBehaviors(displays);
      var ids := SelectedCategoryIds(names);
      if apply {
        r := ApplyAllFilters(df.events, startInput, endInput, behaviors, ids);
      } else if reset {
        r := ResetFilters(loaded);
      } else {
        r := df.events;
      }
    }
  }
}
