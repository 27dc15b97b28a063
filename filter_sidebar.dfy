/** The web storefront's FilterSidebar: a filter record of selected
    categories, sizes and colours and a price range. Each checkbox toggles
    its value in its own list; the slider sets the range; apply hands the
    record to the parent and reset restores the initial record. */
module FilterSidebar {
  import opened Seqs

  datatype PriceRange = PriceRange(low: int, high: int)

  datatype FilterState = FilterState(
    categories: seq<string>,
    sizes: seq<string>,
    colors: seq<string>,
    priceRange: PriceRange)

  /** The record the sidebar starts from and reset restores. */
  function Initial(): FilterState
  {
    FilterState([], [], [], PriceRange(0, 200))
  }

  /** One checkbox: a value already selected is filtered out, any other is
      appended at the end. */
  function Toggle(list: seq<string>, value: string): seq<string>
  {
    if value in list then Filter(list, (x: string) => x != value) else list + [value]
  }

  /** A toggle flips the membership of its own value and of no other. */
  lemma ToggleFlips(list: seq<string>, value: string)
    ensures value in Toggle(list, value) <==> value !in list
    ensures forall w :: w != value ==> (w in Toggle(list, value) <==> w in list)
  {
    if value in list {
      var r := Toggle(list, value);
      forall w | w != value && w in list ensures w in r {
        var i :| 0 <= i < |list| && list[i] == w;
      }
      forall w | w in r ensures w in list && w != value {
        var i :| 0 <= i < |r| && r[i] == w;
      }
    }
  }

  /** A toggle keeps a list free of repetitions. */
  lemma ToggleKeepsDistinct(list: seq<string>, value: string)
    requires Distinct(list)
    ensures Distinct(Toggle(list, value))
  {
    if value in list {
      FilterDistinct(list, (x: string) => x != value);
    }
  }

  /** Toggling the same value twice: an unselected value leaves the list
      exactly as it was; a selected one comes back at the end, so a list
      without repetitions keeps the same elements, each once. */
  lemma {:induction false} ToggleTwice(list: seq<string>, value: string)
    ensures value !in list ==> Toggle(Toggle(list, value), value) == list
    ensures value in list
            ==> Toggle(Toggle(list, value), value) == Filter(list, (x: string) => x != value) + [value]
    ensures Distinct(list) ==> multiset(Toggle(Toggle(list, value), value)) == multiset(list)
  {
    if value !in list {
      AddThenToggle(list, value);
    } else {
      ToggleFlips(list, value);
      if Distinct(list) {
        RemoveThenAddPermutes(list, value);
      }
    }
  }

  /** Appending an absent value and toggling it again gives the list back. */
  lemma {:induction false} AddThenToggle(list: seq<string>, value: string)
    requires value !in list
    ensures Toggle(list + [value], value) == list
  {
    var keep := (x: string) => x != value;
    assert forall i :: 0 <= i < |list| ==> keep(list[i]);
    FilterDropsOne(list, value, [], keep);
    assert list + [value] + [] == list + [value];
    assert list + [] == list;
  }

  /** Moving the only occurrence of a value to the end keeps the multiset. */
  lemma {:induction false} RemoveThenAddPermutes(list: seq<string>, value: string)
    requires Distinct(list) && value in list
    ensures multiset(Filter(list, (x: string) => x != value) + [value]) == multiset(list)
  {
    var keep := (x: string) => x != value;
    var r := Filter(list, keep) + [value];
    forall x ensures multiset(r)[x] == multiset(list)[x] {
      FilterMultiplicity(list, keep, x);
      if x == value {
        DistinctOnce(list, value);
      }
    }
    assert multiset(r) == multiset(list);
  }

  /** The sidebar's `filters` state cell. */
  class Sidebar {
    var filters: FilterState

    /** No category, size or colour is selected twice. */
    ghost predicate Valid()
      reads this
    {
      Distinct(filters.categories) && Distinct(filters.sizes) && Distinct(filters.colors)
    }

    constructor ()
      ensures Valid() && filters == Initial()
    {
      filters := Initial();
    }

    /** `handleCategoryChange`: only the category list changes. */
    method HandleCategoryChange(category: string)
      requires Valid()
      modifies this
      ensures Valid()
      ensures filters == old(filters).(categories := Toggle(old(filters).categories, category))
    {
      ToggleKeepsDistinct(filters.categories, category);
      filters := filters.(categories := Toggle(filters.categories, category));
    }

    /** `handleSizeChange`: only the size list changes. */
    method HandleSizeChange(size: string)
      requires Valid()
      modifies this
      ensures Valid()
      ensures filters == old(filters).(sizes := Toggle(old(filters).sizes, size))
    {
      ToggleKeepsDistinct(filters.sizes, size);
      filters := filters.(sizes := Toggle(filters.sizes, size));
    }

    /** `handleColorChange`: only the colour list changes. */
    method HandleColorChange(color: string)
      requires Valid()
      modifies this
      ensures Valid()
      ensures filters == old(filters).(colors := Toggle(old(filters).colors, color))
    {
      ToggleKeepsDistinct(filters.colors, color);
      filters := filters.(colors := Toggle(filters.colors, color));
    }

    /** `handlePriceChange`: the two-thumb slider reports two values, which
        become the range; nothing else changes. */
    method HandlePriceChange(value: seq<int>)
      requires Valid()
      requires |value| >= 2
      modifies this
      ensures Valid()
      ensures filters == old(filters).(priceRange := PriceRange(value[0], value[1]))
    {
      filters := filters.(priceRange := PriceRange(value[0], value[1]));
    }

    /** `handleApplyFilters`: the current record goes to the parent. */
    method HandleApplyFilters() returns (applied: FilterState)
      ensures applied == filters
    {
      applied := filters;
    }

    /** `handleResetFilters`: back to the initial record, then the parent
        is notified; `onResetFilters` takes no arguments, so the returned
        flag says only that it was called. */
    method HandleResetFilters() returns (parentNotified: bool)
      modifies this
      ensures Valid() && filters == Initial()
      ensures parentNotified
    {
      filters := Initial();
      parentNotified := true;
    }
  }
}
