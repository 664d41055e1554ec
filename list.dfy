/**
 * The filterable list of src/list.rs: items with a title and a subtitle, a
 * filter text, the view of the items whose title contains the filter
 * (ignoring case), and a selected index into that view that `next` and
 * `previous` move cyclically.
 */
module Lists {
  import opened Wrappers
  import Strings

  datatype Item = Item(title: string, subtitle: string)

  /** The filter test of `update_filter`: the lower-cased title contains the lower-cased filter. */
  predicate Matches(item: Item, filter: string)
    ensures filter == "" ==> Matches(item, filter)
    ensures Matches(item, filter) ==> |filter| <= |item.title|
  {
    Strings.Contains(Strings.Lower(item.title), Strings.Lower(filter))
  }

  /** The items that match, in their original order. */
  function FilterItems(items: seq<Item>, filter: string): (r: seq<Item>)
    ensures |r| <= |items|
  {
    if items == [] then []
    else (if Matches(items[0], filter) then [items[0]] else []) + FilterItems(items[1..], filter)
  }

  /** `sub` is `s` with some elements left out, the rest in order. */
  predicate IsSubsequence<T(==)>(sub: seq<T>, s: seq<T>)
    decreases |s|
  {
    if sub == [] then true
    else if s == [] then false
    else (sub[0] == s[0] && IsSubsequence(sub[1..], s[1..])) || IsSubsequence(sub, s[1..])
  }

  /** An item is in the view exactly when it is one of the items and its title matches. */
  lemma {:induction false} FilterMembership(items: seq<Item>, filter: string, x: Item)
    ensures x in FilterItems(items, filter) <==> x in items && Matches(x, filter)
  {
    if items != [] {
      FilterMembership(items[1..], filter, x);
      assert items == [items[0]] + items[1..];
    }
  }

  /**
   * The view holds each matching item as many times as the list does and
   * no other item.
   */
  lemma {:induction false} FilterCounts(items: seq<Item>, filter: string, x: Item)
    ensures multiset(FilterItems(items, filter))[x] == if Matches(x, filter) then multiset(items)[x] else 0
  {
    if items != [] {
      FilterCounts(items[1..], filter, x);
      assert items == [items[0]] + items[1..];
    }
  }

  /** The view keeps the original relative order of the items. */
  lemma {:induction false} FilterKeepsOrder(items: seq<Item>, filter: string)
    ensures IsSubsequence(FilterItems(items, filter), items)
  {
    if items != [] {
      FilterKeepsOrder(items[1..], filter);
      var rest := FilterItems(items[1..], filter);
      if Matches(items[0], filter) {
        assert ([items[0]] + rest)[1..] == rest;
      } else {
        assert [] + rest == rest;
      }
    }
  }

  /** When every item matches, the view is the whole list. */
  lemma {:induction false} FilterAllMatch(items: seq<Item>, filter: string)
    requires forall k :: 0 <= k < |items| ==> Matches(items[k], filter)
    ensures FilterItems(items, filter) == items
  {
    if items != [] {
      FilterAllMatch(items[1..], filter);
      assert items == [items[0]] + items[1..];
    }
  }

  /** The empty filter keeps every item. */
  lemma FilterEmpty(items: seq<Item>)
    ensures FilterItems(items, "") == items
  {
    forall k | 0 <= k < |items| ensures Matches(items[k], "") {
      Strings.ContainsEmpty(Strings.Lower(items[k].title));
    }
    FilterAllMatch(items, "");
  }

  /** Only the titles are searched: replacing every subtitle leaves the view's titles alone. */
  lemma {:induction false} FilterIgnoresSubtitle(items: seq<Item>, other: seq<Item>, filter: string)
    requires |other| == |items|
    requires forall k :: 0 <= k < |items| ==> other[k].title == items[k].title
    ensures |FilterItems(other, filter)| == |FilterItems(items, filter)|
    ensures forall k :: 0 <= k < |FilterItems(items, filter)| ==>
      FilterItems(other, filter)[k].title == FilterItems(items, filter)[k].title
  {
    if items != [] {
      FilterIgnoresSubtitle(items[1..], other[1..], filter);
      assert Matches(other[0], filter) == Matches(items[0], filter);
    }
  }

  // ---------------------------------------------------------------------------
  // Cyclic selection
  // ---------------------------------------------------------------------------

  /** The index `next` selects after `i` in a view of `n` items. */
  function NextIndex(i: nat, n: nat): (r: nat)
    requires n > 0
    ensures r < n
  {
    (i + 1) % n
  }

  /** The index `previous` selects before `i` in a view of `n` items. */
  function PreviousIndex(i: nat, n: nat): (r: nat)
    requires n > 0
    ensures r < n
  {
    (i + n - 1) % n
  }

  /** `next` counts up, and wraps from the last item to the first. */
  lemma NextWraps(i: nat, n: nat)
    requires i < n
    ensures i < n - 1 ==> NextIndex(i, n) == i + 1
    ensures i == n - 1 ==> NextIndex(i, n) == 0
  {
  }

  /** `previous` counts down, and wraps from the first item to the last. */
  lemma PreviousWraps(i: nat, n: nat)
    requires i < n
    ensures i > 0 ==> PreviousIndex(i, n) == i - 1
    ensures i == 0 ==> PreviousIndex(i, n) == n - 1
  {
    if i > 0 {
      assert i + n - 1 == (i - 1) + n;
    }
  }

  /** `previous` undoes `next` and `next` undoes `previous`. */
  lemma NextPreviousInverse(i: nat, n: nat)
    requires i < n
    ensures PreviousIndex(NextIndex(i, n), n) == i
    ensures NextIndex(PreviousIndex(i, n), n) == i
  {
    NextWraps(i, n);
    PreviousWraps(i, n);
    NextWraps(PreviousIndex(i, n), n);
    PreviousWraps(NextIndex(i, n), n);
  }

  /** `k` calls of `next` from `i`. */
  function NextTimes(i: nat, n: nat, k: nat): (r: nat)
    requires n > 0
    decreases k
  {
    if k == 0 then i else NextIndex(NextTimes(i, n, k - 1), n)
  }

  /** Below the last item, `k` calls of `next` count up by `k`. */
  lemma {:induction false} NextTimesCountsUp(i: nat, n: nat, k: nat)
    requires i + k < n
    ensures NextTimes(i, n, k) == i + k
    decreases k
  {
    if k > 0 {
      NextTimesCountsUp(i, n, k - 1);
      NextWraps(i + k - 1, n);
    }
  }

  /** `a + b` calls of `next` are `a` calls followed by `b` calls. */
  lemma {:induction false} NextTimesAdd(i: nat, n: nat, a: nat, b: nat)
    requires n > 0
    ensures NextTimes(i, n, a + b) == NextTimes(NextTimes(i, n, a), n, b)
    decreases b
  {
    if b > 0 {
      NextTimesAdd(i, n, a, b - 1);
    }
  }

  /** `n` calls of `next` come back to the starting item. */
  lemma NextCycle(i: nat, n: nat)
    requires i < n
    ensures NextTimes(i, n, n) == i
  {
    NextTimesAdd(i, n, n - 1 - i, i + 1);
    NextTimesCountsUp(i, n, n - 1 - i);
    NextTimesAdd(n - 1, n, 1, i);
    NextWraps(n - 1, n);
    NextTimesCountsUp(0, n, i);
  }

  // ---------------------------------------------------------------------------
  // The widget
  // ---------------------------------------------------------------------------

  class ItemList {
    var title: string
    var items: seq<Item>
    /** The selection held in ratatui's `ListState`. */
    var selected: Option<nat>
    var filter: string
    var filteredItems: seq<Item>
    var showingFilter: bool

    /**
     * Always some index; inside the view whenever the view has items. After
     * a filter change it is `Some(0)`, which is left dangling when the view
     * is empty.
     */
    ghost predicate Valid()
      reads this
    {
      selected.Some? && (|filteredItems| > 0 ==> selected.value < |filteredItems|)
    }

    /** `ItemList::new`: the view is the whole list, no filter, the first item selected. */
    constructor (title: string, items: seq<Item>)
      ensures Valid()
      ensures this.title == title && this.items == items && filteredItems == items
      ensures filter == "" && !showingFilter && selected == Some(0)
    {
      this.title := title;
      this.items := items;
      selected := Some(0);
      filter := "";
      filteredItems := items;
      showingFilter := false;
    }

    /**
     * `update_filter`: recompute the view from the filter and reset the
     * selection to `Some(0)`, even when the view is empty.
     */
    method UpdateFilter()
      modifies this`filteredItems, this`selected
      ensures Valid()
      ensures filteredItems == FilterItems(items, filter)
      ensures forall x :: x in filteredItems <==> x in items && Matches(x, filter)
      ensures IsSubsequence(filteredItems, items)
      ensures filter == "" ==> filteredItems == items
      ensures selected == Some(0)
    {
      filteredItems := FilterItems(items, filter);
      selected := Some(0);
      forall x {
        FilterMembership(items, filter, x);
      }
      FilterKeepsOrder(items, filter);
      if filter == "" {
        FilterEmpty(items);
      }
    }

    /** `get_selected_item`: the selected item of the view, if the index is inside it. */
    function GetSelectedItem(): (r: Option<Item>)
      reads this
      ensures r.Some? <==> selected.Some? && selected.value < |filteredItems|
      ensures r.Some? ==> r.value == filteredItems[selected.value]
    {
      match selected
      case Some(i) => if i < |filteredItems| then Some(filteredItems[i]) else None
      case None => None
    }

    /** `next`: one item down, from the last to the first; `% len` needs a non-empty view. */
    method Next()
      requires selected.Some? ==> |filteredItems| > 0
      modifies this`selected
      ensures old(selected).Some? ==> selected == Some(NextIndex(old(selected).value, |filteredItems|))
      ensures old(selected).None? ==> selected == Some(0)
      ensures old(Valid()) ==> Valid()
    {
      var i := match selected
        case Some(i) => (i + 1) % |filteredItems|
        case None => 0;
      selected := Some(i);
    }

    /** `previous`: one item up, from the first to the last; `% len` needs a non-empty view. */
    method Previous()
      requires selected.Some? ==> |filteredItems| > 0
      modifies this`selected
      ensures old(selected).Some? ==> selected == Some(PreviousIndex(old(selected).value, |filteredItems|))
      ensures old(selected).None? ==> selected == Some(0)
      ensures old(Valid()) ==> Valid()
    {
      var i := match selected
        case Some(i) => (i + |filteredItems| - 1) % |filteredItems|
        case None => 0;
      selected := Some(i);
    }
  }

  // ---------------------------------------------------------------------------
  // Unit-test scenarios
  // ---------------------------------------------------------------------------

  function Groceries(): seq<Item> {
    [Item("Pocky", "Expensive"), Item("Ginger", "Exquisite")]
  }

  /** The initialisation test: a new list selects its first item. */
  method InitialScenario() returns (selection: Option<nat>)
    ensures selection == Some(0)
  {
    var list := new ItemList("Groceries", Groceries());
    selection := list.selected;
  }

  /** The navigation test: next, next, previous over two items gives 1, 0, 1. */
  method NavigationScenario() returns (first: Option<nat>, second: Option<nat>, third: Option<nat>)
    ensures first == Some(1) && second == Some(0) && third == Some(1)
  {
    var list := new ItemList("Groceries", Groceries());
    list.Next();
    first := list.selected;
    list.Next();
    second := list.selected;
    list.Previous();
    third := list.selected;
  }

  /** The selection test: after one `next` the selected item is "Ginger". */
  method SelectionScenario() returns (item: Option<Item>)
    ensures item == Some(Item("Ginger", "Exquisite"))
  {
    var list := new ItemList("Groceries", Groceries());
    list.Next();
    item := list.GetSelectedItem();
  }

  lemma GroceriesMatches()
    ensures Matches(Item("Ginger", "Exquisite"), "Ginger") && !Matches(Item("Pocky", "Expensive"), "Ginger")
    ensures Matches(Item("Pocky", "Expensive"), "Pocky") && !Matches(Item("Ginger", "Exquisite"), "Pocky")
  {
    assert Strings.Lower("Pocky") == "pocky";
    assert Strings.Lower("Ginger") == "ginger";
    assert Strings.StartsWith("ginger", "ginger");
    assert Strings.StartsWith("pocky", "pocky");
    Strings.ContainsNeedsFirstChar("ginger", "pocky");
  }

  /** The filter test: "Ginger" keeps only Ginger, then "Pocky" only Pocky. */
  method FilterScenario() returns (byGinger: seq<Item>, byPocky: seq<Item>)
    ensures byGinger == [Item("Ginger", "Exquisite")]
    ensures byPocky == [Item("Pocky", "Expensive")]
  {
    var list := new ItemList("Groceries", Groceries());
    GroceriesMatches();
    assert Groceries()[1..][1..] == [];
    list.filter := "Ginger";
    list.UpdateFilter();
    byGinger := list.filteredItems;
    list.filter := "Pocky";
    list.UpdateFilter();
    byPocky := list.filteredItems;
  }
}
