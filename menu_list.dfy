/**
 * The menu of src/menu_list.rs: named items, each with a toggle flag, and a
 * selection that `up` and `down` move cyclically. The selection starts at
 * `Some(0)` even for an empty menu, where `up` and `down` compute
 * `len() - 1` on 0 and so cannot be called; the `Checked` methods are the
 * corrected versions that leave an empty menu at `Some(0)`.
 */
module Menus {
  import opened Wrappers

  datatype MenuItem = MenuItem(name: string, selected: bool)

  /** The index `down` selects after `i` in a menu of `n` items. */
  function DownIndex(i: nat, n: nat): (r: nat)
    requires n > 0
    ensures r < n
  {
    if i >= n - 1 then 0 else i + 1
  }

  /** The index `up` selects before `i`; from 0 it needs `n > 0` to reach `n - 1`. */
  function UpIndex(i: nat, n: nat): (r: nat)
    requires i == 0 ==> n > 0
    ensures i < n ==> r < n
  {
    if i == 0 then n - 1 else i - 1
  }

  /** On a valid index, `down` is `(i + 1) mod n` and `up` is `(i + n - 1) mod n`. */
  lemma DownUpAreCyclic(i: nat, n: nat)
    requires i < n
    ensures DownIndex(i, n) == (i + 1) % n
    ensures UpIndex(i, n) == (i + n - 1) % n
  {
    if i > 0 {
      assert i + n - 1 == (i - 1) + n;
    }
  }

  /** `up` undoes `down` and `down` undoes `up`. */
  lemma DownUpInverse(i: nat, n: nat)
    requires i < n
    ensures UpIndex(DownIndex(i, n), n) == i
    ensures DownIndex(UpIndex(i, n), n) == i
  {
  }

  /** `k` calls of `down` from `i`. */
  function DownTimes(i: nat, n: nat, k: nat): nat
    requires n > 0
    decreases k
  {
    if k == 0 then i else DownIndex(DownTimes(i, n, k - 1), n)
  }

  /** Below the last item, `k` downs count up by `k`. */
  lemma {:induction false} DownTimesCountsUp(i: nat, n: nat, k: nat)
    requires i + k < n
    ensures DownTimes(i, n, k) == i + k
    decreases k
  {
    if k > 0 {
      DownTimesCountsUp(i, n, k - 1);
    }
  }

  /** `a + b` downs are `a` downs followed by `b` downs. */
  lemma {:induction false} DownTimesAdd(i: nat, n: nat, a: nat, b: nat)
    requires n > 0
    ensures DownTimes(i, n, a + b) == DownTimes(DownTimes(i, n, a), n, b)
    decreases b
  {
    if b > 0 {
      DownTimesAdd(i, n, a, b - 1);
    }
  }

  /** `n` downs come back to the starting item. */
  lemma DownCycle(i: nat, n: nat)
    requires i < n
    ensures DownTimes(i, n, n) == i
  {
    DownTimesAdd(i, n, n - 1 - i, i + 1);
    DownTimesCountsUp(i, n, n - 1 - i);
    DownTimesAdd(n - 1, n, 1, i);
    DownTimesCountsUp(0, n, i);
  }

  /** The items after flipping the flag of item `i`. */
  function Toggled(items: seq<MenuItem>, i: nat): (r: seq<MenuItem>)
    requires i < |items|
    ensures |r| == |items|
    ensures r[i].name == items[i].name && r[i].selected == !items[i].selected
    ensures forall k :: 0 <= k < |items| && k != i ==> r[k] == items[k]
  {
    items[i := MenuItem(items[i].name, !items[i].selected)]
  }

  /** Toggling the same item twice restores every flag. */
  lemma ToggleTwice(items: seq<MenuItem>, i: nat)
    requires i < |items|
    ensures Toggled(Toggled(items, i), i) == items
  {
  }

  class Menu {
    var title: string
    var subtitle: string
    var items: seq<MenuItem>
    /** The selection held in ratatui's `ListState`. */
    var selectionState: Option<nat>

    /** Always some index, and inside the menu when the menu has items. */
    ghost predicate Valid()
      reads this
    {
      selectionState.Some? && (|items| > 0 ==> selectionState.value < |items|)
    }

    /** `Menu::new`: every name in order, no flag set, the first item under the cursor. */
    constructor (title: string, subtitle: string, names: seq<string>)
      ensures Valid()
      ensures this.title == title && this.subtitle == subtitle
      ensures |items| == |names|
      ensures forall k :: 0 <= k < |names| ==> items[k] == MenuItem(names[k], false)
      ensures selectionState == Some(0)
    {
      this.title := title;
      this.subtitle := subtitle;
      items := seq(|names|, k requires 0 <= k < |names| => MenuItem(names[k], false));
      selectionState := Some(0);
    }

    /** `up`: from the first item to the last, otherwise one up. */
    method Up()
      requires selectionState == Some(0) ==> |items| > 0
      modifies this`selectionState
      ensures old(selectionState).Some? ==> selectionState == Some(UpIndex(old(selectionState).value, |items|))
      ensures old(selectionState).None? ==> selectionState == Some(0)
      ensures old(Valid()) ==> Valid()
    {
      var i := match selectionState
        case Some(i) => if i == 0 then |items| - 1 else i - 1
        case None => 0;
      selectionState := Some(i);
    }

    /** `down`: from the last item (or past it) to the first, otherwise one down. */
    method Down()
      requires selectionState.Some? ==> |items| > 0
      modifies this`selectionState
      ensures old(selectionState).Some? ==> selectionState == Some(DownIndex(old(selectionState).value, |items|))
      ensures old(selectionState).None? ==> selectionState == Some(0)
      ensures Valid()
    {
      var i := match selectionState
        case Some(i) => if i >= |items| - 1 then 0 else i + 1
        case None => 0;
      selectionState := Some(i);
    }

    /** `toggle_selection`: flips the flag of the item under the cursor and nothing else. */
    method ToggleSelection()
      requires selectionState.Some? ==> selectionState.value < |items|
      modifies this`items
      ensures old(selectionState).Some? ==> items == Toggled(old(items), selectionState.value)
      ensures old(selectionState).None? ==> items == old(items)
      ensures |items| == old(|items|)
      ensures forall k :: 0 <= k < |items| ==> items[k].name == old(items[k].name)
    {
      if selectionState.Some? {
        var i := selectionState.value;
        items := items[i := MenuItem(items[i].name, !items[i].selected)];
      }
    }

    /** The corrected `up`: an empty menu keeps the cursor on item 0 instead of underflowing. */
    method UpChecked()
      modifies this`selectionState
      ensures |items| == 0 ==> selectionState == Some(0)
      ensures |items| > 0 && old(selectionState).Some? ==>
        selectionState == Some(UpIndex(old(selectionState).value, |items|))
      ensures old(selectionState).None? ==> selectionState == Some(0)
      ensures old(Valid()) ==> Valid()
    {
      var i := match selectionState
        case Some(i) => if |items| == 0 then 0 else if i == 0 then |items| - 1 else i - 1
        case None => 0;
      selectionState := Some(i);
    }

    /** The corrected `down`: an empty menu keeps the cursor on item 0 instead of underflowing. */
    method DownChecked()
      modifies this`selectionState
      ensures |items| == 0 ==> selectionState == Some(0)
      ensures |items| > 0 && old(selectionState).Some? ==>
        selectionState == Some(DownIndex(old(selectionState).value, |items|))
      ensures old(selectionState).None? ==> selectionState == Some(0)
      ensures Valid()
    {
      var i := match selectionState
        case Some(i) => if |items| == 0 || i >= |items| - 1 then 0 else i + 1
        case None => 0;
      selectionState := Some(i);
    }

    /** The corrected `toggle_selection`: a cursor past the items toggles nothing instead of panicking. */
    method ToggleSelectionChecked()
      modifies this`items
      ensures old(selectionState).Some? && selectionState.value < |old(items)| ==>
        items == Toggled(old(items), selectionState.value)
      ensures old(selectionState).None? || selectionState.value >= |old(items)| ==> items == old(items)
    {
      if selectionState.Some? && selectionState.value < |items| {
        var i := selectionState.value;
        items := items[i := MenuItem(items[i].name, !items[i].selected)];
      }
    }
  }

  /**
   * The state the test at src/menu_list.rs:219-226 starts from: a new empty
   * menu has its cursor on item 0, which `Up` excludes because `len() - 1`
   * underflows there.
   */
  method EmptyMenuScenario() returns (selection: Option<nat>, count: nat)
    ensures selection == Some(0) && count == 0
    ensures !(selection == Some(0) ==> count > 0)
  {
    var m := new Menu("Title", "Subtitle", []);
    selection, count := m.selectionState, |m.items|;
  }

  /** The test at src/menu_list.rs:219-226 with the corrected moves and toggle: the cursor stays at `Some(0)`. */
  method EmptyMenuCheckedScenario() returns (selection: Option<nat>)
    ensures selection == Some(0)
  {
    var m := new Menu("Title", "Subtitle", []);
    m.UpChecked();
    m.DownChecked();
    m.ToggleSelectionChecked();
    selection := m.selectionState;
  }

  /** Toggling the item under the cursor twice restores the menu's items. */
  method ToggleTwiceRestores(m: Menu)
    requires m.Valid() && |m.items| > 0
    modifies m
    ensures m.items == old(m.items) && m.selectionState == old(m.selectionState)
  {
    m.ToggleSelection();
    m.ToggleSelection();
    ToggleTwice(old(m.items), m.selectionState.value);
  }

  /** `down` then `up` comes back to the item where the cursor started. */
  method DownThenUpRestores(m: Menu)
    requires m.Valid() && |m.items| > 0
    modifies m
    ensures m.selectionState == old(m.selectionState)
  {
    m.Down();
    m.Up();
    DownUpInverse(old(m.selectionState).value, |m.items|);
  }
}
