/**
 * The expandable tables of CPUBySQL and IncidentTable: the `expandedRows` set
 * that `toggleRow` updates, and the `flatMap` that renders one main row per
 * item, followed by a detail row for each item whose key is expanded.
 */
module Expansion {

  /** The set `toggleRow(id)` installs: `id` removed when present, added otherwise. */
  function Toggled<K>(s: set<K>, id: K): (r: set<K>)
    ensures id in r <==> id !in s
    ensures r - {id} == s - {id}
  {
    if id in s then s - {id} else s + {id}
  }

  /** Toggling the same key twice restores the set. */
  lemma ToggleTwice<K>(s: set<K>, id: K)
    ensures Toggled(Toggled(s, id), id) == s
  {
  }

  /** Toggles of different keys commute. */
  lemma ToggleCommutes<K>(s: set<K>, a: K, b: K)
    ensures Toggled(Toggled(s, a), b) == Toggled(Toggled(s, b), a)
  {
  }

  /** The component state `const [expandedRows, setExpandedRows] = useState(new Set())`. */
  class ExpandedRows<K(==)> {
    var expanded: set<K>

    constructor ()
      ensures expanded == {}
    {
      expanded := {};
    }

    function IsExpanded(id: K): bool
      reads this
    {
      id in expanded
    }

    /** Copies the set, deletes or adds `id` in the copy, and installs the copy. */
    method Toggle(id: K)
      modifies this
      ensures expanded == Toggled(old(expanded), id)
    {
      var newExpanded := expanded;
      if id in expanded {
        newExpanded := newExpanded - {id};
      } else {
        newExpanded := newExpanded + {id};
      }
      expanded := newExpanded;
    }
  }

  /** A rendered table row: a main row with its 1-based position, or a detail row. */
  datatype Row<T> = Main(rank: nat, item: T) | Detail(item: T)

  /** The rows one item contributes, the item being at 0-based position `index`. */
  function Block<T, K>(item: T, index: nat, key: T -> K, expanded: set<K>): seq<Row<T>>
  {
    [Main(index + 1, item)] + (if key(item) in expanded then [Detail(item)] else [])
  }

  /** `items.flatMap(...)`, the first item being at position `start`. */
  function FlatRows<T, K>(items: seq<T>, key: T -> K, expanded: set<K>, start: nat): (rows: seq<Row<T>>)
    ensures items == [] <==> rows == []
    ensures items != [] ==> rows[0] == Main(start + 1, items[0])
  {
    if items == [] then []
    else Block(items[0], start, key, expanded) + FlatRows(items[1..], key, expanded, start + 1)
  }

  /** The main rows of a table, in order. */
  function Mains<T>(rows: seq<Row<T>>): seq<Row<T>>
  {
    if rows == [] then []
    else (if rows[0].Main? then [rows[0]] else []) + Mains(rows[1..])
  }

  lemma {:induction false} MainsAppend<T>(a: seq<Row<T>>, b: seq<Row<T>>)
    ensures Mains(a + b) == Mains(a) + Mains(b)
  {
    if a == [] {
      assert a + b == b;
    } else {
      assert (a + b)[1..] == a[1..] + b;
      MainsAppend(a[1..], b);
    }
  }

  /** The 1-based main rows that a table of `items` must have, starting at `start`. */
  function Ranked<T>(items: seq<T>, start: nat): (r: seq<Row<T>>)
    ensures |r| == |items|
    ensures forall j :: 0 <= j < |items| ==> r[j] == Main(start + j + 1, items[j])
  {
    if items == [] then [] else [Main(start + 1, items[0])] + Ranked(items[1..], start + 1)
  }

  /** The main rows of the table are the items in input order with consecutive ranks. */
  lemma {:induction false} FlatRowsMains<T, K>(items: seq<T>, key: T -> K, expanded: set<K>, start: nat)
    ensures Mains(FlatRows(items, key, expanded, start)) == Ranked(items, start)
  {
    if items != [] {
      var b := Block(items[0], start, key, expanded);
      var rest := FlatRows(items[1..], key, expanded, start + 1);
      FlatRowsMains(items[1..], key, expanded, start + 1);
      MainsAppend(b, rest);
      assert Mains(b) == [Main(start + 1, items[0])];
    }
  }

  /** The row at position `k` of the table, seen from the first item's block. */
  lemma FlatRowsAt<T, K>(items: seq<T>, key: T -> K, expanded: set<K>, start: nat, k: nat)
    requires items != [] && k < |FlatRows(items, key, expanded, start)|
    ensures var rows := FlatRows(items, key, expanded, start);
      var n := if key(items[0]) in expanded then 2 else 1;
      && (k == 0 ==> rows[k] == Main(start + 1, items[0]))
      && (k == 1 && n == 2 ==> rows[k] == Detail(items[0]))
      && (k >= n ==> rows[k] == FlatRows(items[1..], key, expanded, start + 1)[k - n])
  {
    var b := Block(items[0], start, key, expanded);
    var rest := FlatRows(items[1..], key, expanded, start + 1);
    assert FlatRows(items, key, expanded, start) == b + rest;
    if key(items[0]) in expanded {
      assert b == [Main(start + 1, items[0]), Detail(items[0])];
    } else {
      assert b == [Main(start + 1, items[0])];
    }
  }

  /**
   * A detail row sits immediately after the main row of its own item, and only
   * for an expanded key.
   */
  lemma {:induction false} DetailFollowsMain<T, K>(items: seq<T>, key: T -> K, expanded: set<K>, start: nat, k: nat)
    requires k < |FlatRows(items, key, expanded, start)|
    requires FlatRows(items, key, expanded, start)[k].Detail?
    ensures var rows := FlatRows(items, key, expanded, start);
      0 < k && rows[k - 1].Main? && rows[k - 1].item == rows[k].item && key(rows[k].item) in expanded
  {
    var n := if key(items[0]) in expanded then 2 else 1;
    FlatRowsAt(items, key, expanded, start, k);
    if k > 0 {
      FlatRowsAt(items, key, expanded, start, k - 1);
    }
    if k >= n {
      DetailFollowsMain(items[1..], key, expanded, start + 1, k - n);
    }
  }

  /** A main row is followed by its detail row exactly when the item's key is expanded. */
  lemma {:induction false} MainExpandedIff<T, K>(items: seq<T>, key: T -> K, expanded: set<K>, start: nat, k: nat)
    requires k < |FlatRows(items, key, expanded, start)|
    requires FlatRows(items, key, expanded, start)[k].Main?
    ensures var rows := FlatRows(items, key, expanded, start);
      key(rows[k].item) in expanded <==> k + 1 < |rows| && rows[k + 1] == Detail(rows[k].item)
  {
    var rows := FlatRows(items, key, expanded, start);
    var n := if key(items[0]) in expanded then 2 else 1;
    FlatRowsAt(items, key, expanded, start, k);
    if k + 1 < |rows| {
      FlatRowsAt(items, key, expanded, start, k + 1);
    }
    if k >= n {
      MainExpandedIff(items[1..], key, expanded, start + 1, k - n);
    }
  }
}
