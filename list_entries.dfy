/** The entries the three summary widgets render into their `<ul>`, and the
    selection markings on them. */
module ListEntries {
  import opened Wire

  /** One rendered entry: a `ListHeader`, an action item (custom query,
      history), a selectable list item (`key`, title and text `name`,
      `jp-mod-selected` when `selected`), or a query-history item. */
  datatype Entry =
    | Header(text: string)
    | ActionItem(title: string)
    | Item(key: int, name: string, selected: bool)
    | QueryItem(title: string, text: string)

  /** `names.map((name, i) => <Item key={offset + i} selected={offset + i === selectedItem} />)`. */
  function Items(names: seq<string>, offset: int, selectedItem: Option<int>): (r: seq<Entry>)
    ensures |r| == |names|
    ensures forall i :: 0 <= i < |names| ==> r[i] == Item(offset + i, names[i], selectedItem == Some(offset + i))
  {
    if names == [] then [] else [Item(offset, names[0], selectedItem == Some(offset))] + Items(names[1..], offset + 1, selectedItem)
  }

  /** The names of the selectable items, in display order. */
  function ItemNames(entries: seq<Entry>): seq<string> {
    if entries == [] then []
    else (if entries[0].Item? then [entries[0].name] else []) + ItemNames(entries[1..])
  }

  /** The keys of the selectable items, in display order. */
  function ItemKeys(entries: seq<Entry>): seq<int> {
    if entries == [] then []
    else (if entries[0].Item? then [entries[0].key] else []) + ItemKeys(entries[1..])
  }

  /** How many entries are marked selected. */
  function SelectedCount(entries: seq<Entry>): nat {
    if entries == [] then 0
    else (if entries[0].Item? && entries[0].selected then 1 else 0) + SelectedCount(entries[1..])
  }

  lemma {:induction false} NamesAppend(a: seq<Entry>, b: seq<Entry>)
    ensures ItemNames(a + b) == ItemNames(a) + ItemNames(b)
  {
    if a == [] {
      assert a + b == b;
    } else {
      assert (a + b)[0] == a[0];
      assert (a + b)[1..] == a[1..] + b;
      NamesAppend(a[1..], b);
    }
  }

  lemma {:induction false} KeysAppend(a: seq<Entry>, b: seq<Entry>)
    ensures ItemKeys(a + b) == ItemKeys(a) + ItemKeys(b)
  {
    if a == [] {
      assert a + b == b;
    } else {
      assert (a + b)[0] == a[0];
      assert (a + b)[1..] == a[1..] + b;
      KeysAppend(a[1..], b);
    }
  }

  lemma {:induction false} SelectedAppend(a: seq<Entry>, b: seq<Entry>)
    ensures SelectedCount(a + b) == SelectedCount(a) + SelectedCount(b)
  {
    if a == [] {
      assert a + b == b;
    } else {
      assert (a + b)[0] == a[0];
      assert (a + b)[1..] == a[1..] + b;
      SelectedAppend(a[1..], b);
    }
  }

  /** Names, keys and selections of a concatenation are those of its parts. */
  lemma ItemNamesAppend(a: seq<Entry>, b: seq<Entry>)
    ensures ItemNames(a + b) == ItemNames(a) + ItemNames(b)
    ensures ItemKeys(a + b) == ItemKeys(a) + ItemKeys(b)
    ensures SelectedCount(a + b) == SelectedCount(a) + SelectedCount(b)
  {
    NamesAppend(a, b);
    KeysAppend(a, b);
    SelectedAppend(a, b);
  }

  /** Item keys run from `offset` upwards. */
  function Range(offset: int, n: nat): (r: seq<int>)
    ensures |r| == n && forall i :: 0 <= i < n ==> r[i] == offset + i
  {
    seq(n, i => offset + i)
  }

  /** Two adjacent key ranges make one. */
  lemma RangeAppend(offset: int, m: nat, n: nat)
    ensures Range(offset, m) + Range(offset + m, n) == Range(offset, m + n)
  {
    var a, b, c := Range(offset, m), Range(offset + m, n), Range(offset, m + n);
    assert forall i :: 0 <= i < m + n ==> (a + b)[i] == c[i];
  }

  /** The items list every name once, in order, keyed by its position from
      `offset`; exactly the item keyed `selectedItem` is marked, if any is. */
  lemma {:induction false} ItemsFacts(names: seq<string>, offset: int, selectedItem: Option<int>)
    ensures ItemNames(Items(names, offset, selectedItem)) == names
    ensures ItemKeys(Items(names, offset, selectedItem)) == Range(offset, |names|)
    ensures SelectedCount(Items(names, offset, selectedItem))
         == if selectedItem.Some? && offset <= selectedItem.value < offset + |names| then 1 else 0
    decreases |names|
  {
    if names != [] {
      var r := Items(names, offset, selectedItem);
      assert r[1..] == Items(names[1..], offset + 1, selectedItem);
      ItemsFacts(names[1..], offset + 1, selectedItem);
      assert [names[0]] + names[1..] == names;
      assert Range(offset, |names|) == [offset] + Range(offset + 1, |names| - 1);
    }
  }

  /** Entries that are not items contribute nothing to names, keys or selection. */
  lemma NoItems(entries: seq<Entry>)
    requires forall i :: 0 <= i < |entries| ==> !entries[i].Item?
    ensures ItemNames(entries) == [] && ItemKeys(entries) == [] && SelectedCount(entries) == 0
  {
    if entries != [] {
      NoItems(entries[1..]);
    }
  }
}
