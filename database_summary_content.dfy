/** The database summary's content (src/databaseSummary/content.tsx): the
    model holding table and view names, the list it renders, and the list's
    selection. */
module DatabaseSummaryContent {
  import opened Wire
  import opened ListEntries

  /** `DatabaseSummaryModel`: the table and view names and its three signals;
      emissions of `navigateToTable` are recorded in order, the two `void`
      signals are counted. */
  class DatabaseSummaryModel {
    const tables: seq<string>
    const views: seq<string>
    var tableNavigations: seq<string>
    var customQueryNavigations: nat
    var historyNavigations: nat
    var isDisposed: bool

    constructor(tables: seq<string>, views: seq<string>)
      ensures this.tables == tables && this.views == views
      ensures tableNavigations == [] && customQueryNavigations == 0 && historyNavigations == 0 && !isDisposed
    {
      this.tables := tables;
      this.views := views;
      tableNavigations := [];
      customQueryNavigations := 0;
      historyNavigations := 0;
      isDisposed := false;
    }

    method OnNavigateToTable(tableName: string)
      modifies this
      ensures tableNavigations == old(tableNavigations) + [tableName]
      ensures customQueryNavigations == old(customQueryNavigations) && historyNavigations == old(historyNavigations)
      ensures isDisposed == old(isDisposed)
    {
      tableNavigations := tableNavigations + [tableName];
    }

    method OnNavigateToCustomQuery()
      modifies this
      ensures customQueryNavigations == old(customQueryNavigations) + 1
      ensures tableNavigations == old(tableNavigations) && historyNavigations == old(historyNavigations)
      ensures isDisposed == old(isDisposed)
    {
      customQueryNavigations := customQueryNavigations + 1;
    }

    method OnNavigateToQueryHistory()
      modifies this
      ensures historyNavigations == old(historyNavigations) + 1
      ensures tableNavigations == old(tableNavigations) && customQueryNavigations == old(customQueryNavigations)
      ensures isDisposed == old(isDisposed)
    {
      historyNavigations := historyNavigations + 1;
    }

    method Dispose()
      modifies this
      ensures isDisposed
      ensures tableNavigations == old(tableNavigations)
      ensures customQueryNavigations == old(customQueryNavigations) && historyNavigations == old(historyNavigations)
    {
      isDisposed := true;
    }
  }

  /** The fixed entries at the top of the list. */
  const ActionEntries: seq<Entry> :=
    [Header("Actions"), ActionItem("Custom SQL query"), ActionItem("History"), Header("Tables")]

  /** The views' part of the list: empty when there are no views. */
  function ViewPart(viewNames: seq<string>, offset: int, selectedItem: Option<int>): seq<Entry> {
    if |viewNames| > 0 then [Header("Views")] + Items(viewNames, offset, selectedItem) else []
  }

  lemma ViewPartFacts(viewNames: seq<string>, offset: int, selectedItem: Option<int>)
    ensures var v := ViewPart(viewNames, offset, selectedItem);
            && |v| == (if |viewNames| > 0 then 1 + |viewNames| else 0)
            && (|viewNames| > 0 ==> v[0] == Header("Views"))
            && ItemNames(v) == viewNames
            && ItemKeys(v) == Range(offset, |viewNames|)
            && SelectedCount(v) == if selectedItem.Some? && offset <= selectedItem.value < offset + |viewNames| then 1 else 0
  {
    var items := Items(viewNames, offset, selectedItem);
    ItemsFacts(viewNames, offset, selectedItem);
    if |viewNames| > 0 {
      NoItems([Header("Views")]);
      ItemNamesAppend([Header("Views")], items);
      assert ViewPart(viewNames, offset, selectedItem)[0] == Header("Views");
    }
  }

  lemma TablePartFacts(tableNames: seq<string>, selectedItem: Option<int>)
    ensures var t := ActionEntries + Items(tableNames, 0, selectedItem);
            && t[..4] == ActionEntries && |t| == 4 + |tableNames|
            && ItemNames(t) == tableNames
            && ItemKeys(t) == Range(0, |tableNames|)
            && SelectedCount(t) == if selectedItem.Some? && 0 <= selectedItem.value < |tableNames| then 1 else 0
  {
    NoItems(ActionEntries);
    AfterNonItems(ActionEntries, tableNames, selectedItem);
  }

  /** Entries without items, followed by the items keyed from 0. */
  lemma AfterNonItems(p: seq<Entry>, names: seq<string>, selectedItem: Option<int>)
    requires ItemNames(p) == [] && ItemKeys(p) == [] && SelectedCount(p) == 0
    ensures var t := p + Items(names, 0, selectedItem);
            && t[..|p|] == p && |t| == |p| + |names|
            && ItemNames(t) == names
            && ItemKeys(t) == Range(0, |names|)
            && SelectedCount(t) == if selectedItem.Some? && 0 <= selectedItem.value < |names| then 1 else 0
  {
    var items := Items(names, 0, selectedItem);
    ItemsFacts(names, 0, selectedItem);
    ItemNamesAppend(p, items);
    assert (p + items)[..|p|] == p;
  }

  /** The table part followed by the views part has the facts of both. */
  lemma JoinParts(t: seq<Entry>, v: seq<Entry>, tableNames: seq<string>, viewNames: seq<string>, selectedItem: Option<int>)
    requires |t| == 4 + |tableNames| && t[..4] == ActionEntries
    requires ItemNames(t) == tableNames && ItemKeys(t) == Range(0, |tableNames|)
    requires SelectedCount(t) == if selectedItem.Some? && 0 <= selectedItem.value < |tableNames| then 1 else 0
    requires |v| == (if |viewNames| > 0 then 1 + |viewNames| else 0)
    requires |viewNames| > 0 ==> v[0] == Header("Views")
    requires ItemNames(v) == viewNames && ItemKeys(v) == Range(|tableNames|, |viewNames|)
    requires SelectedCount(v) == if selectedItem.Some? && |tableNames| <= selectedItem.value < |tableNames| + |viewNames| then 1 else 0
    ensures |t + v| == 4 + |tableNames| + (if |viewNames| > 0 then 1 + |viewNames| else 0)
    ensures (t + v)[..4] == ActionEntries
    ensures |viewNames| > 0 ==> (t + v)[4 + |tableNames|] == Header("Views")
    ensures ItemNames(t + v) == tableNames + viewNames
    ensures ItemKeys(t + v) == Range(0, |tableNames| + |viewNames|)
    ensures SelectedCount(t + v)
         == if selectedItem.Some? && 0 <= selectedItem.value < |tableNames| + |viewNames| then 1 else 0
  {
    ItemNamesAppend(t, v);
    RangeAppend(0, |tableNames|, |viewNames|);
    assert (t + v)[..4] == t[..4];
    if |viewNames| > 0 {
      assert (t + v)[|t|] == v[0];
    }
  }

  /** The items placed after a prefix keep their keys, names and marks. */
  lemma ItemsAfter(p: seq<Entry>, names: seq<string>, offset: int, selectedItem: Option<int>, q: seq<Entry>)
    ensures forall i {:trigger names[i]} :: 0 <= i < |names| ==>
              (p + Items(names, offset, selectedItem) + q)[|p| + i] == Item(offset + i, names[i], selectedItem == Some(offset + i))
  {
    var items := Items(names, offset, selectedItem);
    forall i | 0 <= i < |names|
      ensures (p + items + q)[|p| + i] == Item(offset + i, names[i], selectedItem == Some(offset + i))
    {
      assert (p + items + q)[|p| + i] == items[i];
    }
  }

  /** The views placed after any prefix and the "Views" header keep their
      keys, names and marks. */
  lemma ViewsAfter(t: seq<Entry>, viewNames: seq<string>, offset: int, selectedItem: Option<int>)
    ensures forall j {:trigger viewNames[j]} :: 0 <= j < |viewNames| ==>
              (t + ViewPart(viewNames, offset, selectedItem))[|t| + 1 + j]
              == Item(offset + j, viewNames[j], selectedItem == Some(offset + j))
  {
    var v := ViewPart(viewNames, offset, selectedItem);
    forall j | 0 <= j < |viewNames|
      ensures (t + v)[|t| + 1 + j] == Item(offset + j, viewNames[j], selectedItem == Some(offset + j))
    {
      var views := Items(viewNames, offset, selectedItem);
      assert v == [Header("Views")] + views;
      assert (t + v)[|t| + 1 + j] == views[j];
    }
  }

  /** Entry by entry: the table keyed `i` sits just after the prefix, and
      the view keyed `|tableNames| + j` after the "Views" header; each is
      marked exactly when its key is the selection. */
  lemma PartsAfter(p: seq<Entry>, tableNames: seq<string>, viewNames: seq<string>, selectedItem: Option<int>)
    ensures var r := p + Items(tableNames, 0, selectedItem) + ViewPart(viewNames, |tableNames|, selectedItem);
            && (forall i {:trigger tableNames[i]} :: 0 <= i < |tableNames| ==>
                  r[|p| + i] == Item(i, tableNames[i], selectedItem == Some(i)))
            && (forall j {:trigger viewNames[j]} :: 0 <= j < |viewNames| ==>
                  r[|p| + |tableNames| + 1 + j] == Item(|tableNames| + j, viewNames[j], selectedItem == Some(|tableNames| + j)))
  {
    var t := p + Items(tableNames, 0, selectedItem);
    ItemsAfter(p, tableNames, 0, selectedItem, ViewPart(viewNames, |tableNames|, selectedItem));
    ViewsAfter(t, viewNames, |tableNames|, selectedItem);
    assert |t| == |p| + |tableNames|;
  }

  /** `TableList.render()`: the actions, the tables, then (only when there
      are views) a "Views" header and the views, keyed after the tables. */
  function RenderTableList(tableNames: seq<string>, viewNames: seq<string>, selectedItem: Option<int>): (r: seq<Entry>)
    ensures |r| == 4 + |tableNames| + (if |viewNames| > 0 then 1 + |viewNames| else 0)
    ensures r[..4] == ActionEntries
    ensures |viewNames| > 0 ==> r[4 + |tableNames|] == Header("Views")
    ensures ItemNames(r) == tableNames + viewNames
    ensures ItemKeys(r) == Range(0, |tableNames| + |viewNames|)
    ensures SelectedCount(r)
         == if selectedItem.Some? && 0 <= selectedItem.value < |tableNames| + |viewNames| then 1 else 0
    ensures forall i {:trigger tableNames[i]} :: 0 <= i < |tableNames| ==>
              r[4 + i] == Item(i, tableNames[i], selectedItem == Some(i))
    ensures forall j {:trigger viewNames[j]} :: 0 <= j < |viewNames| ==>
              r[5 + |tableNames| + j] == Item(|tableNames| + j, viewNames[j], selectedItem == Some(|tableNames| + j))
  {
    var t := ActionEntries + Items(tableNames, 0, selectedItem);
    var v := ViewPart(viewNames, |tableNames|, selectedItem);
    PartsAfter(ActionEntries, tableNames, viewNames, selectedItem);
    TablePartFacts(tableNames, selectedItem);
    ViewPartFacts(viewNames, |tableNames|, selectedItem);
    JoinParts(t, v, tableNames, viewNames, selectedItem);
    t + v
  }

  /** `DatabaseSummaryWidget.render()`: nothing without a model. */
  function RenderWidget(model: DatabaseSummaryModel?, selectedItem: Option<int>): (r: Option<seq<Entry>>)
    ensures r.None? <==> model == null
    ensures model != null ==> r.value == RenderTableList(model.tables, model.views, selectedItem)
  {
    if model == null then None else Some(RenderTableList(model.tables, model.views, selectedItem))
  }

  /** `TableList`: the rendered list and the key of the clicked item. */
  class TableList {
    const tableNames: seq<string>
    const viewNames: seq<string>
    var selectedItem: Option<int>

    constructor(tableNames: seq<string>, viewNames: seq<string>)
      ensures this.tableNames == tableNames && this.viewNames == viewNames && selectedItem == None
    {
      this.tableNames := tableNames;
      this.viewNames := viewNames;
      selectedItem := None;
    }

    function Render(): seq<Entry>
      reads this
    {
      RenderTableList(tableNames, viewNames, selectedItem)
    }

    /** `onTableItemClick(itemNumber)`: tables and views share one selection. */
    method OnTableItemClick(itemNumber: int)
      modifies this
      ensures selectedItem == Some(itemNumber)
      ensures 0 <= itemNumber < |tableNames| + |viewNames| ==> SelectedCount(Render()) == 1
      ensures 0 <= itemNumber < |tableNames| ==> Render()[4 + itemNumber] == Item(itemNumber, tableNames[itemNumber], true)
      ensures |tableNames| <= itemNumber < |tableNames| + |viewNames| ==>
                Render()[5 + itemNumber] == Item(itemNumber, viewNames[itemNumber - |tableNames|], true)
    {
      selectedItem := Some(itemNumber);
    }

    /** A double click on the item keyed `i` navigates to that table or view. */
    method OnItemDoubleClick(i: nat, model: DatabaseSummaryModel)
      requires i < |tableNames| + |viewNames|
      modifies model
      ensures model.tableNavigations == old(model.tableNavigations) + [(tableNames + viewNames)[i]]
      ensures model.customQueryNavigations == old(model.customQueryNavigations)
      ensures model.historyNavigations == old(model.historyNavigations)
      ensures model.isDisposed == old(model.isDisposed)
    {
      if i < |tableNames| {
        model.OnNavigateToTable(tableNames[i]);
      } else {
        model.OnNavigateToTable(viewNames[i - |tableNames|]);
      }
    }

    /** The "Custom SQL query" action item asks the model for the query editor. */
    method OnCustomQueryClick(model: DatabaseSummaryModel)
      modifies model
      ensures model.customQueryNavigations == old(model.customQueryNavigations) + 1
      ensures model.tableNavigations == old(model.tableNavigations)
      ensures model.historyNavigations == old(model.historyNavigations)
      ensures selectedItem == old(selectedItem)
    {
      model.OnNavigateToCustomQuery();
    }

    /** The "History" action item asks the model for the query history. */
    method OnHistoryClick(model: DatabaseSummaryModel)
      modifies model
      ensures model.historyNavigations == old(model.historyNavigations) + 1
      ensures model.tableNavigations == old(model.tableNavigations)
      ensures model.customQueryNavigations == old(model.customQueryNavigations)
      ensures selectedItem == old(selectedItem)
    {
      model.OnNavigateToQueryHistory();
    }
  }
}
