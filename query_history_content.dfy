/** The query history's content (src/queryHistory/content.tsx): the list of
    stored queries under a "Queries" header. */
module QueryHistoryContent {
  import opened Wire
  import opened ListEntries
  import HistoryApi

  /** `QueryHistoryModel`: the queries, which nothing changes after construction. */
  datatype QueryHistoryModel = QueryHistoryModel(queries: seq<HistoryApi.QueryMetaData>)

  /** `QueryList.render()`: one item per query, titled and labelled with its text. */
  function QueryItems(queries: seq<HistoryApi.QueryMetaData>): (r: seq<Entry>)
    ensures |r| == |queries|
    ensures forall i :: 0 <= i < |queries| ==> r[i] == QueryItem(queries[i].query, queries[i].query)
  {
    if queries == [] then [] else [QueryItem(queries[0].query, queries[0].query)] + QueryItems(queries[1..])
  }

  /** `QueryHistoryWidget.render()`: nothing without a model; otherwise the
      "Queries" header, then the queries in the model's order. Nothing in it
      can be selected. */
  function RenderWidget(model: Option<QueryHistoryModel>): (r: Option<seq<Entry>>)
    ensures r.None? <==> model.None?
    ensures model.Some? ==>
              && |r.value| == |model.value.queries| + 1
              && r.value[0] == Header("Queries")
              && (forall i :: 0 <= i < |model.value.queries| ==>
                    r.value[i + 1] == QueryItem(model.value.queries[i].query, model.value.queries[i].query))
              && SelectedCount(r.value) == 0 && ItemNames(r.value) == []
  {
    match model
    case None => None
    case Some(m) =>
      var entries := [Header("Queries")] + QueryItems(m.queries);
      NoItems(entries);
      Some(entries)
  }

  /** `QueryList`: it keeps a selection that starts empty, but its items have
      no click handler, so nothing rendered depends on or changes it. */
  class QueryList {
    const queries: seq<HistoryApi.QueryMetaData>
    var selectedItem: Option<int>

    constructor(queries: seq<HistoryApi.QueryMetaData>)
      ensures this.queries == queries && selectedItem == None
    {
      this.queries := queries;
      selectedItem := None;
    }

    /** The list's items: one per query, whatever the selection. */
    function Render(): (r: seq<Entry>)
      reads this
      ensures r == QueryItems(queries) && SelectedCount(r) == 0
    {
      var items := QueryItems(queries);
      NoItems(items);
      items
    }

    /** `onTableItemClick`, which no rendered entry calls. */
    method OnTableItemClick(itemNumber: int)
      modifies this
      ensures selectedItem == Some(itemNumber) && Render() == old(Render())
    {
      selectedItem := Some(itemNumber);
    }
  }
}
