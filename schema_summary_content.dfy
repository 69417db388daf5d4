/** The schema summary's content (src/schemaSummary/content.tsx): the model
    holding the schema names, the list it renders, and the list's selection. */
module SchemaSummaryContent {
  import opened Wire
  import opened ListEntries

  /** `SchemaSummaryModel`: the schema names and the `navigateToDatabase`
      signal, whose emissions are recorded in `emitted`. */
  class SchemaSummaryModel {
    const schemas: seq<string>
    var emitted: seq<string>
    var isDisposed: bool

    constructor(schemas: seq<string>)
      ensures this.schemas == schemas && emitted == [] && !isDisposed
    {
      this.schemas := schemas;
      emitted := [];
      isDisposed := false;
    }

    /** `onNavigateToDatabase(databaseName)`: emits the name. */
    method OnNavigateToDatabase(databaseName: string)
      modifies this
      ensures emitted == old(emitted) + [databaseName] && isDisposed == old(isDisposed)
    {
      emitted := emitted + [databaseName];
    }

    /** `dispose()` inherited from `VDomModel`; disposing twice is harmless. */
    method Dispose()
      modifies this
      ensures isDisposed && emitted == old(emitted)
    {
      isDisposed := true;
    }
  }

  /** `SchemaList.render()`: a "Databases" header, then one item per schema,
      keyed by its index; the item whose index is `selectedItem` is marked. */
  function RenderSchemaList(schemaNames: seq<string>, selectedItem: Option<int>): (r: seq<Entry>)
    ensures |r| == |schemaNames| + 1 && r[0] == Header("Databases")
    ensures ItemNames(r) == schemaNames
    ensures ItemKeys(r) == Range(0, |schemaNames|)
    ensures SelectedCount(r) == if selectedItem.Some? && 0 <= selectedItem.value < |schemaNames| then 1 else 0
    ensures forall i :: 0 <= i < |schemaNames| ==>
              r[i + 1].Item? && r[i + 1].name == schemaNames[i] && (r[i + 1].selected <==> selectedItem == Some(i))
  {
    var items := Items(schemaNames, 0, selectedItem);
    ItemsFacts(schemaNames, 0, selectedItem);
    ItemNamesAppend([Header("Databases")], items);
    [Header("Databases")] + items
  }

  /** `SchemaSummaryWidget.render()`: nothing without a model. */
  function RenderWidget(model: SchemaSummaryModel?, selectedItem: Option<int>): (r: Option<seq<Entry>>)
    ensures r.None? <==> model == null
    ensures model != null ==> r.value == RenderSchemaList(model.schemas, selectedItem)
  {
    if model == null then None else Some(RenderSchemaList(model.schemas, selectedItem))
  }

  /** `SchemaList`: the rendered list and the index of the clicked item. */
  class SchemaList {
    const schemaNames: seq<string>
    var selectedItem: Option<int>

    constructor(schemaNames: seq<string>)
      ensures this.schemaNames == schemaNames && selectedItem == None
    {
      this.schemaNames := schemaNames;
      selectedItem := None;
    }

    function Render(): seq<Entry>
      reads this
    {
      RenderSchemaList(schemaNames, selectedItem)
    }

    /** A click on item `i` selects it, and only it. */
    method OnDatabaseItemClick(itemNumber: int)
      modifies this
      ensures selectedItem == Some(itemNumber)
      ensures 0 <= itemNumber < |schemaNames| ==> SelectedCount(Render()) == 1 && Render()[itemNumber + 1].selected
    {
      selectedItem := Some(itemNumber);
    }

    /** A double click on item `i` asks the model to navigate to that schema;
        the selection does not change. */
    method OnItemDoubleClick(i: nat, model: SchemaSummaryModel)
      requires i < |schemaNames|
      modifies model
      ensures model.emitted == old(model.emitted) + [schemaNames[i]] && model.isDisposed == old(model.isDisposed)
    {
      model.OnNavigateToDatabase(schemaNames[i]);
    }
  }
}
