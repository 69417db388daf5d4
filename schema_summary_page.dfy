/** The schema summary page (src/schemaSummary/index.ts): a toolbar and a
    content panel that shows the schemas of a connection, or the error that
    fetching them gave, and relays the model's navigation requests. */
module SchemaSummaryPage {
  import opened Wire
  import SchemaStructureApi
  import opened SchemaSummaryContent
  import opened PageToolbar

  /** What the content panel shows: nothing yet, the schema list of a model,
      or a `PreWidget` with an error message. */
  datatype View = Empty | SummaryView(model: SchemaSummaryModel) | PreView(text: string)

  /** `Content`: the panel of the page. `connections` holds the models whose
      `navigateToDatabase` signal is connected to the panel's relay. */
  class Content {
    const connectionUrl: string
    /** Where this panel records each response it applies. */
    const timeline: Timeline
    var widget: View
    var schemaSummaryModel: SchemaSummaryModel?
    var connections: set<SchemaSummaryModel>
    var navigateToDatabase: seq<string>
    var isDisposed: bool

    /** Only the recorded model can relay, and only while it is not disposed;
        a shown summary is the recorded model's. */
    predicate Valid()
      reads this, schemaSummaryModel
    {
      && connections == (if schemaSummaryModel != null && !schemaSummaryModel.isDisposed then {schemaSummaryModel} else {})
      && (widget.SummaryView? ==> widget.model == schemaSummaryModel)
    }

    /** The panel shows what `response` holds. */
    predicate Shows(response: SchemaStructureApi.Response)
      reads this
    {
      match response
      case Success(data) => widget.SummaryView? && widget.model.schemas == data.schemas
      case Error(e) => widget == PreView(e.message)
    }

    constructor(connectionUrl: string, timeline: Timeline)
      ensures Valid() && this.connectionUrl == connectionUrl && this.timeline == timeline
      ensures widget == Empty && schemaSummaryModel == null && connections == {}
      ensures navigateToDatabase == [] && !isDisposed
    {
      this.connectionUrl := connectionUrl;
      this.timeline := timeline;
      widget := Empty;
      schemaSummaryModel := null;
      connections := {};
      navigateToDatabase := [];
      isDisposed := false;
    }

    /** `_disposeWidgets()`: disconnects and disposes the recorded model, which
        stays recorded. */
    method DisposeWidgets()
      requires Valid()
      modifies this, schemaSummaryModel
      ensures Valid() && connections == {}
      ensures schemaSummaryModel == old(schemaSummaryModel)
      ensures schemaSummaryModel != null ==> schemaSummaryModel.isDisposed
                                             && schemaSummaryModel.emitted == old(schemaSummaryModel.emitted)
      ensures widget == old(widget) && navigateToDatabase == old(navigateToDatabase) && isDisposed == old(isDisposed)
    {
      if schemaSummaryModel != null {
        connections := connections - {schemaSummaryModel};
        schemaSummaryModel.Dispose();
      }
    }

    /** `_setResponse(response)`: the old model is retired; a success shows a
        new model over a copy of the schema list and connects only that
        model; an error shows its message and leaves no model connected. */
    method SetResponse(response: SchemaStructureApi.Response)
      requires Valid()
      modifies this, schemaSummaryModel, timeline
      ensures Valid() && Shows(response)
      ensures timeline.events == old(timeline.events) + [Applied]
      ensures old(schemaSummaryModel) != null ==> old(schemaSummaryModel).isDisposed
      ensures response.Success? ==> && schemaSummaryModel != null && fresh(schemaSummaryModel)
                                    && connections == {schemaSummaryModel}
                                    && widget == SummaryView(schemaSummaryModel)
      ensures response.Error? ==> schemaSummaryModel == old(schemaSummaryModel) && connections == {}
      ensures navigateToDatabase == old(navigateToDatabase) && isDisposed == old(isDisposed)
    {
      DisposeWidgets();
      match response {
        case Success(data) =>
          var model := new SchemaSummaryModel(data.schemas);
          widget := SummaryView(model);
          connections := connections + {model};
          schemaSummaryModel := model;
        case Error(e) =>
          widget := PreView(e.message);
      }
      timeline.Record(Applied);
    }

    /** `refresh()`: fetches the schemas of this panel's connection and shows
        the response; `stringify` and `makeRequest` stand for `JSON.stringify`
        and the network. */
    method Refresh(stringify: Json -> string,
                   makeRequest: Request -> HttpResult<SchemaStructureApi.Response>)
      requires Valid()
      modifies this, schemaSummaryModel, timeline
      ensures Valid() && Shows(SchemaStructureApi.GetSchemaStructure(connectionUrl, stringify, makeRequest))
      ensures timeline.events == old(timeline.events) + [Applied]
      ensures old(schemaSummaryModel) != null ==> old(schemaSummaryModel).isDisposed
      ensures navigateToDatabase == old(navigateToDatabase) && isDisposed == old(isDisposed)
    {
      SetResponse(SchemaStructureApi.GetSchemaStructure(connectionUrl, stringify, makeRequest));
    }

    /** Model `m` emits `navigateToDatabase(databaseName)`: the panel re-emits
        it exactly when `m` is connected. */
    method ModelNavigates(m: SchemaSummaryModel, databaseName: string)
      requires Valid()
      modifies m, this
      ensures Valid()
      ensures m.emitted == old(m.emitted) + [databaseName]
      ensures navigateToDatabase == old(navigateToDatabase) + (if m in old(connections) then [databaseName] else [])
      ensures widget == old(widget) && schemaSummaryModel == old(schemaSummaryModel) && connections == old(connections)
      ensures isDisposed == old(isDisposed)
    {
      m.OnNavigateToDatabase(databaseName);
      if m in connections {
        navigateToDatabase := navigateToDatabase + [databaseName];
      }
    }

    /** `dispose()`: retires the model, then disposes the panel. */
    method Dispose()
      requires Valid()
      modifies this, schemaSummaryModel
      ensures Valid() && isDisposed && connections == {}
      ensures schemaSummaryModel == old(schemaSummaryModel)
      ensures schemaSummaryModel != null ==> schemaSummaryModel.isDisposed
      ensures navigateToDatabase == old(navigateToDatabase)
    {
      DisposeWidgets();
      isDisposed := true;
    }
  }

  /** `SchemaSummaryPage`. Its `navigateToDatabase` signal proxies the
      panel's; `navigateBack` counts the toolbar's back-button clicks it
      proxies; `disposed` is the flag of its `DisposableSet`. */
  class Page {
    const content: Content
    const toolbar: Toolbar
    var navigateBack: nat
    var disposed: bool

    predicate Valid()
      reads this, content, content.schemaSummaryModel, toolbar
    {
      && content.Valid()
      && content.timeline == toolbar.timeline
      && (disposed ==> content.isDisposed && toolbar.isDisposed)
    }

    /** The constructor wires the page up and refreshes once. */
    constructor(connectionUrl: string, stringify: Json -> string,
                makeRequest: Request -> HttpResult<SchemaStructureApi.Response>)
      ensures Valid() && fresh(content) && fresh(toolbar)
      ensures content.connectionUrl == connectionUrl
      ensures content.Shows(SchemaStructureApi.GetSchemaStructure(connectionUrl, stringify, makeRequest))
      ensures toolbar.timeline.events == [Loading(true), Applied, Loading(false)] && !toolbar.loading
      ensures content.navigateToDatabase == [] && navigateBack == 0 && !disposed
    {
      var timeline := new Timeline();
      content := new Content(connectionUrl, timeline);
      toolbar := new Toolbar(timeline);
      navigateBack := 0;
      disposed := false;
      new;
      OnRefresh(stringify, makeRequest);
    }

    /** `_onRefresh()`: the toolbar shows loading while the panel refreshes,
        so the response is applied between switching loading on and off. */
    method OnRefresh(stringify: Json -> string,
                     makeRequest: Request -> HttpResult<SchemaStructureApi.Response>)
      requires Valid()
      modifies toolbar, content, content.schemaSummaryModel, toolbar.timeline
      ensures Valid()
      ensures content.Shows(SchemaStructureApi.GetSchemaStructure(content.connectionUrl, stringify, makeRequest))
      ensures toolbar.timeline.events == old(toolbar.timeline.events) + [Loading(true), Applied, Loading(false)]
      ensures !toolbar.loading
      ensures content.navigateToDatabase == old(content.navigateToDatabase)
      ensures content.isDisposed == old(content.isDisposed) && toolbar.isDisposed == old(toolbar.isDisposed)
    {
      toolbar.SetLoading(true);
      content.Refresh(stringify, makeRequest);
      toolbar.SetLoading(false);
    }

    /** The toolbar's refresh button is connected to `_onRefresh`. */
    method RefreshButtonClicked(stringify: Json -> string,
                                makeRequest: Request -> HttpResult<SchemaStructureApi.Response>)
      requires Valid()
      modifies toolbar, content, content.schemaSummaryModel, toolbar.timeline
      ensures Valid()
      ensures content.Shows(SchemaStructureApi.GetSchemaStructure(content.connectionUrl, stringify, makeRequest))
      ensures toolbar.timeline.events == old(toolbar.timeline.events) + [Loading(true), Applied, Loading(false)]
      ensures !toolbar.loading
    {
      OnRefresh(stringify, makeRequest);
    }

    /** The toolbar's back button: the page re-emits `navigateBack`. */
    method BackButtonClicked()
      modifies this
      ensures navigateBack == old(navigateBack) + 1 && disposed == old(disposed)
    {
      navigateBack := navigateBack + 1;
    }

    /** `dispose()`: the first call disposes the panel, then the toolbar;
        later calls do nothing. */
    method Dispose()
      requires Valid()
      modifies this, toolbar, content, content.schemaSummaryModel
      ensures Valid() && disposed && content.isDisposed && toolbar.isDisposed
      ensures !old(disposed) ==> content.connections == {}
      ensures old(disposed) ==> unchanged(this, content, toolbar)
      ensures navigateBack == old(navigateBack)
    {
      if disposed {
        return;
      }
      disposed := true;
      content.Dispose();
      toolbar.Dispose();
    }
  }
}
