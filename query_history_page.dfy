/** The query history page (src/queryHistory/index.ts): a toolbar and a
    content panel that shows the history of a connection, or the error that
    fetching it gave. */
module QueryHistoryPage {
  import opened Wire
  import HistoryApi
  import opened QueryHistoryContent
  import opened PageToolbar

  /** What the content panel shows: nothing yet, a query list, or a
      `PreWidget` with an error message. */
  datatype View = Empty | QueriesView(model: QueryHistoryModel) | PreView(text: string)

  /** `Content`: the panel of the page. */
  class Content {
    const connectionUrl: string
    /** Where this panel records each response it applies. */
    const timeline: Timeline
    var widget: View
    var isDisposed: bool

    constructor(connectionUrl: string, timeline: Timeline)
      ensures this.connectionUrl == connectionUrl && this.timeline == timeline
      ensures widget == Empty && !isDisposed
    {
      this.connectionUrl := connectionUrl;
      this.timeline := timeline;
      widget := Empty;
      isDisposed := false;
    }

    /** `_setResponse(response)`: queries replace the shown widget with a list
        of exactly those queries, an error with its message, and a success
        without rows leaves the panel as it was. */
    method SetResponse(response: HistoryApi.Response)
      modifies this, timeline
      ensures var before := old(widget);
              widget == HistoryApi.Match(response, (qs: seq<HistoryApi.QueryMetaData>) => QueriesView(QueryHistoryModel(qs)),
                                         () => before, (e: HistoryApi.ErrorData) => PreView(e.message))
      ensures response.Success? && response.success.WithRows? ==>
                widget == QueriesView(QueryHistoryModel(response.success.queries))
      ensures response.Success? && response.success.NoRows? ==> widget == old(widget)
      ensures response.Error? ==> widget == PreView(response.error.message)
      ensures isDisposed == old(isDisposed)
      ensures timeline.events == old(timeline.events) + [Applied]
    {
      match response {
        case Success(data) =>
          if data.HasRows() {
            widget := QueriesView(QueryHistoryModel(data.queries));
          }
        case Error(e) =>
          widget := PreView(e.message);
      }
      timeline.Record(Applied);
    }

    /** `refresh()`: fetches the history of this panel's connection and shows
        the response; `encode` and `makeRequest` stand for
        `encodeURIComponent` and the network. */
    method Refresh(encode: string -> string, makeRequest: Request -> HttpResult<HistoryApi.Response>)
      modifies this, timeline
      ensures var response := HistoryApi.GetQueryHistory(connectionUrl, encode, makeRequest);
              && (response.Success? && response.success.WithRows? ==>
                    widget == QueriesView(QueryHistoryModel(response.success.queries)))
              && (response.Success? && response.success.NoRows? ==> widget == old(widget))
              && (response.Error? ==> widget == PreView(response.error.message))
      ensures isDisposed == old(isDisposed)
      ensures timeline.events == old(timeline.events) + [Applied]
    {
      SetResponse(HistoryApi.GetQueryHistory(connectionUrl, encode, makeRequest));
    }

    /** `dispose()` inherited from the panel. */
    method Dispose()
      modifies this
      ensures isDisposed && widget == old(widget)
    {
      isDisposed := true;
    }
  }

  /** `QueryHistoryPage`. `backButtonClicked` counts the toolbar's back-button
      clicks it proxies; `disposed` is the flag of its `DisposableSet`. No
      refresh button is connected: the history is fetched once, on
      construction. */
  class Page {
    const content: Content
    const toolbar: Toolbar
    var backButtonClicked: nat
    var disposed: bool

    predicate Valid()
      reads this, content, toolbar
    {
      && content.timeline == toolbar.timeline
      && (disposed ==> content.isDisposed && toolbar.isDisposed)
    }

    /** The constructor wires the page up and refreshes once. */
    constructor(connectionUrl: string, encode: string -> string,
                makeRequest: Request -> HttpResult<HistoryApi.Response>)
      ensures Valid() && fresh(content) && fresh(toolbar)
      ensures content.connectionUrl == connectionUrl
      ensures var response := HistoryApi.GetQueryHistory(connectionUrl, encode, makeRequest);
              && (response.Success? && response.success.WithRows? ==>
                    content.widget == QueriesView(QueryHistoryModel(response.success.queries)))
              && (response.Success? && response.success.NoRows? ==> content.widget == Empty)
              && (response.Error? ==> content.widget == PreView(response.error.message))
      ensures toolbar.timeline.events == [Loading(true), Applied, Loading(false)] && !toolbar.loading
      ensures backButtonClicked == 0 && !disposed
    {
      var timeline := new Timeline();
      content := new Content(connectionUrl, timeline);
      toolbar := new Toolbar(timeline);
      backButtonClicked := 0;
      disposed := false;
      new;
      OnRefresh(encode, makeRequest);
    }

    /** `_onRefresh()`: the toolbar shows loading while the panel refreshes,
        so the response is applied between switching loading on and off. */
    method OnRefresh(encode: string -> string, makeRequest: Request -> HttpResult<HistoryApi.Response>)
      requires Valid()
      modifies toolbar, content, toolbar.timeline
      ensures Valid()
      ensures var response := HistoryApi.GetQueryHistory(content.connectionUrl, encode, makeRequest);
              && (response.Success? && response.success.WithRows? ==>
                    content.widget == QueriesView(QueryHistoryModel(response.success.queries)))
              && (response.Success? && response.success.NoRows? ==> content.widget == old(content.widget))
              && (response.Error? ==> content.widget == PreView(response.error.message))
      ensures toolbar.timeline.events == old(toolbar.timeline.events) + [Loading(true), Applied, Loading(false)]
      ensures !toolbar.loading
      ensures content.isDisposed == old(content.isDisposed) && toolbar.isDisposed == old(toolbar.isDisposed)
    {
      toolbar.SetLoading(true);
      content.Refresh(encode, makeRequest);
      toolbar.SetLoading(false);
    }

    /** The toolbar's back button: the page re-emits `backButtonClicked`. */
    method BackButtonClicked()
      modifies this
      ensures backButtonClicked == old(backButtonClicked) + 1 && disposed == old(disposed)
    {
      backButtonClicked := backButtonClicked + 1;
    }

    /** `dispose()`: the first call disposes the panel, then the toolbar;
        later calls do nothing. */
    method Dispose()
      requires Valid()
      modifies this, toolbar, content
      ensures Valid() && disposed && content.isDisposed && toolbar.isDisposed
      ensures content.widget == old(content.widget)
      ensures old(disposed) ==> unchanged(this, content, toolbar)
      ensures backButtonClicked == old(backButtonClicked)
    {
      if disposed {
        return;
      }
      disposed := true;
      content.Dispose();
      toolbar.Dispose();
    }
  }
}
