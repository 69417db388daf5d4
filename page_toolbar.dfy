/** The part of a page's toolbar its page uses: the loading indicator and
    disposal, together with the record of what happens on a page. */
module PageToolbar {

  /** One step on a page: the loading indicator is set to `on`, or the
      content panel applies a response. */
  datatype PageEvent = Loading(on: bool) | Applied

  /** The steps taken on one page, in order; the page's toolbar and its
      content panel share one timeline. */
  class Timeline {
    ghost var events: seq<PageEvent>

    constructor()
      ensures events == []
    {
      events := [];
    }

    method Record(e: PageEvent)
      modifies this
      ensures events == old(events) + [e]
    {
      events := events + [e];
    }
  }

  class Toolbar {
    var loading: bool
    var isDisposed: bool
    /** Where every `setLoading` call is recorded. */
    const timeline: Timeline

    constructor(timeline: Timeline)
      ensures !loading && !isDisposed && this.timeline == timeline
    {
      loading := false;
      isDisposed := false;
      this.timeline := timeline;
    }

    method SetLoading(value: bool)
      modifies this, timeline
      ensures loading == value && isDisposed == old(isDisposed)
      ensures timeline.events == old(timeline.events) + [Loading(value)]
    {
      loading := value;
      timeline.Record(Loading(value));
    }

    method Dispose()
      modifies this
      ensures isDisposed && loading == old(loading)
    {
      isDisposed := true;
    }
  }
}
