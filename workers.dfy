/**
 * The worker proxy's owner bookkeeping. A web worker is listed in its page's worker set, a
 * service worker in its browsing context's service-worker set; when the remote side reports that
 * the worker closed, the proxy deletes itself from whichever set its owner fields name and emits
 * a Close event carrying itself.
 */
module Workers {

  /** The immutable payload of a worker proxy. */
  datatype WorkerInitializer = WorkerInitializer(url: string)

  /** The events a worker proxy emits to its listeners. */
  datatype WorkerEvent = Close(worker: Worker)

  /** A page, seen only through the set of its web workers. */
  class Page {
    var workers: set<Worker>

    constructor ()
      ensures workers == {}
    {
      workers := {};
    }
  }

  /** A browsing context, seen only through the set of its service workers. */
  class BrowserContext {
    var serviceWorkers: set<Worker>

    constructor ()
      ensures serviceWorkers == {}
    {
      serviceWorkers := {};
    }
  }

  class Worker {
    const init: WorkerInitializer
    /** Set by the page for web workers. */
    var page: Page?
    /** Set by the browsing context for service workers. */
    var context: BrowserContext?
    /** The events emitted so far, oldest first. */
    var emitted: seq<WorkerEvent>

    constructor (init: WorkerInitializer)
      ensures this.init == init && page == null && context == null && emitted == []
    {
      this.init := init;
      page := null;
      context := null;
      emitted := [];
    }

    function Url(): (u: string)
      ensures u == init.url
    {
      init.url
    }

    /**
     * The handler of the channel's close notification. It removes this worker, and only this
     * worker, from the owner sets that are set, and emits one Close event. Nothing guards against
     * a repeated notification: the removals are then no-ops, and Close is emitted again.
     */
    method OnClose()
      modifies this`emitted, page, context
      ensures page != null ==> page.workers == old(page.workers) - {this}
      ensures context != null ==> context.serviceWorkers == old(context.serviceWorkers) - {this}
      ensures page != null ==> forall w :: w in old(page.workers) && w != this ==> w in page.workers
      ensures context != null ==> forall w :: w in old(context.serviceWorkers) && w != this ==> w in context.serviceWorkers
      ensures page != null && this !in old(page.workers) ==> page.workers == old(page.workers)
      ensures context != null && this !in old(context.serviceWorkers) ==> context.serviceWorkers == old(context.serviceWorkers)
      ensures emitted == old(emitted) + [Close(this)]
    {
      if page != null {
        page.workers := page.workers - {this};
      }
      if context != null {
        context.serviceWorkers := context.serviceWorkers - {this};
      }
      emitted := emitted + [Close(this)];
    }
  }

  /** A duplicated close notification removes the worker once and emits Close twice. */
  method DuplicateClose(w: Worker)
    modifies w, w.page, w.context
    ensures w.page == old(w.page) && w.context == old(w.context)
    ensures w.page != null ==> w.page.workers == old(w.page.workers) - {w}
    ensures w.context != null ==> w.context.serviceWorkers == old(w.context.serviceWorkers) - {w}
    ensures w.emitted == old(w.emitted) + [Close(w), Close(w)]
  {
    w.OnClose();
    w.OnClose();
  }
}
