/**
 * The `LodScrolJS` class: an infinite-scroll trigger bound to the window or
 * to one element. Construction validates the options, stores the defaults,
 * binds the scroll handler once and registers it; the handler starts one
 * `loadMore` call at a time when the container is scrolled near its end;
 * the completion callback releases it; `destroy()` unregisters the handler.
 */
module LodScrol {
  import opened Wrappers
  import opened Dom
  import opened Options
  import Machine

  /**
   * The only change construction makes outside the new instance: `h` is
   * added to the scroll listeners of the container the options name (the
   * window unless they name an element), and nothing else changes there.
   */
  twostate predicate Registered(options: LoaderOptions, w: Window, new h: Handler)
    reads w, options.container.Elements()
  {
    match options.container
    case ElementArg(e) =>
      && e.scrollListeners == old(e.scrollListeners) + {h}
      && e.Metrics() == old(e.Metrics())
      && w.scrollListeners == old(w.scrollListeners)
    case _ => w.scrollListeners == old(w.scrollListeners) + {h}
  }

  class ScrollLoader {
    /** The global the source compares the container against. */
    const window: Window
    const container: Container
    const loadMore: LoaderFn
    const threshold: int
    /** `this.onScroll`: the handler bound once, at construction. */
    const onScroll: Handler
    var isLoading: bool
    /** How many times `loadMore` has been invoked. */
    ghost var loads: nat

    /** The object whose listener registration `init` and `destroy` change. */
    ghost function Owner(): set<object>
      reads this
    {
      if container.WindowContainer? then {window} else {container.element}
    }

    /** The scroll listeners of the container. */
    function Listeners(): set<Handler>
      reads this, window, container.Elements()
    {
      match container
      case WindowContainer => window.scrollListeners
      case ElementContainer(e) => e.scrollListeners
    }

    ghost predicate Attached()
      reads this, window, container.Elements()
    {
      onScroll in Listeners()
    }

    /** The instance's state as the value that module Machine reasons about. */
    ghost function State(): Machine.State
      reads this, window, container.Elements()
    {
      Machine.State(isLoading, Attached(), loads)
    }

    /**
     * The element the three scroll readouts come from: the document's root
     * element when the container is the window, the container otherwise.
     */
    function MetricsSource(): (e: Element)
      reads this
      ensures container.WindowContainer? ==> e == window.documentElement
      ensures container.ElementContainer? ==> e == container.element
    {
      if container.WindowContainer? then window.documentElement else container.element
    }

    /**
     * `new LodScrolJS(options)`: throws the first validation error before
     * storing or registering anything; otherwise yields a fresh, idle
     * instance whose handler is registered on its container.
     */
    static method Create(options: LoaderOptions, w: Window) returns (r: Result<ScrollLoader, Error>)
      modifies w, options.container.Elements()
      ensures r.Failure? <==> Validate(options).Some?
      ensures r.Failure? ==> Validate(options) == Some(r.error)
      ensures r.Failure? ==> unchanged(w) && unchanged(options.container.Elements())
      ensures r.Success? ==> fresh(r.value) && fresh(r.value.onScroll)
      ensures r.Success? ==> Configure(options) == Success(Config(r.value.container, r.value.loadMore, r.value.threshold))
      ensures r.Success? ==> r.value.window == w && r.value.State() == Machine.Initial
      ensures r.Success? ==> Registered(options, w, r.value.onScroll)
    {
      match Validate(options)
      case Some(e) =>
        r := Failure(e);
      case None =>
        var loader := new ScrollLoader(options, w);
        r := Success(loader);
    }

    /** The constructor's work after `validateOptions` has passed. */
    constructor (options: LoaderOptions, w: Window)
      requires Validate(options).None?
      modifies w, options.container.Elements()
      ensures window == w && container == ContainerOf(options.container)
      ensures loadMore == options.loadMore.fn && threshold == ThresholdOf(options.threshold)
      ensures fresh(onScroll) && !isLoading && loads == 0
      ensures Registered(options, w, onScroll)
    {
      window := w;
      container := ContainerOf(options.container);
      loadMore := options.loadMore.fn;
      threshold := ThresholdOf(options.threshold);
      isLoading := false;
      loads := 0;
      onScroll := new Handler();
      new;
      Init();
    }

    /** `init()`: registers the stored handler on the container. */
    method Init()
      modifies Owner()
      ensures Listeners() == old(Listeners()) + {onScroll}
      ensures container.ElementContainer? ==> container.element.Metrics() == old(container.element.Metrics())
      ensures State() == old(State()).(attached := true)
    {
      match container
      case WindowContainer => window.AddEventListener(onScroll);
      case ElementContainer(e) => e.AddEventListener(onScroll);
    }

    /**
     * `handleScroll()`: returns at once while loading; otherwise reads the
     * metrics and, when near the end, sets `isLoading` and then invokes
     * `loadMore` once (the increment of `loads`).
     */
    method HandleScroll()
      modifies this`isLoading, this`loads
      ensures State() == Machine.OnScroll(old(State()), MetricsSource().Metrics(), threshold)
    {
      if isLoading {
        return;
      }
      var scrollTop, scrollHeight, clientHeight;
      if container == WindowContainer {
        scrollTop := window.documentElement.scrollTop;
        scrollHeight := window.documentElement.scrollHeight;
        clientHeight := window.documentElement.clientHeight;
      } else {
        var containerElement := container.element;
        scrollTop := containerElement.scrollTop;
        scrollHeight := containerElement.scrollHeight;
        clientHeight := containerElement.clientHeight;
      }
      if scrollHeight - scrollTop <= clientHeight + threshold {
        isLoading := true;
        loads := loads + 1;
      }
    }

    /**
     * The host delivering one scroll notification on the container: the
     * handler runs if and only if it is still registered there.
     */
    method ScrollNotification()
      modifies this`isLoading, this`loads
      ensures State() == Machine.Step(old(State()), Machine.Scroll(MetricsSource().Metrics()), threshold)
    {
      if onScroll in Listeners() {
        HandleScroll();
      }
    }

    /** `finishLoading()`, the completion callback handed to `loadMore`. */
    method FinishLoading()
      modifies this`isLoading
      ensures State() == Machine.FinishLoading(old(State()))
    {
      isLoading := false;
    }

    /**
     * `destroy()`: removes the very handler `init` registered, whatever else
     * is registered there, and leaves `isLoading` as it was.
     */
    method Destroy()
      modifies Owner()
      ensures Listeners() == old(Listeners()) - {onScroll}
      ensures container.ElementContainer? ==> container.element.Metrics() == old(container.element.Metrics())
      ensures State() == Machine.Detach(old(State()))
    {
      match container
      case WindowContainer => window.RemoveEventListener(onScroll);
      case ElementContainer(e) => e.RemoveEventListener(onScroll);
    }
  }
}
