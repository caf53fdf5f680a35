/**
 * The part of the browser environment the loader touches: scroll-listener
 * registration on the window or on an element, and the three scroll readouts
 * of an element. Listener registration is a set of handler identities, which
 * is how `addEventListener` / `removeEventListener` treat one event type:
 * adding a registered handler again changes nothing, and removing a handler
 * that is not registered changes nothing.
 */
module Dom {

  /**
   * A function value registered as a listener. Only its identity matters:
   * every evaluation of `f.bind(x)` yields a new function, distinct from all
   * earlier ones, so each `new Handler()` stands for one such evaluation.
   */
  class Handler {
    constructor () {}
  }

  /** `scrollTop`, `scrollHeight` and `clientHeight` of an element, in pixels. */
  datatype ScrollMetrics = ScrollMetrics(scrollTop: int, scrollHeight: int, clientHeight: int)

  /** An `HTMLElement`, reduced to its scroll readouts and its scroll listeners. */
  class Element {
    var scrollTop: int
    var scrollHeight: int
    var clientHeight: int
    var scrollListeners: set<Handler>

    constructor (top: int, height: int, visible: int)
      ensures Metrics() == ScrollMetrics(top, height, visible)
      ensures scrollListeners == {}
    {
      scrollTop, scrollHeight, clientHeight := top, height, visible;
      scrollListeners := {};
    }

    function Metrics(): ScrollMetrics
      reads this
    {
      ScrollMetrics(scrollTop, scrollHeight, clientHeight)
    }

    method AddEventListener(h: Handler)
      modifies this`scrollListeners
      ensures scrollListeners == old(scrollListeners) + {h}
    {
      scrollListeners := scrollListeners + {h};
    }

    method RemoveEventListener(h: Handler)
      modifies this`scrollListeners
      ensures scrollListeners == old(scrollListeners) - {h}
    {
      scrollListeners := scrollListeners - {h};
    }
  }

  /**
   * The global `window`. It has scroll listeners of its own but no scroll
   * readouts; those of the page are on `document.documentElement`.
   */
  class Window {
    const documentElement: Element
    var scrollListeners: set<Handler>

    constructor (root: Element)
      ensures documentElement == root && scrollListeners == {}
    {
      documentElement := root;
      scrollListeners := {};
    }

    method AddEventListener(h: Handler)
      modifies this`scrollListeners
      ensures scrollListeners == old(scrollListeners) + {h}
    {
      scrollListeners := scrollListeners + {h};
    }

    method RemoveEventListener(h: Handler)
      modifies this`scrollListeners
      ensures scrollListeners == old(scrollListeners) - {h}
    {
      scrollListeners := scrollListeners - {h};
    }
  }
}
