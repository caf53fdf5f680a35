/**
 * Clients of ScrollLoader: what a caller can conclude from the class's
 * contracts alone, for the usage scenarios of the library.
 */
module Scenarios {
  import opened Wrappers
  import opened Dom
  import opened Options
  import opened LodScrol

  /** The default options, `{ loadMore: fn }`, on a page scrolled to 850 of 1000 with 100 visible. */
  method NewPageLoader() returns (l: ScrollLoader, root: Element, w: Window)
    ensures fresh(l) && fresh(root) && fresh(w)
    ensures l.window == w && w.documentElement == root && l.container == WindowContainer
    ensures l.threshold == 100 && l.State() == Machine.Initial
    ensures root.Metrics() == ScrollMetrics(850, 1000, 100)
  {
    root := new Element(850, 1000, 100);
    w := new Window(root);
    var r := ScrollLoader.Create(LoaderOptions(NoContainer, Function(LoaderFn(0)), NoThreshold), w);
    l := r.value;
  }

  /** 50 pixels from the end with threshold 100: one load starts. */
  method NearEndLoadsOnce()
  {
    var l, root, w := NewPageLoader();
    l.ScrollNotification();
    assert l.loads == 1 && l.isLoading;
  }

  /** 200 pixels from the end with threshold 100: nothing happens. */
  method FarFromEndLoadsNothing()
  {
    var l, root, w := NewPageLoader();
    root.scrollTop := 700;
    l.ScrollNotification();
    assert l.loads == 0 && !l.isLoading;
  }

  /** A `loadMore` that is not a function: construction throws and registers nothing. */
  method BadLoaderRejected()
  {
    var root := new Element(0, 0, 0);
    var w := new Window(root);
    var r := ScrollLoader.Create(LoaderOptions(NoContainer, NotFunction, Number(50)), w);
    assert r == Failure(InvalidLoader);
    assert w.scrollListeners == {};
  }

  /** Without the completion call, a second qualifying scroll starts no second load. */
  method NoSecondLoadWhileBusy()
  {
    var l, root, w := NewPageLoader();
    l.ScrollNotification();
    l.ScrollNotification();
    assert l.loads == 1;
  }

  /** After the completion call, the next qualifying scroll starts a second load. */
  method SecondLoadAfterFinish()
  {
    var l, root, w := NewPageLoader();
    l.ScrollNotification();
    l.FinishLoading();
    l.ScrollNotification();
    assert l.loads == 2;
  }

  /** After `destroy()`, scrolling starts no load even once the flag is cleared. */
  method NoLoadAfterDestroy()
  {
    var l, root, w := NewPageLoader();
    l.Destroy();
    l.ScrollNotification();
    l.FinishLoading();
    l.ScrollNotification();
    assert l.loads == 0;
  }

  /**
   * Removing a freshly bound handler, rather than the stored one, leaves the
   * instance listening: this is why the bound handler is kept.
   */
  method FreshBindDoesNotDetach()
  {
    var l, root, w := NewPageLoader();
    var rebound := new Handler();
    w.RemoveEventListener(rebound);
    l.ScrollNotification();
    assert l.loads == 1;
  }

  /** Two instances on one window: destroying one leaves the other listening. */
  method DestroyIsPerInstance()
  {
    var root := new Element(850, 1000, 100);
    var w := new Window(root);
    var options := LoaderOptions(WindowArg, Function(LoaderFn(0)), Number(100));
    var r1 := ScrollLoader.Create(options, w);
    var r2 := ScrollLoader.Create(options, w);
    var a, b := r1.value, r2.value;
    a.Destroy();
    b.ScrollNotification();
    assert b.loads == 1;
  }

  /** An element container: its own readouts decide, not the page's, and only it is registered on. */
  method ElementContainerReadsElement()
  {
    var root := new Element(0, 1000, 100);
    var w := new Window(root);
    var list := new Element(520, 600, 100);
    var r := ScrollLoader.Create(LoaderOptions(ElementArg(list), Function(LoaderFn(1)), Number(-20)), w);
    var l := r.value;
    assert l.threshold == -20 && w.scrollListeners == {} && list.scrollListeners == {l.onScroll};
    l.ScrollNotification();
    assert l.loads == 1;
  }

  /** With both the container and the threshold wrong, the container check, which comes first, throws. */
  method ContainerCheckedBeforeThreshold()
  {
    var root := new Element(0, 0, 0);
    var w := new Window(root);
    var r := ScrollLoader.Create(LoaderOptions(OtherObject, Function(LoaderFn(0)), NonNumber), w);
    assert r == Failure(InvalidContainer);
    assert r.error.Message() == "container must be an instance of HTMLElement or window";
  }
}
