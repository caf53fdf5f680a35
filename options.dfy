/**
 * The options object handed to the loader's constructor, its eager
 * validation, and the defaults stored after validation succeeds.
 *
 * JavaScript only tells the variants apart at run time (`typeof`,
 * `instanceof HTMLElement`, `=== window`, truthiness), so each option is a
 * datatype whose variants are exactly the cases those tests distinguish.
 */
module Options {
  import opened Wrappers
  import opened Dom

  /** The caller's asynchronous `loadMore(done)` function, known by identity only. */
  datatype LoaderFn = LoaderFn(id: nat)

  /** `options.loadMore`, as `typeof` sees it. */
  datatype LoaderArg = Function(fn: LoaderFn) | NotFunction

  /** `options.container`, as truthiness, `instanceof HTMLElement` and `=== window` see it. */
  datatype ContainerArg =
    | NoContainer                 // undefined, null, or any other falsy value
    | WindowArg                   // the global window
    | ElementArg(element: Element) // an HTMLElement
    | OtherObject                 // any other truthy value
  {
    function Elements(): set<Element>
    {
      if ElementArg? then {element} else {}
    }
  }

  /** `options.threshold`, as truthiness and `typeof` see it. */
  datatype ThresholdArg =
    | NoThreshold                 // undefined, null, or any other falsy non-number
    | Number(value: int)          // a number; 0 is falsy
    | NonNumber                   // any truthy value that is not a number

  datatype LoaderOptions = LoaderOptions(container: ContainerArg, loadMore: LoaderArg, threshold: ThresholdArg)

  /** The three errors the constructor throws. */
  datatype Error = InvalidLoader | InvalidContainer | InvalidThreshold
  {
    function Message(): string
    {
      match this
      case InvalidLoader => "loadMore must be a function"
      case InvalidContainer => "container must be an instance of HTMLElement or window"
      case InvalidThreshold => "threshold must be a number"
    }

    /** The position of the check that raises this error. */
    function Rank(): nat
    {
      match this
      case InvalidLoader => 0
      case InvalidContainer => 1
      case InvalidThreshold => 2
    }
  }

  /** The scroll target stored after construction. */
  datatype Container = WindowContainer | ElementContainer(element: Element)
  {
    function Elements(): set<Element>
    {
      if ElementContainer? then {element} else {}
    }
  }

  datatype Config = Config(container: Container, loadMore: LoaderFn, threshold: int)

  const DefaultThreshold: int := 100

  /**
   * Everything wrong with `o`, each option judged on its own: a loader that is
   * not a function, a truthy container that is neither an HTMLElement nor the
   * window, a truthy threshold that is not a number.
   */
  function Problems(o: LoaderOptions): set<Error>
  {
    (if o.loadMore.NotFunction? then {InvalidLoader} else {})
    + (if o.container.OtherObject? then {InvalidContainer} else {})
    + (if o.threshold.NonNumber? then {InvalidThreshold} else {})
  }

  /**
   * `validateOptions`: the checks run in order and the first that fails
   * throws. The result is the error thrown, if any: it is none exactly when
   * nothing is wrong, and otherwise the problem whose check comes first.
   */
  function Validate(o: LoaderOptions): (r: Option<Error>)
    ensures r.None? <==> Problems(o) == {}
    ensures r.Some? ==> r.value in Problems(o)
    ensures r.Some? ==> forall e :: e in Problems(o) ==> r.value.Rank() <= e.Rank()
  {
    if !o.loadMore.Function? then Some(InvalidLoader)
    else if o.container.OtherObject? then Some(InvalidContainer)
    else if o.threshold.NonNumber? then Some(InvalidThreshold)
    else None
  }

  /** `options.container || window`, for a container that passed validation. */
  function ContainerOf(c: ContainerArg): (r: Container)
    requires !c.OtherObject?
    ensures r.WindowContainer? <==> !c.ElementArg?
    ensures c.ElementArg? ==> r == ElementContainer(c.element)
    ensures r.Elements() == c.Elements()
  {
    match c
    case ElementArg(e) => ElementContainer(e)
    case _ => WindowContainer
  }

  /**
   * `options.threshold || 100`, for a threshold that passed validation: a
   * non-zero number is kept, 0 and every falsy non-number become 100, so the
   * stored threshold is never 0.
   */
  function ThresholdOf(t: ThresholdArg): (r: int)
    requires !t.NonNumber?
    ensures r != 0
    ensures t.Number? && t.value != 0 ==> r == t.value
    ensures !t.Number? || t.value == 0 ==> r == DefaultThreshold
  {
    match t
    case Number(n) => if n != 0 then n else DefaultThreshold
    case _ => DefaultThreshold
  }

  /**
   * What construction stores: the error thrown, or the configuration with
   * its defaults applied.
   */
  function Configure(o: LoaderOptions): (r: Result<Config, Error>)
    ensures r.Failure? <==> Problems(o) != {}
    ensures r.Failure? ==> Validate(o) == Some(r.error)
    ensures r.Success? ==> o.loadMore == Function(r.value.loadMore)
    ensures r.Success? ==> r.value.container == ContainerOf(o.container)
    ensures r.Success? ==> r.value.threshold == ThresholdOf(o.threshold) && r.value.threshold != 0
  {
    match Validate(o)
    case Some(e) => Failure(e)
    case None => Success(Config(ContainerOf(o.container), o.loadMore.fn, ThresholdOf(o.threshold)))
  }

  /** The minimal options `{ loadMore: fn }` are accepted with both defaults. */
  lemma MinimalOptions(fn: LoaderFn)
    ensures Configure(LoaderOptions(NoContainer, Function(fn), NoThreshold))
         == Success(Config(WindowContainer, fn, DefaultThreshold))
  {
  }

  /** A falsy threshold, number or not, is accepted and becomes 100. */
  lemma FalsyThresholdDefaults(o: LoaderOptions)
    requires o.loadMore.Function? && !o.container.OtherObject?
    requires o.threshold == NoThreshold || o.threshold == Number(0)
    ensures Configure(o).Success? && Configure(o).value.threshold == DefaultThreshold
  {
  }

  /** Each error has its own message. */
  lemma MessagesDistinct(a: Error, b: Error)
    requires a != b
    ensures a.Message() != b.Message()
  {
    assert |a.Message()| != |b.Message()|;
  }
}
