/**
 * The loader's observable state as a value, and the effect of each event
 * the host can deliver to it: a scroll notification, a call of the
 * completion callback, and `destroy()`. The class in module LodScrol is
 * proved to move its state exactly as these functions say, so the lemmas
 * below hold of any sequence of `ScrollNotification`, `FinishLoading` and
 * `Destroy` calls on it (`Init` and a direct `HandleScroll` are not events
 * here).
 */
module Machine {
  import opened Dom

  /**
   * `isLoading` is the single-flight flag, `attached` says whether the bound
   * handler is registered on the container, and `loads` counts the
   * invocations of `loadMore` so far.
   */
  datatype State = State(isLoading: bool, attached: bool, loads: nat)

  /** Right after construction: idle, listening, nothing loaded. */
  const Initial: State := State(false, true, 0)

  datatype Event = Scroll(metrics: ScrollMetrics) | Finish | Destroy

  /** The trigger test, written as the source writes it. */
  predicate NearBottom(m: ScrollMetrics, threshold: int)
  {
    m.scrollHeight - m.scrollTop <= m.clientHeight + threshold
  }

  /**
   * The scroll handler. It calls `loadMore` (and becomes busy) exactly when
   * it is idle and the distance left to the end, `scrollHeight - scrollTop -
   * clientHeight`, is at most the threshold; otherwise nothing changes.
   */
  function OnScroll(s: State, m: ScrollMetrics, threshold: int): (r: State)
    ensures r.attached == s.attached
    ensures r.loads == s.loads + 1 <==> !s.isLoading && m.scrollHeight - m.scrollTop - m.clientHeight <= threshold
    ensures r.loads == s.loads + 1 ==> r.isLoading
    ensures r.loads != s.loads + 1 ==> r == s
  {
    if s.isLoading then s
    else if NearBottom(m, threshold) then s.(isLoading := true, loads := s.loads + 1)
    else s
  }

  /** The completion callback handed to `loadMore`. */
  function FinishLoading(s: State): State
  {
    s.(isLoading := false)
  }

  /** `destroy()`: the handler is unregistered; nothing else changes. */
  function Detach(s: State): State
  {
    s.(attached := false)
  }

  /** One event. A scroll notification reaches the handler only while it is registered. */
  function Step(s: State, e: Event, threshold: int): State
  {
    match e
    case Scroll(m) => if s.attached then OnScroll(s, m, threshold) else s
    case Finish => FinishLoading(s)
    case Destroy => Detach(s)
  }

  /** A sequence of events, in order. Loads are never undone and nothing re-attaches. */
  function Run(s: State, events: seq<Event>, threshold: int): (r: State)
    ensures s.loads <= r.loads
    ensures r.attached ==> s.attached
    decreases |events|
  {
    if events == [] then s else Run(Step(s, events[0], threshold), events[1..], threshold)
  }

  /** How many completion-callback calls `events` holds. */
  function Finishes(events: seq<Event>): nat
  {
    if events == [] then 0 else (if events[0] == Finish then 1 else 0) + Finishes(events[1..])
  }

  /** How many loads the instance may still start before a completion: one when idle, none while loading. */
  function Credit(s: State): nat
  {
    if s.isLoading then 0 else 1
  }

  /** The completion callback clears the flag however often it is called. */
  lemma FinishLoadingIdempotent(s: State)
    ensures !FinishLoading(s).isLoading
    ensures FinishLoading(FinishLoading(s)) == FinishLoading(s)
    ensures FinishLoading(s).attached == s.attached && FinishLoading(s).loads == s.loads
  {
  }

  /** `destroy()` keeps the flag and the load count, and repeating it changes nothing. */
  lemma DetachKeepsLoading(s: State)
    ensures !Detach(s).attached
    ensures Detach(s).isLoading == s.isLoading && Detach(s).loads == s.loads
    ensures Detach(Detach(s)) == Detach(s)
  {
  }

  /** The completion callback is the only event that takes a busy instance back to idle. */
  lemma OnlyFinishReleases(s: State, e: Event, threshold: int)
    requires s.isLoading && !Step(s, e, threshold).isLoading
    ensures e == Finish
  {
  }

  /**
   * Single-flight, and the stuck loader: while busy, no sequence of events
   * without a completion call starts a load or leaves the busy state.
   */
  lemma {:induction false} SingleFlight(s: State, events: seq<Event>, threshold: int)
    requires s.isLoading && Finish !in events
    ensures Run(s, events, threshold) == s.(attached := s.attached && Destroy !in events)
    decreases |events|
  {
    if events != [] {
      assert events == [events[0]] + events[1..];
      SingleFlight(Step(s, events[0], threshold), events[1..], threshold);
    }
  }

  /**
   * Teardown: once detached, no event starts a load; only a late completion
   * call still clears the flag.
   */
  lemma {:induction false} NoLoadAfterDestroy(s: State, events: seq<Event>, threshold: int)
    requires !s.attached
    ensures Run(s, events, threshold) == State(s.isLoading && Finish !in events, false, s.loads)
    decreases |events|
  {
    if events != [] {
      assert events == [events[0]] + events[1..];
      NoLoadAfterDestroy(Step(s, events[0], threshold), events[1..], threshold);
    }
  }

  /**
   * Loads are paid for by completion calls: every load spends the credit and
   * only a completion call restores it.
   */
  lemma {:induction false} LoadBound(s: State, events: seq<Event>, threshold: int)
    ensures Run(s, events, threshold).loads + Credit(Run(s, events, threshold))
         <= s.loads + Credit(s) + Finishes(events)
    decreases |events|
  {
    if events != [] {
      LoadBound(Step(s, events[0], threshold), events[1..], threshold);
    }
  }

  /** Without a completion call, at most one load starts, and none if already busy. */
  lemma AtMostOneLoadInFlight(s: State, events: seq<Event>, threshold: int)
    requires Finishes(events) == 0
    ensures Run(s, events, threshold).loads <= s.loads + Credit(s)
  {
    LoadBound(s, events, threshold);
  }

  /**
   * Release: after the completion call, the next qualifying scroll starts
   * exactly one new load.
   */
  lemma ReleaseThenReload(s: State, m: ScrollMetrics, threshold: int)
    requires s.attached && NearBottom(m, threshold)
    ensures Run(s, [Finish, Scroll(m)], threshold) == State(true, true, s.loads + 1)
  {
    var idle := FinishLoading(s);
    assert [Finish, Scroll(m)][1..] == [Scroll(m)];
    assert Run(s, [Finish, Scroll(m)], threshold) == Run(idle, [Scroll(m)], threshold);
    assert [Scroll(m)][1..] == [];
    assert Run(idle, [Scroll(m)], threshold) == OnScroll(idle, m, threshold);
  }
}
