/**
  The click-to-query machine shared by the two map popups (`MapPopup.tsx`
  and its single-value predecessor `MapClick.tsx`): an `AbortController`
  reference, the popup state and the loading flag, driven by map clicks, by
  each click handler resuming after its `await`, by closing the popup and by
  unmounting. JavaScript runs one event at a time, so an interleaving is a
  sequence of events.

  The parameters are the request a click sends (`R`) and the popup record
  (`P`). A controller is named by the index of the click that created it:
  only object identity is modelled, nothing in the component numbers them.
 */
module PixelQuery {
  import opened Wrappers

  /** How a suspended click handler resumes: rejected with `AbortError`, or by writing a new popup. */
  datatype Settlement<P> = AbortError | Replace(popup: P)

  datatype Event<R, P> =
    | Click(request: R, placeholder: P)
    | Settle(controller: nat, how: Settlement<P>)
    | Close
    | Unmount

  /**
    `ref` is `abortControllerRef.current`, `popup` is `popupData` and
    `loading` is `isLoading`. The rest is the world the component acts on:
    `requests[k]` is what click k sent (under controller k), `aborted` the
    controllers whose `abort()` was called, `settled` the handlers that have
    run to the end, `mounted` whether the component is still on the page.
   */
  datatype Slot<R, P> = Slot(ref: Option<nat>, popup: Option<P>, loading: bool,
                             requests: seq<R>, aborted: set<nat>, settled: set<nat>, mounted: bool)

  /** The state on mount. */
  function Init<R, P>(): Slot<R, P> {
    Slot(None, None, false, [], {}, {}, true)
  }

  /** `if (ref.current) ref.current.abort()`. */
  function AbortStored<R, P>(s: Slot<R, P>): set<nat> {
    if s.ref.Some? then s.aborted + {s.ref.value} else s.aborted
  }

  /** Handler k has started and not finished. */
  predicate Suspended<R, P>(s: Slot<R, P>, k: nat) {
    k < |s.requests| && k !in s.settled
  }

  /** Request k is in flight and nobody has aborted it: it will publish its result. */
  predicate Live<R, P>(s: Slot<R, P>, k: nat) {
    Suspended(s, k) && k !in s.aborted
  }

  /**
    The events the runtime can deliver in state `s`: clicks and the popup's
    close button only while mounted (and the button only while a popup is
    shown), and a handler resumes once, with `AbortError` exactly when its
    controller was aborted.
   */
  predicate Admissible<R, P>(s: Slot<R, P>, e: Event<R, P>): (r: bool)
    ensures r && e.Settle? ==> (e.how.Replace? <==> Live(s, e.controller))
    ensures r && !e.Settle? ==> s.mounted
  {
    match e
    case Click(_, _) => s.mounted
    case Settle(k, how) => Suspended(s, k) && (how.AbortError? <==> k in s.aborted)
    case Close => s.mounted && s.popup.Some?
    case Unmount => s.mounted
  }

  /** The handler's first half: abort the stored controller, store a fresh one, show the placeholder. */
  function ClickStep<R, P>(s: Slot<R, P>, request: R, placeholder: P): Slot<R, P> {
    Slot(Some(|s.requests|), Some(placeholder), true, s.requests + [request],
         AbortStored(s), s.settled, s.mounted)
  }

  /** The cleanup returned by the mount effect. */
  function UnmountStep<R, P>(s: Slot<R, P>): Slot<R, P> {
    s.(aborted := AbortStored(s), mounted := false)
  }

  /**
    One event, as the components are written: when a handler resumes, its
    `finally` clears `isLoading` and the ref whatever the ref holds.
   */
  function Step<R, P>(s: Slot<R, P>, e: Event<R, P>): (t: Slot<R, P>)
    ensures |s.requests| <= |t.requests| && t.requests[..|s.requests|] == s.requests
    ensures s.aborted <= t.aborted && s.settled <= t.settled
    ensures t.mounted ==> s.mounted
    ensures e.Settle? && !Suspended(s, e.controller) ==> t == s
    ensures e.Settle? && Suspended(s, e.controller) ==> !t.loading && t.ref == None
  {
    match e
    case Click(request, placeholder) => ClickStep(s, request, placeholder)
    case Settle(k, how) =>
      if !Suspended(s, k) then s
      else
        var popup := if how.Replace? then Some(how.popup) else s.popup;
        s.(popup := popup, loading := false, ref := None, settled := s.settled + {k})
    case Close => s.(popup := None)
    case Unmount => UnmountStep(s)
  }

  /**
    One event with the `finally` guarded by `ref.current === controller`:
    only the handler whose controller is still stored clears the loading
    flag and the ref.
   */
  function GuardedStep<R, P>(s: Slot<R, P>, e: Event<R, P>): (t: Slot<R, P>)
    ensures !e.Settle? ==> t == Step(s, e)
    ensures e.Settle? && s.ref == Some(e.controller) ==> t == Step(s, e)
    ensures e.Settle? ==> && t.popup == Step(s, e).popup && t.settled == Step(s, e).settled
                          && t.requests == s.requests && t.aborted == s.aborted && t.mounted == s.mounted
    ensures e.Settle? && s.ref != Some(e.controller) ==> t.loading == s.loading && t.ref == s.ref
  {
    match e
    case Settle(k, how) =>
      if !Suspended(s, k) then s
      else
        var popup := if how.Replace? then Some(how.popup) else s.popup;
        var current := s.ref == Some(k);
        s.(popup := popup,
           loading := if current then false else s.loading,
           ref := if current then None else s.ref,
           settled := s.settled + {k})
    case _ => Step(s, e)
  }

  /** Replays events from `s`; None when one of them cannot be delivered. */
  function Run<R, P>(s: Slot<R, P>, events: seq<Event<R, P>>, guarded: bool): Option<Slot<R, P>>
    decreases |events|
  {
    if events == [] then Some(s)
    else if !Admissible(s, events[0]) then None
    else Run(if guarded then GuardedStep(s, events[0]) else Step(s, events[0]), events[1..], guarded)
  }

  /** Bookkeeping every reachable state keeps, with or without the guard. */
  predicate Consistent<R, P>(s: Slot<R, P>) {
    && (forall k :: k in s.aborted ==> k < |s.requests|)
    && (forall k :: k in s.settled ==> k < |s.requests|)
    && (s.ref.Some? ==> s.ref.value + 1 == |s.requests| && !(s.ref.value in s.settled))
    && (s.mounted ==> (s.loading <==> s.ref.Some?))
    && (s.mounted && s.ref.Some? ==> Live(s, s.ref.value))
  }

  /**
    What the guarded `finally` is for: every request still able to publish
    is the one whose controller is stored.
   */
  ghost predicate SingleFlight<R, P>(s: Slot<R, P>) {
    Consistent(s) && forall k: nat :: Live(s, k) ==> s.ref == Some(k)
  }

  /**
    A click calls the location callback with the clicked request, aborts the
    stored controller (if any), stores controller `|requests|`, shows the
    placeholder and sets the loading flag.
   */
  lemma ClickEffect<R, P>(s: Slot<R, P>, request: R, placeholder: P)
    ensures var t := Step(s, Click(request, placeholder));
      && t.requests == s.requests + [request]
      && t.ref == Some(|s.requests|) && t.popup == Some(placeholder) && t.loading
      && (s.ref.Some? ==> t.aborted == s.aborted + {s.ref.value})
      && (s.ref.None? ==> t.aborted == s.aborted)
  {
  }

  /**
    A resuming handler as written: `AbortError` keeps the popup, a
    replacement is shown, and either way the loading flag and the ref are
    cleared, even when the ref holds a newer controller.
   */
  lemma SettleEffect<R, P>(s: Slot<R, P>, k: nat, how: Settlement<P>)
    requires Admissible(s, Settle(k, how))
    ensures var t := Step(s, Settle(k, how));
      && !t.loading && t.ref == None && k in t.settled
      && t.popup == (if how.AbortError? then s.popup else Some(how.popup))
  {
  }

  /** Unmounting aborts the stored controller and nothing else; doing it twice changes nothing more. */
  lemma UnmountEffect<R, P>(s: Slot<R, P>)
    ensures var t := Step(s, Unmount);
      && t.aborted == AbortStored(s) && !t.mounted
      && t.ref == s.ref && t.popup == s.popup && t.requests == s.requests
      && t.loading == s.loading && t.settled == s.settled
      && Step(t, Unmount) == t
  {
  }

  /** The bookkeeping holds on mount and after every deliverable event, as written. */
  lemma StepConsistent<R, P>(s: Slot<R, P>, e: Event<R, P>)
    requires Consistent(s) && Admissible(s, e)
    ensures Consistent(Step(s, e))
  {
    var t := Step(s, e);
    match e
    case Click(request, placeholder) =>
      assert t.ref == Some(|s.requests|);
      assert |s.requests| !in t.aborted;
    case Settle(k, how) =>
    case Close =>
    case Unmount =>
  }

  /** Every state the component reaches from mount, as written, keeps the bookkeeping. */
  lemma {:induction false} RunConsistent<R, P>(s: Slot<R, P>, events: seq<Event<R, P>>)
    requires Consistent(s)
    ensures Run(s, events, false).Some? ==> Consistent(Run(s, events, false).value)
    decreases |events|
  {
    if events != [] && Admissible(s, events[0]) {
      StepConsistent(s, events[0]);
      RunConsistent(Step(s, events[0]), events[1..]);
    }
  }

  /** The guarded step keeps the single-flight property. */
  lemma GuardedStepKeeps<R, P>(s: Slot<R, P>, e: Event<R, P>)
    requires SingleFlight(s) && Admissible(s, e)
    ensures SingleFlight(GuardedStep(s, e))
  {
    var t := GuardedStep(s, e);
    match e
    case Click(request, placeholder) =>
      assert t.ref == Some(|s.requests|);
      assert |s.requests| !in t.aborted;
      forall k: nat | Live(t, k)
        ensures t.ref == Some(k)
      {
        if k < |s.requests| {
          assert Live(s, k);
        }
      }
    case Settle(k, how) =>
      forall j: nat | Live(t, j)
        ensures t.ref == Some(j)
      {
        assert Live(s, j);
      }
    case Close =>
      forall j: nat | Live(t, j)
        ensures t.ref == Some(j)
      {
        assert Live(s, j);
      }
    case Unmount =>
      forall j: nat | Live(t, j)
        ensures t.ref == Some(j)
      {
        assert Live(s, j);
      }
  }

  /** Every state the guarded component reaches from mount is single-flight. */
  lemma {:induction false} GuardedRunKeeps<R, P>(s: Slot<R, P>, events: seq<Event<R, P>>)
    requires SingleFlight(s)
    ensures Run(s, events, true).Some? ==> SingleFlight(Run(s, events, true).value)
    decreases |events|
  {
    if events != [] && Admissible(s, events[0]) {
      GuardedStepKeeps(s, events[0]);
      GuardedRunKeeps(GuardedStep(s, events[0]), events[1..]);
    }
  }

  /**
    With the guard, only the latest click can publish: a handler that
    replaces the popup belongs to the last click, and afterwards nothing is
    loading.
   */
  lemma GuardedPublishesLatest<R, P>(s: Slot<R, P>, k: nat, p: P)
    requires SingleFlight(s) && Admissible(s, Settle(k, Replace(p)))
    ensures k + 1 == |s.requests|
    ensures var t := GuardedStep(s, Settle(k, Replace(p)));
      t.popup == Some(p) && t.ref == None && (s.mounted ==> !t.loading)
  {
    assert Live(s, k);
  }

  /** With the guard, the loading flag is set whenever a request can still publish. */
  lemma GuardedLoadingWhileLive<R, P>(s: Slot<R, P>, k: nat)
    requires SingleFlight(s) && s.mounted && Live(s, k)
    ensures s.loading && s.ref == Some(k)
  {
  }

  /** With the guard, unmounting leaves no request able to publish. */
  lemma GuardedUnmountAbortsAll<R, P>(s: Slot<R, P>, k: nat)
    requires SingleFlight(s)
    ensures !Live(GuardedStep(s, Unmount), k)
  {
    if Live(GuardedStep(s, Unmount), k) {
      assert Live(s, k);
    }
  }

  /**
    As written, a superseded request that settles with `AbortError` clears
    the ref while the next request is in flight, so the third click does not
    abort the second request; when the second answers after the third, its
    result replaces the third's.
   */
  lemma StaleOverwrite<R, P>(a: R, b: R, c: R, pa: P, pb: P, pc: P, rb: P, rc: P)
    ensures var t := Run(Init(), [Click(a, pa), Click(b, pb), Settle(0, AbortError), Click(c, pc),
                                   Settle(2, Replace(rc)), Settle(1, Replace(rb))], false);
      && t.Some? && t.value.requests == [a, b, c] && t.value.popup == Some(rb)
      && 1 !in t.value.aborted
  {
    var s0: Slot<R, P> := Init();
    var s1 := Step(s0, Click(a, pa));
    var s2 := Step(s1, Click(b, pb));
    assert s2.ref == Some(1) && s2.aborted == {0};
    var s3 := Step(s2, Settle(0, AbortError));
    assert s3.ref == None && !s3.loading && Live(s3, 1);
    var s4 := Step(s3, Click(c, pc));
    assert s4.aborted == {0} && s4.requests == [a, b, c];
    var s5 := Step(s4, Settle(2, Replace(rc)));
    var s6 := Step(s5, Settle(1, Replace(rb)));
    assert Run(s6, [], false) == Some(s6);
    assert Run(s5, [Settle(1, Replace(rb))], false) == Some(s6);
    assert Run(s4, [Settle(2, Replace(rc)), Settle(1, Replace(rb))], false) == Some(s6);
    assert Run(s3, [Click(c, pc), Settle(2, Replace(rc)), Settle(1, Replace(rb))], false) == Some(s6);
    assert Run(s2, [Settle(0, AbortError), Click(c, pc), Settle(2, Replace(rc)), Settle(1, Replace(rb))], false) == Some(s6);
    assert Run(s1, [Click(b, pb), Settle(0, AbortError), Click(c, pc), Settle(2, Replace(rc)), Settle(1, Replace(rb))], false) == Some(s6);
  }

  /**
    As written, after a superseded request settles the component is no
    longer loading although the newer request is in flight, and unmounting
    then leaves that request running.
   */
  lemma UnmountLeaks<R, P>(a: R, b: R, pa: P, pb: P)
    ensures var t := Run(Init(), [Click(a, pa), Click(b, pb), Settle(0, AbortError)], false);
      && t.Some? && !t.value.loading && Live(t.value, 1)
      && Live(Step(t.value, Unmount), 1)
  {
    var s0: Slot<R, P> := Init();
    var s1 := Step(s0, Click(a, pa));
    var s2 := Step(s1, Click(b, pb));
    var s3 := Step(s2, Settle(0, AbortError));
    assert Run(s3, [], false) == Some(s3);
    assert Run(s2, [Settle(0, AbortError)], false) == Some(s3);
    assert Run(s1, [Click(b, pb), Settle(0, AbortError)], false) == Some(s3);
  }

  /** The same opening with the guard: still loading, and the third click aborts the second request. */
  lemma GuardedOpening<R, P>(a: R, b: R, c: R, pa: P, pb: P, pc: P)
    ensures var t := Run(Init(), [Click(a, pa), Click(b, pb), Settle(0, AbortError), Click(c, pc)], true);
      && t.Some? && t.value.loading && t.value.aborted == {0, 1} && t.value.ref == Some(2)
  {
    var s0: Slot<R, P> := Init();
    var s1 := GuardedStep(s0, Click(a, pa));
    var s2 := GuardedStep(s1, Click(b, pb));
    var s3 := GuardedStep(s2, Settle(0, AbortError));
    assert s3.ref == Some(1) && s3.loading;
    var s4 := GuardedStep(s3, Click(c, pc));
    assert Run(s4, [], true) == Some(s4);
    assert Run(s3, [Click(c, pc)], true) == Some(s4);
    assert Run(s2, [Settle(0, AbortError), Click(c, pc)], true) == Some(s4);
    assert Run(s1, [Click(b, pb), Settle(0, AbortError), Click(c, pc)], true) == Some(s4);
  }

  /** A JavaScript value shown in a popup field. */
  datatype Reading = Undefined | Null | NaN | Num(value: real)

  /** `isNaN(v)`: true for NaN and for `undefined`, which converts to NaN. */
  predicate IsNaN(v: Reading) {
    v.Undefined? || v.NaN?
  }

  /** What a popup field shows; `Fixed` is `value.toFixed(2) + unit`. */
  datatype Text = LoadingText | ErrorText | Fixed(value: real, unit: string)

  /** The conditional chain of one popup field. */
  function Show(loading: bool, v: Reading, unit: string): (t: Text)
    ensures t == LoadingText <==> loading || v.Null?
    ensures t == ErrorText <==> !loading && IsNaN(v)
    ensures t.Fixed? <==> !loading && v.Num?
    ensures t.Fixed? ==> t.value == v.value && t.unit == unit
  {
    if loading then LoadingText
    else if v == Null then LoadingText
    else if IsNaN(v) then ErrorText
    else Fixed(v.value, unit)
  }
}
