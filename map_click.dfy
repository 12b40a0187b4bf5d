/**
  `MapClick.tsx`, the single-value predecessor of the map popup: a map click
  queries `/pixel_value` at the clicked point for one month and shows one
  value.
 */
module MapClick {
  import opened Wrappers
  import opened PixelQuery

  /** What one click sends: the clicked point and the month in the props. */
  datatype Query = Query(lat: real, lng: real, date: string)

  /** `popupData`. */
  datatype PopupData = PopupData(lat: real, lng: real, value: Reading)

  /** How a click handler's `try` ends; `Answered` carries the body's `value`. */
  datatype Outcome = Answered(value: Reading) | Failed | Aborted

  type State = Slot<Query, PopupData>

  /** The popup a handler writes on resuming: the value, or NaN on failure. */
  function Resolve(q: Query, o: Outcome): (r: Settlement<PopupData>)
    ensures r.AbortError? <==> o.Aborted?
    ensures r.Replace? ==> r.popup.lat == q.lat && r.popup.lng == q.lng
    ensures o.Answered? ==> r.Replace? && r.popup.value == o.value
    ensures o.Failed? ==> r.Replace? && IsNaN(r.popup.value)
  {
    match o
    case Answered(v) => Replace(PopupData(q.lat, q.lng, v))
    case Failed => Replace(PopupData(q.lat, q.lng, NaN))
    case Aborted => AbortError
  }

  /** A click, whose placeholder is `{ lat, lng, value: null }`. */
  function ClickEvent(q: Query): Event<Query, PopupData> {
    Click(q, PopupData(q.lat, q.lng, Null))
  }

  /** Handler `k` resuming with outcome `o`. */
  function SettleEvent(s: State, k: nat, o: Outcome): Event<Query, PopupData> {
    if k < |s.requests| then Settle(k, Resolve(s.requests[k], o)) else Settle(k, AbortError)
  }

  /** What the popup shows. */
  datatype View = View(lat: real, lng: real, value: Text)

  /** The rendered popup: nothing without `popupData`, else the value chain. */
  function Render(s: State): (r: Option<View>)
    ensures r.None? <==> s.popup.None?
    ensures r.Some? ==> r.value.lat == s.popup.value.lat && r.value.lng == s.popup.value.lng
    ensures r.Some? && s.loading ==> r.value.value == LoadingText
    ensures r.Some? ==> r.value.value == Show(s.loading, s.popup.value.value, " °C")
    ensures r.Some? && r.value.value.Fixed? ==>
      r.value.value.unit == " °C" && s.popup.value.value == Num(r.value.value.value)
  {
    if s.popup.None? then None
    else
      var p := s.popup.value;
      Some(View(p.lat, p.lng, Show(s.loading, p.value, " °C")))
  }

  /** Right after a click, the popup sits at the clicked point and reads "Loading...". */
  lemma ClickShowsLoading(s: State, q: Query)
    ensures var t := Step(s, ClickEvent(q));
      && Render(t) == Some(View(q.lat, q.lng, LoadingText))
      && t.popup == Some(PopupData(q.lat, q.lng, Null)) && t.loading
  {
  }

  /**
    A handler that resumes with a body shows the body's `value` at its own
    click's point: a number formatted with the unit, `null` as "Loading...",
    NaN or a missing field as "Error".
   */
  lemma AnsweredShows(s: State, k: nat, v: Reading)
    requires Admissible(s, SettleEvent(s, k, Answered(v)))
    ensures var t := Step(s, SettleEvent(s, k, Answered(v)));
      && t.popup == Some(PopupData(s.requests[k].lat, s.requests[k].lng, v))
      && Render(t) == Some(View(s.requests[k].lat, s.requests[k].lng, Show(false, v, " °C")))
  {
  }

  /** A handler whose request fails marks the value NaN, shown as "Error", at its click's point. */
  lemma FailedShowsError(s: State, k: nat)
    requires Admissible(s, SettleEvent(s, k, Failed))
    ensures var t := Step(s, SettleEvent(s, k, Failed));
      && t.popup == Some(PopupData(s.requests[k].lat, s.requests[k].lng, NaN))
      && Render(t) == Some(View(s.requests[k].lat, s.requests[k].lng, ErrorText))
  {
  }

  /** A handler rejected with `AbortError` keeps the popup but still ends loading. */
  lemma AbortedKeepsPopup(s: State, k: nat)
    requires Admissible(s, SettleEvent(s, k, Aborted))
    ensures var t := Step(s, SettleEvent(s, k, Aborted));
      t.popup == s.popup && !t.loading && t.ref == None
  {
  }

  /** Closing removes the popup. */
  lemma CloseHides(s: State)
    ensures Render(Step(s, Close)) == None
  {
  }

  /**
    After a superseded request's `AbortError` the component is not loading,
    yet the placeholder's `null` keeps the popup reading "Loading..." while
    the second request is in flight.
   */
  lemma SupersededAbortStillReadsLoading(q1: Query, q2: Query)
    ensures var t := Run(Init(), [ClickEvent(q1), ClickEvent(q2), Settle(0, AbortError)], false);
      && t.Some? && Live(t.value, 1) && !t.value.loading
      && Render(t.value) == Some(View(q2.lat, q2.lng, LoadingText))
  {
    var s0: State := Init();
    var s1 := Step(s0, ClickEvent(q1));
    var s2 := Step(s1, ClickEvent(q2));
    var s3 := Step(s2, Settle(0, AbortError));
    assert s3.popup == Some(PopupData(q2.lat, q2.lng, Null)) && !s3.loading;
    assert Run(s3, [], false) == Some(s3);
    assert Run(s2, [Settle(0, AbortError)], false) == Some(s3);
    assert Run(s1, [ClickEvent(q2), Settle(0, AbortError)], false) == Some(s3);
  }

  /** The component: its ref and state, and the requests it has made. */
  class MapClickComponent {
    var abortControllerRef: Option<nat>
    var popupData: Option<PopupData>
    var isLoading: bool
    var requests: seq<Query>
    var aborted: set<nat>
    var settled: set<nat>
    var mounted: bool

    function State(): State
      reads this
    {
      Slot(abortControllerRef, popupData, isLoading, requests, aborted, settled, mounted)
    }

    constructor ()
      ensures State() == Init()
    {
      abortControllerRef, popupData, isLoading := None, None, false;
      requests, aborted, settled, mounted := [], {}, {}, true;
    }

    /** The click handler up to its `await`; returns the new controller. */
    method HandleClick(lat: real, lng: real, date: string) returns (controller: nat)
      requires mounted
      modifies this
      ensures State() == Step(old(State()), ClickEvent(Query(lat, lng, date)))
      ensures controller == old(|requests|) && abortControllerRef == Some(controller)
    {
      if abortControllerRef.Some? {
        aborted := aborted + {abortControllerRef.value};
      }
      requests := requests + [Query(lat, lng, date)];
      controller := |requests| - 1;
      abortControllerRef := Some(controller);
      popupData := Some(PopupData(lat, lng, Null));
      isLoading := true;
    }

    /** Handler `controller` resuming after its `await`, through `catch` and `finally`. */
    method Resume(controller: nat, outcome: Outcome)
      requires Admissible(State(), SettleEvent(State(), controller, outcome))
      modifies this
      ensures State() == Step(old(State()), SettleEvent(old(State()), controller, outcome))
    {
      var q := requests[controller];
      match outcome {
        case Answered(v) =>
          popupData := Some(PopupData(q.lat, q.lng, v));
        case Failed =>
          popupData := Some(PopupData(q.lat, q.lng, NaN));
        case Aborted =>
      }
      isLoading := false;
      abortControllerRef := None;
      settled := settled + {controller};
    }

    /** The popup's `onClose`. */
    method ClosePopup()
      modifies this
      ensures State() == Step(old(State()), Close)
    {
      popupData := None;
    }

    /** The cleanup of the mount effect. */
    method UnmountCleanup()
      modifies this
      ensures State() == Step(old(State()), Unmount)
    {
      if abortControllerRef.Some? {
        aborted := aborted + {abortControllerRef.value};
      }
      mounted := false;
    }
  }
}
