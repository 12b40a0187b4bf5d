/**
  `MapPopup.tsx`: a map click queries the backend's `/pixel_value` for LST
  and NDVI at the clicked point over the report's date range and shows them
  in a popup.
 */
module MapPopup {
  import opened Wrappers
  import opened PixelQuery

  /** What one click sends: the clicked point and the date range in the props. */
  datatype Query = Query(lat: real, lng: real, startDate: string, endDate: string)

  /** `popupData`, read through its typed fields `lst_value` and `ndvi_value`. */
  datatype PopupData = PopupData(lat: real, lng: real, lstValue: Reading, ndviValue: Reading)

  /** The fields of a `/pixel_value` response body that the popup reads. */
  datatype Body = Body(lstValue: Reading, ndviValue: Reading)

  /** How a click handler's `try` ends. */
  datatype Outcome = Answered(body: Body) | Failed | Aborted

  type State = Slot<Query, PopupData>

  /**
    The placeholder `{ lat, lng, value: null }` and the error marker
    `{ lat, lng, value: NaN }` both set a field named `value`, so the typed
    fields read `undefined`.
   */
  function Untyped(lat: real, lng: real): PopupData {
    PopupData(lat, lng, Undefined, Undefined)
  }

  /** The popup a handler writes on resuming. */
  function Resolve(q: Query, o: Outcome): (r: Settlement<PopupData>)
    ensures r.AbortError? <==> o.Aborted?
    ensures r.Replace? ==> r.popup.lat == q.lat && r.popup.lng == q.lng
    ensures o.Answered? ==> r.Replace? && r.popup.lstValue == o.body.lstValue && r.popup.ndviValue == o.body.ndviValue
    ensures o.Failed? ==> r.Replace? && IsNaN(r.popup.lstValue) && IsNaN(r.popup.ndviValue)
  {
    match o
    case Answered(b) => Replace(PopupData(q.lat, q.lng, b.lstValue, b.ndviValue))
    case Failed => Replace(Untyped(q.lat, q.lng))
    case Aborted => AbortError
  }

  function ClickEvent(q: Query): Event<Query, PopupData> {
    Click(q, Untyped(q.lat, q.lng))
  }

  /** Handler `k` resuming with outcome `o`. */
  function SettleEvent(s: State, k: nat, o: Outcome): Event<Query, PopupData> {
    if k < |s.requests| then Settle(k, Resolve(s.requests[k], o)) else Settle(k, AbortError)
  }

  /** What the popup shows. */
  datatype View = View(lat: real, lng: real, lst: Text, ndvi: Text)

  /** The rendered popup: nothing without `popupData`, else the two field chains. */
  function Render(s: State): (r: Option<View>)
    ensures r.None? <==> s.popup.None?
    ensures r.Some? ==> r.value.lat == s.popup.value.lat && r.value.lng == s.popup.value.lng
    ensures r.Some? && s.loading ==> r.value.lst == LoadingText && r.value.ndvi == LoadingText
    ensures r.Some? ==> && r.value.lst == Show(s.loading, s.popup.value.lstValue, " °C")
                        && r.value.ndvi == Show(s.loading, s.popup.value.ndviValue, "")
    ensures r.Some? && r.value.lst.Fixed? ==>
      r.value.lst.unit == " °C" && s.popup.value.lstValue == Num(r.value.lst.value)
    ensures r.Some? && r.value.ndvi.Fixed? ==>
      r.value.ndvi.unit == "" && s.popup.value.ndviValue == Num(r.value.ndvi.value)
  {
    if s.popup.None? then None
    else
      var p := s.popup.value;
      Some(View(p.lat, p.lng, Show(s.loading, p.lstValue, " °C"), Show(s.loading, p.ndviValue, "")))
  }

  /**
    Right after a click, the popup sits at the clicked point and both fields
    read "Loading...", and the click is reported to `handleClickLocation`.
   */
  lemma ClickShowsLoading(s: State, q: Query)
    ensures var t := Step(s, ClickEvent(q));
      && Render(t) == Some(View(q.lat, q.lng, LoadingText, LoadingText))
      && t.requests[|t.requests| - 1] == q
  {
  }

  /**
    A handler that resumes with a body shows the body's values at its own
    click's point: numbers formatted (LST with the unit), `null` still as
    "Loading...", a missing or NaN value as "Error".
   */
  lemma AnsweredShows(s: State, k: nat, b: Body)
    requires Admissible(s, SettleEvent(s, k, Answered(b)))
    ensures var t := Step(s, SettleEvent(s, k, Answered(b)));
      Render(t) == Some(View(s.requests[k].lat, s.requests[k].lng,
                             Show(false, b.lstValue, " °C"), Show(false, b.ndviValue, "")))
  {
  }

  /** A handler whose request fails shows "Error" in both fields at its click's point. */
  lemma FailedShowsError(s: State, k: nat)
    requires Admissible(s, SettleEvent(s, k, Failed))
    ensures var t := Step(s, SettleEvent(s, k, Failed));
      Render(t) == Some(View(s.requests[k].lat, s.requests[k].lng, ErrorText, ErrorText))
  {
  }

  /** A handler rejected with `AbortError` keeps the popup but still ends loading. */
  lemma AbortedKeepsPopup(s: State, k: nat)
    requires Admissible(s, SettleEvent(s, k, Aborted))
    ensures var t := Step(s, SettleEvent(s, k, Aborted));
      t.popup == s.popup && !t.loading && t.ref == None
  {
  }

  /** Closing removes the popup. */
  lemma CloseHides(s: State)
    ensures Render(Step(s, Close)) == None
  {
  }

  /**
    As written: after a second click, the first request's `AbortError` ends
    loading, and the placeholder's `undefined` fields then read "Error"
    although the second request is still in flight.
   */
  lemma SupersededAbortShowsError(q1: Query, q2: Query)
    ensures var t := Run(Init(), [ClickEvent(q1), ClickEvent(q2), Settle(0, AbortError)], false);
      && t.Some? && Live(t.value, 1)
      && Render(t.value) == Some(View(q2.lat, q2.lng, ErrorText, ErrorText))
  {
    var s0: State := Init();
    var s1 := Step(s0, ClickEvent(q1));
    var s2 := Step(s1, ClickEvent(q2));
    var s3 := Step(s2, Settle(0, AbortError));
    assert s3.popup == Some(Untyped(q2.lat, q2.lng)) && !s3.loading;
    assert Run(s3, [], false) == Some(s3);
    assert Run(s2, [Settle(0, AbortError)], false) == Some(s3);
    assert Run(s1, [ClickEvent(q2), Settle(0, AbortError)], false) == Some(s3);
  }

  /**
    With the `finally` guarded, a popup whose request can still publish
    reads "Loading..." in both fields.
   */
  lemma GuardedShowsLoading(s: State, k: nat)
    requires SingleFlight(s) && s.mounted && Live(s, k) && s.popup.Some?
    ensures Render(s) == Some(View(s.popup.value.lat, s.popup.value.lng, LoadingText, LoadingText))
  {
    GuardedLoadingWhileLive(s, k);
  }

  /** The component: its ref and state, and the requests it has made. */
  class MapPopupComponent {
    var abortControllerRef: Option<nat>
    var popupData: Option<PopupData>
    var isLoading: bool
    /** One entry per click: the point passed to `handleClickLocation` and the query sent. */
    var requests: seq<Query>
    var aborted: set<nat>
    var settled: set<nat>
    var mounted: bool

    function State(): State
      reads this
    {
      Slot(abortControllerRef, popupData, isLoading, requests, aborted, settled, mounted)
    }

    constructor ()
      ensures State() == Init()
    {
      abortControllerRef, popupData, isLoading := None, None, false;
      requests, aborted, settled, mounted := [], {}, {}, true;
    }

    /** The click handler up to its `await`; returns the new controller. */
    method HandleClick(lat: real, lng: real, startDate: string, endDate: string) returns (controller: nat)
      requires mounted
      modifies this
      ensures State() == Step(old(State()), ClickEvent(Query(lat, lng, startDate, endDate)))
      ensures controller == old(|requests|) && abortControllerRef == Some(controller)
    {
      requests := requests + [Query(lat, lng, startDate, endDate)];
      if abortControllerRef.Some? {
        aborted := aborted + {abortControllerRef.value};
      }
      controller := |requests| - 1;
      abortControllerRef := Some(controller);
      popupData := Some(Untyped(lat, lng));
      isLoading := true;
    }

    /** Handler `controller` resuming after its `await`, through `catch` and `finally`. */
    method Resume(controller: nat, outcome: Outcome)
      requires Admissible(State(), SettleEvent(State(), controller, outcome))
      modifies this
      ensures State() == Step(old(State()), SettleEvent(old(State()), controller, outcome))
    {
      var q := requests[controller];
      match outcome {
        case Answered(b) =>
          popupData := Some(PopupData(q.lat, q.lng, b.lstValue, b.ndviValue));
        case Failed =>
          popupData := Some(Untyped(q.lat, q.lng));
        case Aborted =>
      }
      isLoading := false;
      abortControllerRef := None;
      settled := settled + {controller};
    }

    /** The popup's `onClose`. */
    method ClosePopup()
      modifies this
      ensures State() == Step(old(State()), Close)
    {
      popupData := None;
    }

    /** The cleanup of the mount effect. */
    method UnmountCleanup()
      modifies this
      ensures State() == Step(old(State()), Unmount)
    {
      if abortControllerRef.Some? {
        aborted := aborted + {abortControllerRef.value};
      }
      mounted := false;
    }
  }
}
