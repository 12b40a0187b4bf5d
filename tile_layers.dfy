/**
  The map page's tile-layer state (`Map.tsx`): which overlays are switched on,
  the tile URL last fetched for each, the selected month, `toggleLayer`, the
  `fetchTile` request sequence with its merge into the URL state, and the
  condition under which an overlay is drawn.
 */
module TileLayers {
  import opened Wrappers

  /** The two overlays, keyed `lst` and `ndvi` in the page state. */
  datatype Layer = Lst | Ndvi

  /** An object with one field per overlay. */
  datatype PerLayer<T> = PerLayer(lst: T, ndvi: T)
  {
    function Get(layer: Layer): T {
      match layer
      case Lst => lst
      case Ndvi => ndvi
    }

    function Set(layer: Layer, v: T): (r: PerLayer<T>)
      ensures r.Get(layer) == v
      ensures forall other :: other != layer ==> r.Get(other) == Get(other)
    {
      match layer
      case Lst => this.(lst := v)
      case Ndvi => this.(ndvi := v)
    }
  }

  /** The backend month a fresh page shows. */
  const DefaultDate := "2025-01"

  /** Initially only the LST overlay is on and no tile URL is known. */
  const InitialLayers := PerLayer(true, false)
  const InitialTileUrls := PerLayer("", "")

  /** `toggleLayer(name)`: flip that overlay's switch and keep the other. */
  function Toggled(layers: PerLayer<bool>, name: Layer): (r: PerLayer<bool>)
    ensures r.Get(name) == !layers.Get(name)
    ensures forall other :: other != name ==> r.Get(other) == layers.Get(other)
  {
    layers.Set(name, !layers.Get(name))
  }

  /** Toggling the same overlay twice restores the switches. */
  lemma ToggleTwice(layers: PerLayer<bool>, name: Layer)
    ensures Toggled(Toggled(layers, name), name) == layers
  {
    match name
    case Lst =>
    case Ndvi =>
  }

  /** The path segment of each overlay's tile endpoint. */
  function PathName(layer: Layer): string {
    match layer
    case Lst => "lst"
    case Ndvi => "ndvi"
  }

  /** The URL `fetchTile` requests for an overlay and month. */
  function Endpoint(layer: Layer, date: string): string {
    "http://127.0.0.1:8000/tiles_" + PathName(layer) + "/" + date
  }

  /** The `tile_url` field of a response body: missing or falsy, or a string. */
  datatype Field = Absent | Str(s: string)

  /** JavaScript truthiness of the field: a string is truthy when non-empty. */
  predicate Truthy(f: Field) {
    f.Str? && f.s != ""
  }

  /**
    What one `await fetch(..)` followed by `await res.json()` yields: a body,
    or a rejection (network failure, a body that is not JSON).
   */
  datatype Response = Json(tileUrl: Field) | Throws

  /**
    How a `fetchTile` call ends: it reaches `setTileUrls` with the URLs it
    collected, it is caught (logged and alerted), or it is still awaiting a
    response that has not arrived.
   */
  datatype Outcome = Completed(urls: PerLayer<Option<string>>) | Threw | Awaiting

  /** The requests a `fetchTile` call issued, in order, and how it ended. */
  datatype Run = Run(requests: seq<string>, outcome: Outcome)

  /** One `if (layers.x) { ... }` block, with the responses left after it. */
  datatype Block = Block(requests: seq<string>, outcome: Outcome, rest: seq<Response>)

  function LayerBlock(enabled: bool, layer: Layer, date: string, responses: seq<Response>,
                      urls: PerLayer<Option<string>>): (b: Block)
    ensures b.requests == (if enabled then [Endpoint(layer, date)] else [])
    ensures !enabled ==> b.outcome == Completed(urls)
    ensures b.rest == (if enabled && responses != [] then responses[1..] else responses)
    ensures b.outcome.Completed? <==> !enabled || (responses != [] && responses[0].Json?)
    ensures b.outcome.Threw? <==> enabled && responses != [] && responses[0].Throws?
    ensures b.outcome.Completed? ==> forall other :: other != layer ==> b.outcome.urls.Get(other) == urls.Get(other)
    ensures b.outcome.Completed? && enabled && responses != [] ==>
      b.outcome.urls.Get(layer) ==
        (if Truthy(responses[0].tileUrl) then Some(responses[0].tileUrl.s) else urls.Get(layer))
  {
    if !enabled then Block([], Completed(urls), responses)
    else if responses == [] then Block([Endpoint(layer, date)], Awaiting, [])
    else if responses[0].Throws? then Block([Endpoint(layer, date)], Threw, responses[1..])
    else
      var f := responses[0].tileUrl;
      var urls' := if Truthy(f) then urls.Set(layer, Some(f.s)) else urls;
      Block([Endpoint(layer, date)], Completed(urls'), responses[1..])
  }

  /**
    `fetchTile()` with the state `layers` and `date` it closed over, served
    by `responses` in order: the LST block, then the NDVI block.
   */
  function FetchRun(layers: PerLayer<bool>, date: string, responses: seq<Response>): (r: Run)
    ensures |r.requests| <= |Enabled(layers)|
    ensures r.outcome.Completed? ==> |r.requests| == |Enabled(layers)| <= |responses|
    ensures r.outcome.Awaiting? ==> |r.requests| == |responses| + 1
    ensures r.outcome.Threw? ==> 0 < |r.requests| <= |responses| && responses[|r.requests| - 1].Throws?
  {
    var first := LayerBlock(layers.lst, Lst, date, responses, PerLayer(None, None));
    if !first.outcome.Completed? then Run(first.requests, first.outcome)
    else
      var second := LayerBlock(layers.ndvi, Ndvi, date, first.rest, first.outcome.urls);
      Run(first.requests + second.requests, second.outcome)
  }

  /** The overlays that are switched on, in the order `fetchTile` visits them. */
  function Enabled(layers: PerLayer<bool>): (r: seq<Layer>)
    ensures forall l :: l in r <==> layers.Get(l)
    ensures |r| == (if layers.lst then 1 else 0) + (if layers.ndvi then 1 else 0)
    ensures layers.lst ==> r[0] == Lst
  {
    (if layers.lst then [Lst] else []) + (if layers.ndvi then [Ndvi] else [])
  }

  /** The requests a complete `fetchTile` would make. */
  function Planned(layers: PerLayer<bool>, date: string): (r: seq<string>)
    ensures |r| == |Enabled(layers)|
  {
    var e := Enabled(layers);
    seq(|e|, i requires 0 <= i < |e| => Endpoint(e[i], date))
  }

  /** The enabled overlays, case by case. */
  lemma EnabledCases(layers: PerLayer<bool>)
    ensures layers.lst && layers.ndvi ==> Enabled(layers) == [Lst, Ndvi]
    ensures layers.lst && !layers.ndvi ==> Enabled(layers) == [Lst]
    ensures !layers.lst && layers.ndvi ==> Enabled(layers) == [Ndvi]
    ensures !layers.lst && !layers.ndvi ==> Enabled(layers) == []
  {
  }

  /**
    A `fetchTile` call completes exactly when every planned request got a
    JSON body, and then it has issued exactly the planned requests.
   */
  lemma FetchCompletes(layers: PerLayer<bool>, date: string, responses: seq<Response>)
    ensures var run := FetchRun(layers, date, responses);
      var n := |Enabled(layers)|;
      && (run.outcome.Completed? <==>
            n <= |responses| && forall i :: 0 <= i < n ==> responses[i].Json?)
      && (run.outcome.Completed? ==> run.requests == Planned(layers, date))
  {
    EnabledCases(layers);
  }

  /**
    A `fetchTile` call that does not complete stopped at its last request:
    every earlier planned request got a JSON body, and it is caught exactly
    when that last request was rejected rather than left unanswered. It
    issues nothing beyond the planned requests.
   */
  lemma FetchStops(layers: PerLayer<bool>, date: string, responses: seq<Response>)
    ensures var run := FetchRun(layers, date, responses);
      var n := |Enabled(layers)|;
      && run.requests <= Planned(layers, date)
      && (!run.outcome.Completed? ==>
            var k := |run.requests| - 1;
            && 0 <= k < n
            && (forall i :: 0 <= i < k ==> i < |responses| && responses[i].Json?)
            && (run.outcome.Threw? <==> k < |responses| && responses[k].Throws?))
  {
    EnabledCases(layers);
  }

  /**
    The URLs a completed `fetchTile` collects: an overlay's URL is collected
    exactly when it is switched on and its body's `tile_url` is truthy, and it
    is that string.
   */
  lemma FetchCollects(layers: PerLayer<bool>, date: string, responses: seq<Response>)
    requires FetchRun(layers, date, responses).outcome.Completed?
    ensures var urls := FetchRun(layers, date, responses).outcome.urls;
      var e := Enabled(layers);
      && |e| <= |responses|
      && forall i :: 0 <= i < |e| ==>
        && responses[i].Json?
        && urls.Get(e[i]) == (if Truthy(responses[i].tileUrl) then Some(responses[i].tileUrl.s) else None)
    ensures forall l :: !layers.Get(l) ==> FetchRun(layers, date, responses).outcome.urls.Get(l) == None
  {
    FetchCompletes(layers, date, responses);
    EnabledCases(layers);
  }

  /** `setTileUrls(prev => ({...prev, ...urls}))`: collected URLs replace, others stay. */
  function Merge(prev: PerLayer<string>, urls: PerLayer<Option<string>>): (r: PerLayer<string>)
    ensures forall l :: r.Get(l) == (if urls.Get(l).Some? then urls.Get(l).value else prev.Get(l))
  {
    PerLayer(if urls.lst.Some? then urls.lst.value else prev.lst,
             if urls.ndvi.Some? then urls.ndvi.value else prev.ndvi)
  }

  /** The URL state after a `fetchTile` call: only a completed call changes it. */
  function Apply(prev: PerLayer<string>, run: Run): (r: PerLayer<string>)
    ensures !run.outcome.Completed? ==> r == prev
    ensures forall l :: r.Get(l) == prev.Get(l) || (run.outcome.Completed? && run.outcome.urls.Get(l) == Some(r.Get(l)))
    ensures run.outcome.Completed? ==> forall l :: run.outcome.urls.Get(l).Some? ==> r.Get(l) == run.outcome.urls.Get(l).value
  {
    if run.outcome.Completed? then Merge(prev, run.outcome.urls) else prev
  }

  /** `layers.x && tileUrls.x && <TileLayer .../>`: the overlay is drawn. */
  predicate Rendered(layers: PerLayer<bool>, tileUrls: PerLayer<string>, layer: Layer) {
    layers.Get(layer) && tileUrls.Get(layer) != ""
  }

  /**
    After a `fetchTile` run is applied, an overlay is drawn exactly when it is
    on and either its response carried a truthy `tile_url` or an earlier URL is
    still held: a falsy `tile_url` does not clear a previous one, and a
    rejected or unanswered call leaves every URL as it was.
   */
  lemma FetchThenRender(layers: PerLayer<bool>, date: string, responses: seq<Response>,
                        prev: PerLayer<string>, layer: Layer)
    ensures var run := FetchRun(layers, date, responses);
      var after := Apply(prev, run);
      && (!run.outcome.Completed? ==> after == prev)
      && (run.outcome.Completed? && layers.Get(layer) ==>
            exists i :: 0 <= i < |Enabled(layers)| && Enabled(layers)[i] == layer &&
              (Rendered(layers, after, layer) <==> Truthy(responses[i].tileUrl) || prev.Get(layer) != ""))
      && (!layers.Get(layer) ==> !Rendered(layers, after, layer))
  {
    var run := FetchRun(layers, date, responses);
    if run.outcome.Completed? && layers.Get(layer) {
      FetchCollects(layers, date, responses);
      var e := Enabled(layers);
      var i :| 0 <= i < |e| && e[i] == layer;
      assert responses[i].Json?;
    }
  }

  /**
    Two overlapping `fetchTile` calls merge in the order they complete, with
    no check of which was started last: when the call for the earlier month
    completes second, its URL replaces the later month's.
   */
  lemma SlowerCallWins(older: string, newer: string)
    requires older != "" && newer != ""
    ensures var runOld := FetchRun(InitialLayers, "2025-01", [Json(Str(older))]);
      var runNew := FetchRun(InitialLayers, "2025-02", [Json(Str(newer))]);
      Apply(Apply(InitialTileUrls, runNew), runOld).lst == older
  {
  }

  /** The page state of `Map.tsx` that `fetchTile` and the overlays depend on. */
  class MapView {
    var tileUrls: PerLayer<string>
    var date: string
    var layers: PerLayer<bool>

    /** The state on mount. */
    constructor ()
      ensures tileUrls == InitialTileUrls && date == DefaultDate && layers == InitialLayers
      ensures forall l :: !IsRendered(l)
    {
      tileUrls := InitialTileUrls;
      date := DefaultDate;
      layers := InitialLayers;
    }

    method ToggleLayer(name: Layer)
      modifies this
      ensures layers == Toggled(old(layers), name)
      ensures tileUrls == old(tileUrls) && date == old(date)
    {
      layers := Toggled(layers, name);
    }

    /** `setDate`, passed to the sidebar's month selector. */
    method SetDate(d: string)
      modifies this
      ensures date == d && layers == old(layers) && tileUrls == old(tileUrls)
    {
      date := d;
    }

    /**
      `fetchTile()`, run to its end against `responses`: the requests it makes,
      whether it ends in the alert, and the merged URL state.
     */
    method FetchTile(responses: seq<Response>) returns (requests: seq<string>, alerted: bool)
      modifies this
      ensures var run := FetchRun(old(layers), old(date), responses);
        && requests == run.requests
        && (alerted <==> run.outcome.Threw?)
        && tileUrls == Apply(old(tileUrls), run)
      ensures layers == old(layers) && date == old(date)
    {
      var urls: PerLayer<Option<string>> := PerLayer(None, None);
      var next := 0;
      requests, alerted := [], false;
      if layers.lst {
        requests := requests + [Endpoint(Lst, date)];
        if next == |responses| {
          return;
        }
        var res := responses[next];
        next := next + 1;
        if res.Throws? {
          alerted := true;
          return;
        }
        if Truthy(res.tileUrl) {
          urls := urls.(lst := Some(res.tileUrl.s));
        }
      }
      assert responses[next..] == LayerBlock(layers.lst, Lst, date, responses, PerLayer(None, None)).rest;
      if layers.ndvi {
        requests := requests + [Endpoint(Ndvi, date)];
        if next == |responses| {
          return;
        }
        var res := responses[next];
        next := next + 1;
        if res.Throws? {
          alerted := true;
          return;
        }
        if Truthy(res.tileUrl) {
          urls := urls.(ndvi := Some(res.tileUrl.s));
        }
      }
      tileUrls := Merge(tileUrls, urls);
    }

    /** Whether the overlay is drawn now. */
    predicate IsRendered(layer: Layer)
      reads this
    {
      Rendered(layers, tileUrls, layer)
    }
  }
}
