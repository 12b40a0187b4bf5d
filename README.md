# GEE dashboard: request logic of the map dashboard and its backend helpers

This project models the parts of the Google Earth Engine dashboard that hold the application logic. It is written in Dafny, and the properties are proved about the model.

- **Month picker.** `generateMonthOptions` lists every `YYYY-MM` from a start month to an end month.
- **Backend date handling.**
  - `validate_date_format` checks the `YYYY-MM` shape.
  - `get_last_12_months` steps back from today in 30-day strides and returns the sorted, de-duplicated month labels.
  - The `/timeseries` route samples land-surface temperature (LST) and NDVI for each of those months.
- **Map page.** It holds the overlay switches and tile URLs, toggles an overlay, and runs `fetchTile`. `fetchTile` asks the backend for each enabled overlay's tile URL in turn and merges what it collected. The page also decides when an overlay is drawn.
- **Click-to-query popups** (`MapPopup` and its predecessor `MapClick`).
  - A map click aborts the stored `AbortController` and stores a new one.
  - It shows a placeholder and queries the backend.
  - A `finally` block then clears the loading flag and the reference.
  - Unmounting aborts the stored controller.
- **AOI panel.** The "Apply AOI" button is enabled by a rule, and the drawing toggle's label and colour follow the drawing state.

The modules are:

- **Shared:** `Wrappers` (Option and Result), `Decimal` (digit strings and zero padding) and `StringOrder` (Python string order and `sorted(set(..))`).
- **One per source file:** `MonthOptions`, `DateValidator`, `LastMonths`, `Timeseries`, `TileLayers`, `MapPopup`, `MapClick` and `AoiControl`.
- **Shared click machine:** `PixelQuery`, used by both popup components.
- **`DateContract`:** checks that the month strings the system produces pass the backend's validator.

The modelling choices are:

- **Code that changes state step by step is imperative.** `GenerateMonthOptions`, `GetLast12Months`, `GetTimeseries` and `MapView.FetchTile` are methods with loops or sequential updates, each proved against a function.
- **The components are classes.** Each popup component is a class whose fields are the ref, the React state and the world it acts on: the requests made, the controllers aborted and the handlers finished. Each method is proved to perform one step of the event machine in `PixelQuery`.
- **Ordering and concurrency are inputs.** Ordering is a sequence of events. JavaScript runs one handler at a time, and a handler that resumes after `await` is an event of its own.
- **I/O is passed in.** The clock (`today`), Earth Engine (a `Sampler` function) and the network (a sequence of `Response`s, or the outcome each handler resumes with) are all parameters.

What the code does not do:

- It has no per-request sequence numbers and no context versioning. A tile fetch's result is never dropped. A pixel query's result is dropped only when its controller was aborted before it settled.
- It has no per-layer failure isolation: one error ends the whole tile fetch.
- The model proves what the code does. `TileLayers.SlowerCallWins` shows that the slower of two tile fetches wins. `PixelQuery.StaleOverwrite` shows that a stale pixel query can overwrite a fresher one.

## Model

| member | source | states |
|---|---|---|
| Decimal.NatToString | app/src/utils/index.ts:7-9 | `${year}` renders a number with at least one digit and only digits. It is one character exactly for numbers below 10. |
| Decimal.PadStart | app/src/utils/index.ts:8 | `padStart` yields max(length, width) characters: the original string at the end, the fill before it. |
| MonthOptions.NextMonth | app/src/utils/index.ts:10 | `setMonth(getMonth()+1)` gives the following month: the month index grows by one, and December rolls over to January of the next year. |
| MonthOptions.StartOfMonth | app/src/utils/index.ts:2-3 | `new Date(arg + "-01")` denotes a valid month with a year of at most 9999, or is an Invalid Date. |
| MonthOptions.Label | app/src/utils/index.ts:7-9 | Definition: the year's decimal digits without padding, '-', and the month zero-padded to two digits. Its properties are the three `Label*` rows below. |
| MonthOptions.LabelRoundTrip | app/src/utils/index.ts:7-9 | A label ends in '-' and the month padded to two digits, and reading it back gives the same month. |
| MonthOptions.LabelInjective | app/src/utils/index.ts:7-9 | Distinct months have distinct labels. |
| MonthOptions.LabelShape | app/src/utils/index.ts:7-9 | For four-digit years a label is exactly four digits, '-', two digits. |
| MonthOptions.OptionParsesBack | app/src/utils/index.ts:2-9 | An option with a four-digit year, passed back as `start`, denotes the same month. |
| MonthOptions.MonthSpan | app/src/utils/index.ts:6-10 | The inclusive run of months between two month indices: empty when reversed, otherwise the i-th element is the start plus i months. |
| MonthOptions.SpanEmptyWhenReversed | app/src/utils/index.ts:6 | A start later than the end gives no options. |
| MonthOptions.SpanEnds | app/src/utils/index.ts:6-10 | Otherwise the first option is the start and the last is the end. There are 12·(endYear−startYear)+(endMonth−startMonth)+1 of them. |
| MonthOptions.SpanSuccessor | app/src/utils/index.ts:10 | Each option is the month after the previous one. |
| MonthOptions.SpanIncreasing | app/src/utils/index.ts:6-10 | The options are strictly increasing in time. |
| MonthOptions.EnumerateMonths | app/src/utils/index.ts:6-11 | The loop pushes the label of every month of the span, in order, and no label twice. |
| MonthOptions.GenerateMonthOptions | app/src/utils/index.ts:1-14 | The result is empty when either argument is an Invalid Date. Otherwise it is the labels of the span from start to end, all distinct. |
| MonthOptions.DateSelectorOptions | app/src/components/Map/DateSelector.tsx:11 | The selector's call with "2023-01" and "2025-08" yields 32 options, from "2023-01" to "2025-08" (at UTC, as assumed under Left out). |
| DateValidator.MatchPrefix | api/services/validator.py:6 | Matching the pattern at the start of the string leaves exactly the characters after the pattern's length. |
| DateValidator.MatchPrefixExactly | api/services/validator.py:6 | The match succeeds exactly when every pattern position matches the string's character there. |
| DateValidator.ValidateDateFormat | api/services/validator.py:5-7 | Returns nothing on success; every failure is HTTP 400 with the fixed detail message. |
| DateValidator.AcceptsExactly | api/services/validator.py:6 | A string passes exactly when it is four digits, '-', two digits, optionally followed by one newline, because `$` matches before a final newline. |
| DateValidator.AcceptedExamples | api/services/validator.py:6 | "2025-01" and "2025-01\n" pass. |
| DateValidator.RangesNotChecked | api/services/validator.py:6 | "2025-13" and "0000-00" pass: month and year ranges are not checked. |
| DateValidator.RejectedExamples | api/services/validator.py:6-7 | "2025-1", "25-01", "2025/01", "2025-01-01" and "2025-01\n\n" raise. |
| DateContract.OptionsPassValidation | api/services/validator.py:6 | Every month option with a four-digit year passes the backend's date check. |
| DateContract.MonthLabelsPassValidation | api/services/validator.py:6 | Every label `get_last_12_months` produces passes the backend's date check. |
| StringOrder.Less | api/services/utils.py:28 | Definition: Python's `str` order, comparing characters left to right, with a proper prefix before its extensions. |
| StringOrder.LessIrreflexive | api/services/utils.py:28 | No string is below itself. |
| StringOrder.LessTransitive | api/services/utils.py:28 | The order is transitive. |
| StringOrder.LessTotal | api/services/utils.py:28 | Of two distinct strings one is below the other. |
| StringOrder.LessAsymmetric | api/services/utils.py:28 | Two strings are never each below the other. |
| StringOrder.Insert | api/services/utils.py:28 | Inserting into a strictly increasing list keeps it strictly increasing and adds exactly the new element, if it is new. |
| StringOrder.SortedSet | api/services/utils.py:28 | `sorted(set(xs))` is strictly increasing, holds exactly the elements of `xs` and is no longer than `xs`. |
| StringOrder.SortedUnique | api/services/utils.py:28 | Two strictly increasing lists with the same elements are equal, so `sorted(set(xs))` is the only such list. |
| StringOrder.SortedIsDistinct | api/services/utils.py:28 | A strictly increasing list has no duplicates. |
| LastMonths.DaysInMonth | api/services/utils.py:26 | Every month has 28 to 31 days. |
| LastMonths.DaysBefore | api/services/utils.py:26 | `d - timedelta(days=n)` is a valid date, or it raises the overflow error. |
| LastMonths.DaysBeforeOrdinal | api/services/utils.py:26 | Subtracting n days succeeds exactly when n is below the date's day number. The result's day number is then smaller by exactly n. |
| LastMonths.SampleDate | api/services/utils.py:25-26 | Iteration i samples the valid date 30·i days before today. |
| LastMonths.GetLast12Months | api/services/utils.py:21-28 | Fails with the overflow error exactly when a sample would precede 0001-01-01. Otherwise returns `sorted(set(..))` of the twelve sampled labels. |
| LastMonths.MonthLabel | api/services/utils.py:27 | Definition: `strftime("%Y-%m")`, the year zero-padded to four digits, '-', the month zero-padded to two. `MonthLabelParts` and `MonthLabelInjective` state its properties. |
| LastMonths.MonthLabelParts | api/services/utils.py:27 | A label is four digits, '-', two digits, and reads back as the date's year and month. |
| LastMonths.MonthLabelInjective | api/services/utils.py:27 | Two dates with the same label lie in the same month of the same year. |
| LastMonths.ResultShape | api/services/utils.py:25-28 | The result has at most 12 labels, strictly increasing and distinct. It contains today's month, and a label is in it exactly when some sample i < 12 has that label. |
| LastMonths.ThirtyFirstRepeatsMonth | api/services/utils.py:25-28 | On the 31st of a month the result has at most 11 labels. |
| LastMonths.InRangeAfterYearOne | api/services/utils.py:26 | Any date from year 2 on is far enough from 0001-01-01 for all twelve samples. |
| LastMonths.FebruarySkipped | api/services/utils.py:25-28 | From March 31 the result lists January and March but not February, so the months are not consecutive. |
| Timeseries.MonthValues | api/routes/timeseries.py:35-40 | If either `getInfo()` raises, both values are None, even when LST succeeded. Otherwise both values are what was returned. |
| Timeseries.Sampled | api/routes/timeseries.py:17-40 | Definition: the LST and NDVI samples at the point over `{month}-01`..`{month}-28`, combined by `MonthValues`. |
| Timeseries.SampleMonths | api/routes/timeseries.py:16-43 | One LST entry and one NDVI entry per month, in order, each labelled with its month. Each pair's values come from that month's samples over `{month}-01`..`{month}-28`. A raising month does not stop later months. |
| Timeseries.GetTimeseries | api/routes/timeseries.py:8-48 | Fails exactly where `get_last_12_months` fails. Otherwise the two lists follow, month by month, the result of `get_last_12_months` as `SampleMonths` states. |
| TileLayers.Toggled | app/src/components/Map/Map.tsx:23-28 | `toggleLayer(name)` flips exactly that overlay's switch and leaves the other. |
| TileLayers.ToggleTwice | app/src/components/Map/Map.tsx:23-28 | Toggling the same overlay twice restores the switches. |
| TileLayers.Enabled | app/src/components/Map/Map.tsx:36-50 | The overlays `fetchTile` visits are exactly those switched on, each once, LST first. |
| TileLayers.EnabledCases | app/src/components/Map/Map.tsx:36-50 | The visited overlays for each of the four switch settings. |
| TileLayers.LayerBlock | app/src/components/Map/Map.tsx:36-50 | A disabled block requests nothing, consumes no response and passes the URLs on unchanged. An enabled block requests its overlay's endpoint and consumes one response. It continues exactly on a JSON body and is caught exactly on a rejection. It sets only its own overlay's URL, and only when `tile_url` is truthy. |
| TileLayers.FetchRun | app/src/components/Map/Map.tsx:32-60 | At most one request per enabled overlay. A completed run issued one per enabled overlay. A waiting run issued one more request than there were responses. A caught run's last request got the rejection. |
| TileLayers.Apply | app/src/components/Map/Map.tsx:52-59 | A caught or waiting fetch leaves the URLs unchanged. A completed one sets every collected URL, and every other URL keeps its value. |
| TileLayers.Rendered | app/src/components/Map/Map.tsx:105-110 | Definition: an overlay is drawn when its switch is on and its URL is non-empty. |
| TileLayers.FetchCompletes | app/src/components/Map/Map.tsx:32-55 | A fetch reaches the merge exactly when every enabled overlay's request got a JSON body. It has then requested exactly the enabled overlays' endpoints, LST before NDVI. |
| TileLayers.FetchStops | app/src/components/Map/Map.tsx:32-59 | Requests never go beyond the planned ones. A fetch that does not complete stopped at its last request: it was caught exactly when that request was rejected, and it waits forever when the request got no answer. |
| TileLayers.FetchCollects | app/src/components/Map/Map.tsx:34-50 | An overlay's URL is collected exactly when it is switched on and its body's `tile_url` is truthy, and the collected URL is that string. |
| TileLayers.Merge | app/src/components/Map/Map.tsx:52-55 | Collected URLs replace the previous ones. Every other URL, such as a disabled overlay's, keeps its value. |
| TileLayers.FetchThenRender | app/src/components/Map/Map.tsx:52-110 | A rejected or unanswered fetch leaves every URL unchanged, even a URL already collected. After a completed fetch, an enabled overlay is drawn exactly when its `tile_url` was truthy or an earlier URL is still held. A disabled overlay is never drawn. |
| TileLayers.SlowerCallWins | app/src/components/Map/Map.tsx:32-64 | Overlapping fetches merge in completion order with no staleness check: the earlier month's URL wins when its fetch completes last. |
| TileLayers.MapView.constructor | app/src/components/Map/Map.tsx:13-21 | On mount LST is on, NDVI is off, both URLs are "", the month is "2025-01", and no overlay is drawn. |
| TileLayers.MapView.ToggleLayer | app/src/components/Map/Map.tsx:23-28 | Replaces the switches by `Toggled` of the old ones; the URLs and the month are unchanged. |
| TileLayers.MapView.SetDate | app/src/components/Map/Map.tsx:17 | `setDate` changes only the month. |
| TileLayers.MapView.FetchTile | app/src/components/Map/Map.tsx:32-60 | Issues the requests of `FetchRun`, alerts exactly when it is caught, and leaves the URLs as `Apply` gives them. The switches and the month are unchanged. |
| PixelQuery.Admissible | app/src/components/Map/MapPopup.tsx:27-85 | Clicks, closing and unmounting are delivered only while mounted. A handler resumes at most once, and it replaces the popup exactly when its request is live, that is, not aborted. |
| PixelQuery.Step | app/src/components/Map/MapPopup.tsx:27-85 | One event as written. Requests are only appended, and the aborted and finished sets only grow. Nothing remounts, and a finished handler cannot resume again. A resuming handler always clears loading and the ref. |
| PixelQuery.GuardedStep | app/src/components/Map/MapPopup.tsx:67-70 | The corrected event: it equals `Step` except when a superseded handler resumes. That handler writes the same popup, but it leaves loading and the ref as they were. |
| PixelQuery.ClickEffect | app/src/components/Map/MapPopup.tsx:27-41 | A click records its request and aborts the stored controller, if any. It stores a fresh controller, shows the placeholder and sets loading. |
| PixelQuery.SettleEffect | app/src/components/Map/MapPopup.tsx:43-70 | A resuming handler keeps the popup on `AbortError` and otherwise replaces it. In both cases `finally` clears loading and the ref. |
| PixelQuery.UnmountEffect | app/src/components/Map/MapPopup.tsx:73-80 | Unmounting aborts the stored controller. It leaves the ref, popup, loading flag, requests and finished handlers unchanged. A second unmount changes nothing more. |
| PixelQuery.StepConsistent | app/src/components/Map/MapPopup.tsx:27-80 | Each event keeps the bookkeeping: a stored controller is the newest and unfinished, and while mounted, loading holds exactly when a controller is stored. |
| PixelQuery.RunConsistent | app/src/components/Map/MapPopup.tsx:27-80 | Every event sequence the runtime can deliver keeps that bookkeeping. |
| PixelQuery.StaleOverwrite | app/src/components/Map/MapPopup.tsx:31-70 | Click A, click B, A's `AbortError`, click C, C answers, B answers. The third click did not abort B, and B's result is what the popup shows. |
| PixelQuery.UnmountLeaks | app/src/components/Map/MapPopup.tsx:67-80 | After a superseded request settles, loading is off while the newer request is still live, and unmounting leaves that request running. |
| PixelQuery.GuardedStepKeeps | app/src/components/Map/MapPopup.tsx:67-70 | With `finally` guarded by `ref === controller`, every event keeps the single-flight property: any request that can still publish is the stored one. |
| PixelQuery.GuardedRunKeeps | app/src/components/Map/MapPopup.tsx:67-70 | With the guard, every deliverable event sequence from a single-flight state stays single-flight. |
| PixelQuery.GuardedPublishesLatest | app/src/components/Map/MapPopup.tsx:43-70 | With the guard, only the latest click's handler can replace the popup, and loading ends with it. |
| PixelQuery.GuardedLoadingWhileLive | app/src/components/Map/MapPopup.tsx:67-70 | With the guard, loading is on and the ref is stored whenever a request can still publish. |
| PixelQuery.GuardedUnmountAbortsAll | app/src/components/Map/MapPopup.tsx:73-80 | With the guard, unmounting leaves no request able to publish. |
| PixelQuery.GuardedOpening | app/src/components/Map/MapPopup.tsx:31-70 | With the guard, the opening of the stale-overwrite sequence stays loading, and the third click aborts the second request. |
| PixelQuery.Show | app/src/components/Map/MapPopup.tsx:89-105 | The field chain: "Loading..." exactly when loading or null. "Error" exactly when not loading and the value is NaN or undefined. Otherwise the number with its unit. |
| MapPopup.Resolve | app/src/components/Map/MapPopup.tsx:43-66 | A handler writes no popup exactly on `AbortError`. Any popup it writes is at its own click point. An answer carries the body's two values. A failure leaves both typed fields reading as NaN. |
| MapPopup.Render | app/src/components/Map/MapPopup.tsx:82-108 | A popup is shown exactly when `popupData` is set, at its point. Each field reads as `Show` gives for the loading flag and that field's value: "Loading..." while loading or for null, "Error" for NaN or `undefined`, otherwise the number. LST has " °C" and NDVI no unit. |
| MapPopup.ClickShowsLoading | app/src/components/Map/MapPopup.tsx:27-41 | After a click the popup is at the clicked point with both fields "Loading...", and the point is reported to `handleClickLocation`. |
| MapPopup.AnsweredShows | app/src/components/Map/MapPopup.tsx:43-55 | An answer shows the body's `lst_value` and `ndvi_value` at that click's own point. |
| MapPopup.FailedShowsError | app/src/components/Map/MapPopup.tsx:56-70 | A failed request shows "Error" in both fields at that click's point. |
| MapPopup.AbortedKeepsPopup | app/src/components/Map/MapPopup.tsx:56-70 | `AbortError` keeps the popup but clears loading and the ref. |
| MapPopup.CloseHides | app/src/components/Map/MapPopup.tsx:82-86 | Closing removes the popup. |
| MapPopup.SupersededAbortShowsError | app/src/components/Map/MapPopup.tsx:40-105 | After two clicks, the first request's `AbortError` makes both fields read "Error" while the second request is live. |
| MapPopup.GuardedShowsLoading | app/src/components/Map/MapPopup.tsx:67-105 | With the guard, a popup whose request can still publish reads "Loading..." in both fields. |
| MapPopup.MapPopupComponent.constructor | app/src/components/Map/MapPopup.tsx:15-25 | The component starts with no popup, not loading, no controller, mounted. |
| MapPopup.MapPopupComponent.HandleClick | app/src/components/Map/MapPopup.tsx:27-41 | Performs the click step of `PixelQuery.Step` and returns the new controller, which is stored. |
| MapPopup.MapPopupComponent.Resume | app/src/components/Map/MapPopup.tsx:43-70 | Performs the settle step of `PixelQuery.Step` for that handler's outcome. |
| MapPopup.MapPopupComponent.ClosePopup | app/src/components/Map/MapPopup.tsx:85 | Performs the close step. |
| MapPopup.MapPopupComponent.UnmountCleanup | app/src/components/Map/MapPopup.tsx:74-80 | Performs the unmount step. |
| MapClick.Resolve | app/src/components/MapClick.tsx:35-57 | A handler writes no popup exactly on `AbortError`. Any popup it writes is at its own click point. An answer carries the body's `value`, and a failure writes NaN. |
| MapClick.Render | app/src/components/MapClick.tsx:73-89 | A popup is shown exactly when `popupData` is set, at its point. The field reads as `Show` gives for the loading flag and `value`: "Loading..." while loading or for null, "Error" for NaN, otherwise the number with " °C". |
| MapClick.ClickShowsLoading | app/src/components/MapClick.tsx:20-33 | After a click the popup is at the clicked point with `value` null, loading, and reads "Loading...". |
| MapClick.AnsweredShows | app/src/components/MapClick.tsx:35-46 | An answer sets `value` to the body's `value` at that click's point, shown by the field chain. |
| MapClick.FailedShowsError | app/src/components/MapClick.tsx:47-61 | A failure sets `value` to NaN at that click's point, which reads "Error". |
| MapClick.AbortedKeepsPopup | app/src/components/MapClick.tsx:47-61 | `AbortError` keeps the popup but clears loading and the ref. |
| MapClick.CloseHides | app/src/components/MapClick.tsx:73-77 | Closing removes the popup. |
| MapClick.SupersededAbortStillReadsLoading | app/src/components/MapClick.tsx:20-86 | After a superseded `AbortError` the component is not loading, but the null placeholder still reads "Loading...". |
| MapClick.MapClickComponent.constructor | app/src/components/MapClick.tsx:9-18 | The component starts with no popup, not loading, no controller, mounted. |
| MapClick.MapClickComponent.HandleClick | app/src/components/MapClick.tsx:20-33 | Performs the click step of `PixelQuery.Step` and returns the new controller, which is stored. |
| MapClick.MapClickComponent.Resume | app/src/components/MapClick.tsx:35-61 | Performs the settle step of `PixelQuery.Step` for that handler's outcome. |
| MapClick.MapClickComponent.ClosePopup | app/src/components/MapClick.tsx:76 | Performs the close step. |
| MapClick.MapClickComponent.UnmountCleanup | app/src/components/MapClick.tsx:65-71 | Performs the unmount step. |
| AoiControl.ApplyDisabled | app/src/components/Map/Drawer/Control.tsx:41 | Definition: "Apply AOI" is disabled when there is no AOI or it equals the applied one. |
| AoiControl.ApplyLook | app/src/components/Map/Drawer/Control.tsx:41-45 | The green style is shown exactly when the button is not disabled: the condition at line 43 is the negation of the one at line 41. |
| AoiControl.OnClick | app/src/components/Map/Drawer/Control.tsx:28-41 | The toggle always invokes `toggleDrawing`. Apply invokes `applyAOI` exactly when there is an AOI that differs from the applied one; otherwise the button is greyed and does nothing. |
| AoiControl.ToggleLabel | app/src/components/Map/Drawer/Control.tsx:36 | "Cancel Drawing" exactly while drawing, otherwise "Start Drawing". |
| AoiControl.ToggleTone | app/src/components/Map/Drawer/Control.tsx:30-36 | Red exactly when the label is "Cancel Drawing". |
| AoiControl.ToggleSwitchesLabel | app/src/components/Map/Drawer/Control.tsx:28-49 | Flipping `isDrawing` switches the label and the colour and does not affect the Apply button. |

## Left out

- **Pixel-value query text.**
  - The pixel-value URLs are not modelled as text. A request is the record of its parameters (point and dates), because JavaScript's number-to-string conversion of `lat` and `lng` is not modelled.
  - `toFixed(2)` is not modelled. A shown value keeps the real number.
- **Earth Engine image processing.** This means the collections, `mean`, the band arithmetic and `sample(...).first().get(..)`, in `api/routes/timeseries.py` and elsewhere. It is the `Sampler` parameter: a pure function from band, point and date window to a value or a raise.
- **The clock.** `datetime.utcnow()` is the `today` parameter.
- **Framework wiring.** FastAPI routing, CORS, credentials and the other backend routes are not part of this model; neither is `mask_s2_clouds`.
- **React scheduling.**
  - State updates are applied immediately; batching and re-render timing are not modelled.
  - The effect that re-runs `fetchTile` when the month or the switches change is not modelled. A fetch is a separate call with the switches and month it closed over.
  - `console.error` is not modelled; `alert` is the `alerted` result.
- **Presentational and wrapper components** are not part of this model: the sidebar, legend, basemap, drawer, reports and tile-layer updaters.
- **Parent-owned state.** The AOI state and the callbacks behind `Control.tsx` belong to a parent that is not part of this model. `AoiControl` models only the panel's rules.
- **Staleness checks.** The code keeps no sequence numbers or versions and isolates no failing overlay, so the model has none either. The guarded `finally` is modelled only as the correction in Findings.
- DateValidator.ValidateDateFormat: `\d` is modelled as the ASCII digits 0-9. Python's `re` on `str` also accepts other Unicode decimal digits, so the model rejects some strings the code accepts.
- MonthOptions.StartOfMonth: only the ISO date forms `YYYY-MM` and `YYYY` are modelled. JavaScript's fallback parsing of other strings, expanded six-digit years and the mix of UTC parsing with local-time getters are not modelled. Any other argument is treated as an Invalid Date.
- LastMonths.MonthLabel: the year is zero-padded to four digits. Some platforms' `strftime` do not pad years below 1000; this matters only for dates before year 1000.
- TileLayers.Truthy: a `tile_url` is modelled as missing or a string. A truthy non-string value is not modelled.
- TileLayers.MapView.FetchTile: one call is run to its end against its responses. Interleaved calls are modelled on values, by `FetchRun` and `Apply` in `SlowerCallWins`.
- MapPopup.MapPopupComponent.HandleClick: assumes that `handleClickLocation` is a function and returns normally. The only call site shown, `<MapPopup date={date} />` at app/src/components/Map/Map.tsx:103, passes none of the declared props. There the call at MapPopup.tsx:29 would throw a `TypeError` before the abort, the placeholder and the fetch, and `startDate` and `endDate` would be `undefined` in the URL. The model covers the component as its props declare it.
- PixelQuery.Admissible: assumes that a handler resumes with `AbortError` exactly when its controller was aborted. This is taken from the runtime, not modelled: `fetch` and `res.json()` reject once `abort()` is called before they settle, and a handler whose promises have settled runs to its end before the next click. `GuardedPublishesLatest` and `GuardedUnmountAbortsAll` rest on this assumption.
- PixelQuery.Step: a component whose handler resumes after unmount still updates its state in the model. React ignores those updates, and they are not observable after unmount.

## Findings

Both popups are modelled as written: their classes and `PixelQuery.Step` run the unguarded `finally`. `PixelQuery.GuardedStep` is the corrected machine. The guarded lemmas prove the intended properties about it.

| source | as written | input that shows it | evidently intended | confidence | as-written member | corrected member |
|---|---|---|---|---|---|---|
| app/src/components/Map/MapPopup.tsx:67-70 | `finally` clears `isLoading` and the ref for every handler, including one that a newer click superseded. The next click then does not abort the newer request. | Click A, click B, A settles with `AbortError`, click C, C answers, then B answers. The popup shows B's result. | Only the handler whose controller is still stored clears the flag and the ref (`ref.current === controller`). Then only the latest click publishes. | medium; not executed | PixelQuery.StaleOverwrite | PixelQuery.GuardedPublishesLatest |
| app/src/components/MapClick.tsx:58-61 | The same unguarded `finally`: after a superseded request settles, unmounting no longer aborts the request still in flight. | Click A, click B, A settles with `AbortError`, then unmount. B is still live. | Unmount aborts every request that could still publish. | medium; not executed | PixelQuery.UnmountLeaks | PixelQuery.GuardedUnmountAbortsAll |
| app/src/components/Map/MapPopup.tsx:67-70 | After a superseded `AbortError` ends loading, the placeholder's `undefined` fields read "Error" while the newer request is in flight. | Click A, click B, A settles with `AbortError`. | The popup reads "Loading..." until the newer request settles. | medium; not executed | MapPopup.SupersededAbortShowsError | MapPopup.GuardedShowsLoading |
