# Ultrasound output calculator: a verified model

This project models the two pieces of logic in the ultrasound output calculator, a
single-page web application:

- **The derivation engine** (`app.min.js`). On every input change, `updateAll` clears the
  three message areas. It reads frequency, depth, peak negative pressure, pulse duration
  and pulse repetition frequency, then rejects the run unless the frequency is finite and
  positive and the other four are finite and non-negative. A rejected run shows the input
  error and puts a dash in all eight outputs. An accepted run normalises the pulse
  duration (µs, ms, s) and the repetition frequency (kHz, Hz) and computes the duty
  factor, warning when it exceeds 1. It then derates the pressure by 0.3 dB/cm/MHz and
  derives the mechanical index. It reads insertion loss and skull thickness with their
  defaults of 6 dB and 7 mm and derives the in-situ pressure and its mechanical index. It
  chooses the medium impedance (water 1.48 MRayl, soft tissue 1.54 MRayl or a custom
  value) and derives ISPPA and ISPTA under the sinusoid assumption. Every number is shown
  through `fmt` except the duty percentage, which is written with `toFixed(3)` directly,
  so it is never replaced by the dash and never flushed to zero.
- **The offline cache** (`service-worker.js`). On install the worker opens the cache
  `us-calc-pwa-v2` and adds the four application-shell assets, all or nothing. On
  activate it deletes every other cache. On fetch it answers from the cache when it can.
  Otherwise it goes to the network and keeps a copy of a GET answered with status 200.

Modules:

- `jsnumber.dfy` (`JsNumber`) covers JavaScript numbers over exact reals: finite or not.
  It also defines `String.prototype.trim` and `Number()` on strings. The floating-point
  primitives (`Number()` on a non-blank literal, `Math.pow(10, ·)`, `Math.sqrt`) are
  abstract fields of a `Runtime` value passed in.
- `calculator.dfy` (`Calculator`) holds the helpers as functions. `Derive` specifies
  what `updateAll` computes and `Render` specifies what the page then shows. The page
  itself is a `Page` class with `MessageArea` nodes. `Page.UpdateAll` writes them step by
  step, and its contract is that the page ends up as `Render(Derive(form, rt))`.
- `offline_cache.dfy` (`OfflineCache`) models CacheStorage as a value: cache names in
  creation order plus each cache's map from request to response. The handlers are
  specified on that value (`AfterInstall`, `AfterActivate`, `FetchStep`). The
  `CacheStorage` class implements the three events as methods, each proved against its
  function. The network is a parameter: a function from a request to a response or a
  failure.

Where the documented intent and the code disagree, the model follows the code:

- A blank required field is not rejected as missing. `Number("")` is 0, so a blank
  depth, pressure, pulse duration or repetition frequency is accepted as 0. A blank
  frequency is rejected only because 0 is not positive (`Calculator.BlankRequiredFields`).
- A network failure on fetch never serves a stale cached copy. The network is consulted
  only when nothing is cached, so the failure handler has nothing to return and the page
  gets no response (`OfflineCache.FetchOfflineMiss`).
- The fetch handler stores only status exactly 200. `addAll` on install accepts any ok
  status (200 to 299) except 206.

## Model

| member | source | states |
|---|---|---|
| JsNumber.Trim | app.min.js:71 | trim leaves no white space at either end of its result |
| JsNumber.TrimKeepsCore | app.min.js:71 | trim keeps a contiguous piece of the input and removes only white space around it; the result is empty exactly when the input is all white space |
| JsNumber.TrimIdempotent | app.min.js:71 | trimming twice is the same as trimming once |
| JsNumber.ToNumber | app.min.js:112-117 | Number() on a blank or all-white-space string is 0 |
| JsNumber.ToNumberOfTrimmed | app.min.js:71-73 | Number() of the trimmed text equals Number() of the raw text, so trimming before parsing changes nothing |
| Calculator.Fmt | app.min.js:49-53 | the dash exactly for NaN and the infinities; otherwise the value at the requested decimals, a magnitude below 1e-15 shown as exactly 0 and every other value unchanged |
| Calculator.PdSeconds | app.min.js:59-63 | µs divides by 1e6, ms by 1e3, and any other unit leaves the value alone; a non-negative duration stays between 0 and itself |
| Calculator.PrfHz | app.min.js:65-68 | kHz multiplies by 1000 and any other unit leaves the value alone; never smaller than a non-negative input |
| Calculator.GetOptionalNumber | app.min.js:70-76 | a blank or non-finite field gives the default; any finite number, negative ones included, is returned as read |
| Calculator.GetImpedanceMRayl | app.min.js:78-84 | water 1.48, soft tissue 1.54, otherwise the custom value if finite and positive, else 1.48; always positive |
| Calculator.IsFiniteNonNeg | app.min.js:55-57 | NaN, the infinities and negative numbers fail; zero and positive finite numbers pass |
| Calculator.DeratePressure03 | app.min.js:86-90 | the result is finite exactly when the power of ten is; with a power of ten in (0, 1], a non-negative pressure stays between 0 and itself; with zero frequency or depth the pressure passes unchanged |
| Calculator.ApplyInsertionLoss | app.min.js:92-95 | finite exactly when the pressure and the power of ten are; with a power of ten in (0, 1], a finite non-negative pressure stays between 0 and itself; a zero loss changes nothing |
| Calculator.Isppa | app.min.js:154-159 | the intensity is finite exactly when sqrt(2) and the impedance are non-zero, and never negative for a positive impedance |
| Calculator.IsppaClosedForm | app.min.js:154-159 | with sqrt(2)² = 2 and positive impedance, the intensity chain equals 50·pnp²/Z W/cm² and is non-negative |
| Calculator.Cascade | app.min.js:131-162 | the duty factor comes from the two timing fields and units, the derated pressure from pressure, frequency and depth in that role, the insertion loss and skull thickness from their optional fields with defaults 6 and 7, and ISPPA from the pressure and the chosen impedance; each MI is its pressure over √f, the in-situ pressure is the derated pressure after the insertion loss, ISPTA is ISPPA × duty factor, and non-negative timing gives a non-negative duty factor |
| Calculator.Render | app.min.js:119-162 | the input error is shown exactly on rejection, the warning exactly when an accepted duty factor exceeds 1, and the copy message never |
| Calculator.Derive | app.min.js:112-119 | a run is rejected exactly when frequency is not finite and positive or depth, pressure, pulse duration or PRF is not finite and non-negative |
| Calculator.RejectedInputsBlankOutputs | app.min.js:119-130 | on rejection the input error is shown, the warning and copy messages are cleared, and all eight outputs show the dash |
| Calculator.DutyFactorWarning | app.min.js:132-162 | on valid input the duty factor is pdSeconds × prfHz and non-negative; the warning is shown exactly when it exceeds 1; whatever the duty factor, computation carries on and all eight outputs show their metrics (duty, derated pressure, MI, summary line, in-situ pressure, MItc, ISPPA, ISPTA) |
| Calculator.DeriveAccepted | app.min.js:119-162 | when the five required fields pass the gate, the run is accepted with the cascade of their parsed values |
| Calculator.ScenarioAccepted | app.min.js:112-119 | a form with frequency 1 MHz, depth 0, pressure 1 MPa, PRF 1 kHz and a given non-negative pulse duration is accepted with the cascade of exactly those numbers |
| Calculator.LowDutyScenario | app.min.js:132-135 | 2 µs at 1 kHz: the page shows duty factor 0.002 with no warning and no input error |
| Calculator.OverfullDutyScenario | app.min.js:132-162 | 1.5 ms at 1 kHz: the page shows duty factor 1.5 and the warning, and still writes the summary line with 6 dB and 7 mm and both intensities for water |
| Calculator.IntensityOnValidPath | app.min.js:154-162 | on valid input ISPPA is 50·pnp²/Z and non-negative, ISPTA is ISPPA × duty factor, and ISPTA is 0 when the duty factor is 0 |
| Calculator.MetricsIntensity | app.min.js:154-162 | any metrics whose ISPPA follows the sinusoid chain and whose ISPTA is ISPPA × duty factor have ISPPA = 50·pnp²/Z ≥ 0 and ISPTA 0 at duty factor 0 |
| Calculator.CascadeIntensity | app.min.js:154-162 | for any parsed inputs, with sqrt(2)² = 2, the cascade's ISPPA is 50·pnp²/Z and non-negative and its ISPTA is ISPPA × duty factor, 0 when the duty factor is 0 |
| Calculator.IntensityIgnoresDerating | app.min.js:154-159 | ISPPA depends only on the pressure and impedance fields, not on frequency, depth, insertion loss, skull thickness or timing |
| Calculator.DeratingIgnoresOptionalFields | app.min.js:137-141 | derated pressure and MI depend only on frequency, depth and pressure |
| Calculator.InSituIgnoresOtherFields | app.min.js:143-152 | in-situ pressure and MItc depend only on the frequency, depth, pressure and insertion-loss fields |
| Calculator.SkullOnlyInSummary | app.min.js:143-146 | two forms that differ only in skull thickness give the same gate outcome and pages that differ only in the summary line |
| Calculator.BlankOptionalFieldsTakeDefaults | app.min.js:143-145 | blank insertion loss and skull thickness fields give 6 dB and 7 mm and never cause rejection |
| Calculator.BlankRequiredFields | app.min.js:112-119 | a blank frequency is always rejected; with a valid frequency, blank depth, pressure, duration and PRF fields are accepted as 0 with duty factor 0 |
| Calculator.SetMsg | app.min.js:97-100 | the node holds the text and is displayed exactly when the text is non-empty |
| Calculator.Page.UpdateAll | app.min.js:107-163 | the page's three messages and eight outputs become exactly Render(Derive(form)), whatever they held before |
| Calculator.Page.WriteCascade | app.min.js:131-162 | writing the valid path step by step, warning when the duty factor exceeds 1, leaves the page as Render of the accepted cascade |
| OfflineCache.Batch | service-worker.js:15 | addAll stores something exactly when every asset request succeeds with an accepted status; it then holds a GET entry for each URL and nothing else, each with the network's response |
| OfflineCache.Opened | service-worker.js:15 | opening an existing cache changes nothing; opening a missing one adds it empty and lists it last, with no other name added and no other cache changed; well-formedness is kept |
| OfflineCache.Stored | service-worker.js:39 | put sets the one entry in the named cache and leaves every other cache as it was |
| OfflineCache.Deleted | service-worker.js:23 | delete removes the named cache and its listing and leaves every other cache as it was |
| OfflineCache.Lookup | service-worker.js:31 | a non-GET never matches; a GET matches exactly when some listed cache holds it, and the answer is a response stored in one of the caches |
| OfflineCache.LookupFirstHit | service-worker.js:31 | a lookup succeeds exactly when some cache holds the request, and it returns the response of the first such cache in creation order |
| OfflineCache.AfterInstall | service-worker.js:13-16 | install keeps the storage well formed, leaves us-calc-pwa-v2 open (listed last if new), stores nothing when addAll fails, on success makes it its old contents overlaid with the asset batch, and changes no other cache |
| OfflineCache.AfterActivate | service-worker.js:20-24 | after activate only us-calc-pwa-v2 is listed or stored; it remains exactly when it existed, with the same contents |
| OfflineCache.FetchStep | service-worker.js:29-47 | a hit is served as stored and changes nothing; there is no response exactly on a miss with a network failure; a miss returns the network's response; the storage stays the same or gains that response, only for a GET answered 200, and stays well formed |
| OfflineCache.InstallStoresAllAssets | service-worker.js:1-16 | a successful install leaves every asset in us-calc-pwa-v2 with its network response and answerable from the cache; the cache is its old contents overlaid with the batch, so earlier entries for other requests survive and nothing else is added; other caches are untouched |
| OfflineCache.InstallAllOrNothing | service-worker.js:13-16 | a failed addAll stores nothing: us-calc-pwa-v2 exists with its old contents (or empty), and no other cache changes |
| OfflineCache.ActivateKeepsOnlyCurrent | service-worker.js:20-24 | after activation only us-calc-pwa-v2 can remain; it remains exactly when it existed, and its contents are unchanged |
| OfflineCache.FetchHitIgnoresNetwork | service-worker.js:31-33 | a cached request is answered from the cache whatever the network does, and nothing changes |
| OfflineCache.FetchMissStoresOk | service-worker.js:34-41 | on a miss, a GET answered 200 is returned, and us-calc-pwa-v2 becomes its old contents (or empty, listed last, if it was missing) plus that one entry; all other caches are unchanged |
| OfflineCache.FetchMissPassesThrough | service-worker.js:37-41 | on a miss, a non-GET request or a status other than 200 is returned and nothing is stored |
| OfflineCache.FetchOfflineMiss | service-worker.js:33-43 | on a miss with the network down there is no response (no stale copy) and nothing changes |
| OfflineCache.NonGetNeverCached | service-worker.js:31-41 | a non-GET request is never answered from the cache and never changes it |
| OfflineCache.FetchStoredIsServed | service-worker.js:29-47 | after a miss stores a response, the next fetch of that request returns it without the network and changes nothing |
| OfflineCache.CacheStorage.Install | service-worker.js:13-18 | the storage becomes AfterInstall of the old storage; the result is ok exactly when every asset response is accepted |
| OfflineCache.CacheStorage.Activate | service-worker.js:20-27 | deleting every listed cache except us-calc-pwa-v2, one by one, leaves exactly AfterActivate of the old storage |
| OfflineCache.CacheStorage.HandleFetch | service-worker.js:29-47 | the response and the new storage are exactly those FetchStep gives for the old storage |
| OfflineCache.CacheStorage.Open | service-worker.js:15 | the storage becomes Opened of the old storage |
| OfflineCache.CacheStorage.Put | service-worker.js:39 | the storage becomes Stored of the old storage |
| OfflineCache.CacheStorage.Delete | service-worker.js:23 | the storage becomes Deleted of the old storage |

## Left out

- Service-worker registration, DOM lookups, the custom-impedance visibility toggle
  (`updateZUI`) and event wiring (app.min.js:1-6, 12-47, 102-105, 188-194): page plumbing with
  no logic. The form's field values are the `Form` parameter.
- `copyAllResults` and the clipboard (app.min.js:165-186): browser I/O. Its message area
  (`copyMsg`) is modelled, and `updateAll` clears it.
- Calculator.Fmt: does not model the decimal text toFixed produces, or its rounding. A
  rendered number is `Fixed(value, digits)`.
- JsNumber.ToNumber: does not model how `Number()` parses a non-blank literal (decimal,
  hexadecimal, exponent and Infinity forms). That parser is an abstract `Runtime` field,
  and only the blank-string rule and white-space trimming are modelled.
- Calculator.DeratePressure03: `Math.pow(10, ·)` is abstract, so attenuation is proved
  only for a runtime whose power of ten of the exponent lies in (0, 1], and the
  pass-through case only for one whose `Math.pow(10, 0)` is 1.
- Calculator.ApplyInsertionLoss: the same conditions on `Math.pow(10, ·)`. A negative
  insertion loss, which the form accepts, amplifies the pressure, and no bound is stated
  for it.
- Calculator.ScenarioAccepted: `Number()` on a non-blank literal is abstract, so the
  scenario forms are accepted for a runtime that parses "0", "1" and the pulse duration
  to those values.
- Calculator.LowDutyScenario: the same condition on the literals "0", "1" and "2".
- Calculator.OverfullDutyScenario: the same condition on "0", "1" and "1.5", and the
  intensities also need sqrt(2) to square to 2.
- Calculator.IsppaClosedForm: `Math.sqrt(2)` is abstract, so the closed form holds only
  for a runtime whose sqrt(2) squares to 2.
- Calculator.IntensityOnValidPath: the same condition on `Math.sqrt(2)`.
- Calculator.CascadeIntensity: the same condition on `Math.sqrt(2)`.
- Calculator.MetricsIntensity: the same condition on `Math.sqrt(2)`.
- Floating-point rounding, overflow to Infinity, underflow and negative zero: arithmetic
  is exact over the reals. Only the finite/non-finite distinction of `Number.isFinite`
  is kept, through `Mul` and `Div`.
- Promise interleaving in the worker: `waitUntil`, `skipWaiting`, `clients.claim`, the
  un-awaited `cache.put` after a fetch, and races between overlapping fetches
  (service-worker.js:14-17, 26, 39). Each handler is one atomic step on the storage.
- Cache matching details: URL resolution of the relative asset paths, URL fragments,
  `Vary` headers and match options. A request is its method and URL, and only GET
  requests match.
- The worker's response body streams (`resp.clone()`): a response is a status and a body
  value.
