# Door scanner PWA — a verified model

The door scanner is a progressive web app for checking attendees in at an
event door. The camera decodes a QR code. A debounce gate decides whether
to accept the decode. An accepted code is posted to `/api/checkin`, and the
reply becomes a banner (tone, message, attendee name) plus one audio and
vibration feedback signal. An unlock timer then reopens the gate. A service
worker pre-caches the app shell under the cache name `CACHE_VERSION`, deletes
every cache with another name when it activates, and serves non-API requests
from the cache when it can.

This project models that core in Dafny:

- `wrappers.dfy`: module `Wrappers`, an `Option` type.
- `checkin.dfy`: module `Checkin`, the pure part of `app.js`.
  - The reply body is a JSON value, read with JavaScript's truthiness and property rules.
  - `ExtractName` reads the attendee name.
  - `ServerMessage` reads the server's `message` override.
  - `Classify` is processCheckin's mapping from an outcome to the final banner and feedback.
  - `ProcessCheckin` is the run of observable effects one call produces.
- `session.dfy`: module `Session`, the mutable state of `app.js`.
  - The state variables are `scanner`, `isScanning`, `isLocked`, `lastToken` and `lastTokenTime`.
  - Two counters are added: fetches in flight and unlock timers pending.
  - A log records the effects.
  - Pure step functions specify the state changes: `Decode`, `Reply`, `Unlock`, `StopSession` and `StartSession`.
  - The class `ScanSession` updates its fields in place, and each method is proved to match its step function.
  - Lemmas about whole runs of events cover the gate, the cooldown and how many check-ins can be in flight.
- `service_worker.dfy`: module `ServiceWorker`, `sw.js`.
  - CacheStorage is a value (cache names in creation order, each cache's entries by URL).
  - The class `CacheStorage` has `Open`, `AddAll`, `Delete` and `Keys`.
  - The handlers `OnInstall`, `OnActivate` and `OnFetch` are module-level methods that take a `CacheStorage`. They are proved against the pure functions `Install`, `Purge` and `Route`.
  - Lemmas cover install being all-or-nothing, what activate keeps, and upgrade scenarios.

Inputs the code reads from the browser become parameters:

- `navigator.onLine` is `online`, or the `Offline` outcome.
- `Date.now()` is `now`.
- The settled `fetch` and `res.json()` are an `Outcome`: `NetErr`, or `Resp(status, body)`, where `body` is `None` when the body is not JSON.
- Whether the camera started is `running`.
- The network seen by the service worker is a map from URL to response; a missing URL is a failed fetch.

Timers are counted, not timed. `pendingUnlocks` counts scheduled unlocks, and the `UnlockFired` event fires one of them.

### Behaviour of the code worth knowing

- Only statuses 400, 403, 409 and 429 have texts of their own besides 2xx (app.js:265-279). Every other status, 404 and 408 among them, gets the generic `Error (<status>)` text (`Checkin.UnlistedStatusesAreGeneric`).
- Offline and 429 show a warning banner, but the feedback signal is the error one (app.js:241-242, 278-279).
- A truthy `message` from the server replaces the default text for every status, the success status included (app.js:263-281). Only the success and 409 branches show the attendee name.
- `LOCK_MS` (app.js:7) is declared but never read. No minimum gap between two different codes is enforced beyond the lock itself.
- A JSON `null` body makes `data.message` throw inside the `try` (app.js:263). The attendant then sees "Network error" even for a 2xx reply (`Checkin.NullBodyScenario`).
- `stopScanning` clears the lock (app.js:176) while a fetch may still be in flight. After a restart a second check-in can start beside the first (`Session.StopBreaksSerialization`).
- An unlock timer scheduled before a stop still fires after it, and can unlock the gate while a later check-in is awaiting its reply (`Session.StaleTimerUnlocksEarly`). The lock keeps check-ins one at a time only in runs without a stop (`Session.AtMostOneInFlight`).
- The fetch handler serves from the cache first and falls back to the network (sw.js:55-58). The header comment's "network-first, fallback to cache" for non-asset requests (sw.js:6) is not what the code does.
- `caches.match` (sw.js:56) searches every cache of the origin, not only the current version's. The oldest cache that holds the URL answers.
- Activate keeps the cache named `CACHE_VERSION` and deletes every other one (sw.js:40), whatever its name.

## Model

| member | source | states |
|---|---|---|
| Checkin.Truthy | app.js:294 | a value is truthy exactly when it is not null, false, 0 or "" |
| Checkin.FirstPresent | app.js:294-298 | the result is one of the candidates or ""; it is "" when no candidate is present; the first present candidate wins |
| Checkin.ExtractName | app.js:293-299 | a falsy body gives ""; otherwise the name is the first of `attendee` (string), `attendee.name` (string, under a truthy `attendee`), `name` (string) that is present, and "" when none is |
| Checkin.ServerMessage | app.js:263 | the server message overrides exactly when `message` is present and truthy; a string message is shown as sent |
| Checkin.Classify | app.js:259-287 | the final tone is never "checking"; ok tone iff ok feedback iff a readable reply with a 2xx status; warning iff offline or 429; a name only for 2xx and 409, and there it is extractName of the body; any readable reply shows the server message or else the status's default text; offline shows the offline text; a failed fetch or a `null` body gives the network-error directive |
| Checkin.UnlistedStatusesAreGeneric | app.js:280-283 | every status without its own branch (404 and 408 included), with no server message, gives an error banner reading "Error (status)" and no name |
| Checkin.Begin | app.js:247-257 | the effects before the await; Checkin.BeginEffects states that they send exactly one request, carrying the token, and give no feedback and no unlock |
| Checkin.Finish | app.js:265-289 | the effects once the outcome is known; Session.FinishCounts states that they add exactly the classified feedback, and no request or check-in |
| Checkin.ProcessCheckin | app.js:239-290 | the whole effect sequence of one call; Checkin.ProcessCheckinEffects states its feedback, unlock and request counts |
| Checkin.BeginEffects | app.js:247-257 | before the await, processCheckin sends exactly one request, carrying the scanned token, and gives no feedback and no unlock |
| Checkin.ProcessCheckinEffects | app.js:239-290 | every path gives feedback exactly once (the classified one), schedules the unlock exactly once and last, and sends the one request with the token, or none when offline |
| Checkin.OfflineScenario | app.js:240-245 | offline: a warning banner with the offline text, error feedback, and no request |
| Checkin.AlreadyUsedScenario | app.js:268-270 | a 409 reply whose `attendee` is a string shows "Already used" with that name and error feedback |
| Checkin.AcceptedScenario | app.js:265-267 | a 2xx reply with a top-level `name` shows "OK" with that name and ok feedback |
| Checkin.NullBodyScenario | app.js:284-287 | a 2xx reply whose body is JSON `null` is reported as a network error |
| Session.Admits | app.js:223-229 | the gate's admission test; Session.GateDecision states both directions of it for the lock and the cooldown |
| Session.GateDecision | app.js:222-229 | a locked gate admits nothing; the last accepted code is admitted exactly when unlocked and its cooldown has run out; any other code exactly when unlocked; the page's initial state admits every code |
| Session.AcceptedCounts | app.js:231-235 | an accepted decode adds one processCheckin call for its code, and one request for it only when online |
| Session.Decode | app.js:222-236 | a dropped decode changes nothing; an accepted one locks, records the code and the time, starts one check-in, and sends a request for that code only when online; the scanner flags do not change |
| Session.FinishCounts | app.js:265-289 | settling a check-in adds exactly its one classified feedback, and no request or check-in |
| Session.Reply | app.js:250-289 | a settled fetch ends one in-flight check-in, appends exactly the final banner, its classified feedback and one scheduled unlock to the log, adds one pending timer, and leaves the lock, the last code and the scanner flags alone |
| Session.Unlock | app.js:301-306 | a fired timer hides the banner and clears the lock, and changes nothing else |
| Session.StopSession | app.js:170-181 | with a scanner, stop clears the scanner, scanning and the lock; the last code and its time survive, as do the fetches in flight and the pending timers; without a scanner nothing changes |
| Session.StartSession | app.js:111-159 | when not already scanning, start creates the scanner and scans if the camera started; the lock, the last code and the check-ins do not change |
| Session.StepSerialized | app.js:222-306 | every event but a stop keeps the invariant: at most one check-in is in flight or awaiting its timer, and the gate is locked exactly while one is |
| Session.RunSerialized | app.js:222-306 | any run without a stop keeps that invariant |
| Session.AtMostOneInFlight | app.js:222-306 | from the initial state, without a stop, at most one fetch is ever in flight, and the lock is held exactly while a check-in is pending |
| Session.StopBreaksSerialization | app.js:170-181 | start, accept A online, stop, start, accept B: two fetches are in flight |
| Session.StaleTimerUnlocksEarly | app.js:301-306 | a timer scheduled before a stop unlocks the gate while a later check-in's fetch is still in flight |
| Session.StepKeepsCooldown | app.js:225-229 | a decode of the last code within its cooldown, or any other event, starts no check-in and keeps the last code and its time |
| Session.CooldownSuppresses | app.js:225-229 | re-decoding the last code within its cooldown starts no check-in and sends no request, whatever replies, timers, stops and restarts come between |
| Session.CheckinFlow | app.js:235-290 | an accepted decode, followed (online) by its reply, logs exactly one processCheckin call with all of its effects, and leaves the gate locked with one more timer pending |
| Session.ScanSession.constructor | app.js:12-16 | the page's initial variables: no scanner, not scanning, unlocked, no last code, time 0 |
| Session.ScanSession.OnScan | app.js:222-236 | returns whether the gate admitted the code, and updates the fields exactly as Decode does |
| Session.ScanSession.BeginCheckin | app.js:239-257 | offline: the whole call completes and one unlock is scheduled; online: the checking banner and the request are logged and one fetch is in flight |
| Session.ScanSession.CompleteCheckin | app.js:259-289 | the fields change exactly as Reply does |
| Session.ScanSession.Conclude | app.js:265-289 | logs the classified banner and feedback, and schedules one unlock |
| Session.ScanSession.ScheduleUnlock | app.js:301-306 | one more pending unlock timer, and it is logged |
| Session.ScanSession.FireUnlock | app.js:302-305 | the fields change exactly as Unlock does |
| Session.ScanSession.Stop | app.js:170-181 | the fields change exactly as StopSession does |
| Session.ScanSession.Start | app.js:111-159 | the fields change exactly as StartSession does |
| ServiceWorker.FirstMatch | sw.js:56 | no match iff no cache holds the URL; otherwise the entry comes from the first cache, in creation order, that holds it |
| ServiceWorker.MatchIn | sw.js:56 | a request that is not GET never matches; a GET request matches iff some cache holds its URL |
| ServiceWorker.Route | sw.js:49-60 | `/api/` paths are never intercepted; any other request is served from the cache iff a cache matches it, with the matched response; otherwise it goes to the network |
| ServiceWorker.CheckinNeverFromCache | sw.js:53 | the check-in endpoint is never answered from a cache, whatever the caches hold |
| ServiceWorker.OpenCache | sw.js:25-26 | the named cache exists afterwards; an existing one is left as is; a missing one is created empty, after the others; well-formedness is kept |
| ServiceWorker.CacheAddAll | sw.js:27 | all-or-nothing: it succeeds iff no URL is listed twice and every URL fetched with an ok status other than 206, and then each URL holds its response; on failure nothing changes; the cache's entries for other URLs are kept with their values and no other entry appears; other caches are untouched |
| ServiceWorker.Install | sw.js:23-30 | open the versioned cache, then addAll the assets; ServiceWorker.InstallAllOrNothing and ServiceWorker.InstallIntoNewCache state what it stores and when it succeeds |
| ServiceWorker.InstallAllOrNothing | sw.js:23-30 | install reaches skipWaiting iff addAll can succeed; then all assets are in the versioned cache; on failure no entry is stored; the versioned cache's entries for other URLs are kept and no other entry appears; other caches are untouched |
| ServiceWorker.InstallIntoNewCache | sw.js:23-30 | installing under a new name fills that cache with exactly the assets and their responses |
| ServiceWorker.Others | sw.js:40 | the kept names are exactly the listed ones other than the current version |
| ServiceWorker.RemoveAll | sw.js:41 | the remaining names are exactly the listed ones not deleted |
| ServiceWorker.DeleteCache | sw.js:41 | the deleted cache is gone |
| ServiceWorker.DeleteKeepsWellFormed | sw.js:41 | deleting a cache keeps every name listed once and the list equal to the set of caches |
| ServiceWorker.DeleteAllRemoves | sw.js:38-42 | deleting a list of names one by one removes exactly those names and their caches, keeping the others in order |
| ServiceWorker.Purge | sw.js:33-46 | delete, one by one, every listed cache not named `keep`; ServiceWorker.ActivateKeepsOnlyCurrent and ServiceWorker.ActivateIdempotent state what is left |
| ServiceWorker.PurgeRemovesOthers | sw.js:33-46 | activate deletes exactly the listed names other than the current version |
| ServiceWorker.PurgeWithKept | sw.js:33-46 | when the current version's cache exists, activate leaves only it, with its entries untouched |
| ServiceWorker.PurgeWithoutKept | sw.js:33-46 | when the current version's cache is missing, activate leaves no cache at all |
| ServiceWorker.ActivateKeepsOnlyCurrent | sw.js:33-46 | after activate the storage is well formed and holds only the current version's cache, unchanged, or nothing |
| ServiceWorker.ActivateIdempotent | sw.js:33-46 | activating twice is the same as activating once |
| ServiceWorker.ServedAfterActivate | sw.js:55-58 | an asset installed and activated is served from the cache with the response fetched at install |
| ServiceWorker.UpgradeLeavesOnlyNewVersion | sw.js:33-46 | installing and activating v1, then v2: only v2's cache remains, holding exactly the assets as fetched for v2 |
| ServiceWorker.FailedUpgradeKeepsServing | sw.js:23-30 | if v2's install fails, skipWaiting is not reached, and v1's assets are still served from v1's cache |
| ServiceWorker.CacheStorage.constructor | sw.js:25 | a fresh CacheStorage is empty and well formed |
| ServiceWorker.CacheStorage.Keys | sw.js:36 | the cache names, in creation order |
| ServiceWorker.CacheStorage.Open | sw.js:26 | the storage changes exactly as OpenCache says, and stays well formed |
| ServiceWorker.CacheStorage.AddAll | sw.js:27 | the storage and the outcome are exactly as CacheAddAll says, and it stays well formed |
| ServiceWorker.CacheStorage.Delete | sw.js:41 | the storage changes exactly as DeleteCache says, stays well formed, and the result says whether the cache existed |
| ServiceWorker.OnInstall | sw.js:23-30 | the storage and the skipWaiting flag are exactly those of Install with CACHE_VERSION and STATIC_ASSETS |
| ServiceWorker.OnActivate | sw.js:33-46 | deleting the other caches one by one gives exactly Purge with CACHE_VERSION; clients are then claimed |
| ServiceWorker.OnFetch | sw.js:49-60 | the disposition is exactly Route on the current storage; nothing is written |

## Left out

- The DOM, the banner rendering, the settings overlay and the scanner-key storage (`localStorage`). The key is assumed present; without it startScanning only opens the settings.
- The camera: `Html5Qrcode`, camera enumeration, the "No camera found" and permission-error paths, and switchCamera. Session.StartSession abstracts startScanning to "the scanner exists, and scanning iff the camera started".
- The audio and vibration patterns of `feedback`. Only which feedback (ok or error) is given is modelled.
- Timing: `FEEDBACK_MS` and real `setTimeout` delays. Timers are a count fired by events, in any order against replies.
- `LOCK_MS`, which the code declares and never reads.
- The interleavings at stopScanning's await of `scanner.stop()` (app.js:172). The model applies stop as one step.
- The interleavings at startScanning's awaits of `getCameras()` and `scanner.start()` (app.js:127, 148). Session.StartSession applies start as one step, after both have settled.
- URL parsing. The request's pathname is given alongside its URL.
- How a non-string server `message` is rendered to text. It is kept as the JSON value (`ServerValue`).
- Fractional JSON numbers. Numbers are integers, which is all that truthiness needs.
- `caches.match` options and `Vary` handling, including addAll's rejection of a `Vary: *` response. A cache matches a GET request by its exact URL.
- URL resolution. `cache.addAll` stores each entry under its manifest string resolved against the worker's URL ("./index.html" becomes an absolute URL). The model keys entries by the string as listed, so in ServiceWorker.ServedAfterActivate and ServiceWorker.FailedUpgradeKeepsServing `req.url in assets` stands for a request whose URL resolves to one of the listed assets.
- The service worker lifecycle beyond its ordering: skipWaiting, clients.claim, waitUntil and the browser's choice of when to install or activate. Clients being claimed is stated as a flag.
- The concurrency of `Promise.all` in the activate handler. The deletions are modelled one after another; they touch distinct caches.
- Session.Reply: a reply for `Offline` or with nothing in flight is a no-op, because no fetch produces either.
- Session.ScanSession.CompleteCheckin: requires a fetch in flight and a real outcome, because it models the continuation after a fetch that was actually sent.
