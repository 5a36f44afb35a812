# Cider now-playing client: the playback-update reconciler

This project models the browser-side client of the OBS "Cider now playing"
overlay. The client listens to the Cider player's WebSocket and turns its
noisy stream of `playbackStateUpdate` payloads into three clean notifications
for the overlay's handlers: track changed, timeline update and playback
stopped.

The core is `playbackStateUpdate`. Its state is three module-level variables:

- `lastTrackId`;
- a pending "no id found" stop timer, which absorbs the gap between two tracks;
- a pending backfill timer. When a track arrives without artwork, the client
  asks the player's MusicKit API for the track's complete attributes, and the
  timer stands in if no answer comes.

Around the core sit the frame router (`socket.onmessage`), the `onopen`
handshake, the `onclose` stop broadcast and the three append-only handler
registries.

The model has four modules:

- `Messages` (messages.dfy) holds the payloads, frames, requests and events.
  It also holds `Broadcast`, the ordered fan-out of one event to a handler
  list, and `Route`, the frame router.
- `Reconciler` (reconciler.dfy) is the state machine as functions on values.
  `Step` is one call of `playbackStateUpdate`. `FireStop` and `FireBackfill`
  are timer expiries. `Receive` is one incoming frame, and `Run` is a
  sequence of updates. `Inv` is the invariant that describes what a pending
  backfill holds.
- `ReconcilerProperties` (properties.dfy) holds the lemmas about those
  functions.
- `CiderWebsocket.Connection` (cider_websocket.dfy) is a class. Its fields
  are the script's module-level variables, plus a log of sent requests and a
  log of handler calls. Each callback is a method proved to leave exactly the
  state, log entries and requests that the `Reconciler` function prescribes.

Modelling choices:

- Timers are booleans with explicit "fire" methods.
- A handler is an identity. A fan-out appends one `Emission(handler, event)`
  per registered handler, in registration order.
- JavaScript falsy tests are written out. `Truthy(remainingTime)` is false
  for an absent value and for 0.
- A property access that throws is a no-op from that point on. An update
  without `playParams` changes nothing (line 89). A new track without an
  `artwork` object throws at line 127, after the stop timer has already been
  cleared.
- `position` is `durationInMillis - remainingTime` as an unbounded `int`,
  with no clamping.

Two behaviours are kept exactly as the code has them, although a cleaner
design might change them:

- `onclose` neither resets `lastTrackId` nor cancels a pending stop timer.
- A handler that throws is not isolated. The model's handlers never throw;
  see "Left out".

## Model

| member | source | states |
|---|---|---|
| Messages.Broadcast | static/cider-websocket.js:161 | a fan-out calls every registered handler exactly once, in registration order, with the same event; it stands for every `forEach` fan-out, at lines 72, 101, 120-123, 161 and 164-167 |
| Messages.Route | static/cider-websocket.js:46-63 | playbackStateUpdate frames are forwarded unchanged; musickitapi.song attributes are forwarded with `_validAttributes` set and nothing else changed; every other frame type is dropped |
| Reconciler.Step | static/cider-websocket.js:88-169 | one update sends at most one request, and a step that sends the backfill request for its own id calls no handler |
| ReconcilerProperties.MissingPlayParamsIsNoOp | static/cider-websocket.js:89 | an update without `playParams` changes no state, calls nothing and sends nothing |
| ReconcilerProperties.SentinelWhileStopPendingIsNoOp | static/cider-websocket.js:91-98 | "no-id-found" while a stop timer is pending is a complete no-op |
| ReconcilerProperties.SentinelStartsStopTimer | static/cider-websocket.js:100-106 | "no-id-found" with no stop timer pending calls nothing and sends nothing; it starts the stop timer, sets `lastTrackId` to the sentinel and leaves the backfill timer as it was |
| Reconciler.Timeline | static/cider-websocket.js:117-123 | with a truthy remaining time, each timeline handler is called once, in order, with the duration and position = duration - remaining; with a falsy one (absent or 0), nothing is called (also lines 163-167) |
| Reconciler.FireStop | static/cider-websocket.js:100-103 | the stop timer calls each stop handler once, in order, with a stop, and clears itself; nothing else changes and nothing is sent |
| Reconciler.FireBackfill | static/cider-websocket.js:145-149 | the corrected backfill timer, on a state the connection can reach (a held payload with an id and an artwork object), always clears itself and never sends a request |
| Reconciler.FireBackfillAsWritten | static/cider-websocket.js:145-149 | the backfill timer as written calls nothing and sends nothing; it leaves the timer set, with its held payload marked complete, and leaves `lastTrackId` and the stop timer as they were |
| ReconcilerProperties.RealIdCancelsStop | static/cider-websocket.js:109-113 | any update with a readable id other than the sentinel leaves no stop timer pending |
| ReconcilerProperties.OnlySentinelStartsStop | static/cider-websocket.js:97-113 | an update other than the sentinel never starts a stop timer |
| ReconcilerProperties.StepNeverStops | static/cider-websocket.js:88-169 | no update by itself calls a stop handler |
| ReconcilerProperties.SentinelThenRealIdNeverStops | static/cider-websocket.js:91-113 | the sentinel followed by a real id leaves no stop timer that could fire, and calls no stop handler |
| ReconcilerProperties.SameTrackOnlyUpdatesTimeline | static/cider-websocket.js:115-125 | an update for the current track never calls the track-changed handlers and never moves `lastTrackId`; if its remaining time is truthy it calls each timeline handler once, in order, with position = duration - remaining, and otherwise it calls nothing |
| ReconcilerProperties.RedeliveryIsIdempotent | static/cider-websocket.js:88-169 | delivering any update a second time leaves the state as the first delivery left it and sends nothing; it calls nothing, or only the timeline fan-out, and calls nothing when the remaining time is falsy |
| ReconcilerProperties.IncompleteNewTrackRequestsBackfill | static/cider-websocket.js:127-152 | a new track without artwork URL and not marked valid calls nothing and keeps `lastTrackId`; with no backfill pending it sends exactly the `musickit-api`/`song`/id/`{}`/library request and starts the backfill timer; with one pending it changes nothing but the stop timer |
| ReconcilerProperties.SecondCandidateIgnoredDuringBackfill | static/cider-websocket.js:131-134 | while a backfill for one track is pending, an incomplete update for a different track is not requested and does not replace the pending candidate |
| ReconcilerProperties.CompleteNewTrackChangesTrack | static/cider-websocket.js:154-168 | a complete new track clears any pending backfill, whatever track it was for, and becomes current; it calls every track-changed handler in order, then the timeline handlers exactly when its remaining time is truthy |
| ReconcilerProperties.MissingArtworkOnlyCancelsStop | static/cider-websocket.js:109-127 | a new track whose payload has no `artwork` object only cancels the stop timer, because the read at line 127 throws |
| ReconcilerProperties.LastTrackIdChangesOnlyOnSentinelOrTrackChange | static/cider-websocket.js:105-160 | `lastTrackId` changes exactly when the sentinel starts a stop timer while `lastTrackId` is not already the sentinel, or when a complete new track arrives, and then only to the sentinel or to the update's id |
| ReconcilerProperties.EmissionsOnlyForCurrentTrack | static/cider-websocket.js:115-168 | whenever an update calls any handler, the update's real id is then the current track, so no timeline event is issued for a candidate |
| ReconcilerProperties.StepKeepsInv | static/cider-websocket.js:127-160 | every update keeps the invariant that a pending backfill holds an incomplete payload for a real track that is not current |
| ReconcilerProperties.FireStopKeepsInv | static/cider-websocket.js:100-103 | the stop timer keeps the backfill invariant |
| ReconcilerProperties.FireBackfillPublishesCandidate | static/cider-websocket.js:145-149 | the corrected backfill timer makes the held track current, calls the track-changed handlers with it marked complete, then its timeline fan-out, and clears the timer |
| ReconcilerProperties.BackfillPublishesExactlyOnce | static/cider-websocket.js:53-58 | when no other track becomes current in between, an incomplete new track is published once: either by the song response (after which no backfill timer is left) or by the corrected timer (after which a late song response only updates the timeline) |
| Reconciler.Receive | static/cider-websocket.js:46-63 | a playbackStateUpdate frame is one update; a musickitapi.song frame is one update marked complete; other frames change nothing |
| ReconcilerProperties.SameTrackRun | static/cider-websocket.js:115-125 | a run of updates for the current track keeps it current, keeps the backfill, sends nothing, and calls only the timeline handlers, once per update with truthy remaining time |
| ReconcilerProperties.ConstantTrackChangesOnce | static/cider-websocket.js:115-168 | a run of updates for one track whose first update is complete calls the track-changed handlers once, and the timeline handlers once for each update with a truthy remaining time |
| ReconcilerProperties.SentinelThenTrackScenario | static/cider-websocket.js:91-168 | sentinel, then a complete "A" with 1000 ms left of 3000 ms: no stop, one track change for "A", one timeline update at 2000 |
| ReconcilerProperties.BackfillAsWrittenStaysPending | static/cider-websocket.js:145-149 | with the timer callback as written, track "A" is never published and the timer never clears, so a later incomplete track "B" is neither requested nor published |
| ReconcilerProperties.BackfillAsWrittenBlocksCandidates | static/cider-websocket.js:131-149 | after the as-written timer fires, any incomplete update for a new track is neither requested nor published, and the backfill stays pending |
| ReconcilerProperties.StaleBackfillResponseRepublishes | static/cider-websocket.js:53-58 | while "A" waits for its backfill, a complete "C" becomes current; the late song response for "A" then makes "A" current again and publishes it, although "C" is playing |
| ReconcilerProperties.StaleBackfillResponseAfterTimerPublishesTwice | static/cider-websocket.js:145-160 | after the corrected timer has published "A" and a complete "C" has become current, the late song response for "A" publishes "A" a second time |
| ReconcilerProperties.StaleBackfillResponseAfterTimerAsWritten | static/cider-websocket.js:145-160 | with the timer as written, the timer publishes nothing, a complete "C" becomes current, and the late song response for "A" publishes "A" once, over "C" |
| ReconcilerProperties.BackfillCorrectedPublishes | static/cider-websocket.js:145-149 | with the corrected callback, "A" is published when the timer fires, and a later incomplete track "B" gets its own backfill request |
| CiderWebsocket.Connection.constructor | static/cider-websocket.js:4-22 | all module state starts undefined, and the handler lists and logs start empty |
| CiderWebsocket.Connection.OnTrackChanged | static/cider-websocket.js:76-78 | appends the handler to the track-changed list |
| CiderWebsocket.Connection.OnTrackTimelineUpdate | static/cider-websocket.js:80-82 | appends the handler to the timeline list |
| CiderWebsocket.Connection.OnPlaybackStop | static/cider-websocket.js:84-86 | appends the handler to the stop list |
| CiderWebsocket.Connection.Publish | static/cider-websocket.js:120-123 | the `forEach` loop appends exactly the ordered fan-out to the handler-call log |
| CiderWebsocket.Connection.HandleUpdate | static/cider-websocket.js:88-169 | the new state, the appended handler calls and the appended requests are those of `Step`, and the backfill invariant is kept |
| CiderWebsocket.Connection.FireStopTimer | static/cider-websocket.js:100-103 | the new state and handler calls are those of `FireStop` |
| CiderWebsocket.Connection.FireBackfillTimer | static/cider-websocket.js:145-149 | the new state, handler calls and requests are those of the corrected `FireBackfill` |
| CiderWebsocket.Connection.OnMessage | static/cider-websocket.js:46-63 | the new state, handler calls and requests are those of `Receive` on the frame |
| CiderWebsocket.Connection.OnOpen | static/cider-websocket.js:26-44 | sends the identify request (Cider-NowPlaying, PZeide, 1.0.0), then `get-currentmediaitem`, in that order |
| CiderWebsocket.Connection.OnClose | static/cider-websocket.js:69-73 | schedules one reconnect and calls every stop handler once, in order; the reconciliation state is untouched |
| CiderWebsocket.Connection.FireReconnectTimer | static/cider-websocket.js:71 | consumes one scheduled reconnect |

## Findings

| source | as written | input that shows it | evidently intended | confidence | as-written member | corrected member |
|---|---|---|---|---|---|---|
| static/cider-websocket.js:145-149 | the backfill timer calls `playbackStateUpdate(data._validAttributes)`, i.e. with `true`; reading `true.playParams.id` throws, so the held track is never published and `validAttributesTimeout` is never cleared | an incomplete update for "A", then the timer fires, then an incomplete update for "B" (ReconcilerProperties.BackfillAsWrittenStaysPending): nothing is published and no request is sent for "B" | re-enter with the held payload marked complete, then clear the timer | high (not executed) | Reconciler.FireBackfillAsWritten | Reconciler.FireBackfill |

The class `Connection` uses the corrected `FireBackfill`. The properties
proved about it are `FireBackfill`'s contract, `FireBackfillPublishesCandidate`,
`BackfillPublishesExactlyOnce` and `BackfillCorrectedPublishes`.

## Left out

- The WebSocket object, its URL, `JSON.parse`/`JSON.stringify` and
  `console.log` are transport and logging plumbing. Frames and requests are
  datatypes.
- The model does not track whether the socket is open. Every `socket.send`
  is recorded in the request log. A browser throws on a socket that is still
  connecting and silently drops a send on a closed one.
- Real time is not modelled: the 2000 ms, 1000 ms and 5000 ms delays, and
  `setTimeout`/`clearTimeout`. A timer is a flag with a fire method that may
  be called at any point while the flag is set. So the model does not order
  expiries by their delays.
- `connect()` beyond the reconnect counter is not modelled. Creating a new
  socket and re-attaching its callbacks is transport work. A new
  connection's handshake is `OnOpen`.
- `socket.onerror` closing the socket is a transport lifecycle detail.
  `OnClose` models what the close then does.
- What the handlers do (the UI rendering) is not modelled. Neither is a
  handler that throws: in the source, that would abort the rest of the
  `forEach` and of `playbackStateUpdate`.
- Only an absent or non-numeric `durationInMillis` would make the timeline
  arithmetic `NaN`. An absent or 0 `remainingTime` never reaches the
  subtraction, because the falsy tests at lines 117 and 163 return first.
  Durations and remaining times are JavaScript doubles. The model keeps only
  integer durations and integer, non-negative remaining times. So it cannot
  express a fractional remaining time. Nor can it express a negative one,
  which is truthy and would give a position past the duration.
- Track ids are strings, or absent (`undefined`). JavaScript's loose `==`
  between ids of other types is not modelled.
- Payloads are values. The in-place `_validAttributes = true` at lines 56 and
  146 becomes a copy with the flag set. No other holder of the same object
  exists in the script.
- Reconnect scheduling is a counter of pending reconnect timers, not real
  timers.
- BackfillPublishesExactlyOnce: proved only when no other track becomes
  current between the incomplete update and the song response. A song
  response is not tied to the request that asked for it. A stale response
  therefore republishes its track over the one playing. With the corrected
  timer it can also publish a track twice. StaleBackfillResponseRepublishes pins this as written, and
  so does StaleBackfillResponseAfterTimerAsWritten for a response that
  comes after the timer. StaleBackfillResponseAfterTimerPublishesTwice
  shows that the corrected timer adds a second publication.
- obs-cider-nowplaying.py is not part of this model. It is the Flask server,
  the CORS proxy and the OBS thread start-up: HTTP and network I/O,
  threading, and libraries that are not shown.
