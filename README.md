# Call-session control of the TaxVision avatar client, in Dafny

This project models the logic of a browser client that opens a LiveKit room
with a conversational agent. It covers three components.

- **`App`** (components/app.tsx):
  - It keeps a login session in `localStorage` with an expiry timestamp.
  - `handleStartCall` runs the start-call sequence: fetch connection details,
    reject a missing URL or token, connect the room, enable the microphone,
    then probe for the agent's video track. The probe makes up to four
    attempts. Each attempt first scans the participants already in the room,
    then races a `TrackSubscribed` handler against a 10-second timer.
  - A room disconnect returns the app to the welcome screen and refreshes the
    connection details.
- **`SessionView`** (components/session-view.tsx):
  - the agent-availability predicate;
  - the control-bar capabilities, masked while the agent is connecting;
  - the 740 px mobile breakpoint;
  - two timer effects: a 60-second inactivity timeout that disconnects the
    room, and a microphone enable deferred by 5 seconds.
- **`ThemeToggle`** (components/theme-toggle.tsx): `applyTheme`, the
  light/dark toggle, and the initial theme chosen on mount.

The room, timers, storage, the document's class list and the media query are
explicit model state:

- The class `LiveKitRoom.Room` holds the room state the app observes.
- The fields of `CallSession.App`, `SessionRules.SessionView` and
  `Theme.Page` hold the rest.
- `Date.now()` is an integer `clock`.

Each awaited call takes its outcome as an input. For the probe, each attempt
gets an `AgentProbe.AttemptEnv`: the participants present when the attempt
starts, and the `TrackSubscribed` events the room emits, in delivery order,
each stamped with its time since the attempt began. The timer wins a tie with
an event at exactly 10 000 ms. Attempts beyond the ones given see an empty
room and time out.

The probe is specified as a pure function, `AgentProbe.Probe`. Its properties
are proved as lemmas: at most four attempts, failure exactly when all four
time out, an immediate stop on success, the time spent, and the handlers left
on the room. The imperative methods `App.ProbeAttempt`,
`App.WaitForAgentVideo` and `App.StartCall` follow the source's loop and
branches. Each is proved equal to that function, or to `CallFailure` and
`FailureToast` for the whole call. The class invariant of `SessionView` states
when each timer is pending; every method that changes the component requires
it and re-establishes it. The invariant of `MobileQuery` ties the mobile flag
to the window's width while the resize handler is registered. For
`ThemeToggle`, `Synced()` (the state equals what storage records) is a
postcondition of `Mount` and `HandleThemeChange`.

Behaviour of the code worth noting:

- After a failed start, nothing is torn down. An agent timeout leaves the room
  connected with the microphone on (see `App.StartCall` and
  `AgentNeverJoinsScenario`).
- A timed-out attempt never unregisters its `TrackSubscribed` handler, so a
  failed probe leaves four handlers on the room. The room object lives as long
  as the page, so these handlers carry over to the next call. A later matching
  event makes every registered handler unregister itself, because all of them
  test the same condition.
- The inactivity timeout is armed only while the session is started and the
  agent is `listening`. It is not tied to a window after session start. Any
  change of `sessionStarted` or the agent's state cancels a pending timer, and
  a new 60-second timer is armed only if the session is then started and the
  agent is `listening`.
- `useIsMobile` reports `false` on the first render, even on a narrow
  window. It measures the width only once its mount effect has run.

## Model

| member | source | states |
|---|---|---|
| `AgentProbe.FindAgentVideo` | components/app.tsx:120-129 | the participant scan reports success exactly when some remote participant is an agent whose Camera publication is subscribed |
| `AgentProbe.ArrivalFrom` | components/app.tsx:103-118 | an attempt can only be resolved by the listener strictly before its 10 000 ms timer fires |
| `AgentProbe.ArrivalFromNone` | components/app.tsx:108-118 | the listener stays pending exactly when no event from an agent with kind Video is delivered before the timer; other events are ignored |
| `AgentProbe.ArrivalFromSome` | components/app.tsx:108-118 | when the listener resolves, it does so at the first matching event delivered before the timer |
| `AgentProbe.AttemptTimesOutIff` | components/app.tsx:103-132 | an attempt rejects with the timeout exactly when no agent video was already present and no matching event arrived in time |
| `AgentProbe.AttemptSubscribedOnMatchingEvent` | components/app.tsx:108-118 | an attempt resolved by the listener was resolved by a matching event, in less than 10 s |
| `AgentProbe.Attempt` | components/app.tsx:103-132 | how one attempt settles: `AlreadyPresent` when the participant scan finds an agent camera, otherwise the time of the first matching event before the timer, otherwise `TimedOut` |
| `AgentProbe.AttemptListeners` | components/app.tsx:108-131 | probe handlers on the room after an attempt: unchanged when the agent was already present, none after a matching event, one more after a timeout |
| `AgentProbe.AttemptElapsed` | components/app.tsx:103-131 | the time an attempt takes: nothing when the agent was present, the event's time on a match, 10 000 ms on a timeout |
| `AgentProbe.ProbeFrom` | components/app.tsx:99-142 | the retry loop from a given `attempts` value: stop with failure at 4, retry after a timeout, stop with success otherwise |
| `AgentProbe.Probe` | components/app.tsx:99-142 | the retry loop started with `attempts = 0` and no time spent |
| `AgentProbe.ResolvesAttempt` | components/app.tsx:113-113 | the `TrackSubscribed` handler's test: the event comes from an agent and the track is a video track |
| `AgentProbe.ProbeFromShape` | components/app.tsx:99-142 | every run of the retry loop: all attempts counted in `attempts` timed out; success stops at a non-timed-out attempt with fewer than 4 failures; failure has exactly 4, costs 10 s each and leaks one handler each |
| `AgentProbe.ProbeBounded` | components/app.tsx:99-142 | `attempts` never exceeds `maxAttempts = 4`; the probe succeeds exactly when fewer than 4 attempts failed |
| `AgentProbe.ProbeFailsIffAllAttemptsTimeOut` | components/app.tsx:135-141 | the timeout is rethrown exactly when each of the four attempts timed out |
| `AgentProbe.ProbeStopsAtFirstSuccess` | components/app.tsx:133-134 | the first attempt that resolves ends the loop, with `attempts` equal to the number of earlier failed attempts |
| `AgentProbe.ProbeFailureCost` | components/app.tsx:104-106 | a failed probe spends 4 × 10 000 ms and leaves four more `TrackSubscribed` handlers registered, because the reject path never calls `room.off` |
| `AgentProbe.ProbeElapsedBound` | components/app.tsx:99-142 | the probe takes at most 40 000 ms however it ends |
| `AgentProbe.ProbeEarlySuccess` | components/app.tsx:120-131 | an agent already present with a subscribed camera resolves the first attempt at once, with no handler registered and no time spent |
| `AgentProbe.ProbeListenersOnSuccess` | components/app.tsx:113-131 | success through the listener leaves no probe handler registered; success by the presence check keeps one leaked handler per failed attempt |
| `JsText.Includes` | components/app.tsx:150-150 | JavaScript's `String.prototype.includes`: the second string occurs at some offset of the first |
| `CallSession.RestoreLogin` | components/app.tsx:33-51 | the login mount effect's decision: logged out for a missing, empty or unparsable entry; logged in while `now < expiresAt`; otherwise logged out with the entry removed |
| `CallSession.LoginEntry` | components/app.tsx:60-62 | the entry `handleLoginSuccess` writes: `expiresAt = now + 600000` |
| `CallSession.DetailsUsable` | components/app.tsx:89-91 | the connection details pass the guard exactly when they exist and both `serverUrl` and `participantToken` are truthy (present and non-empty) |
| `CallSession.CallFailure` | components/app.tsx:84-142 | the value `handleStartCall` throws: a details error, "Connection details missing", a connect or microphone error, or "Agent video timed out" after four timeouts; nothing on success |
| `CallSession.FailureToast` | components/app.tsx:147-152 | the catch block's alert: "Agent failed to join" for an `Error` whose message contains "Agent video timed out", else "Failed to connect" |
| `CallSession.RestoreLoginCases` | components/app.tsx:33-51 | logged in exactly when the stored `expiresAt` is later than now; an expired record is removed; a missing, empty or unparsable entry means logged out and stays in storage |
| `CallSession.LoginRoundTrip` | components/app.tsx:60-64 | a stored login is honoured for exactly 10 × 60 × 1000 ms after `handleLoginSuccess`, and its entry is removed once it has expired |
| `CallSession.RestoreLoginIdempotent` | components/app.tsx:33-51 | restoring the session a second time at the same instant changes neither the flag nor storage |
| `CallSession.RestoreLoginExpiryIsFinal` | components/app.tsx:41-46 | a session found expired stays expired at any later time |
| `CallSession.CallSucceedsIff` | components/app.tsx:84-146 | the call succeeds exactly when details are usable, connect and microphone succeed and the probe finds the agent |
| `CallSession.MissingDetailsFailGenerically` | components/app.tsx:89-93 | a missing or empty URL or token fails before `room.connect`, with "Failed to connect" |
| `CallSession.ProbeTimeoutAlertsAgentFailed` | components/app.tsx:136-155 | an exhausted probe ends the call with "Agent failed to join" |
| `CallSession.FailureToastIff` | components/app.tsx:147-155 | a failed call shows "Agent failed to join" exactly when the thrown `Error`'s message contains "Agent video timed out" |
| `CallSession.App.constructor` | components/app.tsx:24-27 | the app starts with a fresh room and `sessionStarted`, `isLoggedIn`, `isConnecting` all false |
| `CallSession.App.Elapse` | components/app.tsx:41-41 | time passes: the value `Date.now()` returns (read by the expiry check here and by `handleLoginSuccess` at line 61) advances by the given milliseconds and nothing else changes |
| `CallSession.App.RestoreLoginSession` | components/app.tsx:33-51 | the mount effect sets `isLoggedIn` and storage as `RestoreLogin` decides |
| `CallSession.App.LoginSuccess` | components/app.tsx:60-64 | login stores `expiresAt = now + 600000` and sets `isLoggedIn` |
| `CallSession.App.PrefetchConnectionDetails` | components/app.tsx:54-58 | the mount effect requests connection details once and alerts only if the request fails |
| `CallSession.App.OnDisconnected` | components/app.tsx:68-71 | a room disconnect sets `sessionStarted` to false and refreshes the connection details once |
| `CallSession.App.OnMediaDevicesError` | components/app.tsx:72-72 | a media-device error shows "Device access error" |
| `CallSession.App.OnTrackSubscribed` | components/app.tsx:108-118 | a matching `TrackSubscribed` event outside a call makes every leaked probe handler unregister itself; any other event leaves them registered |
| `CallSession.App.ProbeAttempt` | components/app.tsx:103-132 | one attempt settles as `Attempt` says, registers a handler unless the agent is already present, and leaves no timer armed |
| `CallSession.App.WaitForAgentVideo` | components/app.tsx:99-142 | the retry loop returns the success flag, `attempts`, handler count and elapsed time that `Probe` specifies |
| `CallSession.App.StartCall` | components/app.tsx:84-159 | returns true and sets `sessionStarted` exactly when `CallFailure` is empty, otherwise shows `FailureToast` once; `isConnecting` ends false; `room.connect` and `setMicrophoneEnabled` are each called once exactly when the earlier steps succeeded, and the probe changes handlers and clock only after both succeed; the room stays connected after a failure |
| `SessionRules.IsAgentAvailable` | components/session-view.tsx:25-27 | the agent is available exactly when it is listening, thinking or speaking |
| `SessionRules.ChatInputDisabled` | components/session-view.tsx:148-148 | the chat input is disabled exactly when the agent is not available |
| `SessionRules.ShowsMediaTiles` | components/session-view.tsx:174-174 | media tiles are rendered unless the agent is connecting |
| `SessionRules.InactivityArmed` | components/session-view.tsx:74-74 | the inactivity effect arms its timer exactly when the session is started and the agent is listening |
| `SessionRules.DeriveCapabilities` | components/session-view.tsx:93-99 | chat and video input are off while the agent is connecting and equal the config flags otherwise; screen share is always off |
| `SessionRules.ConnectingDisablesInput` | components/session-view.tsx:93-99 | while connecting, all capabilities are off, the chat input is disabled and no media tiles are shown |
| `SessionRules.AvailableAgentGetsConfiguredCapabilities` | components/session-view.tsx:25-27 | when the chat input is enabled (agent listening, thinking or speaking), media tiles show and the control bar offers what the config allows |
| `SessionRules.InactivityOnlyWhileAvailable` | components/session-view.tsx:73-81 | the inactivity timer is armed only in an available agent state |
| `SessionRules.IsMobile` | components/session-view.tsx:32-32 | the resize handler's test: a width below 740 px is mobile |
| `SessionRules.MobileQuery.constructor` | components/session-view.tsx:29-30 | the hook's state starts `false` whatever the width, with no handler registered |
| `SessionRules.MobileQuery.Mount` | components/session-view.tsx:31-34 | the mount effect measures the width once and registers the handler, after which the state is the breakpoint test on the current width |
| `SessionRules.MobileQuery.Resize` | components/session-view.tsx:32-34 | a resize re-measures while the handler is registered and leaves the state unchanged otherwise; the invariant is kept |
| `SessionRules.MobileQuery.Unmount` | components/session-view.tsx:35-35 | the cleanup removes the handler and keeps the last state |
| `SessionRules.SessionView.constructor` | components/session-view.tsx:73-91 | mounting arms each timer exactly when its condition holds |
| `SessionRules.SessionView.Render` | components/session-view.tsx:73-91 | an effect whose dependencies changed cancels its timer and re-arms it only if started (and, for inactivity, listening); the invariant ties each pending timer to its condition |
| `SessionRules.SessionView.Elapse` | components/session-view.tsx:73-91 | the room is disconnected, with the inactivity alert, only after 60 000 ms of an uninterrupted started, listening session; the microphone is enabled only 5000 ms after the session started |
| `Theme.ThemeClass` | components/theme-toggle.tsx:32-40 | `system` adds `dark` exactly when the media query matches, else `light`; any other mode adds its own class |
| `Theme.ClassesAfterApply` | components/theme-toggle.tsx:29-40 | the class set after `applyTheme`: `dark` and `light` removed, then the mode's class added |
| `Theme.ApplyLeavesOneThemeClass` | components/theme-toggle.tsx:29-40 | after `applyTheme` exactly one of `dark`/`light` is present, and all other classes are unchanged |
| `Theme.ApplyIdempotent` | components/theme-toggle.tsx:26-41 | applying the same theme twice leaves the same class set as applying it once |
| `Theme.ApplyTheme` | components/theme-toggle.tsx:26-41 | `applyTheme` rewrites the class set as `ClassesAfterApply` and stores the requested mode itself, `system` included |
| `Theme.NextTheme` | components/theme-toggle.tsx:67-67 | the toggle chooses dark exactly after light, light for every other value including none; never `system` |
| `Theme.ToggleAlternates` | components/theme-toggle.tsx:66-70 | successive toggles alternate between the two themes |
| `Theme.InitialTheme` | components/theme-toggle.tsx:54-64 | a stored non-empty theme is adopted; otherwise the system preference's dark/light |
| `Theme.ThemeToggle.constructor` | components/theme-toggle.tsx:52-52 | the toggle's `theme` state starts undefined, before the mount effect runs |
| `Theme.ThemeToggle.Mount` | components/theme-toggle.tsx:54-64 | a stored theme becomes the state without touching the document; otherwise the system theme is set, applied and stored |
| `Theme.ThemeToggle.HandleThemeChange` | components/theme-toggle.tsx:66-70 | the toggle applies and records the same new theme, leaving exactly one theme class and storage equal to the state |

## Left out

- Rendering: JSX, Tailwind classes, framer-motion animation, the chat-panel and scroll effects, `useDebugMode`, and the `chatOpen` state. None of it decides anything the model states.
- `useConnectionDetails` (token cache, single-flight refresh) is not part of this model. Its calls are only counted, and each answer is an input.
- `useChatAndTranscription` and chat/transcript aggregation are not part of this model. session-view.tsx only sends and lists messages; it does not aggregate or persist them.
- The Supabase sign-in in `welcome.tsx` is a foreign call. The model begins at `handleLoginSuccess`, which runs after a successful sign-in.
- `agent-control-bar.tsx`: its behaviour lives in hooks that are not part of this model. Only the capabilities passed to it are modelled.
- LiveKit internals are reduced to outcome inputs: connecting, publishing, subscription, and event ordering beyond one attempt's delivery list.
- A `TrackSubscribed` event that arrives after an attempt's timer has fired is not replayed into that attempt. Handlers leaked by the probe are only counted. Between calls such an event reaches them only through `App.OnTrackSubscribed`, which the model calls nowhere on its own; `room.probeListeners` can therefore overcount at the next call unless a run delivers those events explicitly.
- The model does not wire the components to each other. `SessionView.Elapse` disconnects the room, but does not itself raise the Disconnected event that runs `App.OnDisconnected`. The `sessionStarted` value that `App` passes to `SessionView` is an input to `Render`.
- Storage reduced to typed entries: a `loginSession` whose `expiresAt` is missing or not numeric is `LoginRecord(None)`. The text `null` parses but cannot be destructured, so the catch keeps it: it is `Unparsable`, like malformed JSON. The model does not cover numeric strings that JavaScript would coerce, or `localStorage` throwing.
- `THEME_SCRIPT` (theme-toggle.tsx:8-24), the inline script that adds a class before hydration, is not modelled. It adds the class without removing any, and it falls back only on a missing entry, not an empty one.
- Media-query changes while mounted are not modelled. `prefersDark` is read when `applyTheme` runs.
- Time spent in awaited calls other than the probe's timers: fetching the connection details, `room.connect` and `setMicrophoneEnabled` take no time on the model's clock, so only the probe advances `App.clock` during `App.StartCall`.
- Logging: the `console.error` and `console.warn` calls (app.tsx:48, 137, 148) have no effect the model observes and are not modelled.
- Concurrency: two overlapping `handleStartCall` runs are not modelled. Each method runs to completion.
- `App.StartCall`: it does not state that `isConnecting` stays true while it awaits. That fact is carried instead by the `requires isConnecting` of `App.WaitForAgentVideo` and `App.ProbeAttempt`.
