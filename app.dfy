/**
 * The `App` component (components/app.tsx): the login session kept in
 * storage with an expiry time, the start-call sequence (connection details,
 * connect, microphone, agent-video probe), and the room's Disconnected and
 * MediaDevicesError handlers.
 *
 * Browser state becomes fields: `loginSession` is the `localStorage` entry,
 * `clock` is `Date.now()`, `toasts` the alerts shown. The connection-details
 * hook is opaque: only its calls are counted and its answer is an input.
 */
module CallSession {

  import opened Wrappers
  import opened JsText
  import opened LiveKitRoom
  import opened AgentProbe

  /** Ten minutes, although the source's comment says fifteen. */
  const SessionDurationMs: int := 10 * 60 * 1000

  const AgentTimeoutMessage: string := "Agent video timed out"
  const DetailsMissingMessage: string := "Connection details missing"
  const AgentFailedToJoinToast: string := "Agent failed to join. Please try again."
  const FailedToConnectToast: string := "Failed to connect. Please try again."
  const TokenFailedToast: string := "Failed to get connection token"
  const DeviceErrorToast: string := "Device access error"

  // ---------------------------------------------------------------------------
  // Login session

  /**
   * The `loginSession` storage entry: the empty string, text whose parse or
   * destructuring throws (malformed JSON, and also `null`, which parses but
   * cannot be destructured), or a parsed object.
   */
  datatype StoredLogin =
    | EmptyText
    | Unparsable
      /** `expiresAt` is None when the object has no numeric `expiresAt` (every comparison with it is false). */
    | LoginRecord(expiresAt: Option<int>)

  datatype Restored = Restored(loggedIn: bool, entry: Option<StoredLogin>)

  /** The mount effect's decision: whether the user is logged in, and what is left in storage. */
  function RestoreLogin(entry: Option<StoredLogin>, now: int): Restored
  {
    match entry
    case None => Restored(false, entry)
    case Some(EmptyText) => Restored(false, entry)
    case Some(Unparsable) => Restored(false, entry)
    case Some(LoginRecord(expiresAt)) =>
      if expiresAt.Some? && now < expiresAt.value then Restored(true, entry)
      else Restored(false, None)
  }

  /** The entry `handleLoginSuccess` writes. */
  function LoginEntry(now: int): StoredLogin
  {
    LoginRecord(Some(now + SessionDurationMs))
  }

  /**
   * The user counts as logged in exactly when storage holds an expiry time
   * later than now; an expired or expiry-less record is removed, while a
   * missing, empty or unparsable entry means logged out and is left alone.
   */
  lemma RestoreLoginCases(entry: Option<StoredLogin>, now: int)
    ensures RestoreLogin(entry, now).loggedIn <==>
              exists t :: entry == Some(LoginRecord(Some(t))) && now < t
    ensures RestoreLogin(entry, now).entry != entry <==>
              entry.Some? && entry.value.LoginRecord? && !RestoreLogin(entry, now).loggedIn
    ensures RestoreLogin(entry, now).entry == None || RestoreLogin(entry, now).entry == entry
  {
    if RestoreLogin(entry, now).loggedIn {
      var t := entry.value.expiresAt.value;
      assert entry == Some(LoginRecord(Some(t))) && now < t;
    }
  }

  /** A login is honoured for ten minutes and no longer; once expired, its entry is gone. */
  lemma LoginRoundTrip(loginAt: int, now: int)
    ensures RestoreLogin(Some(LoginEntry(loginAt)), now).loggedIn <==> now - loginAt < SessionDurationMs
    ensures !RestoreLogin(Some(LoginEntry(loginAt)), now).loggedIn ==>
              RestoreLogin(Some(LoginEntry(loginAt)), now).entry == None
  {
  }

  /** Restoring twice at the same instant changes nothing the second time. */
  lemma RestoreLoginIdempotent(entry: Option<StoredLogin>, now: int)
    ensures var r := RestoreLogin(entry, now);
      RestoreLogin(r.entry, now) == r
  {
  }

  /** Once a stored session has been found expired, it stays expired later on. */
  lemma RestoreLoginExpiryIsFinal(entry: Option<StoredLogin>, now: int, later: int)
    requires now <= later
    requires !RestoreLogin(entry, now).loggedIn
    ensures !RestoreLogin(entry, later).loggedIn
    ensures !RestoreLogin(RestoreLogin(entry, now).entry, later).loggedIn
  {
  }

  // ---------------------------------------------------------------------------
  // The start-call sequence, as a function of what its awaited calls do

  datatype ConnectionDetails = ConnectionDetails(serverUrl: Option<string>, participantToken: Option<string>)

  /** How `existingOrRefreshConnectionDetails()` settles. */
  datatype DetailsFetch = Fetched(details: Option<ConnectionDetails>) | FetchFailed(error: Thrown)

  /** Everything the outside world decides during one `handleStartCall`. */
  datatype CallScript = CallScript(details: DetailsFetch, connect: Step, microphone: Step, attempts: seq<AttemptEnv>)

  /** JavaScript truthiness of an optional string. */
  predicate Truthy(s: Option<string>)
  {
    s.Some? && s.value != ""
  }

  predicate DetailsUsable(d: Option<ConnectionDetails>)
  {
    d.Some? && Truthy(d.value.serverUrl) && Truthy(d.value.participantToken)
  }

  predicate ConnectAttempted(s: CallScript)
  {
    s.details.Fetched? && DetailsUsable(s.details.details)
  }

  predicate MicrophoneAttempted(s: CallScript)
  {
    ConnectAttempted(s) && s.connect.Done?
  }

  predicate ProbeRuns(s: CallScript)
  {
    MicrophoneAttempted(s) && s.microphone.Done?
  }

  /** The value the start-call sequence throws, if any, with `listeners` probe handlers already on the room. */
  function CallFailure(s: CallScript, listeners: nat): Option<Thrown>
  {
    if s.details.FetchFailed? then Some(s.details.error)
    else if !DetailsUsable(s.details.details) then Some(ErrorValue(DetailsMissingMessage))
    else if s.connect.Threw? then Some(s.connect.error)
    else if s.microphone.Threw? then Some(s.microphone.error)
    else if !Probe(s.attempts, listeners).joined then Some(ErrorValue(AgentTimeoutMessage))
    else None
  }

  /** The alert the catch block shows for a thrown value. */
  function FailureToast(err: Thrown): string
  {
    if err.ErrorValue? && Includes(err.message, AgentTimeoutMessage) then AgentFailedToJoinToast
    else FailedToConnectToast
  }

  /** The call succeeds exactly when connect, microphone and probe all succeed. */
  lemma CallSucceedsIff(s: CallScript, listeners: nat)
    ensures CallFailure(s, listeners).None? <==> ProbeRuns(s) && Probe(s.attempts, listeners).joined
  {
  }

  /**
   * Missing connection details fail before `room.connect` is called, with
   * the generic alert.
   */
  lemma MissingDetailsFailGenerically(s: CallScript, listeners: nat)
    requires s.details.Fetched? && !DetailsUsable(s.details.details)
    ensures !ConnectAttempted(s)
    ensures CallFailure(s, listeners) == Some(ErrorValue(DetailsMissingMessage))
    ensures FailureToast(CallFailure(s, listeners).value) == FailedToConnectToast
  {
    NotIncludedWithoutFirstChar(DetailsMissingMessage, AgentTimeoutMessage);
  }

  /** A probe that exhausts its four attempts produces the "agent failed to join" alert. */
  lemma ProbeTimeoutAlertsAgentFailed(s: CallScript, listeners: nat)
    requires ProbeRuns(s) && !Probe(s.attempts, listeners).joined
    ensures CallFailure(s, listeners) == Some(ErrorValue(AgentTimeoutMessage))
    ensures FailureToast(CallFailure(s, listeners).value) == AgentFailedToJoinToast
  {
    IncludesItself(AgentTimeoutMessage);
  }

  /**
   * For a failed call the alert is "Agent failed to join" exactly when the
   * thrown value is an `Error` whose message contains "Agent video timed
   * out" — the probe's own error, or any earlier error that happens to
   * contain that text.
   */
  lemma FailureToastIff(s: CallScript, listeners: nat)
    requires CallFailure(s, listeners).Some?
    ensures var err := CallFailure(s, listeners).value;
      FailureToast(err) == AgentFailedToJoinToast <==>
        (ProbeRuns(s) || (err.ErrorValue? && Includes(err.message, AgentTimeoutMessage)))
  {
    var err := CallFailure(s, listeners).value;
    IncludesItself(AgentTimeoutMessage);
    if !ProbeRuns(s) && s.details.Fetched? && !DetailsUsable(s.details.details) {
      NotIncludedWithoutFirstChar(DetailsMissingMessage, AgentTimeoutMessage);
    }
  }

  // ---------------------------------------------------------------------------
  // The component

  class App {
    const room: Room
    var sessionStarted: bool
    var isLoggedIn: bool
    var isConnecting: bool
    var loginSession: Option<StoredLogin>
    var clock: int
    var toasts: seq<string>
    /** Calls to `existingOrRefreshConnectionDetails`. */
    var detailsRequests: nat
    /** Calls to `refreshConnectionDetails`. */
    var detailsRefreshes: nat
    /** Probe timers that are armed and neither cleared nor fired. */
    var pendingProbeTimers: nat

    /** The first render: all flags false, storage as the browser has it. */
    constructor (storedLogin: Option<StoredLogin>, now: int)
      ensures fresh(room) && !room.connected && !room.micEnabled && room.probeListeners == 0
      ensures room.connectCalls == 0 && room.micCalls == 0 && room.disconnectCalls == 0
      ensures !sessionStarted && !isLoggedIn && !isConnecting
      ensures loginSession == storedLogin && clock == now && toasts == []
      ensures detailsRequests == 0 && detailsRefreshes == 0 && pendingProbeTimers == 0
    {
      room := new Room();
      sessionStarted, isLoggedIn, isConnecting := false, false, false;
      loginSession, clock, toasts := storedLogin, now, [];
      detailsRequests, detailsRefreshes, pendingProbeTimers := 0, 0, 0;
    }

    /** Time passes between user actions. */
    method Elapse(ms: nat)
      modifies this`clock
      ensures clock == old(clock) + ms
    {
      clock := clock + ms;
    }

    /** The mount effect that restores the login session from storage. */
    method RestoreLoginSession()
      modifies this`isLoggedIn, this`loginSession
      ensures Restored(isLoggedIn, loginSession) == RestoreLogin(old(loginSession), clock)
    {
      match loginSession {
        case None =>
          isLoggedIn := false;
        case Some(EmptyText) =>
          isLoggedIn := false;
        case Some(Unparsable) =>
          isLoggedIn := false;
        case Some(LoginRecord(expiresAt)) =>
          if expiresAt.Some? && clock < expiresAt.value {
            isLoggedIn := true;
          } else {
            loginSession := None;
            isLoggedIn := false;
          }
      }
    }

    /** `handleLoginSuccess`: store an expiry ten minutes ahead and log in. */
    method LoginSuccess()
      modifies this`isLoggedIn, this`loginSession
      ensures loginSession == Some(LoginEntry(clock)) && isLoggedIn
    {
      loginSession := Some(LoginRecord(Some(clock + SessionDurationMs)));
      isLoggedIn := true;
    }

    /** The mount effect that pre-fetches connection details. */
    method PrefetchConnectionDetails(fetch: DetailsFetch)
      modifies this`detailsRequests, this`toasts
      ensures detailsRequests == old(detailsRequests) + 1
      ensures toasts == old(toasts) + (if fetch.FetchFailed? then [TokenFailedToast] else [])
    {
      detailsRequests := detailsRequests + 1;
      if fetch.FetchFailed? {
        toasts := toasts + [TokenFailedToast];
      }
    }

    /** `onDisconnected`: leave the session view and refresh the connection details. */
    method OnDisconnected()
      modifies this`sessionStarted, this`detailsRefreshes
      ensures !sessionStarted && detailsRefreshes == old(detailsRefreshes) + 1
    {
      sessionStarted := false;
      detailsRefreshes := detailsRefreshes + 1;
    }

    /**
     * A `TrackSubscribed` event delivered while no call is starting. Every
     * probe handler still registered (leaked by timed-out attempts) tests
     * the same condition; on a match each clears its own timer (already
     * fired) and unregisters itself, and its `resolve` is a no-op on a
     * settled promise.
     */
    method OnTrackSubscribed(e: TrackSubscribedEvent)
      modifies room`probeListeners
      ensures room.probeListeners == (if ResolvesAttempt(e) then 0 else old(room.probeListeners))
    {
      if ResolvesAttempt(e) {
        room.probeListeners := 0;
      }
    }

    /** `onMediaDevicesError`. */
    method OnMediaDevicesError()
      modifies this`toasts
      ensures toasts == old(toasts) + [DeviceErrorToast]
    {
      toasts := toasts + [DeviceErrorToast];
    }

    /**
     * One attempt's promise: arm the 10 s timer, resolve at once if an agent
     * with a subscribed camera is present, otherwise register the
     * `TrackSubscribed` handler and wait for a matching event or the timer.
     */
    method ProbeAttempt(env: AttemptEnv) returns (outcome: AttemptOutcome)
      requires isConnecting
      modifies this`clock, this`pendingProbeTimers, room`probeListeners
      ensures outcome == Attempt(env)
      ensures room.probeListeners == AttemptListeners(outcome, old(room.probeListeners))
      ensures clock == old(clock) + AttemptElapsed(outcome)
      ensures pendingProbeTimers == old(pendingProbeTimers)
    {
      pendingProbeTimers := pendingProbeTimers + 1;
      var found := FindAgentVideo(env.present);
      if found {
        pendingProbeTimers := pendingProbeTimers - 1;
        return AlreadyPresent;
      }
      room.probeListeners := room.probeListeners + 1;
      var i := 0;
      while i < |env.events| && env.events[i].at < AttemptTimeoutMs
        invariant 0 <= i <= |env.events|
        invariant forall j :: 0 <= j < i ==> env.events[j].at < AttemptTimeoutMs
        invariant ArrivalFrom(env.events, i) == ArrivalFrom(env.events, 0)
        invariant room.probeListeners == old(room.probeListeners) + 1
        invariant pendingProbeTimers == old(pendingProbeTimers) + 1
        invariant clock == old(clock)
      {
        if ResolvesAttempt(env.events[i]) {
          // Every registered probe handler sees this event; each clears its
          // own timer (a no-op for the earlier, already fired ones) and
          // unregisters itself.
          pendingProbeTimers := pendingProbeTimers - 1;
          room.probeListeners := 0;
          clock := clock + env.events[i].at;
          return Subscribed(env.events[i].at);
        }
        i := i + 1;
      }
      // The timer fires first and rejects; the handler stays registered.
      pendingProbeTimers := pendingProbeTimers - 1;
      clock := clock + AttemptTimeoutMs;
      return TimedOut;
    }

    /** The `while (attempts < maxAttempts)` loop; `joined` is false when it rethrows the timeout. */
    method WaitForAgentVideo(envs: seq<AttemptEnv>) returns (joined: bool, attempts: nat)
      requires isConnecting
      modifies this`clock, this`pendingProbeTimers, room`probeListeners
      ensures var r := Probe(envs, old(room.probeListeners));
        && joined == r.joined && attempts == r.attempts
        && room.probeListeners == r.listeners
        && clock == old(clock) + r.elapsed
      ensures pendingProbeTimers == old(pendingProbeTimers)
    {
      attempts := 0;
      joined := false;
      ghost var start := clock;
      while attempts < MaxAttempts
        invariant attempts <= MaxAttempts && clock >= start
        invariant ProbeFrom(envs, attempts, room.probeListeners, clock - start)
                  == Probe(envs, old(room.probeListeners))
        invariant pendingProbeTimers == old(pendingProbeTimers)
        invariant !joined
        decreases MaxAttempts - attempts
      {
        var outcome := ProbeAttempt(EnvAt(envs, attempts));
        if !outcome.TimedOut? {
          joined := true;
          break;
        }
        attempts := attempts + 1;
        if attempts >= MaxAttempts {
          break;
        }
      }
    }

    /** `handleStartCall`. */
    method StartCall(script: CallScript) returns (ok: bool)
      modifies this, room
      ensures var failure := CallFailure(script, old(room.probeListeners));
        && ok == failure.None?
        && toasts == old(toasts) + (if ok then [] else [FailureToast(failure.value)])
      ensures sessionStarted == ok && !isConnecting
      ensures detailsRequests == old(detailsRequests) + 1
      ensures room.connectCalls == old(room.connectCalls) + (if ConnectAttempted(script) then 1 else 0)
      ensures room.connected == (old(room.connected) || MicrophoneAttempted(script))
      ensures room.micCalls == old(room.micCalls) + (if MicrophoneAttempted(script) then 1 else 0)
      ensures room.micEnabled == (old(room.micEnabled) || ProbeRuns(script))
      ensures var r := Probe(script.attempts, old(room.probeListeners));
        && room.probeListeners == (if ProbeRuns(script) then r.listeners else old(room.probeListeners))
        && clock == old(clock) + (if ProbeRuns(script) then r.elapsed else 0)
      ensures room.disconnectCalls == old(room.disconnectCalls)
      ensures pendingProbeTimers == old(pendingProbeTimers)
      ensures isLoggedIn == old(isLoggedIn) && loginSession == old(loginSession)
      ensures detailsRefreshes == old(detailsRefreshes)
    {
      isConnecting := true;
      detailsRequests := detailsRequests + 1;
      var failure: Option<Thrown> := None;
      if script.details.FetchFailed? {
        failure := Some(script.details.error);
      } else if !DetailsUsable(script.details.details) {
        failure := Some(ErrorValue(DetailsMissingMessage));
      }
      if failure.None? {
        failure := room.Connect(script.connect);
      }
      if failure.None? {
        failure := room.EnableMicrophone(script.microphone);
      }
      if failure.None? {
        var joined, attempts := WaitForAgentVideo(script.attempts);
        if !joined {
          failure := Some(ErrorValue(AgentTimeoutMessage));
        }
      }
      if failure.None? {
        sessionStarted := true;
        ok := true;
      } else {
        toasts := toasts + [FailureToast(failure.value)];
        sessionStarted := false;
        ok := false;
      }
      isConnecting := false;
    }
  }

  /**
   * A client run: the agent never joins. The call fails after four full
   * timeouts with the "agent failed to join" alert, four probe handlers are
   * left on the room, and the room stays connected with the microphone on.
   */
  method AgentNeverJoinsScenario()
  {
    var app := new App(None, 0);
    var details := Fetched(Some(ConnectionDetails(Some("wss://agent.example"), Some("token"))));
    var script := CallScript(details, Done, Done, []);
    ProbeFailsIffAllAttemptsTimeOut([], 0);
    ProbeFailureCost([], 0);
    ProbeTimeoutAlertsAgentFailed(script, 0);
    var ok := app.StartCall(script);
    assert !ok && !app.sessionStarted && !app.isConnecting;
    assert app.toasts == [AgentFailedToJoinToast];
    assert app.room.connected && app.room.micEnabled;
    assert app.room.probeListeners == 4 && app.clock == 40000;
  }

  /**
   * A client run: the agent's camera is already subscribed when the probe
   * starts, so the call succeeds at once without registering a handler.
   */
  method AgentAlreadyPresentScenario()
  {
    var app := new App(None, 0);
    var details := Fetched(Some(ConnectionDetails(Some("wss://agent.example"), Some("token"))));
    var agent := RemoteParticipant(true, true);
    var script := CallScript(details, Done, Done, [AttemptEnv([agent], [])]);
    assert HasAgentVideo(EnvAt(script.attempts, 0).present[0]);
    ProbeEarlySuccess(script.attempts, 0);
    var ok := app.StartCall(script);
    assert ok && app.sessionStarted && !app.isConnecting && app.toasts == [];
    assert app.room.probeListeners == 0 && app.clock == 0;
  }

  /**
   * A client run: a user logs in, and the page is reloaded just before and
   * again just after the ten minutes run out. The first restore keeps the
   * user logged in; the second logs them out and removes the entry.
   */
  method LoginExpiresScenario()
  {
    var app := new App(None, 1000);
    app.LoginSuccess();
    app.Elapse(SessionDurationMs - 1);
    app.RestoreLoginSession();
    assert app.isLoggedIn && app.loginSession == Some(LoginEntry(1000));
    app.Elapse(1);
    app.RestoreLoginSession();
    assert !app.isLoggedIn && app.loginSession == None;
  }
}
