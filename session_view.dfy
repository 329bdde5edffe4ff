/**
 * The rules in `SessionView` (components/session-view.tsx): which agent
 * states count as available, which controls are offered while the agent is
 * connecting, the mobile breakpoint, and the two effects that arm a timer on
 * a condition and clear it when their dependencies change — the inactivity
 * timeout that disconnects the room and the deferred microphone enable.
 */
module SessionRules {

  import opened Wrappers
  import opened LiveKitRoom

  /** The states `useVoiceAssistant` reports for the agent. */
  datatype AgentState =
    | Disconnected | Connecting | PreConnectBuffering | Failed | Initializing
    | Listening | Thinking | Speaking

  const MobileBreakpointPx: int := 740
  const InactivityTimeoutMs: int := 60000
  /** Five seconds, although the source's comment says ten. */
  const MicEnableDelayMs: int := 5000
  const InactivityToast: string := "Agent connection timed out due to inactivity."

  /** `isAgentAvailable`. */
  predicate IsAgentAvailable(s: AgentState)
  {
    s == Listening || s == Thinking || s == Speaking
  }

  /** `useIsMobile()` after its resize handler has run. */
  predicate IsMobile(innerWidth: int)
  {
    innerWidth < MobileBreakpointPx
  }

  /** The chat input is disabled whenever the agent is not available. */
  predicate ChatInputDisabled(s: AgentState)
  {
    !IsAgentAvailable(s)
  }

  /** Media tiles are rendered unless the agent is connecting. */
  predicate ShowsMediaTiles(s: AgentState)
  {
    s != Connecting
  }

  datatype AppConfig = AppConfig(supportsChatInput: bool, supportsVideoInput: bool, supportsScreenShare: bool)

  datatype Capabilities = Capabilities(supportsChatInput: bool, supportsVideoInput: bool, supportsScreenShare: bool)

  /** The control bar's capabilities. */
  function DeriveCapabilities(s: AgentState, cfg: AppConfig): (c: Capabilities)
    ensures !c.supportsScreenShare
    ensures s == Connecting ==> !c.supportsChatInput && !c.supportsVideoInput
    ensures s != Connecting ==>
              c.supportsChatInput == cfg.supportsChatInput && c.supportsVideoInput == cfg.supportsVideoInput
  {
    var connecting := s == Connecting;
    Capabilities(!connecting && cfg.supportsChatInput, !connecting && cfg.supportsVideoInput, false)
  }

  /** The inactivity effect arms its timer exactly in this situation. */
  predicate InactivityArmed(sessionStarted: bool, s: AgentState)
  {
    sessionStarted && s == Listening
  }

  /**
   * While the agent is connecting nothing is offered: no media tiles, no chat
   * input, and every capability is off whatever the configuration says.
   */
  lemma ConnectingDisablesInput(cfg: AppConfig)
    ensures !ShowsMediaTiles(Connecting) && ChatInputDisabled(Connecting)
    ensures DeriveCapabilities(Connecting, cfg) == Capabilities(false, false, false)
  {
  }

  /**
   * When the chat input is enabled, the agent is available and the control
   * bar offers exactly what the configuration allows (screen share aside).
   */
  lemma AvailableAgentGetsConfiguredCapabilities(s: AgentState, cfg: AppConfig)
    requires !ChatInputDisabled(s)
    ensures ShowsMediaTiles(s)
    ensures DeriveCapabilities(s, cfg) == Capabilities(cfg.supportsChatInput, cfg.supportsVideoInput, false)
  {
  }

  /** The inactivity timer runs only while the agent is available and chat is open to the user. */
  lemma InactivityOnlyWhileAvailable(sessionStarted: bool, s: AgentState)
    requires InactivityArmed(sessionStarted, s)
    ensures IsAgentAvailable(s) && !ChatInputDisabled(s) && ShowsMediaTiles(s)
  {
  }

  /**
   * The `useIsMobile()` hook: the window's current width, the hook's state,
   * and whether its `resize` handler is registered.
   */
  class MobileQuery {
    var innerWidth: int
    var isMobile: bool
    var listening: bool

    /** While the handler is registered, the state is the breakpoint test on the current width. */
    ghost predicate Valid()
      reads this
    {
      listening ==> isMobile == IsMobile(innerWidth)
    }

    /** The first render: the state starts false, even on a narrow window, and no handler is registered. */
    constructor (innerWidth: int)
      ensures Valid() && this.innerWidth == innerWidth
      ensures !isMobile && !listening
    {
      this.innerWidth := innerWidth;
      isMobile := false;
      listening := false;
    }

    /** The mount effect: measure the window once, then register the `resize` handler. */
    method Mount()
      modifies this`isMobile, this`listening
      ensures Valid() && listening
      ensures isMobile == IsMobile(innerWidth)
    {
      isMobile := IsMobile(innerWidth);
      listening := true;
    }

    /** The window is resized; a registered handler measures it again, otherwise the state is stale. */
    method Resize(width: int)
      requires Valid()
      modifies this`innerWidth, this`isMobile
      ensures Valid() && innerWidth == width
      ensures isMobile == (if listening then IsMobile(width) else old(isMobile))
    {
      innerWidth := width;
      if listening {
        isMobile := IsMobile(width);
      }
    }

    /** Unmounting runs the effect's cleanup, which removes the handler. */
    method Unmount()
      modifies this`listening
      ensures Valid() && !listening && isMobile == old(isMobile)
    {
      listening := false;
    }
  }

  /**
   * A client run: on a 500 px window the first render lays out for desktop;
   * after mount the layout is mobile, and it follows later resizes across
   * the 740 px breakpoint in both directions.
   */
  method NarrowWindowScenario()
  {
    var q := new MobileQuery(500);
    assert !q.isMobile;
    q.Mount();
    assert q.isMobile;
    q.Resize(740);
    assert !q.isMobile;
    q.Resize(739);
    assert q.isMobile;
    q.Unmount();
    q.Resize(1200);
    assert q.isMobile;
  }

  /**
   * The component's timer state. `stateSince` is when `sessionStarted` or
   * `agentState` last changed (the inactivity effect's dependencies);
   * `startedSince` is when `sessionStarted` last changed (the microphone
   * effect's). Each timer is represented by its deadline.
   */
  class SessionView {
    const room: Room
    var sessionStarted: bool
    var agentState: AgentState
    var clock: int
    var inactivityDeadline: Option<int>
    var micDeadline: Option<int>
    var toasts: seq<string>
    ghost var stateSince: int
    ghost var startedSince: int

    /**
     * The inactivity timer is pending exactly while the session is started,
     * the agent is listening, and sixty seconds have not passed since either
     * last changed; the microphone timer exactly while the session is
     * started and five seconds have not passed since it started.
     */
    ghost predicate Valid()
      reads this
    {
      && stateSince <= clock && startedSince <= stateSince
      && inactivityDeadline ==
           (if InactivityArmed(sessionStarted, agentState) && clock < stateSince + InactivityTimeoutMs
            then Some(stateSince + InactivityTimeoutMs) else None)
      && micDeadline ==
           (if sessionStarted && clock < startedSince + MicEnableDelayMs
            then Some(startedSince + MicEnableDelayMs) else None)
    }

    /** Mounting runs both effects once with the initial props. */
    constructor (room: Room, sessionStarted: bool, agentState: AgentState, now: int)
      ensures Valid() && this.room == room && toasts == []
      ensures this.sessionStarted == sessionStarted && this.agentState == agentState && clock == now
      ensures stateSince == now && startedSince == now
    {
      this.room := room;
      this.sessionStarted := sessionStarted;
      this.agentState := agentState;
      clock := now;
      inactivityDeadline := if InactivityArmed(sessionStarted, agentState) then Some(now + InactivityTimeoutMs) else None;
      micDeadline := if sessionStarted then Some(now + MicEnableDelayMs) else None;
      toasts := [];
      stateSince, startedSince := now, now;
    }

    /**
     * A render with new `sessionStarted` / `agentState`: an effect whose
     * dependencies changed clears its timer and runs again, arming a fresh
     * one if its condition holds; an effect whose dependencies did not
     * change keeps its timer.
     */
    method Render(started: bool, state: AgentState)
      requires Valid()
      modifies this`sessionStarted, this`agentState, this`inactivityDeadline, this`micDeadline,
               this`stateSince, this`startedSince
      ensures Valid()
      ensures sessionStarted == started && agentState == state
      ensures stateSince == (if started != old(sessionStarted) || state != old(agentState) then clock
                             else old(stateSince))
      ensures startedSince == (if started != old(sessionStarted) then clock else old(startedSince))
    {
      if started != sessionStarted || state != agentState {
        inactivityDeadline := if InactivityArmed(started, state) then Some(clock + InactivityTimeoutMs) else None;
        stateSince := clock;
      }
      if started != sessionStarted {
        micDeadline := if started then Some(clock + MicEnableDelayMs) else None;
        startedSince := clock;
      }
      sessionStarted, agentState := started, state;
    }

    /**
     * Time passes with no render in between; due timers fire. The
     * inactivity timer alerts and disconnects the room; the microphone timer
     * calls `setMicrophoneEnabled(true)`, whose promise settles as `micOutcome`.
     */
    method Elapse(ms: nat, micOutcome: Step)
      requires Valid()
      modifies this`clock, this`inactivityDeadline, this`micDeadline, this`toasts, room
      ensures Valid()
      ensures clock == old(clock) + ms
      ensures sessionStarted == old(sessionStarted) && agentState == old(agentState)
      ensures stateSince == old(stateSince) && startedSince == old(startedSince)
      ensures var fired := old(inactivityDeadline).Some? && old(inactivityDeadline).value <= clock;
        && (fired ==> InactivityArmed(sessionStarted, agentState)
                      && clock - stateSince >= InactivityTimeoutMs)
        && toasts == old(toasts) + (if fired then [InactivityToast] else [])
        && room.connected == (old(room.connected) && !fired)
        && room.disconnectCalls == old(room.disconnectCalls) + (if fired then 1 else 0)
      ensures var enabling := old(micDeadline).Some? && old(micDeadline).value <= clock;
        && (enabling ==> sessionStarted && clock - startedSince >= MicEnableDelayMs)
        && room.micEnabled == (old(room.micEnabled) || (enabling && micOutcome.Done?))
        && room.micCalls == old(room.micCalls) + (if enabling then 1 else 0)
      ensures room.connectCalls == old(room.connectCalls) && room.probeListeners == old(room.probeListeners)
    {
      clock := clock + ms;
      if inactivityDeadline.Some? && inactivityDeadline.value <= clock {
        inactivityDeadline := None;
        toasts := toasts + [InactivityToast];
        room.Disconnect();
      }
      if micDeadline.Some? && micDeadline.value <= clock {
        micDeadline := None;
        var _ := room.EnableMicrophone(micOutcome);
      }
    }
  }
}
