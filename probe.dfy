/**
 * The agent-video readiness probe run by `handleStartCall`
 * (components/app.tsx): up to four attempts, each first looking for an agent
 * that already has a subscribed camera track and otherwise listening for a
 * `TrackSubscribed` event while a 10-second timer runs.
 *
 * This module is the specification of the probe as a function of what the
 * room does during each attempt; the class `App` in module CallSession runs
 * the same steps imperatively and is proved to agree with it.
 */
module AgentProbe {

  import opened Wrappers

  const MaxAttempts: nat := 4
  const AttemptTimeoutMs: nat := 10000

  /** A remote participant as the probe sees it: is it an agent, and is its Camera publication subscribed. */
  datatype RemoteParticipant = RemoteParticipant(isAgent: bool, cameraSubscribed: bool)

  datatype TrackKind = Audio | Video | Unknown

  /** A `TrackSubscribed` event, `at` milliseconds after the attempt started. */
  datatype TrackSubscribedEvent = TrackSubscribedEvent(at: nat, fromAgent: bool, kind: TrackKind)

  /**
   * What the room does during one attempt: the participants already in the
   * room when the attempt starts, and the `TrackSubscribed` events it emits,
   * in delivery order.
   */
  datatype AttemptEnv = AttemptEnv(present: seq<RemoteParticipant>, events: seq<TrackSubscribedEvent>)

  /** How one attempt's promise settles. */
  datatype AttemptOutcome = AlreadyPresent | Subscribed(at: nat) | TimedOut

  /**
   * The result of the whole probe: whether the agent's video was seen, the
   * value of the `attempts` counter (failed attempts), the number of probe
   * listeners still registered on the room, and the time spent.
   */
  datatype ProbeResult = ProbeResult(joined: bool, attempts: nat, listeners: nat, elapsed: nat)

  predicate HasAgentVideo(p: RemoteParticipant)
  {
    p.isAgent && p.cameraSubscribed
  }

  predicate AgentVideoPresent(ps: seq<RemoteParticipant>)
  {
    exists i :: 0 <= i < |ps| && HasAgentVideo(ps[i])
  }

  /** The condition under which the probe's `TrackSubscribed` handler resolves. */
  predicate ResolvesAttempt(e: TrackSubscribedEvent)
  {
    e.fromAgent && e.kind == Video
  }

  /** Event `i` is delivered before the attempt's timer fires (the timer wins a tie). */
  predicate DeliveredInTime(events: seq<TrackSubscribedEvent>, i: int)
  {
    0 <= i < |events| && forall j :: 0 <= j <= i ==> events[j].at < AttemptTimeoutMs
  }

  /**
   * The time of the first resolving event at or after index `i` that is
   * delivered before the timer fires, if any.
   */
  function ArrivalFrom(events: seq<TrackSubscribedEvent>, i: nat): (r: Option<nat>)
    requires i <= |events|
    ensures r.Some? ==> r.value < AttemptTimeoutMs
    decreases |events| - i
  {
    if i == |events| || events[i].at >= AttemptTimeoutMs then None
    else if ResolvesAttempt(events[i]) then Some(events[i].at)
    else ArrivalFrom(events, i + 1)
  }

  /** How an attempt settles: a present agent wins, then the first matching event, else the timer. */
  function Attempt(env: AttemptEnv): (o: AttemptOutcome)
    ensures o.Subscribed? ==> o.at < AttemptTimeoutMs
  {
    if AgentVideoPresent(env.present) then AlreadyPresent
    else match ArrivalFrom(env.events, 0)
      case Some(t) => Subscribed(t)
      case None => TimedOut
  }

  /** The room's behaviour during attempt `k`; past the given ones, nothing happens. */
  function EnvAt(envs: seq<AttemptEnv>, k: nat): AttemptEnv
  {
    if k < |envs| then envs[k] else AttemptEnv([], [])
  }

  /**
   * Probe listeners registered after an attempt: none added when the agent
   * was already present; on a matching event every registered probe handler
   * (they all test the same condition) unregisters itself; a timed-out
   * attempt never unregisters its handler.
   */
  function AttemptListeners(o: AttemptOutcome, listeners: nat): nat
  {
    match o
    case AlreadyPresent => listeners
    case Subscribed(_) => 0
    case TimedOut => listeners + 1
  }

  function AttemptElapsed(o: AttemptOutcome): nat
  {
    match o
    case AlreadyPresent => 0
    case Subscribed(t) => t
    case TimedOut => AttemptTimeoutMs
  }

  /** The probe loop from a given value of the `attempts` counter. */
  function ProbeFrom(envs: seq<AttemptEnv>, attempts: nat, listeners: nat, elapsed: nat): ProbeResult
    decreases MaxAttempts - attempts
  {
    if attempts >= MaxAttempts then ProbeResult(false, attempts, listeners, elapsed)
    else
      var o := Attempt(EnvAt(envs, attempts));
      var l := AttemptListeners(o, listeners);
      var e := elapsed + AttemptElapsed(o);
      if o.TimedOut? then ProbeFrom(envs, attempts + 1, l, e)
      else ProbeResult(true, attempts, l, e)
  }

  /** The whole probe, started with `listeners` probe handlers already registered on the room. */
  function Probe(envs: seq<AttemptEnv>, listeners: nat): ProbeResult
  {
    ProbeFrom(envs, 0, listeners, 0)
  }

  // ---------------------------------------------------------------------------
  // Properties of a single attempt

  /** No resolving event delivered in time at or after `i` exactly when the scan finds none. */
  lemma {:induction false} ArrivalFromNone(events: seq<TrackSubscribedEvent>, i: nat)
    requires i <= |events|
    requires forall j :: 0 <= j < i ==> events[j].at < AttemptTimeoutMs
    ensures ArrivalFrom(events, i).None? <==>
              forall k :: i <= k && DeliveredInTime(events, k) ==> !ResolvesAttempt(events[k])
    decreases |events| - i
  {
    if i == |events| {
    } else if events[i].at >= AttemptTimeoutMs {
      forall k | i <= k
        ensures !DeliveredInTime(events, k)
      {
        assert events[i].at >= AttemptTimeoutMs;
      }
    } else if ResolvesAttempt(events[i]) {
      assert DeliveredInTime(events, i);
    } else {
      ArrivalFromNone(events, i + 1);
      assert DeliveredInTime(events, i);
    }
  }

  /** A found arrival is the time of the first resolving event delivered before the timer. */
  lemma {:induction false} ArrivalFromSome(events: seq<TrackSubscribedEvent>, i: nat)
    requires i <= |events|
    requires forall j :: 0 <= j < i ==> events[j].at < AttemptTimeoutMs
    requires ArrivalFrom(events, i).Some?
    ensures exists k :: i <= k && DeliveredInTime(events, k) && ResolvesAttempt(events[k])
                        && events[k].at == ArrivalFrom(events, i).value
                        && forall j :: i <= j < k ==> !ResolvesAttempt(events[j])
    decreases |events| - i
  {
    if ResolvesAttempt(events[i]) {
      assert DeliveredInTime(events, i);
    } else {
      ArrivalFromSome(events, i + 1);
      var k :| i + 1 <= k && DeliveredInTime(events, k) && ResolvesAttempt(events[k])
               && events[k].at == ArrivalFrom(events, i + 1).value
               && forall j :: i + 1 <= j < k ==> !ResolvesAttempt(events[j]);
      assert forall j :: i <= j < k ==> !ResolvesAttempt(events[j]);
    }
  }

  /**
   * An attempt resolves through the listener exactly when the agent was not
   * already present and some event from an agent with kind Video is
   * delivered before the timer; any other events leave it pending.
   */
  lemma AttemptTimesOutIff(env: AttemptEnv)
    ensures Attempt(env) == TimedOut <==>
              !AgentVideoPresent(env.present)
              && forall k :: DeliveredInTime(env.events, k) ==> !ResolvesAttempt(env.events[k])
  {
    ArrivalFromNone(env.events, 0);
  }

  /** An attempt that resolves through the listener does so on a matching event, within the timeout. */
  lemma AttemptSubscribedOnMatchingEvent(env: AttemptEnv)
    requires Attempt(env).Subscribed?
    ensures Attempt(env).at < AttemptTimeoutMs
    ensures exists k :: DeliveredInTime(env.events, k) && ResolvesAttempt(env.events[k])
                        && env.events[k].at == Attempt(env).at
  {
    ArrivalFromSome(env.events, 0);
  }

  // ---------------------------------------------------------------------------
  // Properties of the probe loop

  /** The shape of every run of the loop, from any counter value. */
  lemma {:induction false} ProbeFromShape(envs: seq<AttemptEnv>, a: nat, listeners: nat, elapsed: nat)
    requires a <= MaxAttempts
    ensures var r := ProbeFrom(envs, a, listeners, elapsed);
      && a <= r.attempts <= MaxAttempts
      && (forall k :: a <= k < r.attempts ==> Attempt(EnvAt(envs, k)) == TimedOut)
      && (r.joined ==>
            && r.attempts < MaxAttempts
            && Attempt(EnvAt(envs, r.attempts)) != TimedOut
            && r.elapsed == elapsed + (r.attempts - a) * AttemptTimeoutMs
                            + AttemptElapsed(Attempt(EnvAt(envs, r.attempts)))
            && r.listeners == (if Attempt(EnvAt(envs, r.attempts)).Subscribed? then 0
                               else listeners + (r.attempts - a)))
      && (!r.joined ==>
            && r.attempts == MaxAttempts
            && r.elapsed == elapsed + (MaxAttempts - a) * AttemptTimeoutMs
            && r.listeners == listeners + (MaxAttempts - a))
    decreases MaxAttempts - a
  {
    if a < MaxAttempts {
      var o := Attempt(EnvAt(envs, a));
      if o.TimedOut? {
        ProbeFromShape(envs, a + 1, listeners + 1, elapsed + AttemptTimeoutMs);
      }
    }
  }

  /**
   * The probe never makes more than four attempts: it reports the agent only
   * with fewer than four failed attempts, and a failed probe has exactly four.
   */
  lemma ProbeBounded(envs: seq<AttemptEnv>, listeners: nat)
    ensures Probe(envs, listeners).attempts <= MaxAttempts
    ensures Probe(envs, listeners).joined <==> Probe(envs, listeners).attempts < MaxAttempts
  {
    ProbeFromShape(envs, 0, listeners, 0);
  }

  /** The probe fails exactly when each of the four attempts times out. */
  lemma ProbeFailsIffAllAttemptsTimeOut(envs: seq<AttemptEnv>, listeners: nat)
    ensures !Probe(envs, listeners).joined <==>
              forall k :: 0 <= k < MaxAttempts ==> Attempt(EnvAt(envs, k)) == TimedOut
  {
    ProbeFromShape(envs, 0, listeners, 0);
  }

  /**
   * A successful attempt ends the loop at once: the counter holds the number
   * of attempts before it, all of which timed out, and no later attempt runs.
   */
  lemma ProbeStopsAtFirstSuccess(envs: seq<AttemptEnv>, listeners: nat, k: nat)
    requires k < MaxAttempts
    requires Attempt(EnvAt(envs, k)) != TimedOut
    requires forall j :: 0 <= j < k ==> Attempt(EnvAt(envs, j)) == TimedOut
    ensures Probe(envs, listeners).joined && Probe(envs, listeners).attempts == k
  {
    ProbeFromShape(envs, 0, listeners, 0);
  }

  /**
   * A failed probe costs four full timeouts, and each timed-out attempt
   * leaves its `TrackSubscribed` handler registered on the room.
   */
  lemma ProbeFailureCost(envs: seq<AttemptEnv>, listeners: nat)
    requires !Probe(envs, listeners).joined
    ensures Probe(envs, listeners).attempts == MaxAttempts
    ensures Probe(envs, listeners).elapsed == MaxAttempts * AttemptTimeoutMs
    ensures Probe(envs, listeners).listeners == listeners + MaxAttempts
  {
    ProbeFromShape(envs, 0, listeners, 0);
  }

  /** However it ends, the probe takes at most four timeouts' worth of time. */
  lemma ProbeElapsedBound(envs: seq<AttemptEnv>, listeners: nat)
    ensures Probe(envs, listeners).elapsed <= MaxAttempts * AttemptTimeoutMs
  {
    var r := Probe(envs, listeners);
    ProbeFromShape(envs, 0, listeners, 0);
    if r.joined {
      var o := Attempt(EnvAt(envs, r.attempts));
      if o.Subscribed? {
        AttemptSubscribedOnMatchingEvent(EnvAt(envs, r.attempts));
      }
      assert AttemptElapsed(o) <= AttemptTimeoutMs;
    }
  }

  /**
   * When an agent with a subscribed camera is in the room as the probe
   * starts, the probe succeeds at once without registering any listener.
   */
  lemma ProbeEarlySuccess(envs: seq<AttemptEnv>, listeners: nat)
    requires AgentVideoPresent(EnvAt(envs, 0).present)
    ensures Probe(envs, listeners) == ProbeResult(true, 0, listeners, 0)
  {
  }

  /**
   * A probe that succeeds through the listener leaves no probe handler
   * registered, including those leaked by earlier timed-out attempts; one
   * that finds the agent already present leaves one leaked handler per
   * failed attempt.
   */
  lemma ProbeListenersOnSuccess(envs: seq<AttemptEnv>, listeners: nat)
    requires Probe(envs, listeners).joined
    ensures var r := Probe(envs, listeners);
      r.listeners == (if Attempt(EnvAt(envs, r.attempts)).Subscribed? then 0 else listeners + r.attempts)
  {
    ProbeFromShape(envs, 0, listeners, 0);
  }

  // ---------------------------------------------------------------------------
  // The participant scan, as the source runs it

  /** The `for … of room.remoteParticipants.values()` scan with its early return. */
  method FindAgentVideo(present: seq<RemoteParticipant>) returns (found: bool)
    ensures found == AgentVideoPresent(present)
  {
    for i := 0 to |present|
      invariant forall j :: 0 <= j < i ==> !HasAgentVideo(present[j])
    {
      if present[i].isAgent {
        if present[i].cameraSubscribed {
          return true;
        }
      }
    }
    return false;
  }
}
