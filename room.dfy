/**
 * The part of a LiveKit `Room` the app observes: whether it is connected,
 * whether the local microphone is enabled, how many of the app's own
 * `TrackSubscribed` handlers are still registered on it, and how often
 * `connect` / `disconnect` were called. The library's internals are not
 * modelled: each asynchronous call takes its outcome as a parameter.
 */
module LiveKitRoom {

  import opened Wrappers

  /** A value thrown by an awaited call: an `Error` with its message, or anything else. */
  datatype Thrown = ErrorValue(message: string) | OtherValue

  /** How an awaited room call settles. */
  datatype Step = Done | Threw(error: Thrown)

  /** The failure an awaited call raises, if any. */
  function FailureOf(step: Step): Option<Thrown>
  {
    match step
    case Done => None
    case Threw(e) => Some(e)
  }

  class Room {
    var connected: bool
    var micEnabled: bool
    /** `TrackSubscribed` handlers the start-call probe registered and that have not unregistered themselves. */
    var probeListeners: nat
    var connectCalls: nat
    /** Calls to `setMicrophoneEnabled(true)`. */
    var micCalls: nat
    var disconnectCalls: nat

    constructor ()
      ensures !connected && !micEnabled
      ensures probeListeners == 0 && connectCalls == 0 && micCalls == 0 && disconnectCalls == 0
    {
      connected, micEnabled := false, false;
      probeListeners, connectCalls, micCalls, disconnectCalls := 0, 0, 0, 0;
    }

    /** `await room.connect(url, token)`. */
    method Connect(outcome: Step) returns (failure: Option<Thrown>)
      modifies this`connected, this`connectCalls
      ensures failure == FailureOf(outcome)
      ensures connectCalls == old(connectCalls) + 1
      ensures connected == (old(connected) || outcome.Done?)
    {
      connectCalls := connectCalls + 1;
      if outcome.Done? {
        connected := true;
      }
      failure := FailureOf(outcome);
    }

    /** `await room.localParticipant.setMicrophoneEnabled(true)`. */
    method EnableMicrophone(outcome: Step) returns (failure: Option<Thrown>)
      modifies this`micEnabled, this`micCalls
      ensures failure == FailureOf(outcome)
      ensures micCalls == old(micCalls) + 1
      ensures micEnabled == (old(micEnabled) || outcome.Done?)
    {
      micCalls := micCalls + 1;
      if outcome.Done? {
        micEnabled := true;
      }
      failure := FailureOf(outcome);
    }

    /** `room.disconnect()`. */
    method Disconnect()
      modifies this`connected, this`disconnectCalls
      ensures !connected && disconnectCalls == old(disconnectCalls) + 1
    {
      connected := false;
      disconnectCalls := disconnectCalls + 1;
    }
  }
}
