/** The call module of src/lib/utils/elevenlabs-call.ts: the call-state stores
    (mute, started, speaker, clock), the call timer, the vendor conversation
    session and the callbacks the vendor SDK invokes, all over one live-assist
    instance. The interval timer's callback is the explicit method Tick, and
    the SDK's asynchronous steps run one after another. */
module ElevenlabsCall {
  import opened Wrappers
  import opened TimeFormat
  import opened LiveAssist

  /** The vendor conversation session. Only its microphone mute state is
      modelled; starting and ending it belong to the vendor SDK. */
  class Conversation {
    var micMuted: bool

    /** `setMicMuted(muted)`. */
    method SetMicMuted(muted: bool)
      modifies this
      ensures micMuted == muted
    {
      micMuted := muted;
    }
  }

  /** One `elevenlabsCall()` instance: the `callData` stores, the timer
      (`timer` is non-null exactly when timerActive), the session and the
      live-assist instance it wires to the SDK. */
  class Call {
    const live: Assist
    var conversation: Conversation?
    var isMute: bool
    var isStarted: bool
    var speakerId: string
    var time: string
    var timerActive: bool
    var elapsedSeconds: nat

    /** The clock always shows the elapsed seconds, and they are zero while no
        timer runs. */
    ghost predicate Valid()
      reads this, live
    {
      && live.Valid()
      && time == FormatTime(elapsedSeconds)
      && (!timerActive ==> elapsedSeconds == 0)
    }

    constructor ()
      ensures Valid() && fresh(live) && live.Released() && conversation == null
      ensures !isMute && !isStarted && speakerId == "" && time == "00:00"
      ensures !timerActive && elapsedSeconds == 0
      ensures live.transcript == "" && live.suggestions == [] && !live.socketConnected
      ensures live.entries == [] && live.connEvents == []
    {
      live := new Assist();
      conversation := null;
      isMute := false;
      isStarted := false;
      speakerId := "";
      time := "00:00";
      timerActive := false;
      elapsedSeconds := 0;
      FormatTimeZero();
    }

    /** `stopTimer()`: clears the timer and resets the clock to "00:00",
        whatever the clock showed before. From a valid state with no timer
        running it changes nothing. */
    method StopTimer()
      requires live.Valid()
      modifies this`timerActive, this`elapsedSeconds, this`time
      ensures Valid()
      ensures !timerActive && elapsedSeconds == 0 && time == "00:00"
      ensures old(Valid()) && !old(timerActive) ==> unchanged(this)
    {
      if timerActive {
        timerActive := false;
      }
      elapsedSeconds := 0;
      FormatTimeZero();
      time := "00:00";
    }

    /** `startTimer()`: stops any running timer, then starts a fresh one at
        zero seconds. */
    method StartTimer()
      requires live.Valid()
      modifies this`timerActive, this`elapsedSeconds, this`time
      ensures Valid()
      ensures timerActive && elapsedSeconds == 0 && time == "00:00"
    {
      StopTimer();
      elapsedSeconds := 0;
      timerActive := true;
    }

    /** One firing of the interval callback, which only fires while the timer
        is set: one more second, and the clock shows it. */
    method Tick()
      requires Valid()
      requires timerActive
      modifies this`elapsedSeconds, this`time
      ensures Valid()
      ensures elapsedSeconds == old(elapsedSeconds) + 1
      ensures time == FormatTime(elapsedSeconds)
    {
      elapsedSeconds := elapsedSeconds + 1;
      time := FormatTime(elapsedSeconds);
    }

    /** `toggleMic()`: flips the mute store and mutes or unmutes a present
        session to match. */
    method ToggleMic()
      requires Valid()
      modifies this`isMute, conversation
      ensures Valid()
      ensures isMute == !old(isMute)
      ensures conversation != null ==> conversation.micMuted == isMute
    {
      var state := !isMute;
      if conversation != null {
        conversation.SetMicMuted(state);
      }
      isMute := state;
    }

    /** The SDK's `onConnect` callback: the call is started and unmuted, and
        the clock restarts from "00:00". */
    method OnConnect()
      requires Valid()
      modifies this`isStarted, this`isMute, this`time, this`timerActive, this`elapsedSeconds
      ensures Valid()
      ensures isStarted && !isMute && time == "00:00"
      ensures timerActive && elapsedSeconds == 0
    {
      isStarted := true;
      isMute := false;
      time := "00:00";
      StartTimer();
    }

    /** The SDK's `onDisconnect` callback: the call is over, nobody is
        speaking, and the timer is stopped. */
    method OnDisconnect()
      requires Valid()
      modifies this`isStarted, this`speakerId, this`time, this`timerActive, this`elapsedSeconds
      ensures Valid()
      ensures !isStarted && speakerId == ""
      ensures !timerActive && elapsedSeconds == 0 && time == "00:00"
    {
      isStarted := false;
      speakerId := "";
      StopTimer();
    }

    /** The SDK's `onModeChange` callback: speaker "1" while the agent is
        speaking, "2" in every other mode. */
    method OnModeChange(mode: string)
      requires Valid()
      modifies this`speakerId
      ensures Valid()
      ensures speakerId == "1" <==> mode == "speaking"
      ensures speakerId == "2" <==> mode != "speaking"
    {
      speakerId := if mode == "speaking" then "1" else "2";
    }

    /** `stopConversation()`: ends and drops a present session, then tears
        down the live-assist sockets and audio. endSessionRejects says whether
        the session's `endSession()` fails; the failure propagates at once, so
        nothing is dropped or closed and completed is false. The transcript,
        the suggestions and the connectivity flag are kept either way. */
    method StopConversation(endSessionRejects: bool) returns (completed: bool)
      requires Valid()
      modifies this`conversation, live`agentSocket, live`customerSocket, live`audioProcessor,
               live`audioContext, live`audioDestination, live`mediaStream,
               live.agentSocket, live.customerSocket
      ensures Valid()
      ensures completed <==> old(conversation) == null || !endSessionRejects
      ensures !completed ==>
                conversation == old(conversation) && unchanged(live)
                && (live.agentSocket != null ==> unchanged(live.agentSocket))
                && (live.customerSocket != null ==> unchanged(live.customerSocket))
      ensures completed ==> conversation == null && live.Released()
      ensures completed && old(live.agentSocket) != null ==>
                old(live.agentSocket).readyState == AfterClose(old(live.agentSocket.readyState))
                && old(live.agentSocket).sent == old(live.agentSocket.sent)
      ensures completed && old(live.customerSocket) != null ==>
                old(live.customerSocket).readyState == AfterClose(old(live.customerSocket.readyState))
                && old(live.customerSocket).sent == old(live.customerSocket.sent)
      ensures live.transcript == old(live.transcript) && live.suggestions == old(live.suggestions)
      ensures live.socketConnected == old(live.socketConnected)
      ensures live.entries == old(live.entries) && live.connEvents == old(live.connEvents)
    {
      if conversation != null {
        if endSessionRejects {
          return false;
        }
        conversation := null;
      }
      live.StopSocket();
      completed := true;
    }

    /** `startConversation()`. Browser and vendor I/O are parameters:
        storedToken is the token in local storage and promptAnswer what the
        prompt returned (the empty string when absent, as both are falsy);
        endSessionRejects is passed on to StopConversation; stream is the
        microphone stream, None when access is refused; audioNodesCreated,
        context, processor and destination describe how far building the
        audio graph got; session is the started vendor session, null when
        starting it fails. Without a token it gives up at once (proceeded is
        false). Otherwise it stops any previous conversation; if that fails,
        the error is caught and nothing else happens (stopped is false).
        Then it starts the sockets, the audio and the session, unless the
        microphone is refused, which is caught the same way. */
    method StartConversation(storedToken: string, promptAnswer: string, endSessionRejects: bool,
                             stream: Option<Handle>, audioNodesCreated: nat, context: Handle,
                             processor: Handle, destination: Handle, session: Conversation?)
      returns (proceeded: bool, stopped: bool)
      requires Valid()
      requires audioNodesCreated <= 3
      modifies this`conversation, live`agentSocket, live`customerSocket, live`audioProcessor,
               live`audioContext, live`audioDestination, live`mediaStream,
               live.agentSocket, live.customerSocket
      ensures Valid()
      ensures proceeded <==> storedToken != "" || promptAnswer != ""
      ensures stopped <==> proceeded && (old(conversation) == null || !endSessionRejects)
      ensures !stopped ==>
                conversation == old(conversation) && unchanged(live)
                && (live.agentSocket != null ==> unchanged(live.agentSocket))
                && (live.customerSocket != null ==> unchanged(live.customerSocket))
      ensures stopped && old(live.agentSocket) != null ==>
                old(live.agentSocket).readyState == AfterClose(old(live.agentSocket.readyState))
                && old(live.agentSocket).sent == old(live.agentSocket.sent)
      ensures stopped && old(live.customerSocket) != null ==>
                old(live.customerSocket).readyState == AfterClose(old(live.customerSocket.readyState))
                && old(live.customerSocket).sent == old(live.customerSocket.sent)
      ensures stopped && stream == None ==> conversation == null && live.Released()
      ensures stopped && stream != None ==>
                conversation == session && live.mediaStream == stream
                && live.agentSocket != null && fresh(live.agentSocket)
                && live.agentSocket.readyState == Connecting && live.agentSocket.sent == []
                && live.customerSocket != null && fresh(live.customerSocket)
                && live.customerSocket.readyState == Connecting && live.customerSocket.sent == []
      ensures stopped && stream != None ==>
                && live.audioContext == (if audioNodesCreated >= 1 then Some(context) else None)
                && live.audioProcessor == (if audioNodesCreated >= 2 then Some(processor) else None)
                && live.audioDestination == (if audioNodesCreated >= 3 then Some(destination) else None)
      ensures live.transcript == old(live.transcript) && live.suggestions == old(live.suggestions)
      ensures live.socketConnected == old(live.socketConnected)
      ensures live.entries == old(live.entries) && live.connEvents == old(live.connEvents)
    {
      if storedToken == "" && promptAnswer == "" {
        return false, false;
      }
      proceeded := true;
      stopped := StopConversation(endSessionRejects);
      if !stopped || stream == None {
        return;
      }
      live.CreateSocket(stream.value, true, audioNodesCreated, context, processor, destination);
      conversation := session;
    }
  }
}
