/** The live-assist module of src/lib/utils/live-assist.ts: two transcription
    sockets (one per role) whose handlers feed three stores (the transcript,
    the suggestion list and one shared connectivity flag), an audio pipeline
    that forwards microphone frames, and a teardown that drops every resource.

    Each browser callback is one method call, so events are handled one at a
    time. Sockets are objects with an abstract ready state and a record of the
    frames sent on them; the media stream and audio nodes are opaque handles. */
module LiveAssist {
  import opened Wrappers
  import opened Transcript

  /** WebSocket.readyState. */
  datatype ReadyState = Connecting | Open | Closing | Closed

  /** An opaque reference to a browser object: a media stream or an audio node. */
  datatype Handle = Handle(id: nat)

  /** A message written to a socket: `{type: "audio", data}`. */
  datatype Frame = AudioFrame(data: string)

  /** The state `close()` leaves a socket in: a connecting or open socket
      starts closing, a closing or closed one is left as it is. */
  function AfterClose(st: ReadyState): (r: ReadyState)
    ensures r != Connecting && r != Open
    ensures st == Closing || st == Closed ==> r == st
  {
    if st == Connecting || st == Open then Closing else st
  }

  /** A transcription socket. Its role is fixed when it is created; its
      handlers close over that role. */
  class Socket {
    const role: Role
    var readyState: ReadyState
    var sent: seq<Frame>

    constructor (role: Role)
      ensures this.role == role && readyState == Connecting && sent == []
    {
      this.role := role;
      readyState := Connecting;
      sent := [];
    }

    /** `send`, which the module only calls on an open socket. */
    method Send(f: Frame)
      requires readyState == Open
      modifies this`sent
      ensures sent == old(sent) + [f]
    {
      sent := sent + [f];
    }

    /** `close()`: the close event itself arrives later, as OnClose. */
    method Close()
      modifies this`readyState
      ensures readyState == AfterClose(old(readyState))
    {
      readyState := AfterClose(readyState);
    }
  }

  /** The connectivity events of either socket. */
  datatype ConnKind = Opened | Errored | Disconnected
  datatype ConnEvent = ConnEvent(source: Role, kind: ConnKind)

  /** The value of the one `socketConnected` store after a run of events from
      both sockets, replayed from the first: each open handler sets it true,
      each error or close handler sets it false. It is never true unless it
      started true or some socket opened. */
  function ConnectedAfter(initial: bool, events: seq<ConnEvent>): (r: bool)
    ensures r ==> initial || exists i :: 0 <= i < |events| && events[i].kind == Opened
    decreases |events|
  {
    if events == [] then initial
    else ConnectedAfter(events[0].kind == Opened, events[1..])
  }

  /** The flag is shared and the last event wins: only the kind of the most
      recent event matters, whichever socket it came from. */
  lemma {:induction false} LastEventWins(initial: bool, events: seq<ConnEvent>)
    ensures ConnectedAfter(initial, events)
         == if events == [] then initial else events[|events| - 1].kind == Opened
    decreases |events|
  {
    if |events| > 1 {
      LastEventWins(events[0].kind == Opened, events[1..]);
    }
  }

  /** `createSocketConnection(role)`: no socket without a stored token,
      otherwise a new socket that is still connecting. */
  method CreateSocketConnection(role: Role, hasToken: bool) returns (s: Socket?)
    ensures hasToken <==> s != null
    ensures s != null ==> fresh(s) && s.role == role && s.readyState == Connecting && s.sent == []
  {
    if !hasToken {
      return null;
    }
    s := new Socket(role);
  }

  /** The stores and resources held by one `liveAssist(callData)` instance. */
  class Assist {
    var transcript: string
    var suggestions: seq<string>
    var socketConnected: bool
    var agentSocket: Socket?
    var customerSocket: Socket?
    var mediaStream: Option<Handle>
    var audioDestination: Option<Handle>
    var audioProcessor: Option<Handle>
    var audioContext: Option<Handle>

    /** The lines received so far, in order, and the connectivity events. */
    ghost var entries: seq<Entry>
    ghost var connEvents: seq<ConnEvent>

    /** The transcript is exactly the rendering of the lines received, the
        flag is what the connectivity events leave it at, and each held socket
        has the role of the field that holds it. */
    ghost predicate Valid()
      reads this
    {
      && transcript == Render(entries)
      && socketConnected == ConnectedAfter(false, connEvents)
      && (agentSocket != null ==> agentSocket.role == Agent)
      && (customerSocket != null ==> customerSocket.role == Customer)
    }

    /** No socket, stream or audio node is held. */
    predicate Released()
      reads this
    {
      && agentSocket == null && customerSocket == null
      && audioProcessor == None && audioContext == None
      && audioDestination == None && mediaStream == None
    }

    constructor ()
      ensures Valid() && Released()
      ensures transcript == "" && suggestions == [] && !socketConnected
      ensures entries == [] && connEvents == []
    {
      transcript := "";
      suggestions := [];
      socketConnected := false;
      agentSocket := null;
      customerSocket := null;
      mediaStream := None;
      audioDestination := None;
      audioProcessor := None;
      audioContext := None;
      entries := [];
      connEvents := [];
    }

    /** `socket.onopen`: the browser has opened socket s; the shared flag
        becomes true, whichever socket it was. */
    method OnOpen(s: Socket)
      requires Valid()
      requires s.readyState == Connecting
      modifies this`socketConnected, this`connEvents, s`readyState
      ensures Valid()
      ensures socketConnected && s.readyState == Open
      ensures connEvents == old(connEvents) + [ConnEvent(s.role, Opened)]
    {
      s.readyState := Open;
      connEvents := connEvents + [ConnEvent(s.role, Opened)];
      socketConnected := true;
      LastEventWins(false, connEvents);
    }

    /** `socket.onerror`: the connection of s failed; the shared flag becomes
        false. */
    method OnError(s: Socket)
      requires Valid()
      modifies this`socketConnected, this`connEvents, s`readyState
      ensures Valid()
      ensures !socketConnected && s.readyState == Closed
      ensures connEvents == old(connEvents) + [ConnEvent(s.role, Errored)]
    {
      s.readyState := Closed;
      connEvents := connEvents + [ConnEvent(s.role, Errored)];
      socketConnected := false;
      LastEventWins(false, connEvents);
    }

    /** `socket.onclose`: s is closed; the shared flag becomes false. */
    method OnClose(s: Socket)
      requires Valid()
      modifies this`socketConnected, this`connEvents, s`readyState
      ensures Valid()
      ensures !socketConnected && s.readyState == Closed
      ensures connEvents == old(connEvents) + [ConnEvent(s.role, Disconnected)]
    {
      s.readyState := Closed;
      connEvents := connEvents + [ConnEvent(s.role, Disconnected)];
      socketConnected := false;
      LastEventWins(false, connEvents);
    }

    /** `socket.onmessage` with the parsed message `{type, text}`: a "final"
        message adds a line spoken by the socket's role, a "battlecard"
        message adds a suggestion, any other type changes nothing. The browser
        only delivers messages on an open socket. */
    method OnSocketMessage(s: Socket, messageType: string, text: string)
      requires Valid()
      requires s.readyState == Open
      modifies this`transcript, this`suggestions, this`entries
      ensures Valid()
      ensures old(transcript) <= transcript
      ensures transcript == if messageType == "final"
                            then AppendLine(old(transcript), s.role, text)
                            else old(transcript)
      ensures entries == if messageType == "final"
                         then old(entries) + [Entry(s.role, text)]
                         else old(entries)
      ensures suggestions == if messageType == "battlecard"
                             then old(suggestions) + [text]
                             else old(suggestions)
    {
      if messageType == "final" {
        RenderAppend(entries, Entry(s.role, text));
        transcript := AppendLine(transcript, s.role, text);
        entries := entries + [Entry(s.role, text)];
      }
      if messageType == "battlecard" {
        suggestions := suggestions + [text];
      }
    }

    /** `sendMessage({source, message})`, the SDK's message callback: one more
        line, spoken by the agent when the source is "user" and by the
        customer otherwise. */
    method SendMessage(source: string, message: string)
      requires Valid()
      modifies this`transcript, this`entries
      ensures Valid()
      ensures old(transcript) <= transcript
      ensures transcript == AppendLine(old(transcript), SpeakerOfSource(source), message)
      ensures entries == old(entries) + [Entry(SpeakerOfSource(source), message)]
      ensures source == "user" <==> entries[|entries| - 1].speaker == Agent
    {
      var speaker := SpeakerOfSource(source);
      RenderAppend(entries, Entry(speaker, message));
      transcript := AppendLine(transcript, speaker, message);
      entries := entries + [Entry(speaker, message)];
    }

    /** `sendAudio(base64Audio)`, the SDK's audio callback: the frame goes to
        the customer socket when one is held and open, and nowhere otherwise. */
    method SendAudio(base64Audio: string)
      modifies customerSocket
      ensures customerSocket != null ==> customerSocket.readyState == old(customerSocket.readyState)
      ensures customerSocket != null ==>
                customerSocket.sent == if old(customerSocket.readyState) == Open
                                       then old(customerSocket.sent) + [AudioFrame(base64Audio)]
                                       else old(customerSocket.sent)
    {
      if customerSocket != null && customerSocket.readyState == Open {
        customerSocket.Send(AudioFrame(base64Audio));
      }
    }

    /** The audio processor's `onaudioprocess` handler, given the frame already
        converted and encoded: it goes to the agent socket when one is held and
        open, and nowhere otherwise. */
    method OnAudioProcess(base64Audio: string)
      modifies agentSocket
      ensures agentSocket != null ==> agentSocket.readyState == old(agentSocket.readyState)
      ensures agentSocket != null ==>
                agentSocket.sent == if old(agentSocket.readyState) == Open
                                    then old(agentSocket.sent) + [AudioFrame(base64Audio)]
                                    else old(agentSocket.sent)
    {
      if agentSocket != null && agentSocket.readyState == Open {
        agentSocket.Send(AudioFrame(base64Audio));
      }
    }

    /** `createSocket(stream)`: keeps the stream, opens one socket per role
        when a token is stored, and builds the audio graph. Building the graph
        can throw part-way; audioNodesCreated says how many of the context,
        processor and destination were assigned before that (3 when it
        succeeds), and the rest keep their previous values. */
    method CreateSocket(stream: Handle, hasToken: bool, audioNodesCreated: nat,
                        context: Handle, processor: Handle, destination: Handle)
      requires Valid()
      requires audioNodesCreated <= 3
      modifies this`mediaStream, this`agentSocket, this`customerSocket,
               this`audioContext, this`audioProcessor, this`audioDestination
      ensures Valid()
      ensures mediaStream == Some(stream)
      ensures hasToken ==>
                agentSocket != null && fresh(agentSocket)
                && agentSocket.readyState == Connecting && agentSocket.sent == []
      ensures hasToken ==>
                customerSocket != null && fresh(customerSocket)
                && customerSocket.readyState == Connecting && customerSocket.sent == []
      ensures !hasToken ==> agentSocket == null && customerSocket == null
      ensures audioContext == if audioNodesCreated >= 1 then Some(context) else old(audioContext)
      ensures audioProcessor == if audioNodesCreated >= 2 then Some(processor) else old(audioProcessor)
      ensures audioDestination == if audioNodesCreated >= 3 then Some(destination) else old(audioDestination)
    {
      mediaStream := Some(stream);
      agentSocket := CreateSocketConnection(Agent, hasToken);
      customerSocket := CreateSocketConnection(Customer, hasToken);
      if audioNodesCreated >= 1 {
        audioContext := Some(context);
      }
      if audioNodesCreated >= 2 {
        audioProcessor := Some(processor);
      }
      if audioNodesCreated >= 3 {
        audioDestination := Some(destination);
      }
    }

    /** `stopSocket()`: closes both sockets, drops the audio nodes and the
        stream, and leaves nothing held. The transcript, the suggestions and
        the flag are untouched (the close events arrive later). A second call
        changes nothing. */
    method StopSocket()
      requires Valid()
      modifies this`agentSocket, this`customerSocket, this`audioProcessor,
               this`audioContext, this`audioDestination, this`mediaStream,
               agentSocket, customerSocket
      ensures Valid() && Released()
      ensures old(agentSocket) != null ==>
                old(agentSocket).readyState == AfterClose(old(agentSocket.readyState))
                && old(agentSocket).sent == old(agentSocket.sent)
      ensures old(customerSocket) != null ==>
                old(customerSocket).readyState == AfterClose(old(customerSocket.readyState))
                && old(customerSocket).sent == old(customerSocket.sent)
      ensures old(Released()) ==> unchanged(this)
    {
      if agentSocket != null {
        agentSocket.Close();
        agentSocket := null;
      }
      if customerSocket != null {
        customerSocket.Close();
        customerSocket := null;
      }
      if audioProcessor != None {
        audioProcessor := None;
      }
      if audioContext != None {
        audioContext := None;
      }
      if audioDestination != None {
        audioDestination := None;
      }
      if mediaStream != None {
        mediaStream := None;
      }
    }
  }
}
