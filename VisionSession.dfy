/** The vision screen as a stateful controller: the component's state, the
    socket and timer refs, and one method per socket event, user action and
    upload completion. Commands written to the socket are appended to an
    outbox, so "nothing was sent" and "what was sent" can be stated. */
module VisionSession {
  import opened Js
  import opened VisionProtocol

  /** The socket side of the session, grouped for frame conditions. */
  datatype Link = Link(socket: ReadyState, connected: bool, pendingReconnects: nat,
                       latestTimerPending: bool, connectAttempts: nat)

  class Session {
    // component state
    var isConnected: bool
    var isProcessing: bool
    var stats: Stats
    var sourceType: SourceKind
    var videoFile: Option<VideoFile>
    var status: string
    // wsRef: ready state of the socket the ref holds
    var socket: ReadyState
    // reconnect timers armed by the close handler and neither fired nor cleared
    var pendingReconnects: nat
    // whether the timer reconnectTimeoutRef names is one of those
    var latestTimerPending: bool
    // sockets created by connectWebSocket so far
    var connectAttempts: nat
    // upload requests awaiting their reply
    var pendingUploads: nat
    // commands written to an OPEN socket, oldest first
    var outbox: seq<Command>
    // video paths of the upload replies with status 'success', oldest first
    ghost var acceptedUploads: seq<Option<string>>

    /** The session invariant: the source stays the video file (the webcam
        choice is disabled), no webcam start is ever sent, every start-video
        command sent is backed by its own successful upload of that path,
        and the timer ref names a pending timer only while one is pending. */
    ghost predicate Valid()
      reads this
    {
      sourceType == Video &&
      StartWebcam !in outbox &&
      Backed(outbox, acceptedUploads) &&
      (latestTimerPending ==> pendingReconnects > 0)
    }

    ghost function View(): Display
      reads this
    {
      Display(stats, isProcessing, status)
    }

    ghost function Connection(): Link
      reads this
    {
      Link(socket, isConnected, pendingReconnects, latestTimerPending, connectAttempts)
    }

    /** Mounting the component: the initial state, then the mount effect
        opens the first socket. */
    constructor ()
      ensures Valid()
      ensures View() == Display(ZeroStats, false, "Desconectado")
      ensures sourceType == Video && videoFile == None
      ensures Connection() == Link(Connecting, false, 0, false, 1)
      ensures pendingUploads == 0 && outbox == [] && acceptedUploads == []
    {
      isConnected, isProcessing, stats := false, false, ZeroStats;
      sourceType, videoFile, status := Video, None, "Desconectado";
      pendingReconnects, latestTimerPending := 0, false;
      pendingUploads, outbox, acceptedUploads := 0, [], [];
      socket, connectAttempts := Connecting, 1;
    }

    /** `connectWebSocket`: a new socket replaces the one in the ref. There
        is no guard against a socket that is still live. */
    method Connect()
      requires Valid()
      modifies this
      ensures Valid()
      ensures Connection() == old(Connection()).(socket := Connecting, connectAttempts := old(connectAttempts) + 1)
      ensures View() == old(View()) && videoFile == old(videoFile)
      ensures pendingUploads == old(pendingUploads) && outbox == old(outbox)
      ensures acceptedUploads == old(acceptedUploads)
    {
      socket := Connecting;
      connectAttempts := connectAttempts + 1;
    }

    /** `onopen`: connected, status 'Sistema listo'. */
    method OnOpen()
      requires Valid()
      modifies this
      ensures Valid()
      ensures Connection() == old(Connection()).(socket := Open, connected := true)
      ensures View() == old(View()).(status := "Sistema listo")
      ensures videoFile == old(videoFile) && pendingUploads == old(pendingUploads)
      ensures outbox == old(outbox) && acceptedUploads == old(acceptedUploads)
    {
      socket := Open;
      isConnected := true;
      status := "Sistema listo";
    }

    /** `onmessage`: the display changes as the pure handler says, and a
        message never sends anything or touches the connection. */
    method OnMessage(u: Inbound)
      requires Valid()
      modifies this
      ensures Valid()
      ensures View() == Dispatch(old(View()), u)
      ensures Connection() == old(Connection()) && videoFile == old(videoFile)
      ensures pendingUploads == old(pendingUploads) && outbox == old(outbox)
      ensures acceptedUploads == old(acceptedUploads)
    {
      match u {
        case Binary =>
        case Unparseable =>
        case Parsed(data) =>
          if data.msgType == Some("stats") {
            stats := StatsFrom(data);
          } else if data.msgType == Some("status") {
            if data.status == Some("started") {
              isProcessing := true;
              status := LiveStatus(data.source);
            } else if data.status == Some("stopped") {
              isProcessing := false;
              status := "Detenido";
            } else if data.status == Some("error") {
              status := OrDefault(data.message, "Error");
              isProcessing := false;
            }
          }
      }
    }

    /** `onerror`: only the status text changes. */
    method OnError()
      requires Valid()
      modifies this
      ensures Valid()
      ensures View() == old(View()).(status := "Error de conexión")
      ensures Connection() == old(Connection()) && videoFile == old(videoFile)
      ensures pendingUploads == old(pendingUploads) && outbox == old(outbox)
      ensures acceptedUploads == old(acceptedUploads)
    {
      status := "Error de conexión";
    }

    /** The peer starts the closing handshake: the browser moves the socket
        to CLOSING in a task of its own, and `onclose` runs only later. In
        between the component still shows itself connected, while every
        OPEN guard already fails and a send is dropped. */
    method OnClosingHandshake()
      requires Valid()
      modifies this
      ensures Valid()
      ensures Connection() == old(Connection()).(socket := if old(socket) == Open then Closing else old(socket))
      ensures View() == old(View()) && videoFile == old(videoFile)
      ensures pendingUploads == old(pendingUploads) && outbox == old(outbox)
      ensures acceptedUploads == old(acceptedUploads)
    {
      if socket == Open {
        socket := Closing;
      }
    }

    /** `onclose`: disconnected, status 'Desconectado', and one more reconnect
        timer is armed; the ref now names it, and an earlier pending timer is
        not cleared. The processing flag is left as it was. Every timer has
        the same 3000 ms delay, so the timers fire in the order armed. */
    method OnClose()
      requires Valid()
      modifies this
      ensures Valid()
      ensures Connection() == old(Connection()).(socket := Closed, connected := false,
                pendingReconnects := old(pendingReconnects) + 1, latestTimerPending := true)
      ensures View() == old(View()).(status := "Desconectado")
      ensures !StartEnabled(isConnected, isProcessing, sourceType, videoFile)
      ensures !StopEnabled(isConnected, isProcessing) && !RefreshEnabled(isConnected)
      ensures videoFile == old(videoFile) && pendingUploads == old(pendingUploads)
      ensures outbox == old(outbox) && acceptedUploads == old(acceptedUploads)
    {
      socket := Closed;
      isConnected := false;
      status := "Desconectado";
      pendingReconnects := pendingReconnects + 1;
      latestTimerPending := true;
    }

    /** The oldest pending reconnect timer fires after its delay and opens a
        new socket. The timer the ref names is the newest one, so it is the
        one firing only when no other is pending. */
    method ReconnectTimerFires()
      requires Valid() && pendingReconnects > 0
      modifies this
      ensures Valid()
      ensures Connection() == Link(Connecting, old(isConnected), old(pendingReconnects) - 1,
                                   old(latestTimerPending) && old(pendingReconnects) > 1,
                                   old(connectAttempts) + 1)
      ensures View() == old(View()) && videoFile == old(videoFile)
      ensures pendingUploads == old(pendingUploads) && outbox == old(outbox)
      ensures acceptedUploads == old(acceptedUploads)
    {
      pendingReconnects := pendingReconnects - 1;
      latestTimerPending := latestTimerPending && pendingReconnects > 0;
      Connect();
    }

    /** `startProcessing`. Without an OPEN socket: status 'WebSocket no
        conectado' and nothing else. Otherwise status 'Iniciando...'; a
        webcam source would send the start command at once, and a video
        source with a chosen file begins the upload, which sends nothing yet. */
    method StartProcessing()
      requires Valid()
      modifies this
      ensures Valid()
      ensures outbox == old(outbox) && acceptedUploads == old(acceptedUploads)
      ensures Connection() == old(Connection()) && videoFile == old(videoFile)
      ensures old(socket) != Open ==>
                View() == old(View()).(status := "WebSocket no conectado") &&
                pendingUploads == old(pendingUploads)
      ensures old(socket) == Open && videoFile.None? ==>
                View() == old(View()).(status := "Iniciando...") &&
                pendingUploads == old(pendingUploads)
      ensures old(socket) == Open && videoFile.Some? ==>
                View() == old(View()).(status := "Subiendo video...") &&
                pendingUploads == old(pendingUploads) + 1
    {
      if socket != Open {
        status := "WebSocket no conectado";
        return;
      }
      status := "Iniciando...";
      // The webcam branch sends its start command at once; the webcam
      // choice is disabled, so in this deployment it adds nothing.
      var webcamStart := if sourceType == Webcam then [StartWebcam] else [];
      assert webcamStart == [] && outbox + webcamStart == outbox;
      outbox := outbox + webcamStart;
      if sourceType == Video && videoFile.Some? {
        UploadAndStartVideo();
      }
    }

    /** `uploadAndStartVideo` up to its first `await`: with a file chosen,
        status 'Subiendo video...' and the upload request is issued. */
    method UploadAndStartVideo()
      requires Valid()
      modifies this
      ensures Valid()
      ensures videoFile.None? ==> View() == old(View()) && pendingUploads == old(pendingUploads)
      ensures videoFile.Some? ==>
                View() == old(View()).(status := "Subiendo video...") &&
                pendingUploads == old(pendingUploads) + 1
      ensures Connection() == old(Connection()) && videoFile == old(videoFile)
      ensures outbox == old(outbox) && acceptedUploads == old(acceptedUploads)
    {
      if videoFile.None? {
        return;
      }
      status := "Subiendo video...";
      pendingUploads := pendingUploads + 1;
    }

    /** The rest of `uploadAndStartVideo`, run when an upload's reply comes
        back. On status 'success' the video start command is sent on the
        socket the ref holds now: it goes out if that socket is OPEN, the
        send throws (caught, 'Error al subir video') while it is CONNECTING,
        and is dropped once it is closing. Any other reply or a failed
        request shows its message, or 'Error al subir video', and sends
        nothing. */
    method UploadFinished(o: UploadOutcome)
      requires Valid() && pendingUploads > 0
      modifies this
      ensures Valid()
      ensures pendingUploads == old(pendingUploads) - 1
      ensures Connection() == old(Connection()) && videoFile == old(videoFile)
      ensures UploadAccepted(o) ==> acceptedUploads == old(acceptedUploads) + [o.filename]
      ensures UploadAccepted(o) && old(socket) == Open ==>
                outbox == old(outbox) + [StartVideo(o.filename)] && View() == old(View())
      ensures UploadAccepted(o) && old(socket) == Connecting ==>
                outbox == old(outbox) && View() == old(View()).(status := "Error al subir video")
      ensures UploadAccepted(o) && (old(socket) == Closing || old(socket) == Closed) ==>
                outbox == old(outbox) && View() == old(View())
      ensures !UploadAccepted(o) ==>
                outbox == old(outbox) && acceptedUploads == old(acceptedUploads) &&
                View() == old(View()).(status := UploadFailureText(o))
    {
      if UploadAccepted(o) {
        SendStartVideo(o);
      } else {
        // a non-success reply shows its message; a failed request or an
        // unreadable reply ends in the catch block
        status := UploadFailureText(o);
      }
      pendingUploads := pendingUploads - 1;
    }

    /** The success branch of the upload, a step of `UploadFinished` and not
        an event of its own: the accepting reply is recorded, and its file
        name is sent as the video path on the socket the ref holds now. */
    method SendStartVideo(o: UploadOutcome)
      requires Valid() && UploadAccepted(o) && pendingUploads > 0
      modifies this
      ensures Valid()
      ensures acceptedUploads == old(acceptedUploads) + [o.filename]
      ensures old(socket) == Open ==> outbox == old(outbox) + [StartVideo(o.filename)] && View() == old(View())
      ensures old(socket) == Connecting ==>
                outbox == old(outbox) && View() == old(View()).(status := "Error al subir video")
      ensures old(socket) == Closing || old(socket) == Closed ==>
                outbox == old(outbox) && View() == old(View())
      ensures Connection() == old(Connection()) && videoFile == old(videoFile)
      ensures pendingUploads == old(pendingUploads)
    {
      var path := o.filename;
      acceptedUploads := acceptedUploads + [path];
      var sent := SendOn(socket);
      if sent == Transmitted {
        outbox := outbox + [StartVideo(path)];
        assert Backed(outbox, acceptedUploads) by {
          BackedAfterStartVideo(old(outbox), old(acceptedUploads), path);
        }
      } else {
        assert Backed(outbox, acceptedUploads) by {
          BackedAfterAcceptedUpload(old(outbox), old(acceptedUploads), path);
        }
        if sent == Throws {
          // `send` on a CONNECTING socket throws; the catch block reports it
          status := "Error al subir video";
        }
      }
    }

    /** `stopProcessing`: without an OPEN socket, status 'WebSocket no
        conectado' and nothing sent; otherwise the stop command is sent and
        the status waits for the server's answer. */
    method StopProcessing()
      requires Valid()
      modifies this
      ensures Valid()
      ensures old(socket) != Open ==>
                outbox == old(outbox) && View() == old(View()).(status := "WebSocket no conectado")
      ensures old(socket) == Open ==> outbox == old(outbox) + [Stop] && View() == old(View())
      ensures Connection() == old(Connection()) && videoFile == old(videoFile)
      ensures pendingUploads == old(pendingUploads) && acceptedUploads == old(acceptedUploads)
    {
      if socket != Open {
        status := "WebSocket no conectado";
        return;
      }
      BackedAfterOtherCommand(outbox, acceptedUploads, Stop);
      outbox := outbox + [Stop];
    }

    /** `refreshStats`: sends the stats request when the socket is OPEN;
        otherwise nothing at all happens. Never changes the status. */
    method RefreshStats()
      requires Valid()
      modifies this
      ensures Valid()
      ensures old(socket) == Open ==> outbox == old(outbox) + [RequestStats]
      ensures old(socket) != Open ==> outbox == old(outbox)
      ensures View() == old(View())
      ensures Connection() == old(Connection()) && videoFile == old(videoFile)
      ensures pendingUploads == old(pendingUploads) && acceptedUploads == old(acceptedUploads)
    {
      if socket == Open {
        BackedAfterOtherCommand(outbox, acceptedUploads, RequestStats);
        outbox := outbox + [RequestStats];
      }
    }

    /** `handleFileChange`: a picked file becomes the video file and is shown
        in the status; an empty pick changes nothing. */
    method HandleFileChange(file: Option<VideoFile>)
      requires Valid()
      modifies this
      ensures Valid()
      ensures file.Some? ==>
                videoFile == file && View() == old(View()).(status := "Archivo seleccionado: " + file.value.name)
      ensures file.None? ==> videoFile == old(videoFile) && View() == old(View())
      ensures Connection() == old(Connection()) && outbox == old(outbox)
      ensures pendingUploads == old(pendingUploads) && acceptedUploads == old(acceptedUploads)
    {
      if file.Some? {
        videoFile := file;
        status := "Archivo seleccionado: " + file.value.name;
      }
    }

    /** A change of the source radio group. Only enabled inputs react: the
        webcam choice never, the video choice while not processing. */
    method SelectSource(kind: SourceKind)
      requires Valid()
      modifies this
      ensures Valid()
      ensures SourceChoiceEnabled(kind, old(isProcessing)) ==> sourceType == kind
      ensures sourceType == old(sourceType) && sourceType == Video
      ensures View() == old(View()) && videoFile == old(videoFile)
      ensures Connection() == old(Connection()) && outbox == old(outbox)
      ensures pendingUploads == old(pendingUploads) && acceptedUploads == old(acceptedUploads)
    {
      if SourceChoiceEnabled(kind, isProcessing) {
        sourceType := kind;
      }
    }

    /** The mount effect's cleanup: closes the socket the ref holds and
        clears the timer the ref names, if it is still pending. Other pending
        timers, and the close event the closing socket will still deliver,
        are not affected. */
    method Dispose()
      requires Valid()
      modifies this
      ensures Valid()
      ensures socket == AfterClose(old(socket))
      ensures !latestTimerPending
      ensures pendingReconnects == if old(latestTimerPending) then old(pendingReconnects) - 1
                                   else old(pendingReconnects)
      ensures isConnected == old(isConnected) && connectAttempts == old(connectAttempts)
      ensures View() == old(View()) && videoFile == old(videoFile) && outbox == old(outbox)
      ensures pendingUploads == old(pendingUploads) && acceptedUploads == old(acceptedUploads)
    {
      socket := AfterClose(socket);
      if latestTimerPending {
        pendingReconnects := pendingReconnects - 1;
        latestTimerPending := false;
      }
    }
  }

  // -----------------------------------------------------------------------
  // Scenarios run against the controller's contracts alone

  /** A rejected upload (`{status:'failure', message:'too large'}`) shows
      the server's message and sends no start command. */
  method RejectedUploadScenario() returns (status: string, sent: seq<Command>, processing: bool)
    ensures status == "too large" && sent == [] && !processing
  {
    var s := new Session();
    s.OnOpen();
    s.HandleFileChange(Some(VideoFile("entrada.mp4")));
    s.StartProcessing();
    s.UploadFinished(Replied(Some("failure"), None, Some("too large")));
    status, sent, processing := s.status, s.outbox, s.isProcessing;
  }

  /** An accepted upload sends one start command naming the server's file,
      and the server's `started` answer puts the screen live. */
  method AcceptedUploadScenario() returns (status: string, sent: seq<Command>, processing: bool)
    ensures sent == [StartVideo(Some("abc.mp4"))]
    ensures processing && status == "LIVE - cam1"
  {
    var s := new Session();
    s.OnOpen();
    s.HandleFileChange(Some(VideoFile("entrada.mp4")));
    s.StartProcessing();
    s.UploadFinished(Replied(Some("success"), Some("abc.mp4"), None));
    s.OnMessage(Parsed(Payload(Some("status"), Some("started"), Some("cam1"), None,
                               None, None, None, None, None, None)));
    status, sent, processing := s.status, s.outbox, s.isProcessing;
  }

  /** A lost connection shows 'Desconectado' at once, arms one reconnect,
      and when it fires exactly one new socket is opened. An unparseable
      text unit in between changes nothing. */
  method ReconnectScenario() returns (status: string, pendingAfterClose: nat, attempts: nat, socket: ReadyState)
    ensures status == "Desconectado" && pendingAfterClose == 1
    ensures attempts == 2 && socket == Connecting
  {
    var s := new Session();
    s.OnOpen();
    s.OnClose();
    s.OnMessage(Unparseable);
    status, pendingAfterClose := s.status, s.pendingReconnects;
    s.ReconnectTimerFires();
    attempts, socket := s.connectAttempts, s.socket;
  }

  /** The server closes the connection: until `onclose` runs the screen
      still shows itself connected, but stop and refresh send nothing and an
      accepted upload's start command is dropped without a message. */
  method ServerClosingScenario() returns (connected: bool, status: string, sent: seq<Command>)
    ensures connected && status == "WebSocket no conectado" && sent == []
  {
    var s := new Session();
    s.OnOpen();
    s.HandleFileChange(Some(VideoFile("entrada.mp4")));
    s.StartProcessing();
    s.OnClosingHandshake();
    s.StopProcessing();
    s.RefreshStats();
    s.UploadFinished(Replied(Some("success"), Some("abc.mp4"), None));
    connected, status, sent := s.isConnected, s.status, s.outbox;
  }

  /** Teardown closes the socket and clears the timer, but the close event
      that the closing socket delivers afterwards arms a new reconnect. */
  method TeardownThenCloseScenario() returns (pendingAtTeardown: nat, pendingAfterClose: nat)
    ensures pendingAtTeardown == 0 && pendingAfterClose == 1
  {
    var s := new Session();
    s.OnOpen();
    s.Dispose();
    pendingAtTeardown := s.pendingReconnects;
    s.OnClose();
    pendingAfterClose := s.pendingReconnects;
  }
}
