/**
 * `WebSocketClient` (WebSocketClient.kt) as a class. The OkHttp socket is not
 * modelled: `webSocketInitialized` stands for `::webSocket.isInitialized`, and
 * the ghost `log` records, in order, every socket dialled, every text sent,
 * every close requested and every callback passed to the listener. The
 * transport's callbacks (`localWebSocketListener`) are methods the environment
 * calls, one at a time. Every method is proved to follow `ClientModel.Step`.
 */
module WebSocket {
  import opened Options
  import opened Listeners
  import M = ClientModel
  import Wire

  class WebSocketClient {
    var socketListener: SocketListener?
    var socketUrl: string
    var enableReconnect: bool
    var webSocketInitialized: bool
    ghost var log: seq<M.Effect>

    /** The client's state as a value. */
    ghost function Model(): M.ClientState
      reads this
    {
      M.ClientState(socketUrl, enableReconnect, webSocketInitialized, socketListener != null, log)
    }

    /** A new client: empty URL, reconnection enabled, no socket and no listener. */
    constructor ()
      ensures Model() == M.Init()
      ensures socketUrl == "" && enableReconnect && !webSocketInitialized
      ensures socketListener == null && log == []
    {
      socketListener := null;
      socketUrl := "";
      enableReconnect := true;
      webSocketInitialized := false;
      log := [];
    }

    /** Replaces any listener registered before. */
    method SetListener(listener: SocketListener)
      modifies this
      ensures socketListener == listener
      ensures Model() == M.Step(old(Model()), M.SetListener)
    {
      socketListener := listener;
    }

    /** Replaces the URL that later dials use. */
    method SetSocketUrl(url: string)
      modifies this
      ensures socketUrl == url && socketListener == old(socketListener)
      ensures Model() == M.Step(old(Model()), M.SetSocketUrl(url))
    {
      socketUrl := url;
    }

    /** `initWebSocket`: dials one new socket for the current URL, whatever exists already. */
    method InitWebSocket()
      modifies this
      ensures webSocketInitialized && log == old(log) + [M.Dial(socketUrl)]
      ensures socketUrl == old(socketUrl) && enableReconnect == old(enableReconnect)
      ensures socketListener == old(socketListener)
      ensures Model() == M.InitWebSocket(old(Model()))
    {
      webSocketInitialized := true;
      log := log + [M.Dial(socketUrl)];
    }

    /** Enables reconnection and always dials exactly one new socket. */
    method Connect()
      modifies this
      ensures enableReconnect && webSocketInitialized
      ensures log == old(log) + [M.Dial(old(socketUrl))]
      ensures socketUrl == old(socketUrl) && socketListener == old(socketListener)
      ensures Model() == M.Step(old(Model()), M.Connect)
    {
      enableReconnect := true;
      InitWebSocket();
    }

    /** Dials exactly one new socket and leaves `enableReconnect` alone. */
    method Reconnect()
      modifies this
      ensures webSocketInitialized && enableReconnect == old(enableReconnect)
      ensures log == old(log) + [M.Dial(old(socketUrl))]
      ensures socketUrl == old(socketUrl) && socketListener == old(socketListener)
      ensures Model() == M.Step(old(Model()), M.Reconnect)
    {
      InitWebSocket();
    }

    /**
     * Sends `{"notification": "<message>"}` iff a socket was ever created;
     * otherwise does nothing, and raises no error.
     */
    method SendNotification(message: string)
      modifies this
      ensures log == if old(webSocketInitialized)
                     then old(log) + [M.Transmit(Wire.NotificationMessage(message))]
                     else old(log)
      ensures socketUrl == old(socketUrl) && enableReconnect == old(enableReconnect)
      ensures webSocketInitialized == old(webSocketInitialized) && socketListener == old(socketListener)
      ensures Model() == M.Step(old(Model()), M.SendNotification(message))
    {
      var jsonMessage := Wire.NotificationMessage(message);
      if webSocketInitialized {
        log := log + [M.Transmit(jsonMessage)];
      }
    }

    /** Sends `{"app": "<app>"}` iff a socket was ever created. */
    method SelectApp(app: string)
      modifies this
      ensures log == if old(webSocketInitialized)
                     then old(log) + [M.Transmit(Wire.AppMessage(app))]
                     else old(log)
      ensures socketUrl == old(socketUrl) && enableReconnect == old(enableReconnect)
      ensures webSocketInitialized == old(webSocketInitialized) && socketListener == old(socketListener)
      ensures Model() == M.Step(old(Model()), M.SelectApp(app))
    {
      var jsonMessage := Wire.AppMessage(app);
      if webSocketInitialized {
        log := log + [M.Transmit(jsonMessage)];
      }
    }

    /**
     * Requests a normal closure with no reason iff a socket was ever created,
     * then disables reconnection. It never dials.
     */
    method Disconnect()
      modifies this
      ensures !enableReconnect
      ensures log == if old(webSocketInitialized)
                     then old(log) + [M.Close(M.NormalClosure, None)]
                     else old(log)
      ensures socketUrl == old(socketUrl) && webSocketInitialized == old(webSocketInitialized)
      ensures socketListener == old(socketListener)
      ensures Model() == M.Step(old(Model()), M.Disconnect)
    {
      if webSocketInitialized {
        log := log + [M.Close(M.NormalClosure, None)];
      }
      enableReconnect := false;
    }

    /** Sends `{"status": "get"}` iff a socket was ever created. */
    method RequestStatus()
      modifies this
      ensures log == if old(webSocketInitialized)
                     then old(log) + [M.Transmit(Wire.StatusRequest)]
                     else old(log)
      ensures socketUrl == old(socketUrl) && enableReconnect == old(enableReconnect)
      ensures webSocketInitialized == old(webSocketInitialized) && socketListener == old(socketListener)
      ensures Model() == M.Step(old(Model()), M.RequestStatus)
    {
      if webSocketInitialized {
        log := log + [M.Transmit(Wire.StatusRequest)];
      }
    }

    /**
     * The transport opened a socket: forwards Open to the listener, if any,
     * and nothing else (no status request, no dial).
     */
    method OnOpen()
      modifies this, socketListener
      ensures log == if socketListener != null then old(log) + [M.Notify(Open)] else old(log)
      ensures socketListener == old(socketListener) && socketUrl == old(socketUrl)
      ensures enableReconnect == old(enableReconnect) && webSocketInitialized == old(webSocketInitialized)
      ensures socketListener != null ==>
                socketListener.connectionStateLive == Observe(old(socketListener.connectionStateLive), Open)
      ensures Model() == M.Step(old(Model()), M.OnOpen)
    {
      if socketListener != null {
        socketListener.OnOpen();
        log := log + [M.Notify(Open)];
      }
    }

    /** A text arrived: forwards it to the listener, if any, and nothing else. */
    method OnMessage(text: string)
      modifies this, socketListener
      ensures log == if socketListener != null then old(log) + [M.Notify(Message(text))] else old(log)
      ensures socketListener == old(socketListener) && socketUrl == old(socketUrl)
      ensures enableReconnect == old(enableReconnect) && webSocketInitialized == old(webSocketInitialized)
      ensures socketListener != null ==>
                socketListener.connectionStateLive == Observe(old(socketListener.connectionStateLive), Message(text))
      ensures Model() == M.Step(old(Model()), M.OnMessage(text))
    {
      if socketListener != null {
        socketListener.OnMessage(text);
        log := log + [M.Notify(Message(text))];
      }
    }

    /**
     * The peer started closing: only logged. Nothing changes because the
     * method has no `modifies` clause; the ensures only records that this
     * agrees with `ClientModel.Step`.
     */
    method OnClosing()
      ensures Model() == M.Step(Model(), M.OnClosing)
    {
    }

    /**
     * The socket closed: the listener, if any, hears Closed; then a new socket
     * is dialled iff reconnection is still enabled.
     */
    method OnClosed()
      modifies this, socketListener
      ensures log == old(log) + (if socketListener != null then [M.Notify(Closed)] else [])
                              + (if enableReconnect then [M.Dial(socketUrl)] else [])
      ensures socketListener == old(socketListener) && socketUrl == old(socketUrl)
      ensures enableReconnect == old(enableReconnect)
      ensures webSocketInitialized == (old(webSocketInitialized) || enableReconnect)
      ensures socketListener != null ==>
                socketListener.connectionStateLive == Observe(old(socketListener.connectionStateLive), Closed)
      ensures Model() == M.Step(old(Model()), M.OnClosed)
    {
      CloseOrFailure();
    }

    /** The socket failed: handled exactly like a close. */
    method OnFailure()
      modifies this, socketListener
      ensures log == old(log) + (if socketListener != null then [M.Notify(Closed)] else [])
                              + (if enableReconnect then [M.Dial(socketUrl)] else [])
      ensures socketListener == old(socketListener) && socketUrl == old(socketUrl)
      ensures enableReconnect == old(enableReconnect)
      ensures webSocketInitialized == (old(webSocketInitialized) || enableReconnect)
      ensures socketListener != null ==>
                socketListener.connectionStateLive == Observe(old(socketListener.connectionStateLive), Closed)
      ensures Model() == M.Step(old(Model()), M.OnFailure)
    {
      CloseOrFailure();
    }

    /** The body `onClosed` and `onFailure` share. */
    method CloseOrFailure()
      modifies this, socketListener
      ensures log == old(log) + (if socketListener != null then [M.Notify(Closed)] else [])
                              + (if enableReconnect then [M.Dial(socketUrl)] else [])
      ensures socketListener == old(socketListener) && socketUrl == old(socketUrl)
      ensures enableReconnect == old(enableReconnect)
      ensures webSocketInitialized == (old(webSocketInitialized) || enableReconnect)
      ensures socketListener != null ==>
                socketListener.connectionStateLive == Observe(old(socketListener.connectionStateLive), Closed)
      ensures Model() == M.Step(old(Model()), M.OnClosed)
    {
      if socketListener != null {
        socketListener.OnClosed();
        log := log + [M.Notify(Closed)];
      }
      if enableReconnect {
        Reconnect();
      }
    }
  }
}
