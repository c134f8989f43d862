/**
 * Concrete event sequences that show how `WebSocketClient` (WebSocketClient.kt)
 * behaves where a reader might expect otherwise.
 */
module ClientScenarios {
  import opened Options
  import opened Listeners
  import opened ClientModel
  import Wire

  /**
   * `connect` is not idempotent and the client does not keep the connection
   * states apart: connecting twice opens two sockets, and the listener hears
   * Open twice with no Closed in between.
   */
  lemma ConnectTwiceOpensTwice(s: ClientState, es: seq<Event>)
    requires es == [Connect, OnOpen, Connect, OnOpen]
    requires s.hasListener
    ensures Run(s, es).log
         == s.log + [Dial(s.socketUrl), Notify(Open), Dial(s.socketUrl), Notify(Open)]
  {
    RunFour(s, es[0], es[1], es[2], es[3]);
    var s1 := Step(s, es[0]);
    assert s1 == s.(enableReconnect := true, socketCreated := true, log := s.log + [Dial(s.socketUrl)]);
    var s2 := Step(s1, es[1]);
    assert s2.log == s1.log + [Notify(Open)];
    var s3 := Step(s2, es[2]);
    assert s3.log == s2.log + [Dial(s.socketUrl)];
    var s4 := Step(s3, es[3]);
    assert s4.log == s3.log + [Notify(Open)];
  }

  /**
   * Sends are guarded by "a socket was created", not by "the socket is open":
   * after a disconnect and its close event, the status request is still passed
   * to `webSocket.send`.
   */
  lemma SendAfterCloseStillCallsSend(s: ClientState, es: seq<Event>)
    requires es == [Connect, Disconnect, OnClosed, RequestStatus]
    ensures Run(s, es).log
         == s.log + [Dial(s.socketUrl), Close(NormalClosure, None)]
                  + (if s.hasListener then [Notify(Closed)] else [])
                  + [Transmit(Wire.StatusRequest)]
  {
    RunFour(s, es[0], es[1], es[2], es[3]);
    var s1 := Step(s, es[0]);
    assert s1 == s.(enableReconnect := true, socketCreated := true, log := s.log + [Dial(s.socketUrl)]);
    var s2 := Step(s1, es[1]);
    assert s2 == s1.(enableReconnect := false, log := s1.log + [Close(NormalClosure, None)]);
    var s3 := Step(s2, es[2]);
    assert s3 == s2.(log := s2.log + if s.hasListener then [Notify(Closed)] else []);
    var s4 := Step(s3, es[3]);
    assert s4.log == s3.log + [Transmit(Wire.StatusRequest)];
  }

  /**
   * Callbacks do not say which socket they come from: a close of the socket
   * a `disconnect` ended that arrives after a new `connect` re-dials, leaving
   * two new sockets for one `connect`.
   */
  lemma StaleCloseRedials(s: ClientState, es: seq<Event>)
    requires es == [Connect, Disconnect, Connect, OnClosed]
    ensures Run(s, es).log
         == s.log + [Dial(s.socketUrl), Close(NormalClosure, None), Dial(s.socketUrl)]
                  + (if s.hasListener then [Notify(Closed)] else [])
                  + [Dial(s.socketUrl)]
  {
    RunFour(s, es[0], es[1], es[2], es[3]);
    var s1 := Step(s, es[0]);
    assert s1 == s.(enableReconnect := true, socketCreated := true, log := s.log + [Dial(s.socketUrl)]);
    var s2 := Step(s1, es[1]);
    assert s2 == s1.(enableReconnect := false, log := s1.log + [Close(NormalClosure, None)]);
    var s3 := Step(s2, es[2]);
    assert s3 == s2.(enableReconnect := true, log := s2.log + [Dial(s.socketUrl)]);
    var s4 := Step(s3, es[3]);
    assert s4.log == s3.log + (if s.hasListener then [Notify(Closed)] else []) + [Dial(s.socketUrl)];
  }
}
