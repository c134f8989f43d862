/**
 * The state of one `WebSocketClient` (WebSocketClient.kt) as a value, with the
 * OkHttp transport replaced by an ordered log of what the client asked of it
 * and what it told its listener. Every public operation and every transport
 * callback is an `Event`; `Step` says what one event does and `Run` what a
 * sequence of them does. The class in web_socket_client.dfy is proved to follow
 * `Step`; the lemmas here are about sequences of events.
 */
module ClientModel {
  import opened Options
  import opened Listeners
  import Wire

  /** The close code `disconnect` uses: normal closure. */
  const NormalClosure: int := 1000

  /** One observable effect of the client. */
  datatype Effect =
    | Dial(url: string)                        // a new socket is requested for `url`
    | Transmit(text: string)                   // `webSocket.send(text)`
    | Close(code: int, reason: Option<string>) // `webSocket.close(code, reason)`
    | Notify(notification: Notification)       // a callback of the registered listener

  datatype ClientState = ClientState(
    socketUrl: string,
    enableReconnect: bool,
    socketCreated: bool,   // `::webSocket.isInitialized`: some socket was ever dialled
    hasListener: bool,     // `socketListener != null`
    log: seq<Effect>)

  datatype Event =
    | SetListener
    | SetSocketUrl(url: string)
    | Connect
    | Reconnect
    | Disconnect
    | SendNotification(message: string)
    | SelectApp(app: string)
    | RequestStatus
    | OnOpen
    | OnMessage(text: string)
    | OnClosing
    | OnClosed
    | OnFailure

  /** A freshly constructed client: no URL, reconnection enabled, no socket, no listener. */
  function Init(): ClientState
  {
    ClientState("", true, false, false, [])
  }

  /** `initWebSocket`: a new socket for the current URL replaces the handle. */
  function InitWebSocket(s: ClientState): ClientState
  {
    s.(socketCreated := true, log := s.log + [Dial(s.socketUrl)])
  }

  /** A send guarded by `::webSocket.isInitialized`. */
  function Send(s: ClientState, text: string): ClientState
  {
    if s.socketCreated then s.(log := s.log + [Transmit(text)]) else s
  }

  /** `socketListener?.callback()`: delivered only when a listener is registered. */
  function Forward(s: ClientState, n: Notification): ClientState
  {
    if s.hasListener then s.(log := s.log + [Notify(n)]) else s
  }

  /** What one event does to the client. */
  function Step(s: ClientState, e: Event): ClientState
  {
    match e
    case SetListener => s.(hasListener := true)
    case SetSocketUrl(url) => s.(socketUrl := url)
    case Connect => InitWebSocket(s.(enableReconnect := true))
    case Reconnect => InitWebSocket(s)
    case Disconnect =>
      var closed := if s.socketCreated then s.(log := s.log + [Close(NormalClosure, None)]) else s;
      closed.(enableReconnect := false)
    case SendNotification(message) => Send(s, Wire.NotificationMessage(message))
    case SelectApp(app) => Send(s, Wire.AppMessage(app))
    case RequestStatus => Send(s, Wire.StatusRequest)
    case OnOpen => Forward(s, Open)
    case OnMessage(text) => Forward(s, Message(text))
    case OnClosing => s
    case OnClosed | OnFailure =>
      var notified := Forward(s, Closed);
      if notified.enableReconnect then InitWebSocket(notified) else notified
  }

  /** What a sequence of events does, first to last. */
  function Run(s: ClientState, es: seq<Event>): ClientState
    decreases |es|
  {
    if es == [] then s else Run(Step(s, es[0]), es[1..])
  }

  /** Running four events is stepping through them one at a time. */
  lemma RunFour(s: ClientState, a: Event, b: Event, c: Event, d: Event)
    ensures Run(s, [a, b, c, d]) == Step(Step(Step(Step(s, a), b), c), d)
  {
    var s1, s2, s3 := Step(s, a), Step(Step(s, a), b), Step(Step(Step(s, a), b), c);
    assert [d][1..] == [];
    assert Run(s3, [d]) == Step(s3, d);
    assert [c, d][1..] == [d];
    assert Run(s2, [c, d]) == Run(s3, [d]);
    assert [b, c, d][1..] == [c, d];
    assert Run(s1, [b, c, d]) == Run(s2, [c, d]);
    assert [a, b, c, d][1..] == [b, c, d];
  }

  /** `es` holds no call that dials by itself: neither `connect` nor `reconnect`. */
  ghost predicate NoDialingCall(es: seq<Event>)
  {
    forall e :: e in es ==> e != Connect && e != Reconnect
  }

  /** No Dial in `log` from index `from` on. */
  ghost predicate DialFreeFrom(log: seq<Effect>, from: nat)
  {
    forall i :: from <= i < |log| ==> !log[i].Dial?
  }

  /**
   * While reconnection is disabled, nothing but `connect` or `reconnect`
   * dials: close and failure events only notify. The log only grows, and the
   * flag stays cleared.
   */
  lemma {:induction false} NoRedialWhileDisabled(s: ClientState, es: seq<Event>)
    requires !s.enableReconnect
    requires NoDialingCall(es)
    ensures !Run(s, es).enableReconnect
    ensures s.log <= Run(s, es).log
    ensures DialFreeFrom(Run(s, es).log, |s.log|)
    decreases |es|
  {
    if es != [] {
      var s1 := Step(s, es[0]);
      assert es[0] in es;
      assert !s1.enableReconnect && s.log <= s1.log && DialFreeFrom(s1.log, |s.log|);
      assert NoDialingCall(es[1..]) by {
        forall e | e in es[1..] ensures e in es { }
      }
      NoRedialWhileDisabled(s1, es[1..]);
      var r := Run(s1, es[1..]);
      forall i | |s.log| <= i < |r.log|
        ensures !r.log[i].Dial?
      {
        if i < |s1.log| {
          assert r.log[i] == s1.log[i];
        }
      }
    }
  }

  /**
   * After `disconnect`, no later close, failure, send or callback dials again
   * until `connect` (or `reconnect`) is called; the close request, when a
   * socket exists, is the normal-closure code with no reason.
   */
  lemma DisconnectStopsRedial(s: ClientState, es: seq<Event>)
    requires NoDialingCall(es)
    ensures Step(s, Disconnect).log
         == s.log + (if s.socketCreated then [Close(NormalClosure, None)] else [])
    ensures !Run(s, [Disconnect] + es).enableReconnect
    ensures s.log <= Run(s, [Disconnect] + es).log
    ensures DialFreeFrom(Run(s, [Disconnect] + es).log, |s.log|)
  {
    var s1 := Step(s, Disconnect);
    assert ([Disconnect] + es)[1..] == es;
    NoRedialWhileDisabled(s1, es);
  }

  /** `e` repeated `n` times. */
  function Repeat(e: Event, n: nat): seq<Event>
  {
    if n == 0 then [] else [e] + Repeat(e, n - 1)
  }

  /** `c` concatenated `n` times. */
  function Cycles(c: seq<Effect>, n: nat): seq<Effect>
  {
    if n == 0 then [] else c + Cycles(c, n - 1)
  }

  /** What one close or failure does while reconnection is enabled: notify, then re-dial. */
  function RetryEffects(s: ClientState): seq<Effect>
  {
    (if s.hasListener then [Notify(Closed)] else []) + [Dial(s.socketUrl)]
  }

  /**
   * While reconnection is enabled, every close or failure re-dials the same
   * URL at once, with no bound on the number of attempts and no delay.
   */
  lemma {:induction false} RetryIsUnbounded(s: ClientState, e: Event, n: nat)
    requires e == OnClosed || e == OnFailure
    requires s.enableReconnect
    ensures Run(s, Repeat(e, n)).log == s.log + Cycles(RetryEffects(s), n)
    ensures Run(s, Repeat(e, n)).enableReconnect
    ensures Run(s, Repeat(e, n)).socketUrl == s.socketUrl
    ensures n > 0 ==> Run(s, Repeat(e, n)).socketCreated
    decreases n
  {
    if n > 0 {
      var c := RetryEffects(s);
      var s1 := Step(s, e);
      assert s1.log == s.log + c;
      assert RetryEffects(s1) == c;
      RetryIsUnbounded(s1, e, n - 1);
      assert Repeat(e, n)[1..] == Repeat(e, n - 1);
      assert s.log + c + Cycles(c, n - 1) == s.log + Cycles(c, n);
    }
  }
}
