/**
 * The connection logic of MainActivity.kt, without the layout: which client
 * call the connection buttons make, when each button is enabled, the Send
 * action, and the wiring `onCreate` does before any of them can run.
 */
module Main {
  import opened Options
  import opened Listeners
  import M = ClientModel
  import WebSocket

  /** The address `onCreate` gives the client (MainActivity.kt:60). */
  const ServerUrl: string := "ws://192.168.178.39:8081"

  /** What `toggleConnectionState` asks of the client. */
  datatype Action = CallConnect | CallDisconnect | NoCall

  /**
   * `toggleConnectionState` on the observed state: connect when disconnected,
   * disconnect when connected, nothing when no state has been observed.
   */
  function ToggleAction(observed: Option<ConnectionState>): (a: Action)
    ensures a == CallConnect <==> observed == Some(CONNECTION_STATE_DISCONNECTED)
    ensures a == CallDisconnect <==> observed == Some(CONNECTION_STATE_CONNECTED)
    ensures observed == None ==> a == NoCall
  {
    if observed == Some(CONNECTION_STATE_DISCONNECTED) then CallConnect
    else if observed == Some(CONNECTION_STATE_CONNECTED) then CallDisconnect
    else NoCall
  }

  /** The `enabled` flag of the Connect button. */
  predicate ConnectEnabled(observed: Option<ConnectionState>)
  {
    observed == Some(CONNECTION_STATE_DISCONNECTED)
  }

  /** The `enabled` flag of the Disconnect button. */
  predicate DisconnectEnabled(observed: Option<ConnectionState>)
  {
    observed == Some(CONNECTION_STATE_CONNECTED)
  }

  /**
   * The two buttons are never enabled together, and an enabled button does
   * what its label says: both call `toggleConnectionState`, which connects
   * exactly when Connect is enabled and disconnects exactly when Disconnect is.
   */
  lemma ButtonsMatchToggle(observed: Option<ConnectionState>)
    ensures !(ConnectEnabled(observed) && DisconnectEnabled(observed))
    ensures ConnectEnabled(observed) <==> ToggleAction(observed) == CallConnect
    ensures DisconnectEnabled(observed) <==> ToggleAction(observed) == CallDisconnect
  {
  }

  /**
   * After any sequence of listener callbacks starting from the initial
   * DISCONNECTED, the enabled button is Disconnect exactly when the last Open
   * or Closed was Open, and Connect otherwise.
   */
  lemma {:induction false} EnabledButtonFollowsNotifications(ns: seq<Notification>)
    ensures ObserveAll(Some(CONNECTION_STATE_DISCONNECTED), ns).Some?
    ensures DisconnectEnabled(ObserveAll(Some(CONNECTION_STATE_DISCONNECTED), ns))
        <==> exists i :: LastTransitionAt(ns, i) && ns[i] == Open
    ensures ConnectEnabled(ObserveAll(Some(CONNECTION_STATE_DISCONNECTED), ns))
        <==> !exists i :: LastTransitionAt(ns, i) && ns[i] == Open
  {
    ObservedIsLastTransition(Some(CONNECTION_STATE_DISCONNECTED), ns);
    if !OnlyMessagesFrom(ns, 0) {
      var k :| 0 <= k < |ns| && !ns[k].Message?;
      LastTransitionExists(ns, k);
    }
  }

  /** Some index at or after `k` holds the last Open or Closed notification. */
  lemma {:induction false} LastTransitionExists(ns: seq<Notification>, k: int)
    requires 0 <= k < |ns| && !ns[k].Message?
    ensures exists i :: LastTransitionAt(ns, i) && k <= i
    decreases |ns| - k
  {
    if !OnlyMessagesFrom(ns, k + 1) {
      var j :| k + 1 <= j < |ns| && !ns[j].Message?;
      LastTransitionExists(ns, j);
    } else {
      assert LastTransitionAt(ns, k);
    }
  }

  class MainActivity {
    const webSocketClient: WebSocket.WebSocketClient
    const socketListener: SocketListener
    /** The text of the message field. */
    var textMessage: string
    /** Every text the Send button passed to `sendMessage`, in order. */
    ghost var sendMessageCalls: seq<string>

    /** The client serves this activity's listener and the server's URL. */
    ghost predicate Valid()
      reads this, webSocketClient
    {
      webSocketClient.socketListener == socketListener && webSocketClient.socketUrl == ServerUrl
    }

    /**
     * `onCreate`: the listener is registered and the URL set before any button
     * can be pressed; the observed state starts as DISCONNECTED.
     */
    constructor ()
      ensures Valid() && fresh(webSocketClient) && fresh(socketListener)
      ensures socketListener.connectionStateLive == Some(CONNECTION_STATE_DISCONNECTED)
      ensures webSocketClient.Model() == M.ClientState(ServerUrl, true, false, true, [])
      ensures textMessage == "" && sendMessageCalls == []
    {
      var listener := new SocketListener();
      var client := new WebSocket.WebSocketClient();
      client.SetListener(listener);
      client.SetSocketUrl(ServerUrl);
      webSocketClient := client;
      socketListener := listener;
      textMessage := "";
      sendMessageCalls := [];
    }

    /** `toggleConnectionState`, run by both connection buttons. */
    method ToggleConnectionState()
      requires Valid()
      modifies webSocketClient
      ensures Valid()
      ensures socketListener.connectionStateLive == old(socketListener.connectionStateLive)
      ensures webSocketClient.Model() == match ToggleAction(socketListener.connectionStateLive)
        case CallConnect => M.Step(old(webSocketClient.Model()), M.Connect)
        case CallDisconnect => M.Step(old(webSocketClient.Model()), M.Disconnect)
        case NoCall => old(webSocketClient.Model())
    {
      match ToggleAction(socketListener.connectionStateLive)
      case CallConnect => webSocketClient.Connect();
      case CallDisconnect => webSocketClient.Disconnect();
      case NoCall =>
    }

    /** The message field's `onValueChange`. */
    method OnValueChange(text: string)
      modifies this`textMessage
      ensures textMessage == text
    {
      textMessage := text;
    }

    /** The Send button: passes the current text to `sendMessage`, then empties the field. */
    method Send()
      modifies this`textMessage, this`sendMessageCalls
      ensures sendMessageCalls == old(sendMessageCalls) + [old(textMessage)]
      ensures textMessage == ""
    {
      sendMessageCalls := sendMessageCalls + [textMessage];
      textMessage := "";
    }
  }
}
