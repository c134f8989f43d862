/**
 * The `SocketListener` callbacks (SocketListener.kt) and the one listener the
 * app registers: MainActivity's `socketListener` object, which posts the
 * connection state to the `connectionStateLive` holder the screen observes
 * (MainActivity.kt:35-51).
 */
module Listeners {
  import opened Options

  /** One callback delivered to a `SocketListener`. */
  datatype Notification = Open | Message(text: string) | Closed

  /** The two connection states MainActivity uses (MainActivity.kt:35,93,95). */
  datatype ConnectionState = CONNECTION_STATE_DISCONNECTED | CONNECTION_STATE_CONNECTED

  /** The observed state after MainActivity's listener handles `n`. */
  function Observe(state: Option<ConnectionState>, n: Notification): Option<ConnectionState>
  {
    match n
    case Open => Some(CONNECTION_STATE_CONNECTED)
    case Message(_) => state
    case Closed => Some(CONNECTION_STATE_DISCONNECTED)
  }

  /** The observed state after the listener handles every notification of `ns`, in order. */
  function ObserveAll(state: Option<ConnectionState>, ns: seq<Notification>): Option<ConnectionState>
    decreases |ns|
  {
    if ns == [] then state else Observe(ObserveAll(state, ns[..|ns| - 1]), ns[|ns| - 1])
  }

  /** No Open or Closed notification at or after index `from`. */
  ghost predicate OnlyMessagesFrom(ns: seq<Notification>, from: int)
  {
    forall j :: from <= j < |ns| && 0 <= j ==> ns[j].Message?
  }

  /** Index `i` holds the last Open or Closed notification of `ns`. */
  ghost predicate LastTransitionAt(ns: seq<Notification>, i: int)
  {
    0 <= i < |ns| && !ns[i].Message? && OnlyMessagesFrom(ns, i + 1)
  }

  /**
   * The observed state is CONNECTED exactly when the last Open/Closed
   * notification was Open: messages never change it, and with no Open or
   * Closed at all the initial state stays.
   */
  lemma {:induction false} ObservedIsLastTransition(state: Option<ConnectionState>, ns: seq<Notification>)
    ensures OnlyMessagesFrom(ns, 0) ==> ObserveAll(state, ns) == state
    ensures forall i :: LastTransitionAt(ns, i) ==>
              ObserveAll(state, ns) == if ns[i] == Open then Some(CONNECTION_STATE_CONNECTED)
                                       else Some(CONNECTION_STATE_DISCONNECTED)
    decreases |ns|
  {
    if ns != [] {
      var n := |ns| - 1;
      var init := ns[..n];
      assert ObserveAll(state, ns) == Observe(ObserveAll(state, init), ns[n]);
      if ns[n].Message? {
        ObservedIsLastTransition(state, init);
        assert ObserveAll(state, ns) == ObserveAll(state, init);
        if OnlyMessagesFrom(ns, 0) {
          assert OnlyMessagesFrom(init, 0);
        }
        forall i | LastTransitionAt(ns, i)
          ensures ObserveAll(state, ns) == if ns[i] == Open then Some(CONNECTION_STATE_CONNECTED)
                                           else Some(CONNECTION_STATE_DISCONNECTED)
        {
          assert i < n;
          assert LastTransitionAt(init, i);
        }
      } else {
        assert !OnlyMessagesFrom(ns, 0);
      }
    }
  }

  /**
   * MainActivity's `socketListener`, holding the value of `connectionStateLive`
   * it posts to.
   */
  class SocketListener {
    var connectionStateLive: Option<ConnectionState>

    /** `connectionStateLive` starts as DISCONNECTED. */
    constructor ()
      ensures connectionStateLive == Some(CONNECTION_STATE_DISCONNECTED)
    {
      connectionStateLive := Some(CONNECTION_STATE_DISCONNECTED);
    }

    method OnOpen()
      modifies this
      ensures connectionStateLive == Observe(old(connectionStateLive), Open)
      ensures connectionStateLive == Some(CONNECTION_STATE_CONNECTED)
    {
      connectionStateLive := Some(CONNECTION_STATE_CONNECTED);
    }

    /**
     * Only logs the message. The state is untouched because the method has no
     * `modifies` clause; the ensures only records that this agrees with `Observe`.
     */
    method OnMessage(message: string)
      ensures connectionStateLive == Observe(connectionStateLive, Message(message))
    {
    }

    method OnClosed()
      modifies this
      ensures connectionStateLive == Observe(old(connectionStateLive), Closed)
      ensures connectionStateLive == Some(CONNECTION_STATE_DISCONNECTED)
    {
      connectionStateLive := Some(CONNECTION_STATE_DISCONNECTED);
    }
  }
}
