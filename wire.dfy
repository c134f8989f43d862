/**
 * The three JSON texts `WebSocketClient` transmits (WebSocketClient.kt:62,70,88).
 * Each is built by plain string interpolation: the argument is inserted
 * verbatim, with no escaping of quotes or backslashes.
 */
module Wire {
  import opened Options
  import Apps

  const NotificationPrefix: string := "{\"notification\": \""
  const AppPrefix: string := "{\"app\": \""
  /** The closing quote and brace shared by the two interpolated messages. */
  const Closing: string := "\"}"
  /** The constant text `requestStatus` transmits. */
  const StatusRequest: string := "{\"status\": \"get\"}"

  /** The text `sendNotification(message)` transmits. */
  function NotificationMessage(message: string): (r: string)
    ensures Unwrap(NotificationPrefix, r) == Some(message)
  {
    UnwrapWrap(NotificationPrefix, message);
    NotificationPrefix + message + Closing
  }

  /** The text `selectApp(app)` transmits. */
  function AppMessage(app: string): (r: string)
    ensures Unwrap(AppPrefix, r) == Some(app)
  {
    UnwrapWrap(AppPrefix, app);
    AppPrefix + app + Closing
  }

  /**
   * The text between `prefix` and the closing `"}`, if `wire` has that shape.
   * It is the inverse of the interpolations above.
   */
  function Unwrap(prefix: string, wire: string): (r: Option<string>)
    ensures r.Some? ==> wire == prefix + r.value + Closing
  {
    if |prefix| + |Closing| <= |wire| && wire[..|prefix|] == prefix
       && wire[|wire| - |Closing|..] == Closing
    then
      var payload := wire[|prefix|..|wire| - |Closing|];
      assert wire == wire[..|prefix|] + payload + wire[|wire| - |Closing|..];
      Some(payload)
    else None
  }

  /** Stripping the envelope undoes adding it, whatever the payload holds. */
  lemma UnwrapWrap(prefix: string, payload: string)
    ensures Unwrap(prefix, prefix + payload + Closing) == Some(payload)
  {
  }

  /** Different notifications give different texts, and likewise for app selections. */
  lemma MessagesInjective(m1: string, m2: string)
    ensures NotificationMessage(m1) == NotificationMessage(m2) ==> m1 == m2
    ensures AppMessage(m1) == AppMessage(m2) ==> m1 == m2
  {
  }

  /**
   * With no escaping, a notification whose text contains a quote carries a
   * second key: this one reads as selecting the video app.
   */
  lemma NotificationCanInjectKey()
    ensures NotificationMessage("x\", \"app\": \"video")
         == "{\"notification\": \"x\", \"app\": \"video\"}"
  {
  }

  /**
   * Selecting an app by its `app` table entry cannot tell music from video:
   * both send an empty app name.
   */
  lemma AppTableSelection()
    ensures AppMessage(Apps.App(Apps.music)) == AppMessage(Apps.App(Apps.video)) == "{\"app\": \"\"}"
    ensures AppMessage(Apps.App(Apps.radio1)) == "{\"app\": \"radio1\"}"
  {
  }
}
