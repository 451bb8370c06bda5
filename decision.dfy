/**
  The delivery decision of the `sendPushNotification` handler: from the user's
  settings document, the user's token document and the new notification document,
  either skip (push disabled, or no device token) or build the one FCM message to send.
 */
module Decision {
  import opened JsValues

  const DefaultTitle := "FitWise"
  const DefaultBody := ""
  const DefaultType := "general"
  const ClickAction := "FLUTTER_NOTIFICATION_CLICK"

  /** The `notification` part of the FCM message: what the device displays. */
  datatype Display = Display(title: JsValue, body: JsValue)

  /** The `data` part of the FCM message; `kind` is the message's `type` entry. */
  datatype Payload = Payload(kind: JsValue, clickAction: string)

  /** The FCM message object handed to `admin.messaging().send`. */
  datatype Message = Message(notification: Display, data: Payload, token: JsValue)

  /** What the handler does for one notification. */
  datatype Plan = SkipDisabled | SkipNoToken | Send(message: Message)

  /** `settings && settings.pushNotifications` is truthy: the settings document
      exists and its `pushNotifications` field is truthy. */
  predicate PushEnabled(settings: Snapshot)
    ensures PushEnabled(settings) <==>
      settings.Exists? && "pushNotifications" in settings.data && Truthy(settings.data["pushNotifications"])
  {
    settings.Exists? && Truthy(Get(settings.data, "pushNotifications"))
  }

  /** `tokenData && tokenData.fcmToken`: `undefined` when the token document does
      not exist, otherwise its `fcmToken` field (itself `undefined` when absent). */
  function FcmToken(tokenDoc: Snapshot): (t: JsValue)
    ensures tokenDoc.Missing? ==> t == Undefined
    ensures Truthy(t) ==> tokenDoc.Exists? && "fcmToken" in tokenDoc.data && t == tokenDoc.data["fcmToken"]
    ensures tokenDoc.Exists? && "fcmToken" in tokenDoc.data ==> t == tokenDoc.data["fcmToken"]
  {
    match tokenDoc
    case Missing => Undefined
    case Exists(data) => Get(data, "fcmToken")
  }

  /** The message literal: each display and data field falls back to its default
      under `||`, the click action is constant and the token is the one given. */
  function BuildMessage(n: Fields, token: JsValue): (m: Message)
    ensures Truthy(m.notification.title)
    ensures Truthy(Get(n, "title")) ==> m.notification.title == Get(n, "title")
    ensures !Truthy(Get(n, "title")) ==> m.notification.title == Str(DefaultTitle)
    ensures Truthy(Get(n, "body")) ==> m.notification.body == Get(n, "body")
    ensures !Truthy(Get(n, "body")) ==> m.notification.body == Str(DefaultBody)
    ensures Truthy(m.data.kind)
    ensures Truthy(Get(n, "type")) ==> m.data.kind == Get(n, "type")
    ensures !Truthy(Get(n, "type")) ==> m.data.kind == Str(DefaultType)
    ensures m.data.clickAction == ClickAction
    ensures m.token == token
  {
    Message(
      Display(Or(Get(n, "title"), Str(DefaultTitle)), Or(Get(n, "body"), Str(DefaultBody))),
      Payload(Or(Get(n, "type"), Str(DefaultType)), ClickAction),
      token)
  }

  /** The decision: the preference check comes first, then the token check, and only
      then is a message built, addressed to the stored token. */
  function Decide(settings: Snapshot, tokenDoc: Snapshot, n: Fields): (p: Plan)
    ensures p.SkipDisabled? <==> !PushEnabled(settings)
    ensures p.SkipNoToken? <==> PushEnabled(settings) && !Truthy(FcmToken(tokenDoc))
    ensures p.Send? <==> PushEnabled(settings) && Truthy(FcmToken(tokenDoc))
    ensures p.Send? ==> p.message == BuildMessage(n, p.message.token)
    ensures p.Send? ==> p.message.token == FcmToken(tokenDoc) && Truthy(p.message.token)
  {
    if !PushEnabled(settings) then SkipDisabled
    else
      var fcmToken := FcmToken(tokenDoc);
      if !Truthy(fcmToken) then SkipNoToken
      else Send(BuildMessage(n, fcmToken))
  }

  /** A disabled user is skipped as disabled whatever their token document and
      whatever the notification says. */
  lemma DisabledWhateverToken(settings: Snapshot, t1: Snapshot, t2: Snapshot, n1: Fields, n2: Fields)
    requires !PushEnabled(settings)
    ensures Decide(settings, t1, n1) == Decide(settings, t2, n2) == SkipDisabled
  {
  }

  /** A message that is sent carries the `fcmToken` field stored in the token document,
      and when that token is a string it is not empty. */
  lemma SentTokenIsStored(settings: Snapshot, tokenDoc: Snapshot, n: Fields)
    requires Decide(settings, tokenDoc, n).Send?
    ensures tokenDoc.Exists? && "fcmToken" in tokenDoc.data
    ensures Decide(settings, tokenDoc, n).message.token == tokenDoc.data["fcmToken"]
    ensures Decide(settings, tokenDoc, n).message.token.Str? ==> Decide(settings, tokenDoc, n).message.token.s != ""
  {
  }

  /** The notification in which every field is set: a user with push on and a stored
      token gets exactly those fields, addressed to that token. */
  lemma WorkoutReminderExample()
    ensures
      var settings := Exists(map["pushNotifications" := Bool(true)]);
      var tokens := Exists(map["fcmToken" := Str("abc123")]);
      var n := map["title" := Str("Workout reminder"), "body" := Str("Time to move!"), "type" := Str("reminder")];
      Decide(settings, tokens, n) ==
        Send(Message(Display(Str("Workout reminder"), Str("Time to move!")),
                     Payload(Str("reminder"), "FLUTTER_NOTIFICATION_CLICK"),
                     Str("abc123")))
  {
  }
}
