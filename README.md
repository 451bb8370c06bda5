# FitWise push notification handler — Dafny model

FitWise's Cloud Functions consist of one Firestore trigger, `sendPushNotification`.
It fires when a document is created under
`user_notifications/{userId}/notifications/{notificationId}`. The trigger reads the
user's `user_settings/{userId}` document. If push is on, it reads the user's
`user_tokens/{userId}` document. If a device token is stored, it sends one Firebase
Cloud Messaging (FCM) message built from the notification. Every path, including a
failed read or send, returns `null`: everything after reading the notification and
the `userId` sits in one `try`/`catch`.

The model has three modules:

- `JsValues` (`jsvalues.dfy`) models JavaScript values as Firestore hands them over:
  `undefined` for a missing field, `null`, booleans, numbers, `NaN`, strings, arrays
  and objects. It defines JavaScript truthiness and the value-returning `||`. The
  handler's tests are truthiness tests, so a `pushNotifications` of `1` or `"no"`
  turns push on, and a title of `""`, `0` or `false` falls back to the default.
- `Decision` (`decision.dfy`) is the pure decision. `Decide(settings, tokenDoc,
  notification)` returns `SkipDisabled`, `SkipNoToken` or `Send(message)`.
  `BuildMessage` is the message object literal with its `||` defaults.
- `Handler` (`handler.dfy`) is the async body as a machine that runs from one `await`
  to the next. The replies of the two reads and of the send are inputs (`Env`):
  each settles as resolved or rejected. Each I/O call the handler makes goes, in
  order, into an effect trace. `Handle` runs one invocation to its `return null`.
  Its `Exit` records which return was reached: disabled, no token, delivered, or
  caught at a given stage.

## Model

| member | source | states |
|---|---|---|
| `JsValues.Truthy` | functions/index.js:24-40 | JavaScript's ToBoolean, used by the tests `!settings`, `!settings.pushNotifications` and `!fcmToken`. A value is falsy exactly when it is `undefined`, `null`, `false`, `0`, `NaN` or `""`. |
| `JsValues.Get` | functions/index.js:24-52 | Property access on a document's data: a present field reads as its stored value, and a missing field reads as `undefined`, which is falsy. |
| `Decision.PushEnabled` | functions/index.js:24 | The negation of `!settings \|\| !settings.pushNotifications`: it holds exactly when the settings document exists, has a `pushNotifications` field, and that field is truthy. |
| `Decision.FcmToken` | functions/index.js:38 | `tokenData && tokenData.fcmToken`: `undefined` when the token document is missing, the stored `fcmToken` field whenever the document has one, and truthy only when it is that stored field. |
| `JsValues.Or` | functions/index.js:48-52 | `a \|\| b` is one of its operands. It is truthy exactly when either operand is truthy, it is the left operand whenever that one is truthy, and the right operand whenever the left one is falsy (so `undefined \|\| ""` is `""`). |
| `Decision.BuildMessage` | functions/index.js:46-56 | The title is the notification's title when truthy, else `"FitWise"`, so it is always truthy (a string title is never empty). The body falls back to `""` and the data type to `"general"`. The click action is always `"FLUTTER_NOTIFICATION_CLICK"`. The token is the one passed in. |
| `Decision.Decide` | functions/index.js:21-56 | The result is disabled exactly when the settings document is missing or `pushNotifications` is falsy. It is no-token exactly when push is on and `tokenData && tokenData.fcmToken` is falsy. Otherwise it sends the built message, addressed to that stored, truthy token. |
| `Decision.DisabledWhateverToken` | functions/index.js:24-29 | With push off, the outcome is disabled whatever the token document and notification are. |
| `Decision.SentTokenIsStored` | functions/index.js:37-55 | A sent message's token is the `fcmToken` field of an existing token document. When it is a string, it is non-empty. |
| `Decision.WorkoutReminderExample` | functions/index.js:46-56 | A notification with title, body and type set, for a user with push on and token `"abc123"`, yields exactly that message, with the constant click action. |
| `Handler.Step` | functions/index.js:14-66 | Each step makes exactly one I/O call and appends it to the trace, keeping the earlier trace. It moves strictly closer to a return. It never raises the count of sends made plus sends still possible. |
| `Handler.Run` | functions/index.js:14-66 | Running from any state always ends in a return, never in an escaped error. It only extends the trace, by at most the number of awaits left. It adds at most one send, and none once the handler has returned. |
| `Handler.Handle` | functions/index.js:14-66 | Every invocation returns. Its first I/O call is the read of `user_settings/{userId}`. It makes at most three I/O calls and at most one send. |
| `Handler.DisabledReadsNoToken` | functions/index.js:21-35 | With push off, the handler returns right after the settings read. The token document is never read and nothing is sent, whatever the token store would answer. |
| `Handler.FailedLookupIsCaught` | functions/index.js:16-66 | A rejected settings read, or a rejected token read after push was found on, ends in the `catch` right after that read, with nothing sent. |
| `Handler.HandleFollowsDecide` | functions/index.js:21-62 | When both reads resolve, the handler does what `Decide` says. Disabled returns after one read and no-token after two. Otherwise the last I/O call is exactly one send of the decided message, and the exit is delivered or caught depending on the send's reply. |
| `Handler.SentOnlyWhenAllowed` | functions/index.js:24-59 | Any message in the trace was sent to a user whose settings document exists with push on. It went to the truthy token stored for that user, and it is the message `Decide` builds. |

## Left out

- Trigger registration, `admin.initializeApp()` and path-parameter extraction
  (functions/index.js:2-12) are framework wiring. The `userId` and the notification
  document's data are plain inputs of an invocation.
- The Firestore reads and `admin.messaging().send` are I/O calls into the Firebase
  SDK. Their results are inputs: a resolved value or a rejection. The calls
  themselves are recorded as effects. FCM's own validation of the message is not
  modelled. For example, it rejects a non-string title or `data` value. Such a
  rejection is covered by a rejected send reply, which ends in the `catch`.
- `console.log` / `console.error` output is observability only and is not modelled.
- The returned value is `null` on every path, so the model does not carry it. The
  terminal `Done(exit)` stands for `return null`.
- `async`/`await` scheduling is not modelled. One invocation's awaits run in
  sequence, and invocations share no state.
- Numbers are real numbers plus `NaN`. `Infinity` and `-Infinity` are not
  represented separately. Their truthiness is that of any non-zero number.
- The notification document is taken to exist, as it always does for an
  `onCreate` snapshot. Property access on a missing notification therefore does not
  arise.
- Fan-out to several channels, per-channel outcome lists, dependency-injected stores,
  a fatal "malformed event" case and deduplication of redelivered events do not
  occur in this code. The code has one channel and one send, and it never checks
  the `userId`. They are not modelled.
