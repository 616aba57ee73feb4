# Push-notification relay of the beauty-platform web app

A Dafny model of the browser service worker that relays Firebase Cloud
Messaging pushes (`guru-project/public/firebase-messaging-sw.js`). It covers the
worker's two decisions:

- **Background message → notification.** A loosely shaped push payload
  (every field optional) becomes the title and option record handed to
  `showNotification`: fallback title, body and URL, a priority that defaults to
  `"medium"`, `requireInteraction` and a long vibration only for `"critical"`,
  a coalescing `tag` that defaults to `"default"`, and the fixed
  "확인"/"닫기" (view/dismiss) buttons. JavaScript's `||` treats an empty string
  like an absent one; `JsValues.Or` models exactly that.
- **Notification click → host request.** The notification is closed, a
  `"dismiss"` click stops there, and any other click resolves the target page,
  searches the host's window clients in enumeration order for the first one
  whose URL contains the target and that can be focused, and otherwise opens a
  new window when the host supports it, or does nothing.

Files:

- `js_values.dfy` (module `JsValues`): optional fields, the `||` fallback and
  `String.prototype.includes`, with a proof that the scanning definition of
  `includes` agrees with "occurs at some index".
- `background_message.dfy` (module `BackgroundMessage`): the payload, the
  option record and the pure `Build` function with its properties.
- `notification_click.dfy` (module `NotificationClick`): a `Notification`
  class whose `closed` flag the handler sets, the client search as a loop,
  and the handler as a method returning `Focus(i)`, `Open(url)` or `NoOp`.

The host is a parameter: its list of window clients (URL and whether it can
be focused) and whether `openWindow` exists. The handler returns the request it
would make and a flag telling whether it asked the host for its clients.

## Model

| member | source | states |
|---|---|---|
| `JsValues.Or` | guru-project/public/firebase-messaging-sw.js:25 | the JavaScript or-fallback on a string field yields the field when it is present and non-empty, the default otherwise; the result is empty only when both are |
| `JsValues.IncludesIffOccurs` | guru-project/public/firebase-messaging-sw.js:74 | the left-to-right scan used for `url.includes(target)` holds exactly when the target occurs at some index of the URL |
| `BackgroundMessage.Build` | guru-project/public/firebase-messaging-sw.js:22-56 | title is the payload's non-empty title or "예쁘네 알림" (never empty); body defaults to ""; icon and badge are the fixed asset paths; image passes through; data.url is `actionUrl` or "/admin/notifications" and never empty; notificationId is `data.id` unchanged; priority is the non-empty raw priority or "medium"; requireInteraction holds iff the raw priority is "critical", iff the vibration has length 3; vibration is [200,100,200] when interaction is required and [100] otherwise; tag is the non-empty id or "default"; renotify is on, silent off; actions are exactly view/"확인"/"/icons/view.png" then dismiss/"닫기"/"/icons/close.png" |
| `BackgroundMessage.CriticalMatchesStoredPriority` | guru-project/public/firebase-messaging-sw.js:34-36 | although requireInteraction tests the raw priority and data.priority is defaulted, a notification requires interaction iff its stored priority is "critical" |
| `BackgroundMessage.AbsentPriorityIsQuiet` | guru-project/public/firebase-messaging-sw.js:34-51 | without a priority: no forced interaction, vibration [100], stored priority "medium" |
| `BackgroundMessage.SameIdSameTag` | guru-project/public/firebase-messaging-sw.js:49 | two payloads with the same non-empty id get the same tag |
| `BackgroundMessage.EmptyPayloadFallsBack` | guru-project/public/firebase-messaging-sw.js:25-49 | an empty payload still yields the fallback title, empty body, fallback URL, no id, "medium" priority and the "default" tag |
| `NotificationClick.Notification.Close` | guru-project/public/firebase-messaging-sw.js:62 | closing always leaves the notification closed, also when it was closed already |
| `NotificationClick.ClickTarget` | guru-project/public/firebase-messaging-sw.js:68 | the click target is the stored url when present and non-empty, else "/admin/notifications"; never empty |
| `NotificationClick.FindClient` | guru-project/public/firebase-messaging-sw.js:73-77 | returns the least index whose client URL contains the target and which can be focused, and none exactly when no client matches |
| `NotificationClick.FirstMatchUnique` | guru-project/public/firebase-messaging-sw.js:73-77 | the least matching index is unique, so the focused client is fixed by the host's enumeration order |
| `NotificationClick.HandleClick` | guru-project/public/firebase-messaging-sw.js:59-85 | every click closes the notification; "dismiss" yields NoOp without enumerating clients; any other action enumerates, focuses the first match when one exists, otherwise opens the target when `openWindow` exists and does nothing when it does not |
| `NotificationClick.BuiltClickTarget` | guru-project/public/firebase-messaging-sw.js:32-68 | a click on a notification built from a payload targets the payload's non-empty `actionUrl`, else "/admin/notifications" |
| `NotificationClick.TabAroundTargetMatches` | guru-project/public/firebase-messaging-sw.js:74 | a focusable tab whose URL is the target with any prefix (origin) and suffix (query string) matches it |

## Left out

- Firebase bootstrap (`importScripts`, the configuration object, `initializeApp`, `messaging()`, lines 2-19): library setup with no decisions.
- The `notificationclose` listener (lines 88-103): a fire-and-forget telemetry POST carrying a wall-clock timestamp, whose failure is only logged; it is network I/O with no decision to model.
- Promises, `waitUntil` and the real `showNotification`, `matchAll`, `focus` and `openWindow` calls: the model returns the request the host would be asked to carry out, not its completion.
- `console.log` calls: logging only.
- Payload fields that are not strings (numbers, objects): every field is modelled as an optional string, so JavaScript truthiness of other value kinds is not captured.
- `"focus" in client` is modelled as a boolean `canFocus` per client; what makes a host client focusable is the host's.
- The CRUD API route and the page/layout components of the repository are not part of this model.
