/**
 The background-message handler: a push payload of arbitrary shape becomes the
 title and the option record that the worker asks the browser to display.
 The call to `showNotification` itself is the host's; `Build` returns what it
 would be given.
 */
module BackgroundMessage {
  import opened JsValues

  /** `payload.notification`: every field optional. */
  datatype NotificationPart = NotificationPart(title: Option<string>, body: Option<string>, image: Option<string>)

  /** `payload.data`: every field optional. */
  datatype DataPart = DataPart(actionUrl: Option<string>, id: Option<string>, priority: Option<string>)

  /** The push payload; both sub-objects may be missing. */
  datatype Payload = Payload(notification: Option<NotificationPart>, data: Option<DataPart>)
  {
    /** `payload.notification?.title` */
    function Title(): Option<string> {
      if notification.Some? then notification.value.title else None
    }

    /** `payload.notification?.body` */
    function Body(): Option<string> {
      if notification.Some? then notification.value.body else None
    }

    /** `payload.notification?.image` */
    function Image(): Option<string> {
      if notification.Some? then notification.value.image else None
    }

    /** `payload.data?.actionUrl` */
    function ActionUrl(): Option<string> {
      if data.Some? then data.value.actionUrl else None
    }

    /** `payload.data?.id` */
    function Id(): Option<string> {
      if data.Some? then data.value.id else None
    }

    /** `payload.data?.priority` */
    function Priority(): Option<string> {
      if data.Some? then data.value.priority else None
    }
  }

  /** A button shown on the notification. */
  datatype Action = Action(action: string, title: string, icon: string)

  /** The `data` record stored on the displayed notification and read back on click. */
  datatype NotificationData = NotificationData(url: string, notificationId: Option<string>, priority: string)

  /** The option record passed to `showNotification`. */
  datatype Options = Options(
    body: string,
    icon: string,
    badge: string,
    image: Option<string>,
    data: NotificationData,
    requireInteraction: bool,
    actions: seq<Action>,
    tag: string,
    renotify: bool,
    vibrate: seq<nat>,
    silent: bool)

  const DefaultTitle: string := "예쁘네 알림"
  const Icon: string := "/favicon.ico"
  const Badge: string := "/notification-badge.png"
  /** Where a notification leads when the payload names no page; the click handler uses it too. */
  const FallbackUrl: string := "/admin/notifications"
  const DefaultPriority: string := "medium"
  const Critical: string := "critical"
  const DefaultTag: string := "default"
  const ViewAction: Action := Action("view", "확인", "/icons/view.png")
  const DismissAction: Action := Action("dismiss", "닫기", "/icons/close.png")
  const CriticalVibration: seq<nat> := [200, 100, 200]
  const NormalVibration: seq<nat> := [100]

  /** The raw priority is exactly `"critical"` (a strict comparison, before any default). */
  predicate IsCritical(p: Payload) {
    p.Priority() == Some(Critical)
  }

  /** The title and options shown for a background message. */
  function Build(p: Payload): (r: (string, Options))
    // title: the payload's when non-empty, the fixed fallback otherwise
    ensures Truthy(p.Title()) ==> r.0 == p.Title().value
    ensures !Truthy(p.Title()) ==> r.0 == DefaultTitle
    ensures r.0 != ""
    // body, icon, badge, image
    ensures Truthy(p.Body()) ==> r.1.body == p.Body().value
    ensures !Truthy(p.Body()) ==> r.1.body == ""
    ensures r.1.icon == Icon && r.1.badge == Badge
    ensures r.1.image == p.Image()
    // data record
    ensures Truthy(p.ActionUrl()) ==> r.1.data.url == p.ActionUrl().value
    ensures !Truthy(p.ActionUrl()) ==> r.1.data.url == FallbackUrl
    ensures r.1.data.url != ""
    ensures r.1.data.notificationId == p.Id()
    ensures Truthy(p.Priority()) ==> r.1.data.priority == p.Priority().value
    ensures !Truthy(p.Priority()) ==> r.1.data.priority == DefaultPriority
    // priority-driven presentation
    ensures r.1.requireInteraction <==> IsCritical(p)
    ensures |r.1.vibrate| == 3 <==> IsCritical(p)
    ensures r.1.requireInteraction ==> r.1.vibrate == CriticalVibration
    ensures !r.1.requireInteraction ==> r.1.vibrate == NormalVibration
    // coalescing and alerting
    ensures Truthy(p.Id()) ==> r.1.tag == p.Id().value
    ensures !Truthy(p.Id()) ==> r.1.tag == DefaultTag
    ensures r.1.tag != ""
    ensures r.1.renotify && !r.1.silent
    // the fixed pair of buttons
    ensures |r.1.actions| == 2
    ensures r.1.actions[0] == ViewAction && r.1.actions[1] == DismissAction
  {
    var options := Options(
      body := Or(p.Body(), ""),
      icon := Icon,
      badge := Badge,
      image := p.Image(),
      data := NotificationData(
        url := Or(p.ActionUrl(), FallbackUrl),
        notificationId := p.Id(),
        priority := Or(p.Priority(), DefaultPriority)),
      requireInteraction := p.Priority() == Some(Critical),
      actions := [ViewAction, DismissAction],
      tag := Or(p.Id(), DefaultTag),
      renotify := true,
      vibrate := if p.Priority() == Some(Critical) then CriticalVibration else NormalVibration,
      silent := false);
    (Or(p.Title(), DefaultTitle), options)
  }

  /**
   The stored priority and the presentation flags agree: although the flags
   test the raw field and the stored value is defaulted, a notification
   requires interaction exactly when its stored priority is `"critical"`.
   */
  lemma CriticalMatchesStoredPriority(p: Payload)
    ensures Build(p).1.requireInteraction <==> Build(p).1.data.priority == Critical
  {
  }

  /** With no priority at all the notification is quiet: no forced interaction and one short pulse. */
  lemma AbsentPriorityIsQuiet(p: Payload)
    requires p.Priority() == None
    ensures !Build(p).1.requireInteraction
    ensures Build(p).1.vibrate == [100]
    ensures Build(p).1.data.priority == "medium"
  {
  }

  /** Two payloads carrying the same non-empty id are shown under the same tag, so the host coalesces them. */
  lemma SameIdSameTag(p: Payload, q: Payload)
    requires Truthy(p.Id()) && p.Id() == q.Id()
    ensures Build(p).1.tag == Build(q).1.tag
  {
  }

  /**
   A payload with nothing in it still yields a complete notification: the
   fallback title, an empty body, the fallback URL, medium priority and the
   default tag.
   */
  lemma EmptyPayloadFallsBack()
    ensures Build(Payload(None, None)).0 == DefaultTitle
    ensures Build(Payload(None, None)).1.body == ""
    ensures Build(Payload(None, None)).1.data == NotificationData(FallbackUrl, None, DefaultPriority)
    ensures Build(Payload(None, None)).1.tag == DefaultTag
  {
  }
}
