/**
 The notification-click handler: close the notification, then either stop
 (the "dismiss" button) or bring the user to the notification's page,
 focusing an open tab that already shows it or opening a new one.
 The host's tab list and its `openWindow` capability are inputs; the handler
 returns the one request it would make of the host.
 */
module NotificationClick {
  import opened JsValues
  import opened BackgroundMessage

  /** An open window client as enumerated by the host. */
  datatype Client = Client(url: string, canFocus: bool)

  /** What the host offers the handler: its window clients in enumeration order, and whether `openWindow` exists. */
  datatype Host = Host(clients: seq<Client>, canOpenWindow: bool)

  /** The request made of the host once the notification is closed. */
  datatype Outcome = Focus(index: nat) | Open(url: string) | NoOp

  const DismissActionName: string := "dismiss"

  /** A displayed notification; clicking it closes it. */
  class Notification {
    var closed: bool
    /** `notification.data?.url`: absent when the notification carries no data or no url. */
    const dataUrl: Option<string>

    constructor (dataUrl: Option<string>)
      ensures !closed && this.dataUrl == dataUrl
    {
      this.dataUrl := dataUrl;
      closed := false;
    }

    /** Closing is idempotent: a closed notification stays closed and nothing fails. */
    method Close()
      modifies this
      ensures closed
    {
      closed := true;
    }
  }

  /** The page a click leads to: the stored url, or the fallback when it is absent or empty. */
  function ClickTarget(dataUrl: Option<string>): (t: string)
    ensures t != ""
    ensures Truthy(dataUrl) ==> t == dataUrl.value
    ensures !Truthy(dataUrl) ==> t == FallbackUrl
  {
    Or(dataUrl, FallbackUrl)
  }

  /** A client that shows the target page and can be brought to the front. */
  predicate Matches(c: Client, target: string) {
    Includes(c.url, target) && c.canFocus
  }

  /** `i` is the least index of a matching client. */
  predicate IsFirstMatch(clients: seq<Client>, target: string, i: nat) {
    i < |clients| && Matches(clients[i], target) &&
    forall j :: 0 <= j < i ==> !Matches(clients[j], target)
  }

  /** No client matches. */
  predicate NoMatch(clients: seq<Client>, target: string) {
    forall j :: 0 <= j < |clients| ==> !Matches(clients[j], target)
  }

  /** The search over the enumerated clients: the first one that matches, in host order. */
  method FindClient(clients: seq<Client>, target: string) returns (found: Option<nat>)
    ensures found.Some? ==> IsFirstMatch(clients, target, found.value)
    ensures found.None? <==> NoMatch(clients, target)
  {
    var i := 0;
    while i < |clients|
      invariant i <= |clients|
      invariant forall j :: 0 <= j < i ==> !Matches(clients[j], target)
    {
      if Matches(clients[i], target) {
        return Some(i);
      }
      i := i + 1;
    }
    return None;
  }

  /**
   Handles a click with the given action name ("" for a click on the body).
   `enumerated` tells whether the host was asked for its clients.
   */
  method HandleClick(n: Notification, action: string, host: Host) returns (outcome: Outcome, enumerated: bool)
    modifies n
    ensures n.closed
    ensures action == DismissActionName ==> outcome == NoOp && !enumerated
    ensures action != DismissActionName ==> enumerated
    ensures outcome.Focus? ==> IsFirstMatch(host.clients, ClickTarget(n.dataUrl), outcome.index)
    ensures outcome.Open? ==> outcome.url == ClickTarget(n.dataUrl) && host.canOpenWindow
    ensures action != DismissActionName && !NoMatch(host.clients, ClickTarget(n.dataUrl)) ==> outcome.Focus?
    ensures action != DismissActionName && NoMatch(host.clients, ClickTarget(n.dataUrl)) ==>
      outcome == (if host.canOpenWindow then Open(ClickTarget(n.dataUrl)) else NoOp)
  {
    n.Close();
    if action == DismissActionName {
      return NoOp, false;
    }
    var target := ClickTarget(n.dataUrl);
    var found := FindClient(host.clients, target);
    if found.Some? {
      return Focus(found.value), true;
    }
    if host.canOpenWindow {
      return Open(target), true;
    }
    return NoOp, true;
  }

  /** The first match is unique, so the focused client is determined by the host's order. */
  lemma FirstMatchUnique(clients: seq<Client>, target: string, i: nat, k: nat)
    requires IsFirstMatch(clients, target, i) && IsFirstMatch(clients, target, k)
    ensures i == k
  {
  }

  /**
   A click on a notification built from a payload leads to the page the
   payload's `actionUrl` names, or to the fallback page.
   */
  lemma BuiltClickTarget(p: Payload)
    ensures ClickTarget(Some(Build(p).1.data.url)) == Or(p.ActionUrl(), FallbackUrl)
  {
  }

  /**
   A focusable tab whose address is the target page with anything before it
   (scheme and host) and anything after it (a query string) matches the target.
   */
  lemma {:induction false} TabAroundTargetMatches(origin: string, target: string, query: string)
    ensures Matches(Client(origin + target + query, true), target)
  {
    var url := origin + target + query;
    assert url[|origin|..|origin| + |target|] == target;
    assert OccursAt(url, target, |origin|);
    IncludesIffOccurs(url, target);
  }
}
