/**
 * The browser state the worker's handlers act on, besides cache storage:
 * the notifications the worker's registration is displaying and the window
 * clients of its origin.
 */
module Host {
  import opened Js

  /** A displayed notification; `id` stands for its identity as an object. */
  datatype Notification = Notification(id: nat, title: Value, options: map<string, Value>)

  /** The data a notification carries: its `data` option, or null when none was
      given or the option is undefined. */
  function NotificationData(n: Notification): (r: Value)
    ensures "data" in n.options && !n.options["data"].Undefined? ==> r == n.options["data"]
    ensures "data" !in n.options || n.options["data"].Undefined? ==> r == Null
  {
    if "data" in n.options && !n.options["data"].Undefined? then n.options["data"] else Null
  }

  predicate Ascending(ns: seq<Notification>) {
    forall i, j :: 0 <= i < j < |ns| ==> ns[i].id < ns[j].id
  }

  /** The notifications other than the one with identity `id`, in display order. */
  function WithoutId(ns: seq<Notification>, id: nat): (r: seq<Notification>)
    ensures forall n :: n in r <==> n in ns && n.id != id
    ensures |r| <= |ns|
  {
    if ns == [] then []
    else if ns[0].id == id then WithoutId(ns[1..], id)
    else [ns[0]] + WithoutId(ns[1..], id)
  }

  /** Closing a notification that is not displayed changes nothing. */
  lemma {:induction false} WithoutAbsentId(ns: seq<Notification>, id: nat)
    requires forall i :: 0 <= i < |ns| ==> ns[i].id != id
    ensures WithoutId(ns, id) == ns
  {
    if ns != [] {
      WithoutAbsentId(ns[1..], id);
    }
  }

  /** Closing the oldest displayed notification leaves the rest in order. */
  lemma WithoutFirst(ns: seq<Notification>)
    requires ns != [] && Ascending(ns)
    ensures WithoutId(ns, ns[0].id) == ns[1..]
  {
    WithoutAbsentId(ns[1..], ns[0].id);
  }

  lemma {:induction false} WithoutIdAscending(ns: seq<Notification>, id: nat)
    requires Ascending(ns)
    ensures Ascending(WithoutId(ns, id))
  {
    if ns != [] {
      WithoutIdAscending(ns[1..], id);
      var rest := WithoutId(ns[1..], id);
      forall n | n in rest
        ensures ns[0].id < n.id
      {
        var k :| 1 <= k < |ns| && ns[k] == n;
      }
    }
  }

  class NotificationCenter {
    /** The displayed notifications, oldest first (what `getNotifications()` lists). */
    var active: seq<Notification>
    /** The identity the next shown notification receives. */
    var nextId: nat

    ghost predicate Valid()
      reads this
    {
      Ascending(active) && forall i :: 0 <= i < |active| ==> active[i].id < nextId
    }

    constructor ()
      ensures Valid() && active == [] && nextId == 0
    {
      active := [];
      nextId := 0;
    }

    /** Displays a new notification with the given title and options, after the ones already shown. */
    method Show(title: Value, options: map<string, Value>) returns (n: Notification)
      requires Valid()
      modifies this
      ensures Valid()
      ensures n == Notification(old(nextId), title, options)
      ensures active == old(active) + [n]
      ensures nextId == old(nextId) + 1
    {
      n := Notification(nextId, title, options);
      active := active + [n];
      nextId := nextId + 1;
    }

    /** Dismisses the notification with identity `id`, if it is displayed. */
    method Close(id: nat)
      requires Valid()
      modifies this
      ensures Valid()
      ensures active == WithoutId(old(active), id)
      ensures nextId == old(nextId)
    {
      WithoutIdAscending(active, id);
      active := WithoutId(active, id);
    }
  }

  /** A window client. `focusable` is whether it has a `focus` method (`"focus" in client`). */
  datatype Client = Client(id: nat, url: Value, focusable: bool)

  class ClientRegistry {
    /** The window clients of the origin, controlled or not, in the order `matchAll` lists them. */
    var windows: seq<Client>
    /** The client last focused by the worker, if any. */
    var focused: Option<nat>
    /** The identity the next opened window receives. */
    var nextId: nat

    ghost predicate Valid()
      reads this
    {
      forall i :: 0 <= i < |windows| ==> windows[i].id < nextId
    }

    constructor (initial: seq<Client>, next: nat)
      requires forall i :: 0 <= i < |initial| ==> initial[i].id < next
      ensures Valid() && windows == initial && focused == None && nextId == next
    {
      windows := initial;
      focused := None;
      nextId := next;
    }

    /** Brings window `i` to the front; the set of windows does not change. */
    method Focus(i: nat)
      requires Valid() && i < |windows| && windows[i].focusable
      modifies this
      ensures Valid()
      ensures windows == old(windows) && nextId == old(nextId)
      ensures focused == Some(windows[i].id)
    {
      focused := Some(windows[i].id);
    }

    /** `clients.openWindow(url)`: a new window client at `url`. */
    method OpenWindow(url: Value) returns (c: Client)
      requires Valid()
      modifies this
      ensures Valid()
      ensures c == Client(old(nextId), url, true)
      ensures windows == old(windows) + [c]
      ensures focused == old(focused) && nextId == old(nextId) + 1
    {
      c := Client(nextId, url, true);
      windows := windows + [c];
      nextId := nextId + 1;
    }
  }
}
