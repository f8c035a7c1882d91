/**
 * The worker's event handlers over abstract browser state. The hostname test,
 * the clock, the network and JSON parsing are parameters: `isAppSubdomain`,
 * `now`, the `fetch` and `network` outcomes, and `PushData`.
 */
module Worker {
  import opened Js
  import opened Paths
  import opened CacheStore
  import opened NotificationOptions
  import opened Host

  // ---------------------------------------------------------------------------
  // install and activate

  /** The install handler: open the current cache and add the manifest. `fetch`
      gives the network's answer per URL; `addAll` stores all of them or, when
      one request fails, none. */
  method OnInstall(caches: CacheStorage, isAppSubdomain: bool, fetch: string -> Option<Response>)
    returns (added: bool)
    requires caches.Valid()
    modifies caches
    ensures caches.Valid()
    ensures added <==> forall f :: f in FilesToCache(isAppSubdomain) ==> fetch(f).Some?
    ensures caches.names == if CacheName in old(caches.stores) then old(caches.names) else old(caches.names) + [CacheName]
    ensures caches.stores.Keys == old(caches.stores).Keys + {CacheName}
    ensures forall n :: n in old(caches.stores) && n != CacheName ==> caches.stores[n] == old(caches.stores)[n]
    ensures var before := if CacheName in old(caches.stores) then old(caches.stores)[CacheName] else map[];
      caches.stores[CacheName] == if added then before + FetchedEntries(FilesToCache(isAppSubdomain), fetch) else before
  {
    var filesToCache := FilesToCache(isAppSubdomain);
    caches.Open(CacheName);
    added := caches.AddAll(CacheName, filesToCache, fetch);
  }

  /** The activate handler: delete every store whose name is not `CacheName`.
      Returns the names it deleted. */
  method OnActivate(caches: CacheStorage) returns (deleted: seq<string>)
    requires caches.Valid()
    modifies caches
    ensures caches.Valid()
    ensures deleted == StaleNames(old(caches.names))
    ensures caches.names == if CacheName in old(caches.stores) then [CacheName] else []
    ensures caches.stores == if CacheName in old(caches.stores)
                             then map[CacheName := old(caches.stores)[CacheName]]
                             else map[]
  {
    var cacheNames := caches.names;
    deleted := StaleNames(cacheNames);
    DeleteAll(caches, deleted);
    OnlyCurrentSurvives(cacheNames, Elements(deleted));
    assert caches.stores.Keys <= {CacheName};
  }

  /** Deletes every store named in `gone`, one deletion at a time; names that
      name no store are skipped. */
  method DeleteAll(caches: CacheStorage, gone: seq<string>)
    requires caches.Valid()
    modifies caches
    ensures caches.Valid()
    ensures caches.names == Without(old(caches.names), Elements(gone))
    ensures caches.stores.Keys == old(caches.stores).Keys - Elements(gone)
    ensures forall n :: n in caches.stores ==> caches.stores[n] == old(caches.stores)[n]
  {
    var i := 0;
    WithoutNone(caches.names);
    ElementsAll(gone);
    while i < |gone|
      invariant 0 <= i <= |gone|
      invariant caches.Valid()
      invariant caches.names == Without(old(caches.names), Elements(gone[..i]))
      invariant caches.stores.Keys == old(caches.stores).Keys - Elements(gone[..i])
      invariant forall n :: n in caches.stores ==> caches.stores[n] == old(caches.stores)[n]
    {
      var existed := caches.Delete(gone[i]);
      WithoutTwice(old(caches.names), Elements(gone[..i]), gone[i]);
      ElementsGrow(gone, i);
      i := i + 1;
    }
  }

  // ---------------------------------------------------------------------------
  // fetch

  /** What `fetch(event.request)` did: a response (whatever its status) or a rejection. */
  datatype NetworkResult = Fetched(response: Response) | NetworkError

  /** The handler's effect on one request: left to the browser, or answered
      with a response; `RespondWith(None)` is `caches.match` finding nothing. */
  datatype Route = NotIntercepted | RespondWith(response: Option<Response>)

  /** The fetch routing: only navigations are intercepted; the network answer
      wins, and on a network failure the cached offline page is served. */
  function RouteFetch(mode: string, network: NetworkResult, offline: Option<Response>): (r: Route)
    ensures r.NotIntercepted? <==> mode != "navigate"
    ensures r.RespondWith? && network.Fetched? ==> r.response == Some(network.response)
    ensures r.RespondWith? && network.NetworkError? ==> r.response == offline
  {
    if mode == "navigate" then
      match network
      case Fetched(response) => RespondWith(Some(response))
      case NetworkError => RespondWith(offline)
    else NotIntercepted
  }

  /** The fetch handler against the cache storage: the fallback is `caches.match(OFFLINE_URL)`. */
  function OnFetch(caches: CacheStorage, isAppSubdomain: bool, mode: string, network: NetworkResult): (r: Route)
    reads caches
    requires caches.Valid()
    ensures r.NotIntercepted? <==> mode != "navigate"
    ensures mode == "navigate" && network.Fetched? ==> r == RespondWith(Some(network.response))
    ensures mode == "navigate" && network.NetworkError? ==>
            r == RespondWith(MatchIn(caches.names, caches.stores, OfflineUrl(isAppSubdomain)))
    ensures mode == "navigate" && network.NetworkError? && caches.names == [CacheName]
            && OfflineUrl(isAppSubdomain) in caches.stores[CacheName]
            ==> r == RespondWith(Some(caches.stores[CacheName][OfflineUrl(isAppSubdomain)]))
    ensures mode == "navigate" && network.NetworkError?
            && (forall n :: n in caches.stores ==> OfflineUrl(isAppSubdomain) !in caches.stores[n])
            ==> r == RespondWith(None)
  {
    RouteFetch(mode, network, caches.Match(OfflineUrl(isAppSubdomain)))
  }

  /** A storage left by an earlier worker version: one cache, `oldName`, holding `stale` at `url`. */
  method OldGeneration(oldName: string, url: string, stale: Response) returns (caches: CacheStorage)
    ensures fresh(caches) && caches.Valid()
    ensures caches.names == [oldName] && caches.stores == map[oldName := map[url := stale]]
  {
    caches := new CacheStorage();
    caches.Open(oldName);
    caches.Put(oldName, url, stale);
  }

  /** A storage after an upgrade has installed: an older generation's cache,
      created first, holds `stale` as the offline page, and the current cache
      holds the freshly fetched manifest. */
  method InstallOverOldGeneration(isAppSubdomain: bool, oldName: string, stale: Response,
                                  fetch: string -> Option<Response>)
    returns (caches: CacheStorage)
    requires oldName != CacheName
    requires forall f :: f in FilesToCache(isAppSubdomain) ==> fetch(f).Some?
    ensures fresh(caches) && caches.Valid()
    ensures caches.names == [oldName, CacheName]
    ensures var offline := OfflineUrl(isAppSubdomain);
      && offline in caches.stores[oldName] && caches.stores[oldName][offline] == stale
      && offline in caches.stores[CacheName] && caches.stores[CacheName][offline] == fetch(offline).value
  {
    var offline := OfflineUrl(isAppSubdomain);
    caches := OldGeneration(oldName, offline, stale);
    ghost var previous := caches.stores[oldName];
    var added := OnInstall(caches, isAppSubdomain, fetch);
    assert caches.names == [oldName, CacheName];
    assert caches.stores[oldName] == previous;
    assert offline in FilesToCache(isAppSubdomain);
  }

  /** The offline fallback across an upgrade, with the network down. Between this
      worker's install and its activation, navigations are handled by the
      previous worker; `beforeActivate` is what the same fetch handler answers
      on the storage as install left it, where `caches.match` finds the older
      generation's copy first. After activation this worker's handler serves
      the offline page this install stored. */
  method OfflineAfterUpgrade(isAppSubdomain: bool, oldName: string, stale: Response,
                             fetch: string -> Option<Response>)
    returns (beforeActivate: Route, afterActivate: Route)
    requires oldName != CacheName
    requires forall f :: f in FilesToCache(isAppSubdomain) ==> fetch(f).Some?
    ensures beforeActivate == RespondWith(Some(stale))
    ensures afterActivate == RespondWith(Some(fetch(OfflineUrl(isAppSubdomain)).value))
  {
    var offline := OfflineUrl(isAppSubdomain);
    var caches := InstallOverOldGeneration(isAppSubdomain, oldName, stale, fetch);
    MatchInFirst(caches.names, caches.stores, offline, 0);
    beforeActivate := OnFetch(caches, isAppSubdomain, "navigate", NetworkError);
    ghost var current := caches.stores[CacheName];
    var deleted := OnActivate(caches);
    assert caches.names == [CacheName] && caches.stores[CacheName] == current;
    afterActivate := OnFetch(caches, isAppSubdomain, "navigate", NetworkError);
  }

  // ---------------------------------------------------------------------------
  // push and message

  /** The push handler: shows the notification PushRequest describes, if any. */
  method OnPush(center: NotificationCenter, isAppSubdomain: bool, data: Option<PushData>, now: nat)
    returns (shown: Option<Notification>)
    requires center.Valid()
    modifies center
    ensures center.Valid()
    ensures PushRequest(isAppSubdomain, data, now).None? ==>
      shown == None && center.active == old(center.active) && center.nextId == old(center.nextId)
    ensures PushRequest(isAppSubdomain, data, now).Some? ==>
      var request := PushRequest(isAppSubdomain, data, now).value;
      && shown == Some(Notification(old(center.nextId), request.title, request.options))
      && center.active == old(center.active) + [shown.value]
      && center.nextId == old(center.nextId) + 1
  {
    var request := PushRequest(isAppSubdomain, data, now);
    if request.Some? {
      var n := center.Show(request.value.title, request.value.options);
      shown := Some(n);
    } else {
      shown := None;
    }
  }

  /** CLEAR_NOTIFICATIONS: close every notification `getNotifications()` lists. */
  method ClearNotifications(center: NotificationCenter)
    requires center.Valid()
    modifies center
    ensures center.Valid()
    ensures center.active == [] && center.nextId == old(center.nextId)
  {
    var notifications := center.active;
    var i := 0;
    while i < |notifications|
      invariant 0 <= i <= |notifications|
      invariant center.Valid()
      invariant center.active == notifications[i..]
      invariant center.nextId == old(center.nextId)
    {
      WithoutFirst(notifications[i..]);
      center.Close(notifications[i].id);
      assert notifications[i..][1..] == notifications[i + 1..];
      i := i + 1;
    }
  }

  /** The message handler. */
  method OnMessage(center: NotificationCenter, isAppSubdomain: bool, data: Value, now: nat)
    returns (action: Action)
    requires center.Valid()
    modifies center
    ensures center.Valid()
    ensures action == MessageAction(isAppSubdomain, data, now)
    ensures action.Show? ==>
      && center.active == old(center.active) + [Notification(old(center.nextId), action.request.title, action.request.options)]
      && center.nextId == old(center.nextId) + 1
    ensures action.ClearAll? ==> center.active == [] && center.nextId == old(center.nextId)
    ensures action.Ignore? || action.Fault? ==>
      center.active == old(center.active) && center.nextId == old(center.nextId)
  {
    action := MessageAction(isAppSubdomain, data, now);
    match action
    case Show(request) =>
      var n := center.Show(request.title, request.options);
    case ClearAll =>
      ClearNotifications(center);
    case Ignore =>
    case Fault =>
  }

  // ---------------------------------------------------------------------------
  // notificationclick

  /** The URL a click leads to: the notification data's `url` field when the
      data is an object whose `url` is truthy, and the site root otherwise. */
  function ClickTarget(n: Notification): (r: Value)
    ensures Truthy(r)
    ensures !NotificationData(n).Obj? ==> r == Str("/")
    ensures var d := NotificationData(n);
      d.Obj? ==> r == if "url" in d.fields && Truthy(d.fields["url"]) then d.fields["url"] else Str("/")
  {
    Or(OptionalProp(NotificationData(n), "url"), Str("/"))
  }

  /** The loop over `clientList`: the index of the first client that can be focused. */
  method FirstFocusable(clientList: seq<Client>) returns (k: Option<nat>)
    ensures k.Some? ==> k.value < |clientList| && clientList[k.value].focusable
    ensures k.Some? ==> forall j :: 0 <= j < k.value ==> !clientList[j].focusable
    ensures k.None? ==> forall j :: 0 <= j < |clientList| ==> !clientList[j].focusable
  {
    for i := 0 to |clientList|
      invariant forall j :: 0 <= j < i ==> !clientList[j].focusable
    {
      if clientList[i].focusable {
        return Some(i);
      }
    }
    return None;
  }

  /** The click handler: close the notification, then focus the first focusable
      window or, when there is none, open one at the target. Returns the target
      and the index of the focused window. */
  method OnNotificationClick(center: NotificationCenter, clients: ClientRegistry, clicked: Notification)
    returns (target: Value, focusedAt: Option<nat>)
    requires center.Valid() && clients.Valid()
    modifies center, clients
    ensures center.Valid() && clients.Valid()
    ensures center.active == WithoutId(old(center.active), clicked.id) && center.nextId == old(center.nextId)
    ensures target == ClickTarget(clicked)
    ensures focusedAt.Some? ==>
      var k := focusedAt.value;
      && k < |old(clients.windows)| && old(clients.windows)[k].focusable
      && (forall j :: 0 <= j < k ==> !old(clients.windows)[j].focusable)
      && clients.windows == old(clients.windows)
      && clients.focused == Some(old(clients.windows)[k].id)
      && clients.nextId == old(clients.nextId)
    ensures focusedAt.None? ==>
      && (forall j :: 0 <= j < |old(clients.windows)| ==> !old(clients.windows)[j].focusable)
      && clients.windows == old(clients.windows) + [Client(old(clients.nextId), target, true)]
      && clients.focused == old(clients.focused)
      && clients.nextId == old(clients.nextId) + 1
  {
    center.Close(clicked.id);
    target := ClickTarget(clicked);
    var clientList := clients.windows;
    focusedAt := FirstFocusable(clientList);
    if focusedAt.Some? {
      clients.Focus(focusedAt.value);
    } else {
      var window := clients.OpenWindow(target);
    }
  }

  /** Clicking a notification whose data carries `url: "/foo"` with no focusable
      window open opens exactly one window, at "/foo". */
  method ClickOpensTarget(existing: seq<Client>, next: nat) returns (after: seq<Client>)
    requires forall j :: 0 <= j < |existing| ==> !existing[j].focusable
    requires forall j :: 0 <= j < |existing| ==> existing[j].id < next
    ensures |after| == |existing| + 1 && after[..|existing|] == existing
    ensures after[|existing|].url == Str("/foo")
  {
    var center := new NotificationCenter();
    var n := center.Show(Str("Hi"), map["data" := Obj(map["url" := Str("/foo")])]);
    var clients := new ClientRegistry(existing, next);
    var target, focusedAt := OnNotificationClick(center, clients, n);
    after := clients.windows;
  }
}
