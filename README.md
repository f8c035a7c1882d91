# Dashboard service worker, modelled in Dafny

This project models the decision logic of the dashboard's service worker
(`sw.js`). The worker:

- pre-caches the offline page and two notification assets when it installs;
- deletes every cache whose name is not the current generation's `everall-cache-v1` when it activates, whoever created it;
- answers page navigations from the network, falling back to the cached offline page;
- turns push messages and page messages into notifications;
- on a notification click, focuses an open window or opens a new one.

Browser state is modelled as classes whose methods change it in place:

- `CacheStore.CacheStorage`: named cache stores, in creation order.
- `Host.NotificationCenter`: the displayed notifications.
- `Host.ClientRegistry`: the window clients.

The pure parts are functions and lemmas:

- `Paths`: path resolution and the asset manifest.
- `NotificationOptions`: building the notification options by object spread and `||` defaults.
- `Js`: the fragment of JavaScript value semantics those parts rely on (truthiness, `||`, property access, `?.`, spread of objects, arrays and strings).

Module layout:

| module | file | contents |
|---|---|---|
| `Js` | js.dfy | `Value`, `Truthy`, `Or`, `Prop`, `OptionalProp`, `Spread`, `Merge` |
| `Paths` | paths.dfy | `ResolvePath`, `OfflineUrl`, the pre-cache list |
| `CacheStore` | cache_store.dfy | the `CacheStorage` class, name filtering, `caches.match` order |
| `NotificationOptions` | notification_options.dfy | push and message option building, message dispatch |
| `Host` | host.dfy | the `NotificationCenter` and `ClientRegistry` classes |
| `Worker` | worker.dfy | the six event handlers (install, activate, fetch, push, message, notification click), and upgrade and click scenarios |

Two members exist only to build the storage of the upgrade scenario and model no line of the worker: `CacheStore.CacheStorage.Put` writes one entry, and `Worker.OldGeneration` builds a storage left by an older version.

The environment is passed in as parameters:

- `isAppSubdomain` is the hostname test.
- `now` stands for `Date.now()`.
- `fetch` gives each URL's network outcome at install.
- `NetworkResult` is a navigation's outcome.
- `PushData` is the result of `event.data.json()`.

The two option merges have opposite precedence, and `OppositePrecedence` proves it for every object payload that carries its own icon, badge and a truthy timestamp:

- **Push.** The payload is spread first, then `icon` and `badge` are overwritten. `timestamp` is kept only when it is truthy.
- **`SHOW_NOTIFICATION` message.** The payload is spread last, so it overrides every default.

## Model

| member | source | states |
|---|---|---|
| `Paths.ResolvePath` | sw.js:6-8 | off the app subdomain the path is unchanged; on it, a path starting with "/dashboard" loses exactly that prefix and any other path is unchanged; the result is always a suffix of the input and never longer |
| `Paths.ResolvePathStripsOnce` | sw.js:7 | the prefix is removed once and only at the start: "/dashboard/dashboard/x" becomes "/dashboard/x", "/dashboardx" becomes "x", "/app/dashboard/x" is unchanged |
| `Paths.ResolvePathUndoesPrefix` | sw.js:7 | on the app subdomain, resolving "/dashboard" + p gives back p for every p |
| `Paths.ResolvePathNotIdempotent` | sw.js:7 | resolving twice differs from resolving once on a doubled prefix |
| `Paths.AssetUrls` | sw.js:9-17 | the offline page, logo and badge resolve to "/offline.html", "/logoLight.png", "/badge.ico" on the app subdomain and keep "/dashboard" elsewhere |
| `Paths.OfflineUrl` | sw.js:9 | `OFFLINE_URL` is the offline page with "/dashboard" removed on the app subdomain and unchanged elsewhere |
| `Paths.IconUrl` | sw.js:58 | the notification icon is the logo path with "/dashboard" removed on the app subdomain and unchanged elsewhere |
| `Paths.BadgeUrl` | sw.js:59 | the notification badge is the badge path with "/dashboard" removed on the app subdomain and unchanged elsewhere |
| `Paths.FilesToCache` | sw.js:13-17 | the pre-cache list is "/offline.html", "/logoLight.png", "/badge.ico" on the app subdomain and the same paths under "/dashboard" elsewhere, in that order |
| `Paths.ManifestShape` | sw.js:9-17 | the list has three distinct non-empty entries and its first entry is `OFFLINE_URL` |
| `Js.Or` | sw.js:60 | the logical or of `a` and `b` is `a` when `a` is truthy and `b` otherwise; the result is truthy iff either operand is |
| `Js.FalsyValues` | sw.js:53-64 | a value is falsy exactly when it is undefined, null, false, zero or the empty string |
| `Js.Prop` | sw.js:60 | property access throws exactly on null and undefined, reads an object's field or undefined, and gives undefined on other primitives for the names the worker reads |
| `Js.OptionalProp` | sw.js:94 | `v?.k` is undefined on null and undefined and is `v.k` otherwise |
| `Js.Merge` | sw.js:56-61 | `{...base, ...over}` has the union of the keys; `over` wins where both have a key |
| `Js.Spread` | sw.js:57 | spreading an object copies its own fields; an array copies element i under key `Decimal(i)`; a string copies character i under key `Decimal(i)`; numbers, booleans, null and undefined copy nothing |
| `Js.Indexed` | sw.js:57 | spreading an array-like value puts element i under key `Decimal(i)`, and under no other key |
| `Js.DecimalInjective` | sw.js:57 | distinct indices spread under distinct keys |
| `Js.ParseDecimalOfDecimal` | sw.js:57 | reading an index key back gives the index |
| `Js.SpreadKeys` | sw.js:57 | every key that spreading anything but an object produces is a digit string |
| `CacheStore.StaleNames` | sw.js:33-34 | the filter keeps exactly the names other than `CACHE_NAME`, so the current cache is never deleted |
| `CacheStore.Without` | sw.js:33-35 | the names not in the removed set remain, and only those |
| `CacheStore.WithoutTwice` | sw.js:35 | deleting the stale names one at a time leaves what deleting them all at once leaves |
| `CacheStore.WithoutKeepsDistinct` | sw.js:35 | deleting caches keeps the cache names distinct |
| `CacheStore.OnlyCurrentSurvives` | sw.js:31-35 | after every stale name is deleted, the remaining names are `[CACHE_NAME]` if it existed and `[]` otherwise |
| `CacheStore.PurgeIsIdempotent` | sw.js:31-35 | a second purge after the first finds no stale name to delete |
| `CacheStore.MatchIn` | sw.js:46 | `caches.match(url)` finds a response iff some store holds `url`, and the response is one such store's entry |
| `CacheStore.MatchInFirst` | sw.js:46 | the store created earliest that holds `url` supplies the response |
| `CacheStore.FetchedEntries` | sw.js:22 | the entries a successful `addAll` stores: one per request, each the fetched response |
| `CacheStore.CacheStorage.Open` | sw.js:21 | `caches.open` creates an empty store at the end of the creation order when none exists, and changes nothing otherwise |
| `CacheStore.CacheStorage.AddAll` | sw.js:22 | `cache.addAll` stores every fetched response when all fetches succeed and stores nothing when one fails; it reports which |
| `CacheStore.CacheStorage.Delete` | sw.js:35 | `caches.delete` removes exactly that store, reports whether it existed, and keeps the others in order |
| `CacheStore.CacheStorage.Match` | sw.js:46 | a lookup succeeds iff some store holds the URL |
| `Worker.OnInstall` | sw.js:11-26 | after install the current cache exists; it gains the freshly fetched manifest responses exactly when every fetch succeeded, and otherwise keeps what it held; other caches are untouched |
| `Worker.DeleteAll` | sw.js:32-36 | deleting a list of names removes exactly those stores, keeps the remaining ones unchanged and in order |
| `Worker.OnActivate` | sw.js:28-40 | activation deletes exactly the stale names and leaves only the current cache (if it existed) with its contents unchanged |
| `Worker.RouteFetch` | sw.js:43-47 | only navigations are intercepted; a network response is passed through; on a network failure the cached fallback is the answer |
| `Worker.OnFetch` | sw.js:42-50 | a non-navigation request is never intercepted. A navigation the network answers gets that response. A failed navigation gets what `caches.match(OFFLINE_URL)` finds in creation order: after activation, the offline page stored in the current cache; no response when no cache holds it |
| `Worker.InstallOverOldGeneration` | sw.js:20-23 | installing over an older generation adds the current cache after it, with the freshly fetched offline page, and leaves the old copy in place |
| `Worker.OfflineAfterUpgrade` | sw.js:20-47 | with the network down, the fetch handler run on the storage as install left it (which is what the previous worker, with the same handler, sees until this one activates) finds the older generation's offline page first, because `caches.match` searches in creation order; after activation this worker serves the offline page this install stored |
| `NotificationOptions.PushRequest` | sw.js:52-71 | a push shows a notification iff it carries data that parses to a non-null value. The title is `data.title` when truthy, else "New Notification". Icon and badge are always the resolved defaults. Timestamp is `data.timestamp` when truthy, else now. Every other payload field is kept |
| `NotificationOptions.PushObjectWithoutTimestamp` | sw.js:56-64 | an object push payload with no timestamp gets its truthy title or the default one, the resolved icon and badge, the current time, and keeps every other field |
| `NotificationOptions.MessageField` | sw.js:74 | destructuring the message data, or `{}` when it is falsy, reads a field of an object and undefined for any other or missing data |
| `NotificationOptions.MessageAction` | sw.js:73-90 | `SHOW_NOTIFICATION` shows `payload.title` with the payload's fields over the defaults; a null or undefined payload throws; `CLEAR_NOTIFICATIONS` clears; any other type does nothing |
| `NotificationOptions.MessageWithoutDataIsIgnored` | sw.js:74-75 | a message with missing or falsy data does nothing |
| `NotificationOptions.OppositePrecedence` | sw.js:56-82 | the same payload keeps its own icon and badge as a message and loses them to the defaults as a push; its truthy timestamp is kept by both |
| `NotificationOptions.ArrayLikePushUsesDefaultTitle` | sw.js:56-64 | a string or array push payload gets the default title and the current time, and the options carry no title |
| `NotificationOptions.PushTitleOnly` | sw.js:56-64 | a push of `{"title": t}` with non-empty `t` (such as "Hi") gives title `t`, non-empty icon and badge, timestamp now, and keeps the title option |
| `Host.NotificationData` | sw.js:94 | a notification's data is the `data` option it was shown with, and null when none was given or the option is undefined |
| `Host.WithoutId` | sw.js:86 | closing one notification removes exactly it |
| `Host.WithoutAbsentId` | sw.js:93 | closing a notification that is not displayed changes nothing |
| `Host.WithoutFirst` | sw.js:86 | closing the oldest notification leaves the rest in display order |
| `Host.WithoutIdAscending` | sw.js:86 | closing a notification keeps the display order |
| `Host.NotificationCenter.Show` | sw.js:63-66 | `showNotification` appends one new notification with the given title and options |
| `Host.NotificationCenter.Close` | sw.js:93 | `notification.close()` removes that notification and keeps the rest in order |
| `Host.ClientRegistry.Focus` | sw.js:101 | `client.focus()` focuses that client and opens nothing |
| `Host.ClientRegistry.OpenWindow` | sw.js:104 | `clients.openWindow(url)` adds exactly one new window at `url` |
| `Worker.OnPush` | sw.js:52-71 | the push handler shows exactly the notification `PushRequest` describes, or leaves the notifications unchanged when it describes none |
| `Worker.ClearNotifications` | sw.js:84-87 | closing every listed notification one by one leaves none displayed |
| `Worker.OnMessage` | sw.js:73-90 | the message handler's effect is `MessageAction`'s: one notification appended, all cleared, or nothing changed |
| `Worker.ClickTarget` | sw.js:94 | the target is always truthy. It is `data.url` when the data is an object with a truthy `url`. It is "/" when the data is not an object (missing, null, a string, number, boolean or array) or its url is falsy |
| `Worker.FirstFocusable` | sw.js:99-103 | the loop returns the index of the first focusable client, or none when no client is focusable |
| `Worker.OnNotificationClick` | sw.js:92-107 | the clicked notification is closed. If a listed client can be focused, the first such client is focused and no window opens. Otherwise exactly one window opens at the target, with a fresh identity; no notification identity is consumed |
| `Worker.ClickOpensTarget` | sw.js:92-107 | with no focusable window (and `next` above every existing identity), clicking a notification whose data has url "/foo" opens exactly one window, at "/foo", after the existing ones |

## Left out

- Lifecycle plumbing is not modelled, because it only manages promise lifetimes and worker activation: `event.waitUntil`, `event.respondWith`, `self.skipWaiting()` and `self.clients.claim()`.
- Asynchrony and concurrency are not modelled. Each handler runs to completion as one step, and the deletions that activation starts in parallel run one after another. The result is the same because each deletion touches a different store.
- The hostname test is not modelled: `isAppSubdomain` is a parameter.
- `Date.now()` is not modelled: `now` is a parameter.
- JSON parsing is not modelled. Its outcome is the `PushData` input: a parsed value or `Malformed`.
- Console logging is not modelled, because it has no effect on state.
- The `notificationclose` handler is not modelled, because it only logs.
- Numbers are exact reals. Floating-point rounding, NaN and infinities are not modelled, because the worker only tests numbers for truthiness and passes them on.
- Cache keys are the resolved path strings. Resolving them against the worker's origin into Request objects is not modelled.
- Response bodies, status handling and HTTP caching headers belong to the browser and are not modelled.
- `CacheStore.CacheStorage.AddAll`: the network is a `fetch` function from URL to an optional response. The model does not capture that `addAll` rejects duplicate requests (the manifest has none), nor that a response with an error status counts as a failure. The outcome is all-or-nothing, as the Cache API's `addAll` behaves. An entry-by-entry install that tolerates single failures would describe a different worker from the one in `sw.js`.
- `Host.NotificationCenter.Show`: notification permission, tags that replace an earlier notification, and platform limits on displayed notifications are not modelled; every call appends.
- `Host.ClientRegistry.Focus` and `Host.ClientRegistry.OpenWindow` record the effect only. Window contents, navigation and focus being refused are not modelled.
- `Worker.FirstFocusable`: the test `"focus" in client` is the client's `focusable` flag.
- `CacheStore.CacheStorage.Match` states only whether a lookup succeeds; the response and the order of search are given by `CacheStore.MatchIn`.
- `Js.Spread` and `Js.Chars`: strings are sequences of Unicode scalar values, not UTF-16 code units. Spreading a string in the model gives one key per scalar, while JavaScript gives one per code unit: a character outside the Basic Multilingual Plane spreads under two keys in JavaScript and one here.
- `Js.Prop` covers only the property names the worker reads (`title`, `timestamp`, `url`, `type`, `payload`), none of which strings, arrays, numbers or booleans have. General property lookup through prototypes is not modelled.
- A `SHOW_NOTIFICATION` message with a null or undefined payload throws a TypeError at `payload.title`. It is modelled as the `Fault` action, which changes nothing; what the browser does with the uncaught error is not modelled.
- A push whose data parses to JSON `null` throws at `data.timestamp`. The handler catches the error, so the model shows nothing, like a malformed payload.
