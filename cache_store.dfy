/**
 * The browser's cache storage as the worker sees it: named cache stores kept
 * in creation order, each mapping a request URL to a stored response, and the
 * name filtering that generational invalidation is built on.
 */
module CacheStore {
  import opened Js

  /** A stored response; its contents are opaque to the worker. */
  datatype Response = Response(url: string, status: int, body: string)

  /** `CACHE_NAME`: the current generation. */
  const CacheName: string := "everall-cache-v1"

  predicate Distinct(names: seq<string>) {
    forall i, j :: 0 <= i < j < |names| ==> names[i] != names[j]
  }

  /** The names not in `gone`, in their original order. */
  function Without(names: seq<string>, gone: set<string>): (r: seq<string>)
    ensures forall n :: n in r <==> n in names && n !in gone
    ensures |r| <= |names|
  {
    if names == [] then []
    else if names[0] in gone then Without(names[1..], gone)
    else [names[0]] + Without(names[1..], gone)
  }

  /** The names activation deletes: every name except the current generation's, in order. */
  function StaleNames(names: seq<string>): (r: seq<string>)
    ensures forall n :: n in r <==> n in names && n != CacheName
    ensures CacheName !in r
  {
    Without(names, {CacheName})
  }

  function Elements(s: seq<string>): set<string> {
    set n | n in s
  }

  lemma ElementsGrow(s: seq<string>, i: nat)
    requires i < |s|
    ensures Elements(s[..i + 1]) == Elements(s[..i]) + {s[i]}
  {
  }

  lemma ElementsAll(s: seq<string>)
    ensures Elements(s[..|s|]) == Elements(s) && Elements(s[..0]) == {}
  {
  }

  lemma {:induction false} WithoutKeepsDistinct(names: seq<string>, gone: set<string>)
    requires Distinct(names)
    ensures Distinct(Without(names, gone))
  {
    if names != [] {
      assert Distinct(names[1..]);
      WithoutKeepsDistinct(names[1..], gone);
      assert names[0] !in names[1..];
    }
  }

  lemma {:induction false} WithoutNone(names: seq<string>)
    ensures Without(names, {}) == names
  {
    if names != [] {
      WithoutNone(names[1..]);
    }
  }

  /** Removing names one by one is removing them all at once. */
  lemma {:induction false} WithoutTwice(names: seq<string>, gone: set<string>, x: string)
    ensures Without(Without(names, gone), {x}) == Without(names, gone + {x})
  {
    if names != [] {
      WithoutTwice(names[1..], gone, x);
    }
  }

  /** Filtering out every name but the current one leaves at most the current one. */
  lemma {:induction false} OnlyCurrentSurvives(names: seq<string>, gone: set<string>)
    requires Distinct(names)
    requires forall n :: n in names ==> (n in gone <==> n != CacheName)
    ensures Without(names, gone) == if CacheName in names then [CacheName] else []
  {
    if names != [] {
      assert Distinct(names[1..]);
      OnlyCurrentSurvives(names[1..], gone);
      if names[0] == CacheName {
        assert CacheName !in names[1..];
      } else {
        assert CacheName in names <==> CacheName in names[1..];
      }
    }
  }

  /** After the stale names are removed, a second filtering finds nothing stale. */
  lemma PurgeIsIdempotent(names: seq<string>)
    requires Distinct(names)
    ensures StaleNames(Without(names, Elements(StaleNames(names)))) == []
  {
    OnlyCurrentSurvives(names, Elements(StaleNames(names)));
    assert StaleNames([CacheName]) == [];
  }

  /** `caches.match(url)`: the response stored under `url` in the first store,
      in creation order, that has one. */
  function MatchIn(names: seq<string>, stores: map<string, map<string, Response>>, url: string): (r: Option<Response>)
    requires forall n :: n in names ==> n in stores
    ensures r.Some? <==> exists n :: n in names && url in stores[n]
    ensures r.Some? ==> exists n :: n in names && url in stores[n] && r.value == stores[n][url]
  {
    if names == [] then None
    else if url in stores[names[0]] then Some(stores[names[0]][url])
    else
      assert forall n :: n in names ==> n == names[0] || n in names[1..];
      MatchIn(names[1..], stores, url)
  }

  /** The earliest store holding `url` wins, whatever the later ones hold. */
  lemma {:induction false} MatchInFirst(names: seq<string>, stores: map<string, map<string, Response>>, url: string, i: nat)
    requires forall n :: n in names ==> n in stores
    requires i < |names| && url in stores[names[i]]
    requires forall j :: 0 <= j < i ==> url !in stores[names[j]]
    ensures MatchIn(names, stores, url) == Some(stores[names[i]][url])
  {
    if i > 0 {
      MatchInFirst(names[1..], stores, url, i - 1);
    }
  }

  /** The responses stored when every request is answered. */
  function FetchedEntries(requests: seq<string>, fetch: string -> Option<Response>): (r: map<string, Response>)
    requires forall f :: f in requests ==> fetch(f).Some?
    ensures r.Keys == Elements(requests)
    ensures forall f :: f in requests ==> r[f] == fetch(f).value
  {
    map f | f in requests :: fetch(f).value
  }

  class CacheStorage {
    /** Store names, in creation order (what `caches.keys()` lists). */
    var names: seq<string>
    /** The contents of each store. */
    var stores: map<string, map<string, Response>>

    ghost predicate Valid()
      reads this
    {
      Distinct(names) && forall n :: n in names <==> n in stores
    }

    constructor ()
      ensures Valid() && names == [] && stores == map[]
    {
      names := [];
      stores := map[];
    }

    /** `caches.open(name)`: creates an empty store if there is none. */
    method Open(name: string)
      requires Valid()
      modifies this
      ensures Valid()
      ensures names == if name in old(stores) then old(names) else old(names) + [name]
      ensures stores == if name in old(stores) then old(stores) else old(stores)[name := map[]]
    {
      if name !in stores {
        names := names + [name];
        stores := stores[name := map[]];
      }
    }

    /** `cache.addAll(requests)`: fetches every request and stores the
        responses, or, when one fetch fails, stores nothing and reports failure. */
    method AddAll(name: string, requests: seq<string>, fetch: string -> Option<Response>) returns (ok: bool)
      requires Valid() && name in stores
      modifies this
      ensures Valid() && names == old(names)
      ensures ok <==> forall f :: f in requests ==> fetch(f).Some?
      ensures stores == if ok then old(stores)[name := old(stores)[name] + FetchedEntries(requests, fetch)]
                        else old(stores)
    {
      ok := forall f | f in requests :: fetch(f).Some?;
      if ok {
        stores := stores[name := stores[name] + FetchedEntries(requests, fetch)];
      }
    }

    /** Stores `response` under `url` in the named store, replacing any earlier entry. */
    method Put(name: string, url: string, response: Response)
      requires Valid() && name in stores
      modifies this
      ensures Valid() && names == old(names)
      ensures stores == old(stores)[name := old(stores)[name][url := response]]
    {
      stores := stores[name := stores[name][url := response]];
    }

    /** `caches.delete(name)`: reports whether the store existed. */
    method Delete(name: string) returns (existed: bool)
      requires Valid()
      modifies this
      ensures Valid()
      ensures existed == (name in old(stores))
      ensures names == Without(old(names), {name})
      ensures stores == old(stores) - {name}
    {
      existed := name in stores;
      WithoutKeepsDistinct(names, {name});
      names := Without(names, {name});
      stores := stores - {name};
    }

    function Match(url: string): (r: Option<Response>)
      reads this
      requires Valid()
      ensures r.Some? <==> exists n :: n in stores && url in stores[n]
    {
      MatchIn(names, stores, url)
    }
  }
}
