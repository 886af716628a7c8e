/**
 * The door scanner's service worker (sw.js): the install handler pre-caches
 * a fixed list of assets under one version name, the activate handler
 * deletes every other cache, and the fetch handler leaves `/api/` requests to
 * the network and answers everything else from any cache, falling back to
 * the network.
 *
 * The browser's CacheStorage is a value `Storage` (cache names in creation
 * order, and each cache's entries by URL) held by the object `CacheStorage`
 * whose methods the handlers call.  `caches.open`, `cache.addAll`,
 * `caches.delete` and `caches.match` follow the Cache and CacheStorage
 * interfaces of the W3C Service Workers specification for requests keyed by
 * their exact URL, without `Vary` headers or match options; the network is a
 * map from URL to the response it would give, a missing URL being a failed
 * fetch.
 */
module ServiceWorker {
  import opened Wrappers
  import Checkin

  /** The name every cache of this deployment is stored under. */
  const CACHE_VERSION: string := "door-scanner-v1"

  /** The app shell, pre-cached at install. */
  const STATIC_ASSETS: seq<string> := [
    "./",
    "./index.html",
    "./app.js",
    "./styles.css",
    "./manifest.webmanifest",
    "https://unpkg.com/html5-qrcode@2.3.8/html5-qrcode.min.js"
  ]

  /** Requests whose path starts with this are never intercepted. */
  const API_PREFIX: string := "/api/"

  datatype Response = Response(status: int, body: string)

  /** `response.ok`. */
  predicate OkResponse(r: Response) {
    200 <= r.status <= 299
  }

  /** A request: its HTTP method, its URL (the cache key) and the URL's pathname. */
  datatype Request = Request(verb: string, url: string, pathname: string)

  /** One cache: responses by request URL. */
  type Entries = map<string, Response>

  /** The origin's CacheStorage: names in creation order, and the caches by name. */
  datatype Storage = Storage(names: seq<string>, caches: map<string, Entries>)

  const Empty: Storage := Storage([], map[])

  predicate Distinct(names: seq<string>) {
    forall i, j :: 0 <= i < j < |names| ==> names[i] != names[j]
  }

  /** Every name is listed once, and the listed names are exactly the caches. */
  predicate WellFormed(st: Storage) {
    && Distinct(st.names)
    && (forall n :: n in st.caches ==> n in st.names)
    && (forall i :: 0 <= i < |st.names| ==> st.names[i] in st.caches)
  }

  predicate StartsWith(s: string, prefix: string) {
    |prefix| <= |s| && s[..|prefix|] == prefix
  }

  // ---------------------------------------------------------------- fetch

  /** The `i`th cache is the first, in creation order, that holds `url`. */
  predicate FirstHolder(names: seq<string>, caches: map<string, Entries>, url: string, i: int)
    requires 0 <= i < |names|
  {
    && names[i] in caches && url in caches[names[i]]
    && forall j :: 0 <= j < i && names[j] in caches ==> url !in caches[names[j]]
  }

  /** The entry for `url` in the first cache, in creation order, that holds it. */
  function FirstMatch(names: seq<string>, caches: map<string, Entries>, url: string): (r: Option<Response>)
    ensures r.None? <==> forall i :: 0 <= i < |names| && names[i] in caches ==> url !in caches[names[i]]
    ensures forall i :: 0 <= i < |names| && FirstHolder(names, caches, url, i) ==> r == Some(caches[names[i]][url])
    decreases |names|
  {
    if names == [] then None
    else if names[0] in caches && url in caches[names[0]] then Some(caches[names[0]][url])
    else
      var r := FirstMatch(names[1..], caches, url);
      assert forall i :: 1 <= i < |names| ==> names[i] == names[1..][i - 1];
      r
  }

  /** `caches.match(request)`: only GET requests match, and the oldest cache holding the URL answers. */
  function MatchIn(st: Storage, req: Request): (r: Option<Response>)
    ensures req.verb != "GET" ==> r.None?
    ensures r.Some? <==>
      (req.verb == "GET" && exists i :: 0 <= i < |st.names| && st.names[i] in st.caches && req.url in st.caches[st.names[i]])
  {
    if req.verb != "GET" then None else FirstMatch(st.names, st.caches, req.url)
  }

  /** How the fetch handler disposes of a request. */
  datatype Disposition =
    | NotIntercepted               // no respondWith: the browser goes to the network
    | FromCache(response: Response)
    | FromNetwork                  // respondWith(fetch(request))

  /**
   * The fetch handler's decision.  It reads the storage and never writes it:
   * API requests are left alone, anything else is served cache-first.
   */
  function Route(st: Storage, req: Request): (d: Disposition)
    ensures d.NotIntercepted? <==> StartsWith(req.pathname, API_PREFIX)
    ensures d.FromCache? <==> !StartsWith(req.pathname, API_PREFIX) && MatchIn(st, req).Some?
    ensures d.FromCache? ==> MatchIn(st, req) == Some(d.response)
  {
    if StartsWith(req.pathname, API_PREFIX) then NotIntercepted
    else
      match MatchIn(st, req)
      case Some(cached) => FromCache(cached)
      case None => FromNetwork
  }

  /** Check-in requests always reach the server, whatever the caches hold. */
  lemma CheckinNeverFromCache(st: Storage, verb: string, url: string)
    ensures Route(st, Request(verb, url, Checkin.API_ENDPOINT)) == NotIntercepted
  {
    assert Checkin.API_ENDPOINT[..|API_PREFIX|] == API_PREFIX;
  }

  // ---------------------------------------------------------------- install

  /** `caches.open(name)`: the named cache, created empty after the others if missing. */
  function OpenCache(st: Storage, name: string): (t: Storage)
    ensures WellFormed(st) ==> WellFormed(t)
    ensures name in t.caches
    ensures name in st.caches ==> t == st
    ensures name !in st.caches ==> t.names == st.names + [name] && t.caches == st.caches[name := map[]]
  {
    if name in st.caches then st
    else Storage(st.names + [name], st.caches[name := map[]])
  }

  /**
   * What `cache.addAll(urls)` needs to resolve: no URL listed twice (two puts
   * of the same request in one batch are rejected), and every URL fetched with
   * an ok response other than 206 Partial Content.
   */
  predicate AddAllSucceeds(urls: seq<string>, network: map<string, Response>) {
    && Distinct(urls)
    && forall u :: u in urls ==> u in network && OkResponse(network[u]) && network[u].status != 206
  }

  /**
   * `cache.addAll(urls)` on the named cache: all-or-nothing.  If it cannot
   * succeed, nothing is stored and the promise rejects; otherwise every URL is
   * stored with its response, replacing any earlier entry for it, and the
   * cache's other entries stay as they were.
   */
  function CacheAddAll(st: Storage, name: string, urls: seq<string>, network: map<string, Response>): (r: (Storage, bool))
    requires name in st.caches
    ensures r.1 <==> AddAllSucceeds(urls, network)
    ensures !r.1 ==> r.0 == st
    ensures r.0.names == st.names && r.0.caches.Keys == st.caches.Keys
    ensures forall n :: n in st.caches && n != name ==> r.0.caches[n] == st.caches[n]
    ensures r.1 ==> forall u :: u in urls ==> u in r.0.caches[name] && r.0.caches[name][u] == network[u]
    ensures forall u :: u in r.0.caches[name] && u !in urls ==> u in st.caches[name] && r.0.caches[name][u] == st.caches[name][u]
    ensures forall u :: u in st.caches[name] && u !in urls ==> u in r.0.caches[name] && r.0.caches[name][u] == st.caches[name][u]
  {
    if AddAllSucceeds(urls, network) then
      var added := map u | u in urls :: network[u];
      (Storage(st.names, st.caches[name := st.caches[name] + added]), true)
    else (st, false)
  }

  /**
   * The install handler with cache name `version` and asset list `assets`:
   * open the cache, add every asset; the flag says whether skipWaiting was
   * reached, which happens only after addAll resolved.
   */
  function Install(st: Storage, version: string, assets: seq<string>, network: map<string, Response>): (r: (Storage, bool))
  {
    CacheAddAll(OpenCache(st, version), version, assets, network)
  }

  /**
   * Install is all-or-nothing: it succeeds exactly when addAll can, and then
   * every asset is in the versioned cache; when it fails no entry is stored
   * (only the cache opened, possibly new and empty, remains) and skipWaiting
   * is not reached.  Entries of the versioned cache for other URLs, and every
   * other cache, are kept either way, and no other entry appears.
   */
  lemma InstallAllOrNothing(st: Storage, version: string, assets: seq<string>, network: map<string, Response>)
    requires WellFormed(st)
    ensures var (t, ok) := Install(st, version, assets, network);
      && WellFormed(t)
      && (ok <==> AddAllSucceeds(assets, network))
      && (!ok ==> t == OpenCache(st, version) && (version in st.caches ==> t == st))
      && (ok ==> forall u :: u in assets ==> u in t.caches[version] && t.caches[version][u] == network[u])
      && (version in st.caches ==> forall u :: u in st.caches[version] && u !in assets ==>
            u in t.caches[version] && t.caches[version][u] == st.caches[version][u])
      && (forall u :: u in t.caches[version] && u !in assets ==>
            version in st.caches && u in st.caches[version] && t.caches[version][u] == st.caches[version][u])
      && (forall n :: n in st.caches && n != version ==> n in t.caches && t.caches[n] == st.caches[n])
  {
  }

  /** Installing under a new name fills that cache with exactly the assets. */
  lemma InstallIntoNewCache(st: Storage, version: string, assets: seq<string>, network: map<string, Response>)
    requires WellFormed(st) && version !in st.caches && AddAllSucceeds(assets, network)
    ensures var (t, ok) := Install(st, version, assets, network);
      ok && WellFormed(t) && version in t.caches && t.caches[version] == map u | u in assets :: network[u]
  {
    InstallAllOrNothing(st, version, assets, network);
    var created := OpenCache(st, version);
    assert created.caches[version] == map[];
    var added := map u | u in assets :: network[u];
    assert map[] + added == added;
  }

  // ---------------------------------------------------------------- activate

  /** The names other than `keep`, in order: `keys.filter(k => k !== CACHE_VERSION)`. */
  function Others(names: seq<string>, keep: string): (r: seq<string>)
    ensures forall n :: n in r <==> n in names && n != keep
  {
    if names == [] then []
    else (if names[0] != keep then [names[0]] else []) + Others(names[1..], keep)
  }

  /** The names not in `gone`, in order. */
  function RemoveAll(names: seq<string>, gone: set<string>): (r: seq<string>)
    ensures forall n :: n in r <==> n in names && n !in gone
  {
    if names == [] then []
    else (if names[0] !in gone then [names[0]] else []) + RemoveAll(names[1..], gone)
  }

  /** `caches.delete(name)`: the cache and its name are gone. */
  function DeleteCache(st: Storage, name: string): (t: Storage)
    ensures name !in t.caches
  {
    Storage(RemoveAll(st.names, {name}), st.caches - {name})
  }

  /** `caches.delete` keeps the storage well formed. */
  lemma DeleteKeepsWellFormed(st: Storage, name: string)
    requires WellFormed(st)
    ensures WellFormed(DeleteCache(st, name))
  {
    var t := DeleteCache(st, name);
    RemoveAllKeepsDistinct(st.names, {name});
    forall i | 0 <= i < |t.names|
      ensures t.names[i] in t.caches
    {
      var n := t.names[i];
      assert n in t.names;
      assert n in st.names && n != name;
      var j :| 0 <= j < |st.names| && st.names[j] == n;
      assert st.names[j] in st.caches;
    }
  }

  /** Deleting the given names one after another. */
  function DeleteAll(st: Storage, gone: seq<string>): Storage
    decreases |gone|
  {
    if gone == [] then st
    else DeleteCache(DeleteAll(st, gone[..|gone| - 1]), gone[|gone| - 1])
  }

  /** The activate handler: delete every cache whose name is not `keep`. */
  function Purge(st: Storage, keep: string): Storage {
    DeleteAll(st, Others(st.names, keep))
  }

  lemma {:induction false} RemoveAllTwice(names: seq<string>, gone: set<string>, name: string)
    ensures RemoveAll(RemoveAll(names, gone), {name}) == RemoveAll(names, gone + {name})
    decreases |names|
  {
    if names != [] {
      RemoveAllTwice(names[1..], gone, name);
      var head := if names[0] !in gone then [names[0]] else [];
      assert RemoveAll(names, gone) == head + RemoveAll(names[1..], gone);
      RemoveAllAppend(head, RemoveAll(names[1..], gone), {name});
    }
  }

  lemma {:induction false} RemoveAllAppend(a: seq<string>, b: seq<string>, gone: set<string>)
    ensures RemoveAll(a + b, gone) == RemoveAll(a, gone) + RemoveAll(b, gone)
    decreases |a|
  {
    if a == [] {
      assert a + b == b;
    } else {
      assert (a + b)[1..] == a[1..] + b;
      RemoveAllAppend(a[1..], b, gone);
    }
  }

  lemma {:induction false} RemoveAllKeepsDistinct(names: seq<string>, gone: set<string>)
    requires Distinct(names)
    ensures Distinct(RemoveAll(names, gone))
    decreases |names|
  {
    if names != [] {
      assert Distinct(names[1..]);
      RemoveAllKeepsDistinct(names[1..], gone);
      assert names[0] !in names[1..];
    }
  }

  /** Deleting a list of names removes exactly those names and their caches, keeping the order of the rest. */
  lemma {:induction false} DeleteAllRemoves(st: Storage, gone: seq<string>)
    ensures DeleteAll(st, gone) == Storage(RemoveAll(st.names, set n | n in gone), st.caches - set n | n in gone)
    decreases |gone|
  {
    if gone == [] {
      assert (set n | n in gone) == {};
      RemoveAllNone(st.names);
      assert st.caches - {} == st.caches;
    } else {
      var init := gone[..|gone| - 1];
      var last := gone[|gone| - 1];
      DeleteAllRemoves(st, init);
      RemoveAllTwice(st.names, (set n | n in init), last);
      assert (set n | n in gone) == (set n | n in init) + {last} by {
        assert gone == init + [last];
      }
    }
  }

  lemma {:induction false} RemoveAllNone(names: seq<string>)
    ensures RemoveAll(names, {}) == names
    decreases |names|
  {
    if names != [] {
      RemoveAllNone(names[1..]);
      assert names == [names[0]] + names[1..];
    }
  }

  lemma {:induction false} RemoveAllEverything(names: seq<string>, gone: set<string>)
    requires forall i :: 0 <= i < |names| ==> names[i] in gone
    ensures RemoveAll(names, gone) == []
    decreases |names|
  {
    if names != [] {
      RemoveAllEverything(names[1..], gone);
    }
  }

  /** Removing every name but one from a list holding it once leaves just that name. */
  lemma {:induction false} RemoveAllButOne(names: seq<string>, gone: set<string>, keep: string)
    requires Distinct(names) && keep in names && keep !in gone
    requires forall i :: 0 <= i < |names| && names[i] != keep ==> names[i] in gone
    ensures RemoveAll(names, gone) == [keep]
    decreases |names|
  {
    assert Distinct(names[1..]);
    if names[0] == keep {
      assert forall i :: 0 <= i < |names[1..]| ==> names[1..][i] != keep;
      RemoveAllEverything(names[1..], gone);
    } else {
      RemoveAllButOne(names[1..], gone, keep);
    }
  }

  lemma {:induction false} OthersOfKept(names: seq<string>, keep: string)
    requires forall i :: 0 <= i < |names| ==> names[i] == keep
    ensures Others(names, keep) == []
    decreases |names|
  {
    if names != [] {
      OthersOfKept(names[1..], keep);
    }
  }

  /** Activate removes, in one go, every listed name other than `keep`. */
  lemma PurgeRemovesOthers(st: Storage, keep: string)
    ensures var gone := set n | n in st.names && n != keep;
      Purge(st, keep) == Storage(RemoveAll(st.names, gone), st.caches - gone)
  {
    var others := Others(st.names, keep);
    assert (set n | n in others) == (set n | n in st.names && n != keep);
    DeleteAllRemoves(st, others);
  }

  /** Dropping every key but one from a map leaves that key with its value. */
  lemma DropAllButOne(m: map<string, Entries>, gone: set<string>, keep: string)
    requires keep in m && keep !in gone
    requires forall n :: n in m && n != keep ==> n in gone
    ensures m - gone == map[keep := m[keep]]
  {
    var rest := m - gone;
    assert rest.Keys == {keep};
  }

  lemma PurgeWithKept(st: Storage, keep: string)
    requires WellFormed(st) && keep in st.caches
    ensures Purge(st, keep) == Storage([keep], map[keep := st.caches[keep]])
  {
    var gone := set n | n in st.names && n != keep;
    PurgeRemovesOthers(st, keep);
    RemoveAllButOne(st.names, gone, keep);
    DropAllButOne(st.caches, gone, keep);
  }

  lemma PurgeWithoutKept(st: Storage, keep: string)
    requires WellFormed(st) && keep !in st.caches
    ensures Purge(st, keep) == Empty
  {
    var gone := set n | n in st.names && n != keep;
    PurgeRemovesOthers(st, keep);
    RemoveAllEverything(st.names, gone);
    var rest := st.caches - gone;
    assert rest.Keys == {};
  }

  /**
   * After activate only the kept cache is left, under its one name and with
   * its entries untouched, or nothing at all if there was no such cache.
   */
  lemma ActivateKeepsOnlyCurrent(st: Storage, keep: string)
    requires WellFormed(st)
    ensures var p := Purge(st, keep);
      && WellFormed(p)
      && (keep in st.caches ==> p == Storage([keep], map[keep := st.caches[keep]]))
      && (keep !in st.caches ==> p == Empty)
  {
    if keep in st.caches {
      PurgeWithKept(st, keep);
    } else {
      PurgeWithoutKept(st, keep);
    }
  }

  /** Activating twice is the same as activating once. */
  lemma ActivateIdempotent(st: Storage, keep: string)
    requires WellFormed(st)
    ensures Purge(Purge(st, keep), keep) == Purge(st, keep)
  {
    ActivateKeepsOnlyCurrent(st, keep);
    var p := Purge(st, keep);
    OthersOfKept(p.names, keep);
  }

  // ---------------------------------------------------------------- scenarios

  /** An asset installed and then activated is served from the cache, not the network. */
  lemma ServedAfterActivate(st: Storage, version: string, assets: seq<string>, network: map<string, Response>, req: Request)
    requires WellFormed(st) && AddAllSucceeds(assets, network)
    requires req.verb == "GET" && req.url in assets && !StartsWith(req.pathname, API_PREFIX)
    ensures Route(Purge(Install(st, version, assets, network).0, version), req) == FromCache(network[req.url])
  {
    var t := Install(st, version, assets, network).0;
    InstallAllOrNothing(st, version, assets, network);
    ActivateKeepsOnlyCurrent(t, version);
  }

  /**
   * Upgrading: install and activate one version, then install another with
   * every asset fetched and activate it; only the new version's entries remain.
   */
  lemma UpgradeLeavesOnlyNewVersion(v1: string, v2: string, assets: seq<string>, net1: map<string, Response>, net2: map<string, Response>)
    requires v1 != v2
    requires AddAllSucceeds(assets, net1) && AddAllSucceeds(assets, net2)
    ensures var first := Purge(Install(Empty, v1, assets, net1).0, v1);
      var second := Purge(Install(first, v2, assets, net2).0, v2);
      second == Storage([v2], map[v2 := map u | u in assets :: net2[u]])
  {
    var i1 := Install(Empty, v1, assets, net1).0;
    InstallAllOrNothing(Empty, v1, assets, net1);
    ActivateKeepsOnlyCurrent(i1, v1);
    var first := Purge(i1, v1);
    assert v2 !in first.caches;
    InstallIntoNewCache(first, v2, assets, net2);
    var i2 := Install(first, v2, assets, net2).0;
    ActivateKeepsOnlyCurrent(i2, v2);
  }

  /**
   * A failed upgrade does not disturb the running generation: with one asset
   * failing, the new worker never reaches skipWaiting and every asset is
   * still served from the old version's entries.
   */
  lemma FailedUpgradeKeepsServing(v1: string, v2: string, assets: seq<string>, net1: map<string, Response>,
                                  net2: map<string, Response>, req: Request)
    requires v1 != v2
    requires AddAllSucceeds(assets, net1) && !AddAllSucceeds(assets, net2)
    requires req.verb == "GET" && req.url in assets && !StartsWith(req.pathname, API_PREFIX)
    ensures var first := Purge(Install(Empty, v1, assets, net1).0, v1);
      var (second, ok) := Install(first, v2, assets, net2);
      && !ok
      && Route(second, req) == FromCache(net1[req.url])
  {
    var i1 := Install(Empty, v1, assets, net1).0;
    InstallAllOrNothing(Empty, v1, assets, net1);
    ActivateKeepsOnlyCurrent(i1, v1);
    var first := Purge(i1, v1);
    InstallAllOrNothing(first, v2, assets, net2);
    var second := Install(first, v2, assets, net2).0;
    assert second.names[0] == v1;
  }

  // ---------------------------------------------------------------- the worker

  /** The origin's CacheStorage, changed in place by the handlers. */
  class CacheStorage {
    var names: seq<string>
    var caches: map<string, Entries>

    function State(): Storage
      reads this
    {
      Storage(names, caches)
    }

    predicate Valid()
      reads this
    {
      WellFormed(State())
    }

    constructor ()
      ensures Valid() && State() == Empty
    {
      names, caches := [], map[];
    }

    /** `caches.keys()`. */
    method Keys() returns (ks: seq<string>)
      ensures ks == names
    {
      ks := names;
    }

    /** `caches.open(name)`. */
    method Open(name: string)
      requires Valid()
      modifies this
      ensures Valid() && State() == OpenCache(old(State()), name)
    {
      if name !in caches {
        names := names + [name];
        caches := caches[name := map[]];
      }
    }

    /** `cache.addAll(urls)` on the opened cache `name`; `ok` says whether the promise resolved. */
    method AddAll(name: string, urls: seq<string>, network: map<string, Response>) returns (ok: bool)
      requires Valid() && name in caches
      modifies this
      ensures Valid() && (State(), ok) == CacheAddAll(old(State()), name, urls, network)
    {
      ok := AddAllSucceeds(urls, network);
      if ok {
        caches := caches[name := caches[name] + map u | u in urls :: network[u]];
      }
    }

    /** `caches.delete(name)`; `existed` is what its promise resolves to. */
    method Delete(name: string) returns (existed: bool)
      requires Valid()
      modifies this
      ensures Valid() && State() == DeleteCache(old(State()), name)
      ensures existed == (name in old(caches))
    {
      existed := name in caches;
      DeleteKeepsWellFormed(State(), name);
      names := RemoveAll(names, {name});
      caches := caches - {name};
    }
  }

  /** The install handler; `skipWaiting` is whether self.skipWaiting() was reached. */
  method OnInstall(cs: CacheStorage, network: map<string, Response>) returns (skipWaiting: bool)
    requires cs.Valid()
    modifies cs
    ensures cs.Valid()
    ensures (cs.State(), skipWaiting) == Install(old(cs.State()), CACHE_VERSION, STATIC_ASSETS, network)
  {
    cs.Open(CACHE_VERSION);
    skipWaiting := cs.AddAll(CACHE_VERSION, STATIC_ASSETS, network);
  }

  /** The activate handler: every other cache is deleted, then clients are claimed. */
  method OnActivate(cs: CacheStorage) returns (claimed: bool)
    requires cs.Valid()
    modifies cs
    ensures cs.Valid()
    ensures cs.State() == Purge(old(cs.State()), CACHE_VERSION)
    ensures claimed
  {
    var keys := cs.Keys();
    var doomed := Others(keys, CACHE_VERSION);
    ghost var start := cs.State();
    for i := 0 to |doomed|
      invariant cs.Valid()
      invariant cs.State() == DeleteAll(start, doomed[..i])
    {
      assert doomed[..i + 1][..i] == doomed[..i];
      assert DeleteAll(start, doomed[..i + 1]) == DeleteCache(DeleteAll(start, doomed[..i]), doomed[i]);
      var existed := cs.Delete(doomed[i]);
    }
    assert doomed[..|doomed|] == doomed;
    claimed := true;
  }

  /** The fetch handler: it only reads the caches. */
  method OnFetch(cs: CacheStorage, req: Request) returns (d: Disposition)
    ensures d == Route(cs.State(), req)
  {
    if StartsWith(req.pathname, API_PREFIX) {
      return NotIntercepted;
    }
    var cached := MatchIn(cs.State(), req);
    if cached.Some? {
      d := FromCache(cached.value);
    } else {
      d := FromNetwork;
    }
  }
}
