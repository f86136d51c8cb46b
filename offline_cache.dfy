/** The calculator's service worker: the offline cache it fills on install, prunes on
    activate and consults on every fetch.

    The browser's CacheStorage is a list of named caches, kept in the order they were
    created, each mapping requests to responses. The network is a parameter: a
    function from a request to the response it returns or to a failure. */
module OfflineCache {

  datatype Option<T> = None | Some(value: T)

  datatype Request = Request(verb: string, url: string)

  datatype Response = Response(status: int, body: string)

  /** What fetch() gives for a request: a response (of any status) or a rejection. */
  datatype Fetched = NetworkError | Received(resp: Response)

  type Network = Request -> Fetched

  type Cache = map<Request, Response>

  /** The one cache this version of the worker owns. */
  const CACHE_NAME: string := "us-calc-pwa-v2"

  /** The application shell stored on install. */
  const ASSETS: seq<string> := ["./", "./index.html", "./manifest.webmanifest", "./app.min.js"]

  /** The request addAll issues for a URL. */
  function Get(url: string): Request {
    Request("GET", url)
  }

  /** A response addAll accepts: an ok status (200 to 299) other than 206 Partial Content. */
  predicate AddAllAccepts(f: Fetched) {
    f.Received? && 200 <= f.resp.status <= 299 && f.resp.status != 206
  }

  /** The entries cache.addAll(urls) stores: all of them, or none at all (`None`) when
      any request fails or any response is not accepted. */
  function Batch(urls: seq<string>, network: Network): (r: Option<Cache>)
    ensures r.Some? <==> forall i :: 0 <= i < |urls| ==> AddAllAccepts(network(Get(urls[i])))
    ensures r.Some? ==> forall req :: req in r.value <==> req.verb == "GET" && req.url in urls
    ensures r.Some? ==> forall req :: req in r.value ==> network(req).Received? && r.value[req] == network(req).resp
  {
    if urls == [] then Some(map[])
    else
      var first := network(Get(urls[0]));
      if !AddAllAccepts(first) then None
      else
        match Batch(urls[1..], network)
        case None => None
        case Some(rest) => Some(rest[Get(urls[0]) := first.resp])
  }

  predicate Distinct(xs: seq<string>) {
    forall i, j :: 0 <= i < j < |xs| ==> xs[i] != xs[j]
  }

  /** `xs` without the occurrences of `n`. */
  function Without(xs: seq<string>, n: string): (r: seq<string>)
    ensures forall x :: x in r <==> x in xs && x != n
  {
    if xs == [] then [] else (if xs[0] == n then [] else [xs[0]]) + Without(xs[1..], n)
  }

  /** Only the occurrences of `n` in `xs`. */
  function Only(xs: seq<string>, n: string): (r: seq<string>)
    ensures forall x :: x in r <==> x in xs && x == n
    ensures n !in xs ==> r == []
  {
    if xs == [] then [] else (if xs[0] == n then [n] else []) + Only(xs[1..], n)
  }

  lemma {:induction false} WithoutKeepsDistinct(xs: seq<string>, n: string)
    ensures Distinct(xs) ==> Distinct(Without(xs, n))
  {
    if xs != [] && Distinct(xs) {
      WithoutKeepsDistinct(xs[1..], n);
      assert xs[0] !in xs[1..];
    }
  }

  lemma {:induction false} WithoutAppend(xs: seq<string>, ys: seq<string>, n: string)
    ensures Without(xs + ys, n) == Without(xs, n) + Without(ys, n)
  {
    if xs != [] {
      WithoutAppend(xs[1..], ys, n);
      assert (xs + ys)[1..] == xs[1..] + ys;
    } else {
      assert xs + ys == ys;
    }
  }

  lemma {:induction false} WithoutAbsent(xs: seq<string>, n: string)
    requires n !in xs
    ensures Without(xs, n) == xs
  {
    if xs != [] {
      WithoutAbsent(xs[1..], n);
    }
  }

  /** Removing an element that occurs exactly once, between `xs` and `ys`, leaves `xs + ys`. */
  lemma WithoutMiddle(xs: seq<string>, k: string, ys: seq<string>)
    requires k !in xs && k !in ys
    ensures Without(xs + [k] + ys, k) == xs + ys
  {
    calc {
      Without(xs + [k] + ys, k);
    == { WithoutAppend(xs + [k], ys, k); }
      Without(xs + [k], k) + Without(ys, k);
    == { WithoutAppend(xs, [k], k); }
      Without(xs, k) + Without([k], k) + Without(ys, k);
    == { WithoutAbsent(xs, k); WithoutAbsent(ys, k); assert Without([k], k) == []; }
      xs + [] + ys;
    }
  }

  lemma {:induction false} OnlyAppend(xs: seq<string>, ys: seq<string>, n: string)
    ensures Only(xs + ys, n) == Only(xs, n) + Only(ys, n)
  {
    if xs != [] {
      OnlyAppend(xs[1..], ys, n);
      assert (xs + ys)[1..] == xs[1..] + ys;
    } else {
      assert xs + ys == ys;
    }
  }

  /** In a list without repetitions a name occurs once or not at all. */
  lemma {:induction false} OnlyOfDistinct(xs: seq<string>, n: string)
    requires Distinct(xs)
    ensures Only(xs, n) == if n in xs then [n] else []
  {
    if xs != [] {
      assert Distinct(xs[1..]) by {
        forall i, j | 0 <= i < j < |xs[1..]| ensures xs[1..][i] != xs[1..][j] {
          assert xs[1..][i] == xs[i + 1] && xs[1..][j] == xs[j + 1];
        }
      }
      OnlyOfDistinct(xs[1..], n);
      if xs[0] == n {
        assert n !in xs[1..] by {
          forall j | 0 <= j < |xs[1..]| ensures xs[1..][j] != n {
            assert xs[1..][j] == xs[j + 1];
          }
        }
      }
    }
  }

  /** The whole of CacheStorage: the cache names in creation order and their contents. */
  datatype Storage = Storage(names: seq<string>, caches: map<string, Cache>)

  /** Each name is listed once, and the listed names are exactly the caches that exist. */
  ghost predicate WellFormed(s: Storage) {
    && Distinct(s.names)
    && forall n :: n in s.caches <==> n in s.names
  }

  /** caches.open(name): the cache of that name, created empty and listed last if missing. */
  function Opened(s: Storage, name: string): (r: Storage)
    ensures name in r.caches
    ensures name in s.caches ==> r == s
    ensures name !in s.caches ==> r.caches[name] == map[]
    ensures name !in s.caches ==> r.names == s.names + [name] && r.caches.Keys == s.caches.Keys + {name}
    ensures forall n :: n in s.caches ==> n in r.caches && r.caches[n] == s.caches[n]
    ensures WellFormed(s) ==> WellFormed(r)
  {
    if name in s.caches then s
    else Storage(s.names + [name], s.caches[name := map[]])
  }

  /** cache.put(req, resp) on the cache opened under `name`. */
  function Stored(s: Storage, name: string, req: Request, resp: Response): (r: Storage)
    ensures r.names == Opened(s, name).names
    ensures name in r.caches && r.caches[name] == Opened(s, name).caches[name][req := resp]
    ensures forall n :: n != name ==> (n in r.caches <==> n in s.caches)
    ensures forall n :: n != name && n in s.caches ==> r.caches[n] == s.caches[n]
    ensures WellFormed(s) ==> WellFormed(r)
  {
    var o := Opened(s, name);
    Storage(o.names, o.caches[name := o.caches[name][req := resp]])
  }

  /** caches.delete(name). */
  function Deleted(s: Storage, name: string): (r: Storage)
    ensures name !in r.caches && name !in r.names
    ensures forall n :: n != name ==> (n in r.caches <==> n in s.caches)
    ensures forall n :: n in r.caches ==> r.caches[n] == s.caches[n]
    ensures WellFormed(s) ==> WellFormed(r)
  {
    WithoutKeepsDistinct(s.names, name);
    Storage(Without(s.names, name), s.caches - {name})
  }

  predicate Holds(caches: map<string, Cache>, name: string, req: Request) {
    name in caches && req in caches[name]
  }

  /** The first cache in `names`, in order, that holds `req`, and its response. */
  function LookupIn(names: seq<string>, caches: map<string, Cache>, req: Request): Option<Response> {
    if names == [] then None
    else if Holds(caches, names[0], req) then Some(caches[names[0]][req])
    else LookupIn(names[1..], caches, req)
  }

  /** caches.match(req): only GET requests can match; the caches are searched in
      creation order and the first stored response wins. */
  function Lookup(s: Storage, req: Request): (r: Option<Response>)
    ensures req.verb != "GET" ==> r.None?
    ensures r.Some? <==> req.verb == "GET" && exists i :: 0 <= i < |s.names| && Holds(s.caches, s.names[i], req)
    ensures r.Some? ==> exists n :: n in s.caches && req in s.caches[n] && r.value == s.caches[n][req]
  {
    LookupFirstHit(s.names, s.caches, req);
    if req.verb != "GET" then None else LookupIn(s.names, s.caches, req)
  }

  /** LookupIn finds something exactly when some listed cache holds the request, and what it
      finds is the response of the first such cache. */
  lemma {:induction false} LookupFirstHit(names: seq<string>, caches: map<string, Cache>, req: Request)
    ensures LookupIn(names, caches, req).Some?
        <==> exists i :: 0 <= i < |names| && Holds(caches, names[i], req)
    ensures LookupIn(names, caches, req).Some? ==>
      exists i :: 0 <= i < |names| && Holds(caches, names[i], req)
        && LookupIn(names, caches, req).value == caches[names[i]][req]
        && forall j :: 0 <= j < i ==> !Holds(caches, names[j], req)
  {
    if names != [] && !Holds(caches, names[0], req) {
      LookupFirstHit(names[1..], caches, req);
      if LookupIn(names, caches, req).Some? {
        var i :| 0 <= i < |names[1..]| && Holds(caches, names[1..][i], req)
          && LookupIn(names, caches, req).value == caches[names[1..][i]][req]
          && forall j :: 0 <= j < i ==> !Holds(caches, names[1..][j], req);
        assert names[i + 1] == names[1..][i];
        forall j | 0 <= j < i + 1 ensures !Holds(caches, names[j], req) {
          if j > 0 { assert names[j] == names[1..][j - 1]; }
        }
      }
      if exists i :: 0 <= i < |names| && Holds(caches, names[i], req) {
        var i :| 0 <= i < |names| && Holds(caches, names[i], req);
        assert names[1..][i - 1] == names[i];
      }
    } else if names != [] {
      assert Holds(caches, names[0], req);
    }
  }

  /** When `name` is the only listed cache holding the request, LookupIn finds its response. */
  lemma {:induction false} LookupSoleHolder(names: seq<string>, caches: map<string, Cache>, req: Request, name: string)
    requires name in names && Holds(caches, name, req)
    requires forall j :: 0 <= j < |names| && Holds(caches, names[j], req) ==> names[j] == name
    ensures LookupIn(names, caches, req) == Some(caches[name][req])
  {
    if names[0] != name {
      assert !Holds(caches, names[0], req);
      assert name in names[1..];
      forall j | 0 <= j < |names[1..]| && Holds(caches, names[1..][j], req)
        ensures names[1..][j] == name
      {
        assert names[1..][j] == names[j + 1];
      }
      LookupSoleHolder(names[1..], caches, req, name);
    }
  }

  /** The install handler's effect: open the current cache, then add every asset to it,
      all or nothing. */
  function AfterInstall(s: Storage, network: Network): (r: Storage)
    ensures WellFormed(s) ==> WellFormed(r)
    ensures CACHE_NAME in r.caches && r.names == Opened(s, CACHE_NAME).names
    ensures Batch(ASSETS, network).None? ==> r == Opened(s, CACHE_NAME)
    ensures Batch(ASSETS, network).Some? ==>
      r.caches[CACHE_NAME] == Opened(s, CACHE_NAME).caches[CACHE_NAME] + Batch(ASSETS, network).value
    ensures forall n :: n != CACHE_NAME ==>
      (n in r.caches <==> n in s.caches) && (n in s.caches ==> r.caches[n] == s.caches[n])
  {
    var o := Opened(s, CACHE_NAME);
    match Batch(ASSETS, network)
    case None => o
    case Some(entries) => Storage(o.names, o.caches[CACHE_NAME := o.caches[CACHE_NAME] + entries])
  }

  /** The activate handler's effect: every cache other than the current one is deleted. */
  function AfterActivate(s: Storage): (r: Storage)
    ensures forall n :: n in r.names ==> n == CACHE_NAME
    ensures forall n :: n in r.caches ==> n == CACHE_NAME
    ensures CACHE_NAME in r.caches <==> CACHE_NAME in s.caches
    ensures CACHE_NAME in s.caches ==> r.caches[CACHE_NAME] == s.caches[CACHE_NAME]
  {
    Storage(Only(s.names, CACHE_NAME),
            if CACHE_NAME in s.caches then map[CACHE_NAME := s.caches[CACHE_NAME]] else map[])
  }

  /** What the fetch handler answers, and the storage it leaves. */
  datatype Served = Served(response: Option<Response>, after: Storage)

  /** The fetch handler: a stored response if there is one; otherwise the network's
      response, which is also stored in the current cache when the request is a GET and
      the status is exactly 200. When the network fails there is nothing cached to fall
      back on, so the page gets no response. */
  function FetchStep(s: Storage, req: Request, network: Network): (r: Served)
    ensures Lookup(s, req).Some? ==> r == Served(Lookup(s, req), s)
    ensures r.response.None? <==> Lookup(s, req).None? && network(req).NetworkError?
    ensures Lookup(s, req).None? && network(req).Received? ==> r.response == Some(network(req).resp)
    ensures r.after == s
         || (&& req.verb == "GET" && r.response.Some? && r.response.value.status == 200
             && r.after == Stored(s, CACHE_NAME, req, r.response.value))
    ensures WellFormed(s) ==> WellFormed(r.after)
  {
    var cached := Lookup(s, req);
    if cached.Some? then Served(cached, s)
    else
      match network(req)
      case NetworkError => Served(cached, s)
      case Received(resp) =>
        if req.verb == "GET" && resp.status == 200
        then Served(Some(resp), Stored(s, CACHE_NAME, req, resp))
        else Served(Some(resp), s)
  }

  /** A successful install leaves every asset, with the response the network gave for it,
      in the current cache, and the cache can then answer for it. Entries the cache held
      before for other requests stay as they were, nothing else is added, and caches of
      other names are untouched. */
  lemma InstallStoresAllAssets(s: Storage, network: Network)
    requires WellFormed(s)
    requires forall i :: 0 <= i < |ASSETS| ==> AddAllAccepts(network(Get(ASSETS[i])))
    ensures Batch(ASSETS, network).Some?
    ensures var t, before := AfterInstall(s, network), (if CACHE_NAME in s.caches then s.caches[CACHE_NAME] else map[]);
      && WellFormed(t)
      && CACHE_NAME in t.caches
      && t.caches[CACHE_NAME] == before + Batch(ASSETS, network).value
      && (forall u :: u in ASSETS ==>
            && Get(u) in t.caches[CACHE_NAME]
            && t.caches[CACHE_NAME][Get(u)] == network(Get(u)).resp
            && Lookup(t, Get(u)).Some?)
      && (forall q :: q in t.caches[CACHE_NAME] <==> q in before || exists u :: u in ASSETS && q == Get(u))
      && (forall q :: q in before && (forall u :: u in ASSETS ==> q != Get(u))
            ==> t.caches[CACHE_NAME][q] == before[q])
      && forall n :: n != CACHE_NAME && n in s.caches ==> n in t.caches && t.caches[n] == s.caches[n]
  {
    var t := AfterInstall(s, network);
    forall u | u in ASSETS ensures Lookup(t, Get(u)).Some? {
      LookupFirstHit(t.names, t.caches, Get(u));
      var k :| 0 <= k < |t.names| && t.names[k] == CACHE_NAME;
      assert Holds(t.caches, t.names[k], Get(u));
    }
  }

  /** A failed install stores nothing: the current cache exists (opening it happens
      first) but holds exactly what it held before, and no other cache changes. */
  lemma InstallAllOrNothing(s: Storage, network: Network)
    requires WellFormed(s)
    requires exists i :: 0 <= i < |ASSETS| && !AddAllAccepts(network(Get(ASSETS[i])))
    ensures var t := AfterInstall(s, network);
      && WellFormed(t)
      && CACHE_NAME in t.caches
      && t.caches[CACHE_NAME] == (if CACHE_NAME in s.caches then s.caches[CACHE_NAME] else map[])
      && forall n :: n != CACHE_NAME ==>
           (n in t.caches <==> n in s.caches) && (n in s.caches ==> t.caches[n] == s.caches[n])
  {
  }

  /** After activation only the current cache can remain, with its contents unchanged,
      and it remains exactly when it was there before. */
  lemma ActivateKeepsOnlyCurrent(s: Storage)
    requires WellFormed(s)
    ensures var t := AfterActivate(s);
      && WellFormed(t)
      && (forall n :: n in t.caches ==> n == CACHE_NAME)
      && (CACHE_NAME in t.caches <==> CACHE_NAME in s.caches)
      && (CACHE_NAME in s.caches ==> t.caches[CACHE_NAME] == s.caches[CACHE_NAME])
  {
    OnlyOfDistinct(s.names, CACHE_NAME);
  }

  /** A request some cache can answer is answered from the cache, whatever the network
      would do, and the storage does not change. */
  lemma FetchHitIgnoresNetwork(s: Storage, req: Request, n1: Network, n2: Network)
    requires Lookup(s, req).Some?
    ensures FetchStep(s, req, n1) == FetchStep(s, req, n2) == Served(Lookup(s, req), s)
  {
  }

  /** On a miss, a GET answered with status 200 is passed on and stored under the request
      in the current cache; every other cache, and every other entry of the current one,
      stays as it was. */
  lemma FetchMissStoresOk(s: Storage, req: Request, network: Network)
    requires WellFormed(s)
    requires Lookup(s, req).None?
    requires network(req).Received? && req.verb == "GET" && network(req).resp.status == 200
    ensures var out := FetchStep(s, req, network);
      && out.response == Some(network(req).resp)
      && WellFormed(out.after)
      && CACHE_NAME in out.after.caches
      && out.after.names == (if CACHE_NAME in s.caches then s.names else s.names + [CACHE_NAME])
      && out.after.caches[CACHE_NAME]
         == (if CACHE_NAME in s.caches then s.caches[CACHE_NAME] else map[])[req := network(req).resp]
      && (forall q :: q != req && CACHE_NAME in s.caches && q in s.caches[CACHE_NAME] ==>
            q in out.after.caches[CACHE_NAME] && out.after.caches[CACHE_NAME][q] == s.caches[CACHE_NAME][q])
      && forall n :: n != CACHE_NAME ==>
           (n in out.after.caches <==> n in s.caches)
           && (n in s.caches ==> out.after.caches[n] == s.caches[n])
  {
  }

  /** On a miss, anything other than a GET answered with status 200 is passed on without
      being stored. */
  lemma FetchMissPassesThrough(s: Storage, req: Request, network: Network)
    requires Lookup(s, req).None?
    requires network(req).Received? && (req.verb != "GET" || network(req).resp.status != 200)
    ensures FetchStep(s, req, network) == Served(Some(network(req).resp), s)
  {
  }

  /** On a miss with the network down the page gets no response at all (never a stale
      copy, since there is none), and the storage does not change. */
  lemma FetchOfflineMiss(s: Storage, req: Request, network: Network)
    requires Lookup(s, req).None? && network(req).NetworkError?
    ensures FetchStep(s, req, network) == Served(None, s)
  {
  }

  /** A request that is not a GET is never answered from the cache. */
  lemma NonGetNeverCached(s: Storage, req: Request, network: Network)
    requires req.verb != "GET"
    ensures FetchStep(s, req, network).response
         == (if network(req).Received? then Some(network(req).resp) else None)
    ensures FetchStep(s, req, network).after == s
  {
  }

  /** What a missed GET stores is what the next fetch of the same request serves, with the
      network no longer consulted and nothing changing. */
  lemma {:induction false} FetchStoredIsServed(s: Storage, req: Request, network: Network, later: Network)
    requires WellFormed(s)
    requires Lookup(s, req).None?
    requires network(req).Received? && req.verb == "GET" && network(req).resp.status == 200
    ensures var t := FetchStep(s, req, network).after;
      FetchStep(t, req, later) == Served(Some(network(req).resp), t)
  {
    var t := FetchStep(s, req, network).after;
    assert t == Stored(s, CACHE_NAME, req, network(req).resp);
    LookupFirstHit(s.names, s.caches, req);
    assert CACHE_NAME in t.names;
    forall j | 0 <= j < |t.names| && Holds(t.caches, t.names[j], req)
      ensures t.names[j] == CACHE_NAME
    {
      if t.names[j] != CACHE_NAME {
        assert Holds(s.caches, t.names[j], req);
        assert false;
      }
    }
    LookupSoleHolder(t.names, t.caches, req, CACHE_NAME);
  }

  /** In a list without repetitions, an element does not occur after its own position. */
  lemma DistinctRest(keys: seq<string>, i: nat)
    requires Distinct(keys) && i < |keys|
    ensures keys[i] !in keys[i + 1..]
  {
    forall j | i + 1 <= j < |keys| ensures keys[j] != keys[i] { }
  }

  /** Pruning the first `i + 1` listed names adds nothing when `keys[i]` is another cache's. */
  lemma PrunedPrefix(keys: seq<string>, i: nat)
    requires i < |keys|
    ensures keys[i] != CACHE_NAME ==> Only(keys[..i + 1], CACHE_NAME) == Only(keys[..i], CACHE_NAME)
    ensures keys[i] == CACHE_NAME ==> Only(keys[..i + 1], CACHE_NAME) == Only(keys[..i], CACHE_NAME) + [CACHE_NAME]
  {
    assert keys[..i + 1] == keys[..i] + [keys[i]];
    OnlyAppend(keys[..i], [keys[i]], CACHE_NAME);
  }

  /** One step of the activate handler over the listed names `keys`: with the first `i`
      already pruned, deleting `keys[i]` (another cache's name) leaves the first `i + 1`
      pruned. */
  lemma PruneStep(keys: seq<string>, i: nat, names: seq<string>)
    requires i < |keys| && keys[i] != CACHE_NAME && keys[i] !in keys[i + 1..]
    requires names == Only(keys[..i], CACHE_NAME) + keys[i..]
    ensures Without(names, keys[i]) == Only(keys[..i + 1], CACHE_NAME) + keys[i + 1..]
  {
    var k := keys[i];
    var done := Only(keys[..i], CACHE_NAME);
    var rest := keys[i + 1..];
    assert names == done + [k] + rest by {
      assert keys[i..] == [k] + rest;
    }
    WithoutMiddle(done, k, rest);
    PrunedPrefix(keys, i);
  }

  /** One step of the activate handler that meets the current cache's name: it is kept. */
  lemma PruneKeep(keys: seq<string>, i: nat, names: seq<string>)
    requires i < |keys| && keys[i] == CACHE_NAME
    requires names == Only(keys[..i], CACHE_NAME) + keys[i..]
    ensures names == Only(keys[..i + 1], CACHE_NAME) + keys[i + 1..]
    ensures forall n :: n in keys[i..] <==> n == CACHE_NAME || n in keys[i + 1..]
  {
    PrunedPrefix(keys, i);
    assert keys[i..] == [CACHE_NAME] + keys[i + 1..];
  }

  /** When every listed name has been visited, the activate handler has reached its result. */
  lemma Pruned(s: Storage, t: Storage)
    requires t.names == Only(s.names[..|s.names|], CACHE_NAME) + s.names[|s.names|..]
    requires forall n :: n in t.caches <==> n in s.caches && (n == CACHE_NAME || n in s.names[|s.names|..])
    requires forall n :: n in t.caches ==> t.caches[n] == s.caches[n]
    ensures t == AfterActivate(s)
  {
    assert s.names[..|s.names|] == s.names && s.names[|s.names|..] == [];
    assert t.caches.Keys == AfterActivate(s).caches.Keys;
  }

  /** The browser's CacheStorage as the worker changes it. */
  class CacheStorage {
    var names: seq<string>
    var caches: map<string, Cache>

    function Value(): Storage
      reads this
    {
      Storage(names, caches)
    }

    ghost predicate Valid()
      reads this
    {
      WellFormed(Value())
    }

    constructor ()
      ensures Valid() && Value() == Storage([], map[])
    {
      names := [];
      caches := map[];
    }

    /** caches.open(name). */
    method Open(name: string)
      requires Valid()
      modifies this
      ensures Valid() && Value() == Opened(old(Value()), name)
    {
      if name !in caches {
        names := names + [name];
        caches := caches[name := map[]];
      }
    }

    /** cache.put(req, resp) on the open cache `name`. */
    method Put(name: string, req: Request, resp: Response)
      requires Valid() && name in caches
      modifies this
      ensures Valid() && Value() == Stored(old(Value()), name, req, resp)
    {
      caches := caches[name := caches[name][req := resp]];
    }

    /** caches.delete(name). */
    method Delete(name: string)
      requires Valid()
      modifies this
      ensures Valid() && Value() == Deleted(old(Value()), name)
    {
      WithoutKeepsDistinct(names, name);
      names := Without(names, name);
      caches := caches - {name};
    }

    /** The install event: open the current cache and add the assets to it, all or
        nothing; `ok` is whether addAll succeeded. */
    method Install(network: Network) returns (ok: bool)
      requires Valid()
      modifies this
      ensures Valid()
      ensures ok <==> forall i :: 0 <= i < |ASSETS| ==> AddAllAccepts(network(Get(ASSETS[i])))
      ensures Value() == AfterInstall(old(Value()), network)
    {
      Open(CACHE_NAME);
      var batch := Batch(ASSETS, network);
      ok := batch.Some?;
      if ok {
        caches := caches[CACHE_NAME := caches[CACHE_NAME] + batch.value];
      }
    }

    /** The activate event: list the cache names, then delete each one that is not the
        current cache. */
    method Activate()
      requires Valid()
      modifies this
      ensures Valid()
      ensures Value() == AfterActivate(old(Value()))
    {
      var keys := names;
      var i := 0;
      while i < |keys|
        invariant 0 <= i <= |keys|
        invariant Valid()
        invariant names == Only(keys[..i], CACHE_NAME) + keys[i..]
        invariant forall n :: n in caches <==> n in old(caches) && (n == CACHE_NAME || n in keys[i..])
        invariant forall n :: n in caches ==> caches[n] == old(caches)[n]
      {
        var k := keys[i];
        DistinctRest(keys, i);
        PrunedPrefix(keys, i);
        if k != CACHE_NAME {
          PruneStep(keys, i, names);
          Delete(k);
        } else {
          PruneKeep(keys, i, names);
        }
        i := i + 1;
      }
      Pruned(old(Value()), Value());
    }

    /** The fetch event: answer from the cache when it can; otherwise go to the network and
        keep a copy of a GET answered with status 200. */
    method HandleFetch(req: Request, network: Network) returns (resp: Option<Response>)
      requires Valid()
      modifies this
      ensures Valid()
      ensures resp == FetchStep(old(Value()), req, network).response
      ensures Value() == FetchStep(old(Value()), req, network).after
    {
      var cached := Lookup(Value(), req);
      if cached.Some? {
        return cached;
      }
      match network(req)
      case NetworkError =>
        resp := cached;
      case Received(r) =>
        if req.verb == "GET" && r.status == 200 {
          Open(CACHE_NAME);
          Put(CACHE_NAME, req, r);
        }
        resp := Some(r);
    }
  }
}
