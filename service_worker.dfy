/**
 * The offline service worker: which fetches it answers, its cache-first
 * lookup, which network responses it keeps, the navigation fallback when the
 * network is down, and the removal of other caches on activation.
 */
module ServiceWorker {
  import opened Wrappers
  import opened Text

  const CacheName: string := "autoledger-dynamic-v1"

  /** The parts of a request the worker looks at. `method` is a Dafny keyword, hence `verb`. */
  datatype Request = Request(verb: string, url: string, mode: string)

  /** A response; only its status matters to the worker, the rest is carried along. */
  datatype Response = Response(status: int, body: string)

  /** What `fetch(event.request)` does: resolve with a response, or reject (no network). */
  datatype Network = Delivered(response: Response) | Unreachable

  /** What becomes of the fetch event. */
  datatype Reply =
    | NotHandled                      // returned before `respondWith`: the browser fetches as usual
    | Served(response: Response)      // `respondWith` a response
    | ServedNothing                   // `respondWith` the `undefined` of a missing `./index.html`
    | Rejected                        // the network error is re-thrown

  /** The handler only takes GET requests whose URL starts with "http". */
  predicate Handles(req: Request)
  {
    req.verb == "GET" && StartsWith(req.url, "http")
  }

  /** Same-origin URLs and the three CDN hosts are worth keeping. */
  predicate CacheableUrl(origin: string, url: string)
  {
    || StartsWith(url, origin)
    || Contains(url, "cdn.tailwindcss.com")
    || Contains(url, "aistudiocdn.com")
    || Contains(url, "api.iconify.design")
  }

  /** A network answer is stored when it is a 200 for a URL worth keeping. */
  predicate Storable(origin: string, url: string, resp: Response)
  {
    resp.status == 200 && CacheableUrl(origin, url)
  }

  /** Every entry of a cache is one the fetch handler would have stored. */
  ghost predicate OnlyStorable(origin: string, cache: map<string, Response>)
  {
    forall u :: u in cache ==> StartsWith(u, "http") && Storable(origin, u, cache[u])
  }

  /** `cache.match(url)`. */
  function Match(cache: map<string, Response>, url: string): Option<Response>
  {
    if url in cache then Some(cache[url]) else None
  }

  /** The outcome of one handled fetch on the opened cache: the reply, the cache after it, and whether the network was asked. */
  datatype Outcome = Outcome(reply: Reply, cache: map<string, Response>, fetched: bool)

  /** The `respondWith` body: cache first; else the network, keeping what is storable; offline, navigations get `./index.html`. */
  function Respond(cache: map<string, Response>, req: Request, net: Network, origin: string, indexUrl: string): (o: Outcome)
    ensures o.cache.Keys <= cache.Keys + {req.url}
    ensures forall u :: u in cache ==> u in o.cache && o.cache[u] == cache[u]
  {
    var cached := Match(cache, req.url);
    if cached.Some? then Outcome(Served(cached.value), cache, false)
    else match net
      case Delivered(resp) =>
        Outcome(Served(resp), if Storable(origin, req.url, resp) then cache[req.url := resp] else cache, true)
      case Unreachable =>
        var reply := if req.mode == "navigate" then
                       (var index := Match(cache, indexUrl); if index.Some? then Served(index.value) else ServedNothing)
                     else Rejected;
        Outcome(reply, cache, true)
  }

  /** `caches.open(CACHE_NAME)`: the named cache, created empty when missing. */
  function Opened(store: map<string, map<string, Response>>): (s: map<string, map<string, Response>>)
    ensures CacheName in s && s.Keys == store.Keys + {CacheName}
    ensures forall n :: n in store ==> s[n] == store[n]
  {
    if CacheName in store then store else store[CacheName := map[]]
  }

  // ---- properties of a fetch ----

  /** A cached URL is answered from the cache, without the network and without changing the cache. */
  lemma CacheHit(cache: map<string, Response>, req: Request, net: Network, origin: string, indexUrl: string)
    requires req.url in cache
    ensures Respond(cache, req, net, origin, indexUrl) == Outcome(Served(cache[req.url]), cache, false)
  {
  }

  /** On a miss the network's response is returned as it is, and stored exactly when it is storable. */
  lemma CacheMissDelivered(cache: map<string, Response>, req: Request, resp: Response, origin: string, indexUrl: string)
    requires req.url !in cache
    ensures var o := Respond(cache, req, Delivered(resp), origin, indexUrl);
      && o.reply == Served(resp) && o.fetched
      && (req.url in o.cache <==> Storable(origin, req.url, resp))
      && (Storable(origin, req.url, resp) ==> o.cache == cache[req.url := resp])
      && (!Storable(origin, req.url, resp) ==> o.cache == cache)
  {
  }

  /** Offline, a navigation gets the cached `./index.html` (if there is one) and anything else fails; the cache is left alone. */
  lemma CacheMissOffline(cache: map<string, Response>, req: Request, origin: string, indexUrl: string)
    requires req.url !in cache
    ensures var o := Respond(cache, req, Unreachable, origin, indexUrl);
      && o.cache == cache && o.fetched
      && (req.mode == "navigate" && indexUrl in cache ==> o.reply == Served(cache[indexUrl]))
      && (req.mode == "navigate" && indexUrl !in cache ==> o.reply == ServedNothing)
      && (req.mode != "navigate" ==> o.reply == Rejected)
  {
  }

  /** The cache only ever receives 200 responses for URLs worth keeping. */
  lemma RespondKeepsOnlyStorable(cache: map<string, Response>, req: Request, net: Network, origin: string, indexUrl: string)
    requires Handles(req) && OnlyStorable(origin, cache)
    ensures OnlyStorable(origin, Respond(cache, req, net, origin, indexUrl).cache)
  {
    var o := Respond(cache, req, net, origin, indexUrl);
    forall u | u in o.cache ensures StartsWith(u, "http") && Storable(origin, u, o.cache[u]) {
      if u !in cache {
        assert u == req.url;
      }
    }
  }

  /** Once a response is stored, the same request is served from the cache whatever the network does. */
  lemma StoredThenServed(cache: map<string, Response>, req: Request, resp: Response, net: Network,
                         origin: string, indexUrl: string)
    requires req.url !in cache && Storable(origin, req.url, resp)
    ensures var first := Respond(cache, req, Delivered(resp), origin, indexUrl);
      Respond(first.cache, req, net, origin, indexUrl) == Outcome(Served(resp), first.cache, false)
  {
    var first := Respond(cache, req, Delivered(resp), origin, indexUrl);
    assert first.cache == cache[req.url := resp];
  }

  /** The storage of named caches seen by the worker. */
  class Worker {
    var store: map<string, map<string, Response>>
    /** `self.location.origin`. */
    const origin: string
    /** The absolute URL `./index.html` resolves to. */
    const indexUrl: string

    ghost predicate Valid()
      reads this
    {
      CacheName in store ==> OnlyStorable(origin, store[CacheName])
    }

    /** The worker starts on the caches left by earlier versions; its own cache, if present, was filled by this handler. */
    constructor (origin: string, indexUrl: string, existing: map<string, map<string, Response>>)
      requires CacheName in existing ==> OnlyStorable(origin, existing[CacheName])
      ensures Valid()
      ensures store == existing && this.origin == origin && this.indexUrl == indexUrl
    {
      store := existing;
      this.origin := origin;
      this.indexUrl := indexUrl;
    }

    /** The `fetch` listener, with the network's behaviour for this request given as `net`. */
    method Fetch(req: Request, net: Network) returns (reply: Reply, fetched: bool)
      requires Valid()
      modifies this
      ensures Valid()
      ensures !Handles(req) ==> reply == NotHandled && !fetched && store == old(store)
      ensures Handles(req) ==>
        var o := Respond(Opened(old(store))[CacheName], req, net, origin, indexUrl);
        reply == o.reply && fetched == o.fetched && store == Opened(old(store))[CacheName := o.cache]
    {
      if req.verb != "GET" {
        return NotHandled, false;
      }
      if !StartsWith(req.url, "http") {
        return NotHandled, false;
      }
      if CacheName !in store {
        store := store[CacheName := map[]];
      }
      var cache := store[CacheName];
      var cachedResponse := Match(cache, req.url);
      if cachedResponse.Some? {
        return Served(cachedResponse.value), false;
      }
      fetched := true;
      match net {
        case Delivered(networkResponse) =>
          if networkResponse.status == 200 {
            if StartsWith(req.url, origin) || Contains(req.url, "cdn.tailwindcss.com")
               || Contains(req.url, "aistudiocdn.com") || Contains(req.url, "api.iconify.design") {
              store := store[CacheName := cache[req.url := networkResponse]];
            }
          }
          reply := Served(networkResponse);
        case Unreachable =>
          if req.mode == "navigate" {
            var index := Match(cache, indexUrl);
            reply := if index.Some? then Served(index.value) else ServedNothing;
          } else {
            reply := Rejected;
          }
      }
      RespondKeepsOnlyStorable(cache, req, net, origin, indexUrl);
    }

    /** The `activate` listener: every cache but `CACHE_NAME` is deleted; that one is kept as it is. */
    method Activate()
      requires Valid()
      modifies this
      ensures Valid()
      ensures store.Keys == old(store).Keys * {CacheName}
      ensures CacheName in store ==> store[CacheName] == old(store)[CacheName]
    {
      var pending := store.Keys;
      while pending != {}
        invariant forall n :: n in store <==> n in old(store) && (n == CacheName || n in pending)
        invariant forall n :: n in store ==> store[n] == old(store)[n]
        decreases |pending|
      {
        var cacheName :| cacheName in pending;
        if cacheName != CacheName {
          store := store - {cacheName};
        }
        pending := pending - {cacheName};
      }
    }
  }
}
