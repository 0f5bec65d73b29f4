/** The service worker (frontend/public/sw.js): its install, cache-first fetch,
    activate and share-target handlers, each as one operation on the cache storage.
    The network's answers are parameters. */
module ServiceWorker {
  import opened Wrappers
  import opened Browser
  import opened Caches

  const CacheName := "calendar-assistant-v1"
  const UrlsToCache := ["/", "/index.html", "/styles.css", "/app.js", "/manifest.json"]
  const SharedImagesCache := "shared-images"
  const SharedImageKey := "/shared-image"
  const ShareRedirect := "/?share-target=true"

  /** `Response.redirect(location, status)` */
  datatype Redirect = Redirect(location: string, status: int)

  /** `response.ok` */
  predicate IsOk(response: Response) {
    200 <= response.status <= 299
  }

  /** `cache.addAll(urls)` succeeds only when every URL was fetched with an ok answer. */
  predicate AllFetchedOk(network: map<string, Response>, urls: seq<string>) {
    forall u :: u in urls ==> u in network && IsOk(network[u])
  }

  /** The entries `addAll` stores: each listed URL with its fetched response. */
  function Fetched(network: map<string, Response>, urls: seq<string>): (entries: Entries)
    requires AllFetchedOk(network, urls)
    ensures entries.Keys == set u | u in urls
    ensures forall u :: u in entries ==> entries[u] == network[u]
  {
    map u | u in urls :: network[u]
  }

  /** The fetch handler stores a network response only when its status is 200 and its
      type is "basic". */
  function Cacheable(response: Response): (cacheable: bool)
    ensures cacheable ==> IsOk(response)
    ensures response.status != 200 ==> !cacheable
    ensures response.kind != "basic" ==> !cacheable
    ensures response.status == 200 && response.kind == "basic" ==> cacheable
  {
    response.status == 200 && response.kind == "basic"
  }

  /** The install handler: open the app cache and add the five asset URLs, all or none. */
  method Install(storage: CacheStorage, network: map<string, Response>) returns (installed: bool)
    requires storage.Valid()
    modifies storage
    ensures storage.Valid()
    ensures installed <==> AllFetchedOk(network, UrlsToCache)
    ensures CacheName in storage.caches
    ensures storage.order ==
      if CacheName in old(storage.caches) then old(storage.order) else old(storage.order) + [CacheName]
    ensures installed ==>
      storage.caches == old(storage.caches)[CacheName := EntriesOf(old(storage.caches), CacheName) + Fetched(network, UrlsToCache)]
    ensures !installed ==>
      storage.caches == old(storage.caches)[CacheName := EntriesOf(old(storage.caches), CacheName)]
  {
    storage.Open(CacheName);
    installed := AllFetchedOk(network, UrlsToCache);
    if installed {
      storage.PutAll(CacheName, Fetched(network, UrlsToCache));
    }
  }

  /** Install stores exactly the five listed assets. */
  lemma InstallStoresTheFiveAssets(network: map<string, Response>)
    requires AllFetchedOk(network, UrlsToCache)
    ensures Fetched(network, UrlsToCache).Keys == {"/", "/index.html", "/styles.css", "/app.js", "/manifest.json"}
  {
  }

  /** The cache-first fetch handler. A cached answer is returned and the network is not
      used. Otherwise the network's answer (none: the fetch failed) is returned as it
      came, and a response with status 200 and type "basic" is also put in the app cache. */
  method HandleFetch(storage: CacheStorage, request: Request, network: Option<Response>)
    returns (response: Option<Response>, usedNetwork: bool)
    requires storage.Valid()
    modifies storage
    ensures storage.Valid()
    ensures old(storage.Match(request)).Some? ==>
      && response == old(storage.Match(request)) && !usedNetwork
      && storage.caches == old(storage.caches) && storage.order == old(storage.order)
    ensures old(storage.Match(request)).None? ==> usedNetwork && response == network
    ensures old(storage.Match(request)).None? && network.Some? && Cacheable(network.value) ==>
      && CacheName in storage.caches
      && storage.order ==
           (if CacheName in old(storage.caches) then old(storage.order) else old(storage.order) + [CacheName])
      && storage.caches == old(storage.caches)[CacheName :=
           if request.verb == "GET" then EntriesOf(old(storage.caches), CacheName)[request.url := network.value]
           else EntriesOf(old(storage.caches), CacheName)]
    ensures network.None? || !Cacheable(network.value) ==>
      storage.caches == old(storage.caches) && storage.order == old(storage.order)
  {
    var hit := storage.Match(request);
    if hit.Some? {
      return hit, false;
    }
    usedNetwork := true;
    response := network;
    if network.None? || !Cacheable(network.value) {
      return;
    }
    storage.Open(CacheName);
    var _ := storage.Put(CacheName, request, network.value);
  }

  /** The activate handler: every cache whose name is not the app cache is deleted, one
      name at a time over the names present when it starts; the app cache is kept. */
  method Activate(storage: CacheStorage)
    requires storage.Valid()
    modifies storage
    ensures storage.Valid()
    ensures forall n :: n in storage.caches <==> n in old(storage.caches) && n == CacheName
    ensures forall n :: n in storage.caches ==> storage.caches[n] == old(storage.caches)[n]
    ensures storage.order == if CacheName in old(storage.caches) then [CacheName] else []
  {
    var cacheNames := storage.order;
    var i := 0;
    while i < |cacheNames|
      invariant 0 <= i <= |cacheNames|
      invariant storage.Valid()
      invariant forall n :: n in storage.caches <==>
        n in old(storage.caches) && (n == CacheName || n !in cacheNames[..i])
      invariant forall n :: n in storage.caches ==> storage.caches[n] == old(storage.caches)[n]
    {
      assert cacheNames[..i + 1] == cacheNames[..i] + [cacheNames[i]];
      if cacheNames[i] != CacheName {
        var _ := storage.Delete(cacheNames[i]);
      }
      i := i + 1;
    }
    assert cacheNames[..i] == cacheNames;
    OnlyNameLeft(storage.order, CacheName);
  }

  /** A list of distinct names, all equal to one name, is that name or nothing. */
  lemma OnlyNameLeft(names: seq<string>, name: string)
    requires Distinct(names)
    requires forall x :: x in names ==> x == name
    ensures names == if name in names then [name] else []
  {
    if |names| >= 2 {
      FirstTwo(names);
      assert false;
    }
    if |names| == 1 {
      assert names[0] in names;
    }
  }

  /** The first two of a list of names, and that they are in it. */
  lemma FirstTwo(names: seq<string>)
    requires |names| >= 2
    ensures names[0] in names && names[1] in names
    ensures Distinct(names) ==> names[0] != names[1]
  {
  }

  /** The share-target fetch handler. A POST to "/" carrying an image stores it as
      "/shared-image" in the "shared-images" cache and redirects (303) to the app with
      the share flag; without an image it redirects (303) to "/" and stores nothing.
      Any other request is left alone. */
  method HandleShareTarget(storage: CacheStorage, request: Request, image: Option<Blob>)
    returns (reply: Option<Redirect>)
    requires storage.Valid()
    modifies storage
    ensures storage.Valid()
    ensures !(Pathname(request.url) == "/" && request.verb == "POST") || image.None? ==>
      storage.caches == old(storage.caches) && storage.order == old(storage.order)
    ensures !(Pathname(request.url) == "/" && request.verb == "POST") ==> reply.None?
    ensures Pathname(request.url) == "/" && request.verb == "POST" && image.None? ==>
      reply == Some(Redirect("/", 303))
    ensures Pathname(request.url) == "/" && request.verb == "POST" && image.Some? ==>
      && reply == Some(Redirect(ShareRedirect, 303))
      && storage.order == (if SharedImagesCache in old(storage.caches) then old(storage.order)
                           else old(storage.order) + [SharedImagesCache])
      && storage.caches == old(storage.caches)[SharedImagesCache :=
           EntriesOf(old(storage.caches), SharedImagesCache)[SharedImageKey := Response(200, "default", image.value)]]
  {
    if !(Pathname(request.url) == "/" && request.verb == "POST") {
      return None;
    }
    if image.Some? {
      storage.Open(SharedImagesCache);
      var _ := storage.Put(SharedImagesCache, Request("GET", SharedImageKey), Response(200, "default", image.value));
      return Some(Redirect(ShareRedirect, 303));
    }
    return Some(Redirect("/", 303));
  }
}
