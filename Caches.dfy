/** The browser's cache storage as the service worker (frontend/public/sw.js) and the
    page (frontend/src/pwa.js) use it: named caches, each a table from request URL to
    response, kept in creation order because a lookup across all caches takes the first
    cache that holds the URL. */
module Caches {
  import opened Wrappers
  import opened Browser

  type Entries = map<string, Response>

  ghost predicate Distinct(names: seq<string>) {
    forall i, j :: 0 <= i < j < |names| ==> names[i] != names[j]
  }

  /** Removing the element at `k` of a tail commutes with putting `x` in front. */
  lemma SpliceCons(x: string, tail: seq<string>, k: int)
    requires 0 <= k < |tail|
    ensures [x] + (tail[..k] + tail[k + 1..]) == ([x] + tail)[..k + 1] + ([x] + tail)[k + 2..]
  {
    assert ([x] + tail)[..k + 1] == [x] + tail[..k];
    assert ([x] + tail)[k + 2..] == tail[k + 1..];
  }

  /** `r` is `names` with the element at `k`, which is `name`, taken out. */
  ghost predicate RemovedAt(names: seq<string>, name: string, r: seq<string>, k: int) {
    0 <= k < |names| && names[k] == name && r == names[..k] + names[k + 1..]
  }

  /** `names` without `name`, the others in the same order. */
  function Remove(names: seq<string>, name: string): (r: seq<string>)
    ensures forall x :: x in r <==> x in names && x != name
    ensures Distinct(names) ==> Distinct(r)
    ensures name !in names ==> r == names
    ensures Distinct(names) && name in names ==> exists k :: RemovedAt(names, name, r, k)
    decreases |names|
  {
    if names == [] then []
    else if names[0] == name then
      var rest := Remove(names[1..], name);
      assert Distinct(names) ==> Distinct(names[1..]) && name !in names[1..];
      assert Distinct(names) ==> RemovedAt(names, name, rest, 0);
      rest
    else
      var rest := Remove(names[1..], name);
      var r := [names[0]] + rest;
      assert Distinct(names) ==> Distinct(names[1..]) && names[0] !in names[1..];
      assert names == [names[0]] + names[1..];
      assert Distinct(names) && name in names ==> exists k :: RemovedAt(names, name, r, k) by {
        if Distinct(names) && name in names {
          var k :| RemovedAt(names[1..], name, rest, k);
          SpliceCons(names[0], names[1..], k);
          assert RemovedAt(names, name, r, k + 1);
        }
      }
      r
  }

  /** The entries of cache `name`, or none when it does not exist. */
  function EntriesOf(caches: map<string, Entries>, name: string): Entries {
    if name in caches then caches[name] else map[]
  }

  /** `caches.match(url)` over caches taken in `order`: the first cache holding the URL
      answers. */
  function MatchIn(order: seq<string>, caches: map<string, Entries>, url: string): (r: Option<Response>)
    requires forall n :: n in order ==> n in caches
    ensures r.None? <==> forall n :: n in order ==> url !in caches[n]
    ensures r.Some? ==> exists n :: n in order && url in caches[n] && r.value == caches[n][url]
    ensures r.Some? ==> exists k :: FirstHolder(order, caches, url, k) && r.value == caches[order[k]][url]
    decreases |order|
  {
    if order == [] then None
    else if url in caches[order[0]] then
      assert FirstHolder(order, caches, url, 0);
      Some(caches[order[0]][url])
    else
      var r := MatchIn(order[1..], caches, url);
      assert r.Some? ==> exists k :: FirstHolder(order, caches, url, k) && r.value == caches[order[k]][url] by {
        if r.Some? {
          var k :| FirstHolder(order[1..], caches, url, k) && r.value == caches[order[1..][k]][url];
          assert FirstHolder(order, caches, url, k + 1);
        }
      }
      r
  }

  /** `order[k]` is the first cache in `order` that holds `url`. */
  ghost predicate FirstHolder(order: seq<string>, caches: map<string, Entries>, url: string, k: int)
    requires forall n :: n in order ==> n in caches
  {
    && 0 <= k < |order| && url in caches[order[k]]
    && forall m :: 0 <= m < k ==> url !in caches[order[m]]
  }

  class CacheStorage {
    /** Cache names, oldest first. */
    var order: seq<string>
    var caches: map<string, Entries>

    ghost predicate Valid()
      reads this
    {
      (forall n :: n in caches <==> n in order) && Distinct(order)
    }

    constructor ()
      ensures Valid() && order == [] && caches == map[]
    {
      order := [];
      caches := map[];
    }

    /** `caches.open(name)`: the cache is created, empty and newest, when it does not exist. */
    method Open(name: string)
      requires Valid()
      modifies this
      ensures Valid()
      ensures name in old(caches) ==> caches == old(caches) && order == old(order)
      ensures name !in old(caches) ==> caches == old(caches)[name := map[]] && order == old(order) + [name]
    {
      if name !in caches {
        caches := caches[name := map[]];
        order := order + [name];
      }
    }

    /** `cache.put(request, response)`: only a GET request can be stored (any other is
        rejected and nothing changes). */
    method Put(name: string, request: Request, response: Response) returns (stored: bool)
      requires Valid() && name in caches
      modifies this`caches
      ensures Valid()
      ensures stored <==> request.verb == "GET"
      ensures stored ==> caches == old(caches)[name := old(caches)[name][request.url := response]]
      ensures !stored ==> caches == old(caches)
    {
      stored := request.verb == "GET";
      if stored {
        caches := caches[name := caches[name][request.url := response]];
      }
    }

    /** `cache.addAll` once every fetch has answered ok: all the entries at once. */
    method PutAll(name: string, entries: Entries)
      requires Valid() && name in caches
      modifies this`caches
      ensures Valid()
      ensures caches == old(caches)[name := old(caches)[name] + entries]
    {
      caches := caches[name := caches[name] + entries];
    }

    /** `cache.delete(url)` */
    method DeleteEntry(name: string, url: string) returns (deleted: bool)
      requires Valid() && name in caches
      modifies this`caches
      ensures Valid()
      ensures deleted <==> url in old(caches)[name]
      ensures caches == old(caches)[name := old(caches)[name] - {url}]
    {
      deleted := url in caches[name];
      caches := caches[name := caches[name] - {url}];
    }

    /** `caches.delete(name)` */
    method Delete(name: string) returns (deleted: bool)
      requires Valid()
      modifies this
      ensures Valid()
      ensures deleted <==> name in old(caches)
      ensures caches == old(caches) - {name}
      ensures order == Remove(old(order), name)
    {
      deleted := name in caches;
      caches := caches - {name};
      order := Remove(order, name);
    }

    /** `caches.match(request)`: a request other than GET matches nothing. */
    function Match(request: Request): (r: Option<Response>)
      reads this
      requires Valid()
      ensures request.verb != "GET" ==> r.None?
      ensures request.verb == "GET" ==> (r.None? <==> forall n :: n in order ==> request.url !in caches[n])
      ensures r.Some? ==>
        exists k :: FirstHolder(order, caches, request.url, k) && r.value == caches[order[k]][request.url]
    {
      if request.verb != "GET" then None else MatchIn(order, caches, request.url)
    }
  }
}
