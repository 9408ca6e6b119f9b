/** The two file operations that decide something themselves rather than
    forward to the driver: `Get`, which resolves a path to one object
    (answering the root folder itself when the driver's addition names
    it), and `Link`, which resolves a path to an access link through a
    process-wide expiring cache keyed by the account's mount point and the
    path. */
module Operations {
  import opened Drivers
  import opened Paths

  const RootName := "root"
  const FailedGetParentList := "failed get parent list"
  const FailedGetLink := "failed get link"

  // ---------------------------------------------------------------------
  // Get

  /** The synthetic folder answered for the root of a storage. */
  function RootFolder(account: Account): (f: File)
    ensures f.name == RootName && f.size == 0 && f.isFolder
  {
    File(RootName, 0, account.modified, true)
  }

  /** The addition reports a root folder id and `path` denotes "/". */
  predicate IsRootById(d: Driver, path: string)
  {
    d.addition.rootFolderId.Some? && PathEqual(path, "/")
  }

  /** The addition reports a root folder path and `path` denotes it. */
  predicate IsRootByPath(d: Driver, path: string)
  {
    d.addition.rootFolderPath.Some? && PathEqual(path, d.addition.rootFolderPath.value)
  }

  /** `f` is the first entry of `files` named `name`. */
  ghost predicate FirstNamed(files: seq<FileInfo>, name: string, f: FileInfo)
  {
    exists i :: 0 <= i < |files| && files[i] == f && files[i].Name() == name &&
      forall j :: 0 <= j < i ==> files[j].Name() != name
  }

  /** No entry of `files` is named `name`. */
  ghost predicate NoneNamed(files: seq<FileInfo>, name: string)
  {
    forall i :: 0 <= i < |files| ==> files[i].Name() != name
  }

  /** Position of the first entry of `files` named `name`. */
  function FindByName(files: seq<FileInfo>, name: string): (i: Option<nat>)
    ensures i.Some? ==> i.value < |files| && files[i.value].Name() == name
    ensures i.Some? ==> forall j :: 0 <= j < i.value ==> files[j].Name() != name
    ensures i.None? ==> NoneNamed(files, name)
  {
    if files == [] then None
    else if files[0].Name() == name then Some(0)
    else
      match FindByName(files[1..], name)
      case None => None
      case Some(k) => Some(k + 1)
  }

  /** Resolves `path` on driver `d` to one object. The root-folder-id rule
      is tried first, then the root-folder-path rule; each answers the
      synthetic root folder without listing anything. Otherwise the parent
      directory is listed and the first entry bearing the last path
      component is returned. */
  function Get(d: Driver, path: string): (r: Result<FileInfo>)
    ensures IsRootById(d, path) ==>
      r == Ok(WithId(d.addition.rootFolderId.value, RootFolder(d.account)))
    ensures !IsRootById(d, path) && IsRootByPath(d, path) ==>
      r == Ok(Plain(RootFolder(d.account)))
    ensures !IsRootById(d, path) && !IsRootByPath(d, path) ==>
      var dir, name := Split(path).0, Split(path).1;
      && (d.list(dir).Err? ==> r == Err(WithMessage(d.list(dir).error, FailedGetParentList)))
      && (d.list(dir).Ok? && r.Ok? ==> FirstNamed(d.list(dir).value, name, r.value))
      && (d.list(dir).Ok? && r.Err? ==> r.error == ObjectNotFound && NoneNamed(d.list(dir).value, name))
  {
    if IsRootById(d, path) then
      Ok(WithId(d.addition.rootFolderId.value, RootFolder(d.account)))
    else if IsRootByPath(d, path) then
      Ok(Plain(RootFolder(d.account)))
    else
      var parts := Split(path);
      match d.list(parts.0)
      case Err(e) => Err(WithMessage(e, FailedGetParentList))
      case Ok(files) =>
        match FindByName(files, parts.1)
        case Some(i) => Ok(files[i])
        case None => Err(ObjectNotFound)
  }

  /** When either root rule fires, the answer does not depend on what the
      driver would list. */
  lemma GetRootIgnoresListing(d: Driver, path: string, other: string -> Result<seq<FileInfo>>)
    requires IsRootById(d, path) || IsRootByPath(d, path)
    ensures Get(d, path).Ok? && Get(d, path).value.Name() == RootName
    ensures Get(d.(list := other), path) == Get(d, path)
  {
  }

  /** A listed entry bearing the requested name is found: the lookup
      succeeds whenever the listing succeeds and holds such an entry. */
  lemma GetFindsListedEntry(d: Driver, path: string, i: nat)
    requires !IsRootById(d, path) && !IsRootByPath(d, path)
    requires d.list(Split(path).0).Ok?
    requires i < |d.list(Split(path).0).value|
    requires d.list(Split(path).0).value[i].Name() == Split(path).1
    ensures Get(d, path).Ok?
    ensures Get(d, path).value.Name() == Split(path).1
  {
  }

  /** The root rules compare paths after making them rooted and cleaning
      them, so the empty path is the root "/". */
  lemma GetEmptyPathIsRoot(d: Driver)
    requires d.addition.rootFolderId.Some?
    ensures Get(d, "") == Ok(WithId(d.addition.rootFolderId.value, RootFolder(d.account)))
  {
  }

  /** The root rules ignore a trailing slash, but the listing does not: a
      path ending in '/' lists that path itself and looks for an entry
      with the empty name. */
  lemma GetTrailingSlash(d: Driver, path: string)
    requires path != [] && path[|path| - 1] == '/'
    ensures IsRootById(d, path) == IsRootById(d, path[..|path| - 1])
    ensures IsRootByPath(d, path) == IsRootByPath(d, path[..|path| - 1])
    ensures Split(path) == (path, [])
  {
    var p := path[..|path| - 1];
    assert p + "/" == path;
    CanonicalIgnoresTrailingSlash(p);
    assert Canonical(path) == Canonical(p);
    SplitUnique(path, path, []);
  }

  // ---------------------------------------------------------------------
  // Link

  /** The cache key of a link request: the account's mount point joined
      with the requested path. */
  function LinkKey(account: Account, path: string): (key: string)
    ensures key == [] <==> account.virtualPath == [] && path == []
  {
    Join(account.virtualPath, path)
  }

  /** A cached link and the instant it stops being served. */
  datatype Entry = Entry(link: Link, expiry: Time)

  /** Whether the cache serves `key` at instant `now`. The cache library is
      not part of this model; this model assumes its lookup answers an
      entry exactly when one is stored and `now` is strictly before its
      expiry, and that a lookup changes nothing. */
  predicate Live(cache: map<string, Entry>, key: string, now: Time)
  {
    key in cache && now < cache[key].expiry
  }

  /** What one `Link` request does, given the cache before it, its key, the
      clock, and what the driver's `Link` call returns for it: the answer,
      the cache after it, and whether the driver was called. */
  datatype Resolution = Resolution(result: Result<Link>, cache: map<string, Entry>, backendCalled: bool)

  function ResolveLink(cache: map<string, Entry>, key: string, now: Time, backend: Result<Link>): (res: Resolution)
    ensures res.backendCalled <==> !Live(cache, key, now)
    ensures res.result.Ok? <==> Live(cache, key, now) || backend.Ok?
    ensures res.result.Err? ==> res.cache == cache
    ensures res.cache - {key} == cache - {key}
  {
    if Live(cache, key, now) then
      Resolution(Ok(cache[key].link), cache, false)
    else
      match backend
      case Err(e) => Resolution(Err(WithMessage(e, FailedGetLink)), cache, true)
      case Ok(link) =>
        var cache' := if link.expiration.Some? then cache[key := Entry(link, now + link.expiration.value)] else cache;
        Resolution(Ok(link), cache', true)
  }

  /** The key is a function of the mount point and the path alone: two
      accounts mounted at the same place share every key. */
  lemma LinkKeyOfMountAndPath(a1: Account, a2: Account, path: string)
    requires a1.virtualPath == a2.virtualPath
    ensures LinkKey(a1, path) == LinkKey(a2, path)
  {
  }

  /** Keys are not unique across mounts: under a storage mounted at
      `mount`, the path "/dir/rest" gets the same key as "/rest" under a
      storage mounted at `mount/dir`. */
  lemma LinkKeyNestedMountsCollide(mount: string, dir: string, rest: string, t1: Time, t2: Time)
    ensures LinkKey(Account(mount, t1), "/" + dir + "/" + rest) == LinkKey(Account(mount + "/" + dir, t2), "/" + rest)
  {
    JoinNestedCollide(mount, dir, rest);
  }

  /** A live entry is answered as it is: no driver call, cache unchanged. */
  lemma CacheHitSkipsBackend(cache: map<string, Entry>, key: string, now: Time, backend: Result<Link>)
    requires Live(cache, key, now)
    ensures ResolveLink(cache, key, now, backend) == Resolution(Ok(cache[key].link), cache, false)
  {
  }

  /** On a miss, a driver failure comes back tagged and caches nothing. */
  lemma BackendFailureNotCached(cache: map<string, Entry>, key: string, now: Time, e: Error)
    requires !Live(cache, key, now)
    ensures ResolveLink(cache, key, now, Err(e)) == Resolution(Err(WithMessage(e, FailedGetLink)), cache, true)
  {
  }

  /** On a miss, a link with an expiration is returned and cached under the
      key until `now` plus that expiration, replacing any stale entry. */
  lemma ExpiringLinkCached(cache: map<string, Entry>, key: string, now: Time, link: Link)
    requires !Live(cache, key, now)
    requires link.expiration.Some?
    ensures var res := ResolveLink(cache, key, now, Ok(link));
      && res.result == Ok(link)
      && key in res.cache && res.cache[key] == Entry(link, now + link.expiration.value)
      && res.cache.Keys == cache.Keys + {key}
  {
  }

  /** Once cached with expiration `d` at `now`, a link is served without a
      driver call at every instant strictly before `now + d`, and the driver
      is called again from `now + d` on. */
  lemma CachedUntilExpiry(cache: map<string, Entry>, key: string, now: Time, link: Link, later: Time, next: Result<Link>)
    requires !Live(cache, key, now)
    requires link.expiration.Some?
    ensures var second := ResolveLink(ResolveLink(cache, key, now, Ok(link)).cache, key, later, next);
      && (second.backendCalled <==> later >= now + link.expiration.value)
      && (!second.backendCalled ==> second.result == Ok(link))
  {
  }

  /** On a miss, a link without an expiration is returned, the cache stays
      as it was, and the next request for the key (at the same instant or
      later) calls the driver again. */
  lemma NonExpiringLinkNotCached(cache: map<string, Entry>, key: string, now: Time, link: Link, later: Time, next: Result<Link>)
    requires !Live(cache, key, now)
    requires link.expiration.None?
    requires now <= later
    ensures ResolveLink(cache, key, now, Ok(link)) == Resolution(Ok(link), cache, true)
    ensures ResolveLink(ResolveLink(cache, key, now, Ok(link)).cache, key, later, next).backendCalled
  {
  }

  /** After a driver failure, the next request for the key calls the driver
      again. */
  lemma FailureRetried(cache: map<string, Entry>, key: string, now: Time, e: Error, later: Time, next: Result<Link>)
    requires !Live(cache, key, now)
    requires now <= later
    ensures ResolveLink(ResolveLink(cache, key, now, Err(e)).cache, key, later, next).backendCalled
  {
  }

  /** One call of a driver's `Link`, as recorded in the service's log. */
  datatype LinkRequest = LinkRequest(account: Account, path: string, args: LinkArgs)

  /** The process-wide link cache and the log of the driver calls made on
      its behalf. */
  class LinkService {
    var cache: map<string, Entry>
    ghost var backendLog: seq<LinkRequest>

    constructor ()
      ensures cache == map[] && backendLog == []
    {
      cache := map[];
      backendLog := [];
    }

    /** The cache's lookup. */
    method Lookup(key: string, now: Time) returns (hit: Option<Link>)
      ensures hit.Some? <==> Live(cache, key, now)
      ensures hit.Some? ==> hit.value == cache[key].link
    {
      if key in cache && now < cache[key].expiry {
        hit := Some(cache[key].link);
      } else {
        hit := None;
      }
    }

    /** The cache's store, overwriting any entry under `key`. */
    method Store(key: string, link: Link, expiry: Time)
      modifies this`cache
      ensures cache == old(cache)[key := Entry(link, expiry)]
    {
      cache := cache[key := Entry(link, expiry)];
    }

    /** The producer a cache miss runs once: call the driver, tag a failure,
        and cache a success under its expiration when it has one. */
    method Produce(key: string, now: Time, d: Driver, path: string, args: LinkArgs) returns (r: Result<Link>)
      modifies this
      ensures d.link(path, args).Err? ==>
        r == Err(WithMessage(d.link(path, args).error, FailedGetLink)) && cache == old(cache)
      ensures d.link(path, args).Ok? ==> r == d.link(path, args)
      ensures d.link(path, args).Ok? && d.link(path, args).value.expiration.Some? ==>
        cache == old(cache)[key := Entry(d.link(path, args).value, now + d.link(path, args).value.expiration.value)]
      ensures d.link(path, args).Ok? && d.link(path, args).value.expiration.None? ==> cache == old(cache)
      ensures backendLog == old(backendLog) + [LinkRequest(d.account, path, args)]
    {
      backendLog := backendLog + [LinkRequest(d.account, path, args)];
      match d.link(path, args)
      case Err(e) =>
        r := Err(WithMessage(e, FailedGetLink));
      case Ok(link) =>
        if link.expiration.Some? {
          Store(key, link, now + link.expiration.value);
        }
        r := Ok(link);
    }

    /** Resolves `path` on `d` to a link: a live cached link is answered
        without calling the driver; otherwise the driver is called once and
        its answer is cached when it carries an expiration. */
    method Link(now: Time, d: Driver, path: string, args: LinkArgs) returns (r: Result<Link>)
      modifies this
      ensures var res := ResolveLink(old(cache), LinkKey(d.account, path), now, d.link(path, args));
        && r == res.result
        && cache == res.cache
        && backendLog == old(backendLog) + (if res.backendCalled then [LinkRequest(d.account, path, args)] else [])
    {
      var key := LinkKey(d.account, path);
      var hit := Lookup(key, now);
      if hit.Some? {
        return Ok(hit.value);
      }
      r := Produce(key, now, d, path, args);
    }
  }
}
