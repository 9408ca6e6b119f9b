# alist file operations: object lookup and the link cache

This project models the two operations of alist's storage-operations layer
(`internal/operations/fs.go`) that decide something themselves instead of
forwarding to the storage driver:

- **`Get`** resolves a path on a storage to one object. When the driver's
  addition reports a root folder id and the path denotes "/", it answers a
  synthetic folder named "root" carrying that id. When the addition instead
  reports a root folder path and the path denotes it, it answers the same
  synthetic folder without an id. Otherwise it splits the path into parent
  directory and final name, lists the parent, and returns the first entry
  with that name. If the listing fails, the error comes back tagged
  "failed get parent list". If no entry has the name, the answer is
  "object not found".
- **`Link`** resolves a path to an access link through a process-wide
  expiring cache. The key is the storage's mount point (`VirtualPath`)
  joined with the path. A live cached link is answered without calling the
  driver. On a miss the driver's `Link` is called once. A failure comes back
  tagged "failed get link" and nothing is cached. A link with an expiration
  is cached until the current instant plus that expiration. A link without
  one is returned but not cached.

Files:

- `drivers.dfy` (module `Drivers`): the values exchanged with a driver. A
  driver is a record of its account, its addition, and two pure functions
  that stand for its `List` and `Link` calls.
- `paths.dfy` (module `Paths`): the path utilities these operations rely on:
  Go's `path.Split`, `path.Clean` and two-argument `path.Join`, and the
  comparison the root rules use. Their code is not part of this model.
  `Split`, `Clean` and `Join` follow the behaviour of Go's standard `path`
  package.
- `fs.dfy` (module `Operations`): `Get` as a function; `ResolveLink`, the
  pure specification of one `Link` request; class `LinkService`, which owns
  the cache map and a ghost log of driver calls, with its `Link` method
  proved equal to `ResolveLink`; and the lemmas.

The clock is a parameter (`now`) of each `Link` request. Its result is
undetermined input, so it is not modelled. The driver's listings and links
are likewise given as functions of their arguments.

Assumption about the cache library, which is not part of this model: an
entry is served exactly when it is stored and `now` is strictly before its
expiry, and a lookup changes nothing (`Operations.Live`). This is assumed,
not proved.

Assumption about `utils.PathEqual`, which is not part of this model: two
paths are equal when, after each is given a leading '/' if it lacks one,
they clean to the same path (`Paths.Canonical`, `Paths.PathEqual`). This
is assumed, not proved. The lemmas that depend on it are `GetEmptyPathIsRoot`,
the first two ensures of `GetTrailingSlash`, `CanonicalIgnoresTrailingSlash`
and `CanonicalIgnoresLeadingSlash`. A comparison that did not clean
(for example one that only trims a trailing '/' and adds a leading '/')
would decide differently for paths such as "/a//" or "/a/..".

Two facts about the code shape the model:

- `Link.Expiration` is a duration, and the cache keeps the entry until the
  current time plus it (fs.go:69-70), so the model caches until
  `now + expiration`.
- Keys are not unique across storages: `path.Join(VirtualPath, path)`
  (fs.go:60) collides for nested mounts. `LinkKeyNestedMountsCollide`
  proves that a storage mounted at `m` asking for "/d/r" gets the same key
  as a storage mounted at `m/d` asking for "/r".

## Model

| member | source | states |
|---|---|---|
| Operations.FindByName | internal/operations/fs.go:47-51 | the index returned holds an entry with the name and no earlier entry has it; no index means no entry has the name |
| Operations.Get | internal/operations/fs.go:22-53 | root-folder-id rule first (root folder with the id, for a path denoting "/"), then root-folder-path rule (root folder without id); otherwise a listing error is tagged "failed get parent list", a success is the first listed entry with the last path component as name, and a failure is object-not-found with no entry of that name |
| Operations.RootFolder | internal/operations/fs.go:24-40 | the synthetic root is a folder named "root" of size 0 |
| Operations.GetRootIgnoresListing | internal/operations/fs.go:23-41 | when either root rule fires the answer is the root folder and does not depend on the driver's listing at all |
| Operations.GetFindsListedEntry | internal/operations/fs.go:42-51 | outside the root rules, an entry of the parent listing bearing the name guarantees a successful lookup returning an entry with that name |
| Operations.GetEmptyPathIsRoot | internal/operations/fs.go:23 | the empty path denotes "/" for the root-folder-id rule |
| Operations.GetTrailingSlash | internal/operations/fs.go:23-42 | the root rules ignore a trailing slash, while the listing branch lists the path itself and seeks an entry with the empty name |
| Operations.LinkKey | internal/operations/fs.go:60 | the key is empty only when both the mount point and the path are |
| Operations.LinkKeyOfMountAndPath | internal/operations/fs.go:60 | the key depends only on the account's mount point and the path |
| Operations.LinkKeyNestedMountsCollide | internal/operations/fs.go:60 | "/d/r" under mount `m` and "/r" under mount `m/d` get the same key |
| Operations.ResolveLink | internal/operations/fs.go:59-76 | the driver is called exactly on a miss; the answer fails only when the driver fails on a miss; a failure leaves the cache unchanged; no key other than the requested one changes |
| Operations.CacheHitSkipsBackend | internal/operations/fs.go:60-63 | a live entry is answered as it is, without a driver call and with the cache unchanged |
| Operations.BackendFailureNotCached | internal/operations/fs.go:65-68 | on a miss a driver error is returned tagged "failed get link", no link is returned and the cache is unchanged |
| Operations.ExpiringLinkCached | internal/operations/fs.go:69-75 | on a miss a link with an expiration is returned and cached under the key until now plus the expiration; the cache gains at most that key |
| Operations.CachedUntilExpiry | internal/operations/fs.go:61-72 | after caching at `now` with expiration `d`, a later request is answered from the cache with that link exactly when it comes before `now + d`, and calls the driver otherwise |
| Operations.NonExpiringLinkNotCached | internal/operations/fs.go:69-72 | on a miss a link without an expiration is returned, the cache is unchanged, and the next request for the key calls the driver again |
| Operations.FailureRetried | internal/operations/fs.go:65-68 | after a driver failure the next request for the key calls the driver again |
| Operations.LinkService.constructor | internal/operations/fs.go:55 | the cache starts empty |
| Operations.LinkService.Lookup | internal/operations/fs.go:61 | a link is found exactly when the key's entry is live, and it is the stored link |
| Operations.LinkService.Store | internal/operations/fs.go:70 | the entry under the key is replaced and nothing else changes |
| Operations.LinkService.Produce | internal/operations/fs.go:64-73 | one driver call is logged; a failure is tagged and caches nothing; a success is returned and cached under now plus its expiration exactly when it has one |
| Operations.LinkService.Link | internal/operations/fs.go:59-76 | the answer, the new cache and the driver calls logged are exactly those `ResolveLink` gives for the old cache, the key of the account's mount point and the path, and what the driver returns |
| Paths.Clean | internal/operations/fs.go:60 | the cleaned path is never empty, and a rooted path stays rooted |
| Paths.Join | internal/operations/fs.go:60 | the join is empty exactly when both parts are empty |
| Paths.Split | internal/operations/fs.go:42 | directory and name concatenate to the path, the name holds no slash, and the directory is empty or ends in a slash |
| Paths.SplitUnique | internal/operations/fs.go:42 | those three facts determine the split |
| Paths.CanonicalIgnoresTrailingSlash | internal/operations/fs.go:23 | path comparison ignores a trailing slash |
| Paths.CanonicalIgnoresLeadingSlash | internal/operations/fs.go:34 | path comparison ignores a missing leading slash |
| Paths.ElementsConcat | internal/operations/fs.go:60 | joining two paths with a slash concatenates their elements, so doubled slashes add nothing |
| Paths.JoinNestedCollide | internal/operations/fs.go:60 | joining "/d/r" onto `m` equals joining "/r" onto `m/d` |

## Left out

- The forwarders `List`, `MakeDir`, `Move`, `Rename`, `Copy`, `Remove` and `Put` (fs.go:18-20, 78-101) only delegate to the driver. `Get` calls the driver's listing directly.
- Request coalescing (`linkG.Do`, fs.go:56 and 74) exists for concurrent callers sharing one in-flight call. The model is sequential, so it runs the producer once, directly. The concurrency guarantees are not modelled: one call per key among concurrent callers, and a shared result.
- The cache library's internals (locking, eviction of expired entries) are not part of this model. Its lookup is the assumption stated above.
- Time passing during the driver call: one `Link` request reads the clock once, so the expiry is `now` plus the expiration, where `now` is the instant of the lookup.
- Context cancellation and deadlines, stack capture in wrapped errors, and error wording beyond the tag.
- Concrete drivers. The driver interface's other calls, and the link fields other than URL, header and expiration, are not modelled.
- `utils.PathEqual` is not part of this model's source. The model assumes it is equality after adding a missing leading slash and cleaning, as stated above. Any other normalisation it may do, such as replacing backslashes, is not modelled.
- Operations.ResolveLink: a driver whose `Link` returns neither a link nor an error makes the code dereference a nil link at fs.go:69 and panic. The model's driver always returns exactly one of the two, so this outcome is not represented.
- Operations.LinkService.Link: the code caches and returns one shared `*driver.Link` (fs.go:61-62, 70-72), so every cache hit hands out the same object, and a caller's change to it is seen by later hits. The model passes links as immutable values and does not capture this aliasing.
- Paths.Clean: its contract states only that the result is non-empty and that a rooted path stays rooted. Its behaviour beyond that is characterised by `CleanByElements`, `ElementsConcat` and `JoinNestedCollide`, not by a full specification of Go's `path.Clean`.
- Integer widths: durations and instants are unbounded integers, so the overflow of Go's 64-bit `time.Duration` arithmetic is not modelled.
