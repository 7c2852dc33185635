# DNS resolution cache

A model of `CacheResolver`, the in-memory DNS cache in `dnscache.go`. The cache maps each host name to the ordered list of IP addresses its last successful resolution gave. It has five operations. `Fetch` answers from the cache and resolves only on a miss. `Lookup` always resolves and stores the result only on success, so a failure keeps any stale entry. `FetchOne` and `FetchOneString` return the first address of `Fetch`, as an IP or as text. `Refresh` re-resolves every cached host, one after another, and discards the failures.

Layout:

- `net.dfy` (module `Net`) holds what the cache takes from Go's `net` package, `IP`, `IPAddr` and the backend `Resolver`, together with three types of the model's own: `Error` stands for Go's built-in `error` interface, passed on opaquely, and `Result` and `Option` are the model's way of writing Go's `(value, error)` returns and nil values. The backend is an oracle. Its variable `answers` says what resolving each host yields at present. Its ghost log `asked` records every host it was asked about, so `|asked|` counts backend calls.
- `dnscache.dfy` (module `DnsCache`) holds the model itself. The class `CacheResolver` has the `cache` map field; its methods update it in place. Pure functions state what each call returns and leaves: `Resolve`, `Store`, `LookupStep`, `FetchStep`, `FirstIP`, `AsText`, `LookupEach` and `Refreshed`. The first loop of `Refresh` is the method `Snapshot`, its second loop is the method `LookupAll` that `Refresh` calls, and the copy loop of `LookupIP` is the method `CopyIPs`; each carries its loop invariants. Lemmas relate the loop's sequence of lookups to the order-free meaning of a refresh.
- `scenarios.dfy` (module `DnsCacheScenarios`) has two client methods that use only the contracts. One shows that a hit makes no backend call and that a failed lookup keeps the stale entry. The other shows that a refresh with one failing host renews the other hosts and keeps the failing one's entry.

Go's `(value, error)` results are modelled as `Result`. `Ok(v)` is `(v, nil)`. `Err(e)` is the zero value (a nil slice, a nil IP or `""`) paired with the error `e`, which is passed on unchanged.

## Model

| member | source | states |
|---|---|---|
| `DnsCache.CacheResolver.constructor` | dnscache.go:22-31 | a new resolver has an empty cache over the given backend; the background refresh would be started exactly when the refresh rate is positive |
| `DnsCache.CacheResolver.Fetch` | dnscache.go:33-45 | on a hit it returns exactly the cached list, leaves the cache unchanged and makes no backend call; on a miss it makes one backend call and behaves exactly as `Lookup` |
| `DnsCache.CacheResolver.FetchOne` | dnscache.go:47-53 | the cache and the backend calls are those of `Fetch`; the result is `FirstIP` of `Fetch`'s reply |
| `DnsCache.CacheResolver.FetchOneString` | dnscache.go:55-61 | the cache and the backend calls are those of `Fetch`; the result is `AsText` of `FirstIP` of `Fetch`'s reply |
| `DnsCache.CacheResolver.Refresh` | dnscache.go:63-77 | asks the backend about each cached host exactly once, in some order; keeps the key set; afterwards the cache is `Refreshed` of the old cache; no error is returned |
| `DnsCache.CacheResolver.Lookup` | dnscache.go:79-89 | always makes exactly one backend call; a failure returns the backend's error and leaves the whole cache, stale entries included, unchanged; a success sets the host's entry to the returned list and nothing else changes |
| `DnsCache.CacheResolver.LookupIP` | dnscache.go:98-112 | one backend call; returns the addresses of the backend's records, or its error unchanged |
| `DnsCache.IPs` | dnscache.go:103-106 | the addresses kept of an answer: as many as its records, the i-th being the i-th record's IP |
| `DnsCache.Resolve` | dnscache.go:98-112 | a lookup fails exactly when the backend does, with the backend's error unchanged; on success it returns as many addresses as the backend's records, in their order |
| `DnsCache.LookupStep` | dnscache.go:79-89 | a lookup asks the backend about the host once and returns `Resolve`'s reply; a failure leaves the cache as it was, a success sets the host's entry to the returned list |
| `DnsCache.FetchStep` | dnscache.go:33-45 | a hit returns the cached list, leaves the cache and asks nothing; a miss asks about the host once, returns `Resolve`'s reply and stores it as `Store` says |
| `DnsCache.LookupEach` | dnscache.go:73-76 | looking up a sequence of hosts drops no key, adds only looked-up hosts, and leaves every other entry unchanged |
| `DnsCache.CacheResolver.LookupAll` | dnscache.go:73-76 | calls `Lookup` on each host in turn: asks the backend about exactly those hosts in that order and leaves the cache as `LookupEach` says |
| `DnsCache.CopyIPs` | dnscache.go:103-106 | the copy loop yields exactly `IPs` of the answer: its length, and its i-th address is that of the answer's i-th record |
| `DnsCache.Store` | dnscache.go:80-88 | a successful outcome adds or overwrites the host's entry with the returned list; a failed one leaves the map equal to before; every other key keeps its value |
| `DnsCache.FirstIP` | dnscache.go:48-52 | an error is passed on unchanged with no address; an empty list gives no address and no error; a non-empty list gives its first element and no error |
| `DnsCache.AsText` | dnscache.go:56-60 | an error is passed on unchanged; no address gives `""` and no error; an address gives its rendered text and no error |
| `DnsCache.Snapshot` | dnscache.go:64-70 | the slice has length `len(cache)` and lists each cached host exactly once |
| `DnsCache.Refreshed` | dnscache.go:63-76 | a refresh leaves the key set of the cache unchanged |
| `DnsCache.LookupEachEntries` | dnscache.go:73-76 | looking up a sequence of cached hosts keeps the key set; each listed host takes its new resolution on success and keeps its old entry on failure; unlisted hosts are untouched |
| `DnsCache.LookupEachRefreshes` | dnscache.go:66-76 | looking up every cached host, in any order, gives exactly `Refreshed` |
| `DnsCache.RefreshOrderIrrelevant` | dnscache.go:67-69 | any two enumerations of the key set give the same cache after the refresh loop, so Go's unspecified map order does not matter against a backend that does not change during the refresh |
| `DnsCache.RefreshIdempotent` | dnscache.go:63-76 | refreshing twice against an unchanged backend gives the same cache as refreshing once |
| `DnsCache.FetchSettles` | dnscache.go:33-45 | after a successful fetch, the next fetch of that host is a hit whatever the backend says by then: no backend call, same cache, same list |
| `Net.Resolver.LookupIPAddr` | dnscache.go:99 | one backend call: it is logged in `asked` and answers from `answers`, which it does not change |

## Left out

- The background refresh: `go cacheResolver.autoRefresh(...)` and the endless sleep loop of `autoRefresh` (dnscache.go:27-29, 91-96). They are concurrency and timing with no terminating behaviour. The constructor keeps only the flag saying whether the task would start.
- `time.Sleep` between the lookups of `Refresh` (dnscache.go:75). This is timing only.
- The `sync.RWMutex` calls. Each operation is modelled as atomic and sequential, so concurrent interleavings and last-writer-wins races are not modelled.
- `NewCachedResolver` (dnscache.go:18-20). It only supplies Go's platform default resolver, which has no counterpart here. Construct a `Net.Resolver` oracle instead.
- The map capacity hint (`make(..., 64)`). It has no observable effect.
- `net.Resolver.LookupIPAddr` and its `context.Background()`. The network is the `Net.Resolver` oracle, whose answer is a function of the host name at the moment of the call. DNS timeouts and cancellation are not modelled.
- DNS changes during one `Refresh`. The source waits 2 seconds after each lookup (dnscache.go:75), so each lookup sees DNS as it is at that moment. In the model a `Refresh` runs against one fixed backend (`answers` does not change between its lookups), and with a changing DNS the map order would decide which host is resolved when.
- Aliasing of address slices. `Fetch` returns the very slice stored in the map (dnscache.go:35, 41), and `Lookup` stores the slice it returns (dnscache.go:86, 88), so a caller writing into a returned slice changes the cached entry. The model's `seq` values are immutable and do not capture this sharing.
- `net.IP.String()`. The textual form is the caller-supplied function `render` given to `FetchOneString`. The formatting itself is not modelled.
- Debug logging through `bot.Debug` and `log` (dnscache.go:38-40, 107-109). It has no effect on results.
- Nil IPs inside a backend answer. `IP` is a value type, so a record whose IP is a nil slice cannot be represented. The source's `ip == nil` test in `FetchOneString` therefore fires only when `FetchOne` returns no address.
- A guarantee that cached lists are non-empty. The code gives none: `Lookup` stores whatever list a successful backend answer gives, including an empty one, and the model does the same.
