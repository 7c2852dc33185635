/**
 * The in-memory DNS cache of `dnscache.go`: a map from host name to the list
 * of addresses its last successful resolution produced, served cache-first,
 * stored only on success, and refreshed wholesale by re-resolving every
 * cached host.
 *
 * Every operation is modelled as atomic and sequential; the read/write lock,
 * the background refresh task and the pauses between refreshes are not part
 * of the model.
 */
module DnsCache {
  import opened Net

  /** Host name to the addresses of its last successful resolution, in the backend's order. */
  type Cache = map<string, seq<IP>>

  // ---------------------------------------------------------------------
  // What one live lookup yields
  // ---------------------------------------------------------------------

  /** The addresses of an answer's records: as many, and in the same order. */
  function IPs(records: seq<IPAddr>): (ips: seq<IP>)
    ensures |ips| == |records|
    ensures forall i :: 0 <= i < |records| ==> ips[i] == records[i].ip
  {
    if records == [] then [] else [records[0].ip] + IPs(records[1..])
  }

  /**
   * The copy loop of `LookupIP`: a fresh slice of `len(records)` addresses,
   * the i-th being the address of the i-th record.
   */
  method CopyIPs(records: seq<IPAddr>) returns (ips: seq<IP>)
    ensures ips == IPs(records)
  {
    var a := new IP[|records|];
    for i := 0 to |records|
      invariant forall k :: 0 <= k < i ==> a[k] == records[k].ip
    {
      a[i] := records[i].ip;
    }
    ips := a[..];
  }

  /** What `LookupIP(host)` yields: the backend's addresses, or its error unchanged. */
  function Resolve(answers: Answers, host: string): (r: Result<seq<IP>>)
    ensures r.Err? <==> answers(host).Err?
    ensures r.Err? ==> r.error == answers(host).error
    ensures r.Ok? ==> |r.value| == |answers(host).value|
    ensures r.Ok? ==> forall i :: 0 <= i < |r.value| ==> r.value[i] == answers(host).value[i].ip
  {
    match answers(host)
    case Err(e) => Err(e)
    case Ok(records) => Ok(IPs(records))
  }

  // ---------------------------------------------------------------------
  // The single-call operations as functions of the state
  // ---------------------------------------------------------------------

  /**
   * What a lookup outcome does to the cache: a success overwrites the entry
   * of `host` (creating it if needed); a failure leaves every entry,
   * including a stale one for `host`, as it was.
   */
  function Store(m: Cache, host: string, r: Result<seq<IP>>): (m': Cache)
    ensures r.Ok? ==> m'.Keys == m.Keys + {host} && m'[host] == r.value
    ensures r.Err? ==> m' == m
    ensures forall k :: k in m && k != host ==> k in m' && m'[k] == m[k]
  {
    if r.Ok? then m[host := r.value] else m
  }

  /** What one operation returns, the cache it leaves, and the hosts it asked the backend about. */
  datatype Step = Step(reply: Result<seq<IP>>, cache: Cache, asked: seq<string>)

  /** `Lookup(host)`: always one backend call, stored on success. */
  function LookupStep(m: Cache, answers: Answers, host: string): (s: Step)
    ensures s.asked == [host]
    ensures s.reply == Resolve(answers, host)
    ensures s.reply.Err? ==> s.cache == m
    ensures s.reply.Ok? ==> s.cache == m[host := s.reply.value]
  {
    var r := Resolve(answers, host);
    Step(r, Store(m, host, r), [host])
  }

  /** `Fetch(host)`: a hit is served from the cache without a backend call; a miss is a `Lookup`. */
  function FetchStep(m: Cache, answers: Answers, host: string): (s: Step)
    ensures host in m ==> s.reply == Ok(m[host]) && s.cache == m && s.asked == []
    ensures host !in m ==> s.asked == [host] && s.reply == Resolve(answers, host)
    ensures host !in m ==> s.cache == Store(m, host, s.reply)
  {
    if host in m then Step(Ok(m[host]), m, []) else LookupStep(m, answers, host)
  }

  /**
   * The post-processing of `FetchOne`: an error is passed on with no
   * address, an empty list gives no address and no error, and a non-empty
   * list gives its first address.
   */
  function FirstIP(r: Result<seq<IP>>): (o: Result<Option<IP>>)
    ensures o.Err? <==> r.Err?
    ensures r.Err? ==> o.error == r.error
    ensures r.Ok? ==> (o.value.Some? <==> |r.value| > 0)
    ensures r.Ok? && |r.value| > 0 ==> o.value.value == r.value[0]
  {
    match r
    case Err(e) => Err(e)
    case Ok(ips) => if |ips| == 0 then Ok(None) else Ok(Some(ips[0]))
  }

  /**
   * The post-processing of `FetchOneString`: an error is passed on (with
   * the empty string), no address gives the empty string and no error, and
   * an address gives its text as `render` (Go's `IP.String`) writes it.
   */
  function AsText(o: Result<Option<IP>>, render: IP -> string): (t: Result<string>)
    ensures t.Err? <==> o.Err?
    ensures o.Err? ==> t.error == o.error
    ensures o.Ok? && o.value.None? ==> t == Ok("")
    ensures o.Ok? && o.value.Some? ==> t == Ok(render(o.value.value))
  {
    match o
    case Err(e) => Err(e)
    case Ok(None) => Ok("")
    case Ok(Some(ip)) => Ok(render(ip))
  }

  // ---------------------------------------------------------------------
  // Refresh
  // ---------------------------------------------------------------------

  /** `keys` lists each element of `s` exactly once, in some order. */
  ghost predicate Enumerates(keys: seq<string>, s: set<string>)
  {
    && |keys| == |s|
    && (forall i, j :: 0 <= i < j < |keys| ==> keys[i] != keys[j])
    && (forall k :: k in keys <==> k in s)
  }

  /**
   * The first loop of `Refresh`: a slice of `len(cache)` host names filled
   * by ranging over the map. Go leaves the iteration order unspecified, so
   * each step takes an arbitrary key not yet listed.
   */
  method Snapshot(m: Cache) returns (keys: seq<string>)
    ensures |keys| == |m|
    ensures Enumerates(keys, m.Keys)
  {
    var addresses := new string[|m|];
    var i := 0;
    var rest := m.Keys;
    while rest != {}
      invariant rest <= m.Keys
      invariant i + |rest| == |m|
      invariant forall j, l :: 0 <= j < l < i ==> addresses[j] != addresses[l]
      invariant forall k :: k in addresses[..i] <==> k in m && k !in rest
      decreases rest
    {
      var key :| key in rest;
      ghost var listed := addresses[..i];
      addresses[i] := key;
      assert addresses[..i + 1] == listed + [key];
      i := i + 1;
      rest := rest - {key};
    }
    keys := addresses[..];
  }

  /**
   * The cache after `Lookup` has run on each host of `hosts`, first to
   * last, its results ignored: the second loop of `Refresh`.
   */
  function LookupEach(m: Cache, answers: Answers, hosts: seq<string>): (m': Cache)
    ensures forall k :: k in m ==> k in m'
    ensures forall k :: k in m' ==> k in m || k in hosts
    ensures forall k :: k in m && k !in hosts ==> m'[k] == m[k]
  {
    if hosts == [] then m
    else
      var last := hosts[|hosts| - 1];
      Store(LookupEach(m, answers, hosts[..|hosts| - 1]), last, Resolve(answers, last))
  }

  /** Extending the looked-up prefix by one host is one more `Store`. */
  lemma LookupEachStep(m: Cache, answers: Answers, hosts: seq<string>, i: nat)
    requires i < |hosts|
    ensures hosts[..i + 1] == hosts[..i] + [hosts[i]]
    ensures LookupEach(m, answers, hosts[..i + 1])
         == Store(LookupEach(m, answers, hosts[..i]), hosts[i], Resolve(answers, hosts[i]))
  {
    assert hosts[..i + 1][..i] == hosts[..i];
  }

  /**
   * What one refresh means, independently of the order of the hosts: each
   * cached host takes its new resolution if that succeeds and keeps its
   * previous entry if it fails; no host is added or dropped.
   */
  function Refreshed(m: Cache, answers: Answers): (m': Cache)
    ensures m'.Keys == m.Keys
  {
    map k | k in m :: match Resolve(answers, k) case Ok(ips) => ips case Err(_) => m[k]
  }

  /** Looking up cached hosts refreshes exactly those hosts and leaves the key set alone. */
  lemma {:induction false} LookupEachEntries(m: Cache, answers: Answers, hosts: seq<string>)
    requires forall k :: k in hosts ==> k in m
    ensures LookupEach(m, answers, hosts).Keys == m.Keys
    ensures forall k :: k in m ==>
      LookupEach(m, answers, hosts)[k] == if k in hosts then Refreshed(m, answers)[k] else m[k]
  {
    if hosts != [] {
      var init, last := hosts[..|hosts| - 1], hosts[|hosts| - 1];
      assert forall k :: k in hosts <==> k in init || k == last;
      LookupEachEntries(m, answers, init);
    }
  }

  /** Looking up every cached host, in any order, yields `Refreshed`. */
  lemma LookupEachRefreshes(m: Cache, answers: Answers, hosts: seq<string>)
    requires forall k :: k in hosts <==> k in m
    ensures LookupEach(m, answers, hosts) == Refreshed(m, answers)
  {
    LookupEachEntries(m, answers, hosts);
  }

  /** The unspecified map iteration order of `Refresh` does not affect its outcome. */
  lemma RefreshOrderIrrelevant(m: Cache, answers: Answers, hosts1: seq<string>, hosts2: seq<string>)
    requires Enumerates(hosts1, m.Keys) && Enumerates(hosts2, m.Keys)
    ensures LookupEach(m, answers, hosts1) == LookupEach(m, answers, hosts2)
  {
    LookupEachRefreshes(m, answers, hosts1);
    LookupEachRefreshes(m, answers, hosts2);
  }

  /** Against an unchanged backend, a second refresh changes nothing. */
  lemma RefreshIdempotent(m: Cache, answers: Answers)
    ensures Refreshed(Refreshed(m, answers), answers) == Refreshed(m, answers)
  {
  }

  /**
   * Once a fetch has succeeded, the next fetch of the same host is a hit:
   * whatever the backend says by then, it is not asked, the cache stays,
   * and the same addresses come back.
   */
  lemma FetchSettles(m: Cache, answers: Answers, later: Answers, host: string)
    requires FetchStep(m, answers, host).reply.Ok?
    ensures var s := FetchStep(m, answers, host);
      FetchStep(s.cache, later, host) == Step(s.reply, s.cache, [])
  {
  }

  // ---------------------------------------------------------------------
  // The resolver object
  // ---------------------------------------------------------------------

  /** `CacheResolver`: the cache map, updated in place, and its backend. */
  class CacheResolver {
    var cache: Cache
    const resolver: Resolver
    /** Whether construction would start the background refresh task. */
    const autoRefresh: bool

    /** `NewCustomCachedResolver`: an empty cache over `resolver`. */
    constructor (resolver: Resolver, refreshRate: int)
      ensures this.resolver == resolver
      ensures cache == map[]
      ensures autoRefresh == (refreshRate > 0)
    {
      this.resolver := resolver;
      cache := map[];
      autoRefresh := refreshRate > 0;
    }

    /**
     * Cache-first resolution. The hit and miss cases are spelled out for
     * the reader; the last clause states the same through `FetchStep`,
     * the form `FetchOne` and `FetchOneString` compose with.
     */
    method Fetch(address: string) returns (r: Result<seq<IP>>)
      modifies this, resolver
      ensures resolver.answers == old(resolver.answers)
      ensures address in old(cache) ==>
        r == Ok(old(cache)[address]) && cache == old(cache) && resolver.asked == old(resolver.asked)
      ensures address !in old(cache) ==>
        && r == Resolve(old(resolver.answers), address)
        && cache == Store(old(cache), address, r)
        && resolver.asked == old(resolver.asked) + [address]
      ensures var s := FetchStep(old(cache), old(resolver.answers), address);
        r == s.reply && cache == s.cache && resolver.asked == old(resolver.asked) + s.asked
    {
      var hit := address in cache;
      if hit {
        r := Ok(cache[address]);
        return;
      }
      r := Lookup(address);
    }

    /** The first address `Fetch` gives, if any. */
    method FetchOne(address: string) returns (r: Result<Option<IP>>)
      modifies this, resolver
      ensures resolver.answers == old(resolver.answers)
      ensures var s := FetchStep(old(cache), old(resolver.answers), address);
        r == FirstIP(s.reply) && cache == s.cache && resolver.asked == old(resolver.asked) + s.asked
    {
      var ips := Fetch(address);
      r := FirstIP(ips);
    }

    /** The first address `Fetch` gives, as text; `render` is Go's `IP.String`. */
    method FetchOneString(address: string, render: IP -> string) returns (r: Result<string>)
      modifies this, resolver
      ensures resolver.answers == old(resolver.answers)
      ensures var s := FetchStep(old(cache), old(resolver.answers), address);
        r == AsText(FirstIP(s.reply), render) && cache == s.cache && resolver.asked == old(resolver.asked) + s.asked
    {
      var ip := FetchOne(address);
      r := AsText(ip, render);
    }

    /**
     * Re-resolves every cached host, one after another, ignoring failures:
     * each host is asked about exactly once, and the cache ends as
     * `Refreshed` says.
     */
    method Refresh() returns (ghost snapshot: seq<string>)
      modifies this, resolver
      ensures resolver.answers == old(resolver.answers)
      ensures cache == Refreshed(old(cache), old(resolver.answers))
      ensures cache.Keys == old(cache).Keys
      ensures Enumerates(snapshot, old(cache).Keys)
      ensures resolver.asked == old(resolver.asked) + snapshot
    {
      var addresses := Snapshot(cache);
      LookupAll(addresses);
      LookupEachRefreshes(old(cache), old(resolver.answers), addresses);
      snapshot := addresses;
    }

    /** The second loop of `Refresh`: `Lookup` on each host in turn, results ignored. */
    method LookupAll(addresses: seq<string>)
      modifies this, resolver
      ensures resolver.answers == old(resolver.answers)
      ensures cache == LookupEach(old(cache), old(resolver.answers), addresses)
      ensures resolver.asked == old(resolver.asked) + addresses
    {
      for i := 0 to |addresses|
        invariant resolver.answers == old(resolver.answers)
        invariant cache == LookupEach(old(cache), old(resolver.answers), addresses[..i])
        invariant resolver.asked == old(resolver.asked) + addresses[..i]
      {
        var ignored := Lookup(addresses[i]);
        LookupEachStep(old(cache), old(resolver.answers), addresses, i);
      }
      assert addresses[..|addresses|] == addresses;
    }

    /**
     * A live lookup whose success overwrites the entry of `address`. The
     * last clause restates the two cases through `Store`, the form the
     * loop of `Refresh` is proved with.
     */
    method Lookup(address: string) returns (r: Result<seq<IP>>)
      modifies this, resolver
      ensures resolver.answers == old(resolver.answers)
      ensures resolver.asked == old(resolver.asked) + [address]
      ensures r == Resolve(old(resolver.answers), address)
      ensures r.Err? ==> cache == old(cache)
      ensures r.Ok? ==> cache == old(cache)[address := r.value]
      ensures cache == Store(old(cache), address, r)
    {
      r := LookupIP(address);
      if r.Err? {
        return;
      }
      cache := cache[address := r.value];
    }

    /** One backend call, keeping only the addresses of its records. */
    method LookupIP(host: string) returns (r: Result<seq<IP>>)
      modifies resolver
      ensures resolver.answers == old(resolver.answers)
      ensures resolver.asked == old(resolver.asked) + [host]
      ensures r == Resolve(old(resolver.answers), host)
    {
      var answer := resolver.LookupIPAddr(host);
      if answer.Err? {
        return Err(answer.error);
      }
      var ips := CopyIPs(answer.value);
      return Ok(ips);
    }
  }
}
