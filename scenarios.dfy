/**
 * What a caller of the cache can prove from the contracts alone: a hit asks
 * the backend nothing, a failed lookup keeps the stale entry, and a refresh
 * against a backend that fails for one host keeps that host's entry while
 * renewing the others.
 */
module DnsCacheScenarios {
  import opened Net
  import opened DnsCache

  method HitAfterMiss()
  {
    var ip := IP([10, 0, 0, 1]);
    var backend := new Resolver(host => Ok([IPAddr(ip, "")]));
    var c := new CacheResolver(backend, 0);
    assert IPs([IPAddr(ip, "")]) == [ip];

    var r := c.Fetch("example");
    assert r == Ok([ip]) && c.cache == map["example" := [ip]];
    assert |backend.asked| == 1;

    // Served from the cache although DNS now fails.
    backend.answers := host => Err(Error("timeout"));
    r := c.Fetch("example");
    assert r == Ok([ip]) && |backend.asked| == 1;

    // A failed lookup reports the error and keeps the stale entry.
    r := c.Lookup("example");
    assert r == Err(Error("timeout")) && c.cache == map["example" := [ip]];
    assert |backend.asked| == 2;
  }

  method RefreshWithOneFailure(c: CacheResolver, stale: seq<IP>)
    requires c.cache == map["a" := stale, "b" := stale]
    modifies c, c.resolver
  {
    var ip := IP([10, 0, 0, 2]);
    assert IPs([IPAddr(ip, "")]) == [ip];
    c.resolver.answers := host => if host == "b" then Err(Error("timeout")) else Ok([IPAddr(ip, "")]);
    ghost var before, answers := |c.resolver.asked|, c.resolver.answers;
    assert Resolve(answers, "a") == Ok([ip]) && Resolve(answers, "b").Err?;
    ghost var hosts := c.Refresh();
    assert c.cache.Keys == {"a", "b"};
    assert c.cache["a"] == [ip] && c.cache["b"] == stale;
    assert |c.resolver.asked| == before + 2;
  }
}
