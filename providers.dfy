/**
 * The stateful wrappers: a resolver invocation that can be counted, the external
 * cache, the cache-backed resolver and the memoizer.
 */
module Providers {
  import opened Wrappers
  import opened Config
  import opened Sources
  import opened Chain

  /** What a callable resolver yields on each invocation. */
  datatype Behaviour =
    /** A caller-supplied closure whose `n`-th invocation (from 0) yields `outcome(n)`. */
    | Scripted(outcome: nat -> Outcome)
    /** A chain of links over a fixed environment and filesystem. */
    | Chained(links: seq<Source>, world: World)
  {
    predicate WellFormed()
    {
      Chained? ==> links != []
    }

    function Yields(n: nat): (r: Outcome)
      requires WellFormed()
    {
      match this
      case Scripted(outcome) => outcome(n)
      case Chained(links, world) => ChainResolve(links, world)
    }
  }

  /** A zero-argument resolver; `calls` counts how many times it has really run. */
  class Provider {
    const behaviour: Behaviour
    var calls: nat

    constructor (behaviour: Behaviour)
      ensures this.behaviour == behaviour && calls == 0
    {
      this.behaviour := behaviour;
      calls := 0;
    }

    method Invoke() returns (r: Outcome)
      requires behaviour.WellFormed()
      modifies this
      ensures calls == old(calls) + 1
      ensures r == behaviour.Yields(old(calls))
    {
      match behaviour {
        case Scripted(outcome) =>
          r := outcome(calls);
        case Chained(links, world) =>
          var invoked;
          r, invoked := RunChain(links, world);
      }
      calls := calls + 1;
    }
  }

  /** The single, fixed cache slot this setting is stored under. */
  const CacheKey: string := "aws_cached_use_fips_endpoint_config"

  /** The external key/value cache; only its get/set/count contract is modelled. */
  class Cache {
    var entries: map<string, Configuration>

    constructor ()
      ensures entries == map[]
    {
      entries := map[];
    }

    method Get(key: string) returns (found: Option<Configuration>)
      ensures found.Some? <==> key in entries
      ensures found.Some? ==> found.value == entries[key]
    {
      found := if key in entries then Some(entries[key]) else None;
    }

    method Set(key: string, value: Configuration)
      modifies this
      ensures entries == old(entries)[key := value]
    {
      entries := entries[key := value];
    }

    /** The number of entries held. */
    function Count(): (n: nat)
      reads this
      ensures n == 0 <==> entries == map[]
    {
      |entries|
    }
  }

  /**
   * `cache(provider, cache)`: a hit on the cache key is returned without invoking
   * the wrapped resolver; a miss invokes it and stores a success under the key.
   * With no cache it simply forwards.
   */
  class CachedProvider {
    const inner: Provider
    const cache: Cache?

    constructor (inner: Provider, cache: Cache?)
      ensures this.inner == inner && this.cache == cache
    {
      this.inner := inner;
      this.cache := cache;
    }

    function Footprint(): set<object>
    {
      {inner} + (if cache == null then {} else {cache})
    }

    predicate Hit()
      reads cache
    {
      cache != null && CacheKey in cache.entries
    }

    /** What the next invocation yields in the current state. */
    function Answer(): (r: Outcome)
      requires inner.behaviour.WellFormed()
      reads inner, cache
    {
      if Hit() then Success(cache.entries[CacheKey]) else inner.behaviour.Yields(inner.calls)
    }

    method Invoke() returns (r: Outcome)
      requires inner.behaviour.WellFormed()
      modifies Footprint()
      ensures r == old(Answer())
      ensures inner.calls == old(inner.calls) + (if old(Hit()) then 0 else 1)
      ensures cache != null ==>
        cache.entries == if !old(Hit()) && r.Success? then old(cache.entries)[CacheKey := r.value] else old(cache.entries)
    {
      var found := None;
      if cache != null {
        found := cache.Get(CacheKey);
      }
      if found.Some? {
        r := Success(found.value);
      } else {
        r := inner.Invoke();
        if cache != null && r.Success? {
          cache.Set(CacheKey, r.value);
        }
      }
    }
  }

  /**
   * `memoize(provider)`: the first invocation runs the wrapped resolver and keeps its
   * outcome, success or failure; every later invocation returns that same outcome.
   */
  class Memoized {
    const inner: CachedProvider
    var slot: Option<Outcome>
    /** How often the innermost resolver had run when the memoizer was built. */
    ghost const baseCalls: nat

    ghost predicate Valid()
      reads this, inner.inner
    {
      && inner.inner.behaviour.WellFormed()
      && (slot.None? ==> inner.inner.calls == baseCalls)
      && (slot.Some? ==> baseCalls <= inner.inner.calls <= baseCalls + 1)
    }

    constructor (inner: CachedProvider)
      requires inner.inner.behaviour.WellFormed()
      ensures this.inner == inner && slot == None && baseCalls == inner.inner.calls
      ensures Valid()
    {
      this.inner := inner;
      slot := None;
      baseCalls := inner.inner.calls;
    }

    method Invoke() returns (r: Outcome)
      requires Valid()
      modifies this, inner.Footprint()
      ensures Valid()
      ensures old(slot).Some? ==> r == old(slot).value && slot == old(slot)
      ensures old(slot).Some? ==> inner.inner.calls == old(inner.inner.calls)
      ensures old(slot).Some? && inner.cache != null ==> inner.cache.entries == old(inner.cache.entries)
      ensures old(slot).None? ==> r == old(inner.Answer()) && slot == Some(r)
      ensures old(slot).None? ==> inner.inner.calls == old(inner.inner.calls) + (if old(inner.Hit()) then 0 else 1)
      ensures old(slot).None? && inner.cache != null ==>
        inner.cache.entries ==
          if !old(inner.Hit()) && r.Success? then old(inner.cache.entries)[CacheKey := r.value] else old(inner.cache.entries)
    {
      if slot.Some? {
        r := slot.value;
      } else {
        r := inner.Invoke();
        slot := Some(r);
      }
    }
  }

  /**
   * The memoization example: a resolver that counts its calls and always yields
   * `expected`, invoked `n` times through `memoize`. It runs once (not at all if
   * never invoked) and every invocation yields `expected`.
   */
  method MemoizeRunsOnce(expected: Configuration, n: nat) returns (called: nat, results: seq<Outcome>)
    ensures called == if n == 0 then 0 else 1
    ensures |results| == n
    ensures forall i :: 0 <= i < n ==> results[i] == Success(expected)
  {
    var f := new Provider(Scripted(_ => Success(expected)));
    var c := new CachedProvider(f, null);
    var p := new Memoized(c);
    results := [];
    while |results| < n
      invariant p.Valid() && p.inner == c && c.inner == f && c.cache == null && p.baseCalls == 0
      invariant |results| <= n
      invariant f.calls == if |results| == 0 then 0 else 1
      invariant p.slot == if |results| == 0 then None else Some(Success(expected))
      invariant forall i :: 0 <= i < |results| ==> results[i] == Success(expected)
    {
      var r := p.Invoke();
      results := results + [r];
    }
    called := f.calls;
  }

  /**
   * The persistence example: a resolver that succeeds with `expected` on its first
   * call and raises on every later one, invoked `n` times through a fresh `cache`
   * wrapper over one shared, initially empty cache. It runs once, the cache ends
   * up holding exactly `expected` under the key, and the last outcome is `expected`.
   */
  method PersistsToCache(expected: Configuration, n: nat) returns (timesCalled: nat, count: nat, entries: map<string, Configuration>, last: Outcome)
    requires n >= 1
    ensures timesCalled == 1
    ensures count == 1 && entries == map[CacheKey := expected]
    ensures last == Success(expected)
  {
    var volatile := new Provider(Scripted(k => if k == 0 then Success(expected) else Failure(Raised("I was called too many times!"))));
    var cache := new Cache();
    last := Failure(Raised("never invoked"));
    var i := 0;
    while i < n
      invariant 0 <= i <= n
      invariant volatile.calls == if i == 0 then 0 else 1
      invariant cache.entries == if i == 0 then map[] else map[CacheKey := expected]
      invariant i > 0 ==> last == Success(expected)
    {
      var wrapped := new CachedProvider(volatile, cache);
      last := wrapped.Invoke();
      i := i + 1;
    }
    timesCalled := volatile.calls;
    entries := cache.entries;
    count := cache.Count();
    assert entries.Keys == {CacheKey};
  }
}
