/** The input cache on mutable fields, request by request equal to its specification. */
module InputCache {
  import Spec = InputCacheSpec
  import T = InputCacheTheorems

  type Key = Spec.Key
  type Token = Spec.Token
  type Tier = Spec.Tier
  type Reply = Spec.Reply

  class InputCache {
    const config: Spec.Config
    var order: seq<Key>
    var entries: map<Key, Spec.Entry>
    var consumers: map<Token, Spec.Consumer>
    var nextToken: nat
    var metrics: Spec.Metrics
    ghost var published: map<Key, Spec.Content>

    ghost function S(): Spec.Cache
      reads this
    {
      Spec.Cache(order, entries, consumers, nextToken, metrics, published)
    }

    constructor (config: Spec.Config)
      ensures this.config == config && S() == Spec.Empty()
    {
      this.config := config;
      order, entries, consumers, nextToken := [], map[], map[], 0;
      metrics, published := Spec.Metrics(0, 0, 0, 0, 0, 0), map[];
    }

    method Used(tier: Tier) returns (bytes: nat)
      ensures bytes == Spec.Used(order, entries, tier)
    {
      bytes := 0;
      ghost var whole := Spec.Used(order, entries, tier);
      for k := 0 to |order|
        invariant bytes + Spec.Used(order[k..], entries, tier) == whole
      {
        assert order[k..][1..] == order[k + 1..];
        bytes := bytes + Spec.Bytes(entries, order[k], tier);
      }
    }

    method Fits(tier: Tier, size: nat) returns (fits: bool)
      ensures fits == Spec.Fits(config, S(), tier, size)
    {
      var used := Used(tier);
      return used + size <= config.Capacity(tier) && |order| < config.maxEntries;
    }

    method Remove(key: Key)
      modifies this`order, this`entries
      ensures S() == Spec.Remove(old(S()), key)
    {
      order, entries := Spec.Drop(order, key), entries - {key};
    }

    method Evict(key: Key)
      requires key in entries
      modifies this`order, this`entries, this`metrics
      ensures S() == Spec.Evict(old(S()), key)
    {
      var bytes := entries[key].bytes;
      Remove(key);
      metrics := metrics.(evictions := metrics.evictions + 1, evictedBytes := metrics.evictedBytes + bytes);
    }

    /** `_space`: evict from a copy of the entries' order, oldest first. */
    method Space(tier: Tier, size: nat) returns (fits: bool)
      modifies this`order, this`entries, this`metrics
      ensures S() == Spec.Space(config, old(S()), tier, size)
      ensures fits == (size <= config.Capacity(tier) && Spec.Fits(config, S(), tier, size))
    {
      hide Spec.Fits, Spec.Evict;
      if size > config.Capacity(tier) {
        return false;
      }
      var candidates := order;
      ghost var start := S();
      for k := 0 to |candidates|
        invariant Spec.MakeSpace(config, start, tier, size, candidates)
                  == Spec.MakeSpace(config, S(), tier, size, candidates[k..])
      {
        fits := Fits(tier, size);
        if fits {
          return true;
        }
        var key := candidates[k];
        assert candidates[k..][1..] == candidates[k + 1..] && candidates[k..][0] == key;
        if key in entries && entries[key].Evictable(tier) {
          Evict(key);
        }
      }
      fits := Fits(tier, size);
    }

    method Begin(copyLimit: nat) returns (reply: Reply)
      modifies this`consumers, this`nextToken
      ensures (S(), reply) == Spec.Begin(old(S()), copyLimit)
    {
      var token := Spec.Token(nextToken);
      consumers, nextToken := consumers[token := Spec.Consumer(copyLimit, [])], nextToken + 1;
      return Spec.Begun(token);
    }

    method Release(consumer: Token, lease: Token)
      requires consumer in consumers
      modifies this`consumers, this`entries
      ensures S() == Spec.Release(old(S()), consumer, lease)
    {
      var record := consumers[consumer];
      var key := Spec.KeyOf(record.leases, lease);
      consumers := consumers[consumer := record.(leases := Spec.WithoutLease(record.leases, lease))];
      if key.Some? && key.value in entries {
        var entry := entries[key.value];
        entries := entries[key.value := entry.(leases := entry.leases - {lease})];
      }
    }

    /** Retire a consumer: its leases one after the other, then what it was generating, then its record. */
    method End(consumer: Token)
      requires consumer in consumers
      modifies this`consumers, this`entries, this`order
      ensures S() == Spec.End(old(S()), consumer)
    {
      hide Spec.Release;
      ReleaseAll(consumer);
      var candidates := order;
      ghost var released := S();
      for k := 0 to |candidates|
        invariant consumers == released.consumers && nextToken == released.nextToken && metrics == released.metrics
        invariant published == released.published
        invariant Spec.AbortAll(released, consumer, candidates) == Spec.AbortAll(S(), consumer, candidates[k..])
      {
        var key := candidates[k];
        assert candidates[k..][1..] == candidates[k + 1..] && candidates[k..][0] == key;
        Abort(consumer, key);
      }
      consumers := consumers - {consumer};
    }

    method ReleaseAll(consumer: Token)
      requires consumer in consumers
      modifies this`consumers, this`entries
      ensures S() == Spec.ReleaseAll(old(S()), consumer)
    {
      ghost var start := S();
      while consumers[consumer].leases != []
        invariant consumer in consumers
        invariant order == start.order && nextToken == start.nextToken && metrics == start.metrics
        invariant published == start.published
        invariant Spec.ReleaseAll(start, consumer) == Spec.ReleaseAll(S(), consumer)
        decreases if consumer in consumers then |consumers[consumer].leases| else 0
      {
        Release(consumer, consumers[consumer].leases[0].token);
      }
    }

    method Abort(consumer: Token, key: Key)
      modifies this`entries, this`order
      ensures S() == Spec.Abort(old(S()), consumer, key)
    {
      if key in entries && !entries[key].ready && entries[key].producer == consumer {
        Remove(key);
      }
    }

    method LeasedBytes(leases: seq<Spec.Lease>) returns (bytes: nat)
      ensures bytes == Spec.LeasedBytes(entries, leases)
    {
      bytes := 0;
      ghost var whole := Spec.LeasedBytes(entries, leases);
      for k := 0 to |leases|
        invariant bytes + Spec.LeasedBytes(entries, leases[k..]) == whole
      {
        assert leases[k..][1..] == leases[k + 1..] && leases[k..][0] == leases[k];
        if leases[k].key in entries {
          bytes := bytes + entries[leases[k].key].bytes;
        }
      }
    }

    method Grant(consumer: Token, key: Key) returns (reply: Reply)
      requires consumer in consumers && key in entries
      modifies this`consumers, this`entries, this`order, this`nextToken, this`metrics
      ensures (S(), reply) == Spec.Grant(old(S()), consumer, key)
    {
      var record, entry, lease := consumers[consumer], entries[key], Spec.Token(nextToken);
      consumers := consumers[consumer := record.(leases := record.leases + [Spec.Lease(lease, key)])];
      entries := entries[key := entry.(leases := entry.leases + {lease})];
      order := Spec.Drop(order, key) + [key];
      nextToken, metrics := nextToken + 1, metrics.(hits := metrics.hits + 1);
      return Spec.Hit(lease, entry.content, entry.bytes, entry.tier);
    }

    /** Make room in RAM, else on disk, and reserve the entry; or let the caller go without the cache. */
    method Produce(consumer: Token, key: Key, size: nat) returns (reply: Reply)
      modifies this`entries, this`order, this`metrics
      ensures (S(), reply) == Spec.Produce(config, old(S()), consumer, key, size)
    {
      hide Spec.Fits, Spec.Space;
      metrics := metrics.(misses := metrics.misses + 1);
      var fits := false;
      if config.ramBytes > 0 {
        fits := Space(Spec.Ram, size);
        if fits {
          Reserve(consumer, key, Spec.Ram, size);
          return Spec.Miss(Spec.Ram);
        }
      }
      if config.diskBytes > 0 {
        fits := Space(Spec.Disk, size);
        if fits {
          Reserve(consumer, key, Spec.Disk, size);
          return Spec.Miss(Spec.Disk);
        }
      }
      metrics := metrics.(bypasses := metrics.bypasses + 1);
      return Spec.Bypass(Spec.NoCapacity);
    }

    method Reserve(consumer: Token, key: Key, tier: Tier, size: nat)
      modifies this`entries, this`order
      ensures S() == Spec.Reserve(old(S()), consumer, key, tier, size).0
    {
      order, entries := order + [key], entries[key := Spec.Entry(size, tier, false, consumer, [], {})];
    }

    method Acquire(consumer: Token, key: Key, size: int, timedOut: bool) returns (reply: Reply)
      modifies this
      ensures (S(), reply) == Spec.Acquire(config, old(S()), consumer, key, size, timedOut)
    {
      hide Spec.Produce, Spec.Grant;
      if consumer !in consumers {
        return Spec.Refused(Spec.UnknownConsumer);
      }
      if size < 0 {
        return Spec.Refused(Spec.BadSize);
      }
      if key in entries && !entries[key].ready {
        if !timedOut {
          return Spec.MustWait;
        }
        metrics := metrics.(bypasses := metrics.bypasses + 1);
        return Spec.Bypass(Spec.WaitTimeout);
      }
      if key in entries {
        var private := LeasedBytes(consumers[consumer].leases);
        if private + entries[key].bytes > consumers[consumer].copyLimit {
          metrics := metrics.(bypasses := metrics.bypasses + 1);
          return Spec.Bypass(Spec.CopyBudget);
        }
        reply := Grant(consumer, key);
      } else {
        reply := Produce(consumer, key, size);
      }
    }

    method Publish(consumer: Token, key: Key, content: Spec.Content) returns (reply: Reply)
      modifies this
      ensures (S(), reply) == Spec.Publish(old(S()), consumer, key, content)
    {
      if key !in entries || entries[key].ready || entries[key].producer != consumer || |content| > entries[key].bytes {
        return Spec.Refused(Spec.BadPublication);
      }
      entries := entries[key := entries[key].(bytes := |content|, ready := true, content := content)];
      published := published[key := content];
      metrics := metrics.(publications := metrics.publications + 1);
      return Spec.Done;
    }

    method Clear() returns (reply: Reply)
      modifies this`order, this`entries
      ensures (S(), reply) == Spec.Clear(old(S()))
    {
      if consumers != map[] {
        return Spec.Refused(Spec.LiveConsumers);
      }
      order, entries := [], map[];
      return Spec.Done;
    }

    /** `dispatch`: only a live consumer's requests are served. */
    method Handle(request: Spec.Request) returns (reply: Reply)
      modifies this
      ensures (S(), reply) == Spec.Handle(config, old(S()), request)
    {
      hide Spec.Begin, Spec.Acquire, Spec.Publish, Spec.Release, Spec.End, Spec.Abort, Spec.Clear;
      reply := Spec.Refused(Spec.UnknownConsumer);
      match request
      case BeginRequest(copyLimit) => reply := Begin(copyLimit);
      case AcquireRequest(consumer, key, size, timedOut) => reply := Acquire(consumer, key, size, timedOut);
      case PublishRequest(consumer, key, content) =>
        if consumer in consumers {
          reply := Publish(consumer, key, content);
        }
      case ReleaseRequest(consumer, lease) =>
        if consumer in consumers {
          Release(consumer, lease);
          reply := Spec.Done;
        }
      case EndRequest(consumer) =>
        if consumer in consumers {
          End(consumer);
          reply := Spec.Done;
        }
      case AbortRequest(consumer, key) =>
        if consumer in consumers {
          Abort(consumer, key);
          reply := Spec.Done;
        }
      case ClearRequest => reply := Clear();
    }
  }

  /** Any sequence of requests. */
  method Serve(config: Spec.Config, requests: seq<Spec.Request>) returns (cache: InputCache)
    requires config.Valid()
    ensures fresh(cache) && cache.config == config && cache.S() == Spec.Serve(config, requests)
    ensures T.Sound(config, cache.S())
  {
    hide T.Sound, Spec.Handle;
    cache := new InputCache(config);
    assert requests[..0] == [];
    for k := 0 to |requests|
      invariant fresh(cache) && cache.config == config && cache.S() == Spec.Serve(config, requests[..k])
    {
      assert requests[..k + 1][..k] == requests[..k];
      var reply := cache.Handle(requests[k]);
    }
    assert requests[..|requests|] == requests;
    T.ServeSound(config, requests);
  }
}
