/** What every sequence of requests to the input cache keeps. */
module InputCacheTheorems {
  import opened Basics
  import opened Wrappers
  import opened InputCacheSpec

  // ----- invariants

  ghost predicate Listed(order: seq<Key>, entries: map<Key, Entry>) {
    Distinct(order) && forall k :: k in order <==> k in entries
  }

  /** Each tier's bytes and the number of entries stay within their limits. */
  ghost predicate Limits(config: Config, order: seq<Key>, entries: map<Key, Entry>) {
    && Used(order, entries, Ram) <= config.ramBytes && Used(order, entries, Disk) <= config.diskBytes
    && |order| <= config.maxEntries
  }

  /** Consumer c's i-th lease. */
  ghost predicate HasLease(consumers: map<Token, Consumer>, c: Token, i: nat, lease: Lease) {
    c in consumers && i < |consumers[c].leases| && consumers[c].leases[i] == lease
  }

  ghost predicate LeaseHeld(consumers: map<Token, Consumer>, lease: Lease) {
    exists c, i :: HasLease(consumers, c, i, lease)
  }

  /** Consumers' leases and entries' lease sets mirror each other, and no token is leased twice. */
  ghost predicate Mirror(entries: map<Key, Entry>, consumers: map<Token, Consumer>) {
    && (forall c, i, l :: HasLease(consumers, c, i, l) ==>
          l.key in entries && entries[l.key].ready && l.token in entries[l.key].leases)
    && (forall k, t :: k in entries && t in entries[k].leases ==> LeaseHeld(consumers, Lease(t, k)))
    && (forall c, i, d, j, l, m :: HasLease(consumers, c, i, l) && HasLease(consumers, d, j, m) && l.token == m.token ==>
          c == d && i == j)
  }

  ghost predicate Tokens(consumers: map<Token, Consumer>, next: nat) {
    && (forall c :: c in consumers ==> c.id < next)
    && (forall c, i, l :: HasLease(consumers, c, i, l) ==> l.token.id < next)
  }

  /** What is being generated has a live producer and no leases. */
  ghost predicate Producers(entries: map<Key, Entry>, consumers: map<Token, Consumer>) {
    forall k :: k in entries && !entries[k].ready ==> entries[k].leases == {} && entries[k].producer in consumers
  }

  ghost predicate Budgets(entries: map<Key, Entry>, consumers: map<Token, Consumer>) {
    forall c :: c in consumers ==> LeasedBytes(entries, consumers[c].leases) <= consumers[c].copyLimit
  }

  /** A ready entry holds what was last published under its key. */
  ghost predicate Contents(entries: map<Key, Entry>, published: map<Key, Content>) {
    forall k :: k in entries && entries[k].ready ==>
      k in published && entries[k].content == published[k] && entries[k].bytes == |published[k]|
  }

  ghost predicate Sound(config: Config, s: Cache) {
    && Listed(s.order, s.entries) && Limits(config, s.order, s.entries)
    && Mirror(s.entries, s.consumers) && Tokens(s.consumers, s.nextToken)
    && Producers(s.entries, s.consumers) && Budgets(s.entries, s.consumers) && Contents(s.entries, s.published)
  }

  // ----- sums

  lemma {:induction false} DropMembers<T>(s: seq<T>, x: T)
    requires Distinct(s)
    ensures Distinct(Drop(s, x)) && forall y :: y in Drop(s, x) <==> y in s && y != x
    ensures |Drop(s, x)| == if x in s then |s| - 1 else |s|
  {
    if s != [] {
      var rest := s[1..];
      assert forall i :: 0 <= i < |rest| ==> rest[i] == s[i + 1];
      assert s[0] !in rest;
      DropMembers(rest, x);
      assert forall y :: y in s <==> y == s[0] || y in rest;
    }
  }

  lemma {:induction false} UsedSame(order: seq<Key>, a: map<Key, Entry>, b: map<Key, Entry>, tier: Tier)
    requires forall k :: k in order ==> Bytes(a, k, tier) == Bytes(b, k, tier)
    ensures Used(order, a, tier) == Used(order, b, tier)
  {
    if order != [] {
      UsedSame(order[1..], a, b, tier);
    }
  }

  lemma {:induction false} UsedDrop(order: seq<Key>, entries: map<Key, Entry>, key: Key, tier: Tier)
    requires key in order
    ensures Used(order, entries, tier) == Used(Drop(order, key), entries, tier) + Bytes(entries, key, tier)
  {
    if order[0] != key {
      UsedDrop(order[1..], entries, key, tier);
      assert Drop(order, key)[1..] == Drop(order[1..], key);
    }
  }

  lemma {:induction false} UsedAppend(order: seq<Key>, entries: map<Key, Entry>, key: Key, tier: Tier)
    ensures Used(order + [key], entries, tier) == Used(order, entries, tier) + Bytes(entries, key, tier)
  {
    if order == [] {
      assert order + [key] == [key];
    } else {
      UsedAppend(order[1..], entries, key, tier);
      assert (order + [key])[1..] == order[1..] + [key];
    }
  }

  lemma UsedUpdate(order: seq<Key>, entries: map<Key, Entry>, key: Key, entry: Entry, tier: Tier)
    requires Distinct(order) && key in order && key in entries
    ensures Used(order, entries[key := entry], tier) + Bytes(entries, key, tier)
            == Used(order, entries, tier) + Bytes(entries[key := entry], key, tier)
  {
    DropMembers(order, key);
    UsedDrop(order, entries, key, tier);
    UsedDrop(order, entries[key := entry], key, tier);
    UsedSame(Drop(order, key), entries, entries[key := entry], tier);
  }

  lemma {:induction false} LeasedSame(a: map<Key, Entry>, b: map<Key, Entry>, leases: seq<Lease>)
    requires forall i :: 0 <= i < |leases| ==>
               leases[i].key in a && leases[i].key in b && a[leases[i].key].bytes == b[leases[i].key].bytes
    ensures LeasedBytes(a, leases) == LeasedBytes(b, leases)
  {
    if leases != [] {
      LeasedSame(a, b, leases[1..]);
    }
  }

  lemma {:induction false} LeasedAppend(entries: map<Key, Entry>, leases: seq<Lease>, lease: Lease)
    requires lease.key in entries
    ensures LeasedBytes(entries, leases + [lease]) == LeasedBytes(entries, leases) + entries[lease.key].bytes
  {
    if leases == [] {
      assert leases + [lease] == [lease];
    } else {
      LeasedAppend(entries, leases[1..], lease);
      assert (leases + [lease])[1..] == leases[1..] + [lease];
    }
  }

  lemma {:induction false} LeasedWithout(entries: map<Key, Entry>, leases: seq<Lease>, token: Token)
    ensures LeasedBytes(entries, WithoutLease(leases, token)) <= LeasedBytes(entries, leases)
  {
    if leases != [] {
      LeasedWithout(entries, leases[1..], token);
    }
  }

  /** Entries agree wherever somebody holds a lease. */
  lemma BudgetsKept(entries: map<Key, Entry>, next: map<Key, Entry>, consumers: map<Token, Consumer>)
    requires Budgets(entries, consumers) && Mirror(entries, consumers)
    requires forall k :: k in entries && entries[k].leases != {} ==> k in next && next[k].bytes == entries[k].bytes
    ensures Budgets(next, consumers)
  {
    forall c | c in consumers ensures LeasedBytes(next, consumers[c].leases) <= consumers[c].copyLimit {
      var leases := consumers[c].leases;
      forall i | 0 <= i < |leases|
        ensures leases[i].key in entries && leases[i].key in next && next[leases[i].key].bytes == entries[leases[i].key].bytes
      {
        assert HasLease(consumers, c, i, leases[i]);
      }
      LeasedSame(entries, next, leases);
    }
  }

  // ----- removal and eviction

  lemma RemoveLimits(config: Config, s: Cache, key: Key)
    requires Listed(s.order, s.entries) && Limits(config, s.order, s.entries) && key in s.entries
    ensures Listed(Remove(s, key).order, Remove(s, key).entries) && Limits(config, Remove(s, key).order, Remove(s, key).entries)
    ensures |Remove(s, key).order| == |s.order| - 1
  {
    DropMembers(s.order, key);
    var rest := Drop(s.order, key);
    UsedDrop(s.order, s.entries, key, Ram);
    UsedDrop(s.order, s.entries, key, Disk);
    UsedSame(rest, s.entries, s.entries - {key}, Ram);
    UsedSame(rest, s.entries, s.entries - {key}, Disk);
  }

  /** An entry without leases can be removed. */
  lemma RemoveSound(config: Config, s: Cache, key: Key)
    requires Sound(config, s) && key in s.entries && s.entries[key].leases == {}
    ensures Sound(config, Remove(s, key))
  {
    hide Limits, Listed, Used, LeasedBytes, HasLease;
    RemoveLimits(config, s, key);
    RemoveMirror(s.entries, s.consumers, key);
    BudgetsKept(s.entries, s.entries - {key}, s.consumers);
  }

  lemma RemoveMirror(entries: map<Key, Entry>, consumers: map<Token, Consumer>, key: Key)
    requires Mirror(entries, consumers) && key in entries && entries[key].leases == {}
    ensures Mirror(entries - {key}, consumers)
  {
  }

  /** Eviction only takes entries that are ready and unleased, and leaves the rest as it was. */
  ghost predicate OnlyUnused(s: Cache, t: Cache) {
    && t.consumers == s.consumers && t.nextToken == s.nextToken && t.published == s.published
    && (forall k :: k in t.entries ==> k in s.entries && t.entries[k] == s.entries[k])
    && (forall k :: k in s.entries && (!s.entries[k].ready || s.entries[k].leases != {}) ==> k in t.entries)
  }

  lemma EvictSound(config: Config, s: Cache, key: Key, tier: Tier)
    requires Sound(config, s) && key in s.entries && s.entries[key].Evictable(tier)
    ensures Sound(config, Evict(s, key)) && OnlyUnused(s, Evict(s, key))
  {
    hide Limits, Listed, Mirror, Tokens, Producers, Budgets, Contents;
    RemoveSound(config, s, key);
    assert OnlyUnused(s, Evict(s, key));
  }

  lemma {:induction false} MakeSpaceSound(config: Config, s: Cache, tier: Tier, size: nat, candidates: seq<Key>)
    requires Sound(config, s)
    ensures Sound(config, MakeSpace(config, s, tier, size, candidates))
    ensures OnlyUnused(s, MakeSpace(config, s, tier, size, candidates))
    decreases |candidates|
  {
    hide Sound, Fits, Evict, OnlyUnused;
    if candidates != [] && !Fits(config, s, tier, size) {
      var key := candidates[0];
      var evict := key in s.entries && s.entries[key].Evictable(tier);
      var next := if evict then Evict(s, key) else s;
      Unchanged(s);
      if evict {
        EvictSound(config, s, key, tier);
      }
      MakeSpaceSound(config, next, tier, size, candidates[1..]);
      OnlyUnusedOn(s, next, MakeSpace(config, next, tier, size, candidates[1..]));
    } else {
      Unchanged(s);
    }
  }

  lemma Unchanged(s: Cache)
    ensures OnlyUnused(s, s)
  {
  }

  lemma OnlyUnusedOn(s: Cache, t: Cache, u: Cache)
    requires OnlyUnused(s, t) && OnlyUnused(t, u)
    ensures OnlyUnused(s, u)
  {
  }

  lemma SpaceSound(config: Config, s: Cache, tier: Tier, size: nat)
    requires Sound(config, s)
    ensures Sound(config, Space(config, s, tier, size)) && OnlyUnused(s, Space(config, s, tier, size))
  {
    hide Sound, OnlyUnused, MakeSpace;
    Unchanged(s);
    MakeSpaceSound(config, s, tier, size, s.order);
  }

  ghost predicate UnusedAmong(s: Cache, tier: Tier, candidates: seq<Key>) {
    forall k :: k in s.entries && s.entries[k].Evictable(tier) ==> k in candidates
  }

  lemma OneCandidateLess(s: Cache, tier: Tier, candidates: seq<Key>)
    requires candidates != [] && UnusedAmong(s, tier, candidates)
    ensures var key := candidates[0];
            var next := if key in s.entries && s.entries[key].Evictable(tier) then Evict(s, key) else s;
            UnusedAmong(next, tier, candidates[1..])
  {
    assert candidates == [candidates[0]] + candidates[1..];
  }

  /** Eviction gives up only when no entry of the tier is unused any more. */
  lemma {:induction false} SpaceIsThorough(config: Config, s: Cache, tier: Tier, size: nat, candidates: seq<Key>)
    requires UnusedAmong(s, tier, candidates)
    ensures var t := MakeSpace(config, s, tier, size, candidates);
            Fits(config, t, tier, size) || UnusedAmong(t, tier, [])
    decreases |candidates|
  {
    hide Fits, UnusedAmong;
    if candidates != [] && !Fits(config, s, tier, size) {
      var key := candidates[0];
      OneCandidateLess(s, tier, candidates);
      SpaceIsThorough(config, if key in s.entries && s.entries[key].Evictable(tier) then Evict(s, key) else s,
                      tier, size, candidates[1..]);
    }
  }

  lemma {:induction false} EvictionOnlyRemoves(config: Config, s: Cache, tier: Tier, size: nat, candidates: seq<Key>)
    ensures MakeSpace(config, s, tier, size, candidates).entries.Keys <= s.entries.Keys
    ensures forall k :: k in s.entries && k !in candidates ==> k in MakeSpace(config, s, tier, size, candidates).entries
    decreases |candidates|
  {
    hide Fits;
    if candidates != [] && !Fits(config, s, tier, size) {
      var key := candidates[0];
      EvictionOnlyRemoves(config, if key in s.entries && s.entries[key].Evictable(tier) then Evict(s, key) else s,
                          tier, size, candidates[1..]);
      assert candidates == [key] + candidates[1..];
    }
  }

  /** An unused entry that survives protects every entry used more recently: eviction takes the oldest first. */
  lemma {:induction false} OldestFirst(
    config: Config, s: Cache, tier: Tier, size: nat, candidates: seq<Key>, older: nat, newer: nat)
    requires Distinct(candidates) && older < newer < |candidates|
    requires candidates[older] in s.entries && s.entries[candidates[older]].Evictable(tier)
    requires candidates[newer] in s.entries
    requires candidates[older] in MakeSpace(config, s, tier, size, candidates).entries
    ensures candidates[newer] in MakeSpace(config, s, tier, size, candidates).entries
    decreases |candidates|
  {
    hide Fits;
    if !Fits(config, s, tier, size) {
      var key, rest := candidates[0], candidates[1..];
      var next := if key in s.entries && s.entries[key].Evictable(tier) then Evict(s, key) else s;
      EvictionOnlyRemoves(config, next, tier, size, rest);
      if older > 0 {
        assert rest[older - 1] == candidates[older] && rest[newer - 1] == candidates[newer];
        assert forall i, j :: 0 <= i < j < |rest| ==> rest[i] == candidates[i + 1] && rest[j] == candidates[j + 1];
        OldestFirst(config, next, tier, size, rest, older - 1, newer - 1);
      }
    }
  }

  // ----- reservations

  lemma ReserveLimits(config: Config, s: Cache, consumer: Token, key: Key, tier: Tier, size: nat)
    requires Listed(s.order, s.entries) && Limits(config, s.order, s.entries)
    requires Fits(config, s, tier, size) && key !in s.entries
    ensures var t := Reserve(s, consumer, key, tier, size).0;
            Listed(t.order, t.entries) && Limits(config, t.order, t.entries)
  {
    var t := Reserve(s, consumer, key, tier, size).0;
    UsedAppend(s.order, t.entries, key, Ram);
    UsedAppend(s.order, t.entries, key, Disk);
    UsedSame(s.order, s.entries, t.entries, Ram);
    UsedSame(s.order, s.entries, t.entries, Disk);
    hide Used;
  }

  lemma ReserveSound(config: Config, s: Cache, consumer: Token, key: Key, tier: Tier, size: nat)
    requires Sound(config, s) && Fits(config, s, tier, size) && key !in s.entries && consumer in s.consumers
    ensures Sound(config, Reserve(s, consumer, key, tier, size).0)
  {
    hide Limits, Listed, Fits, LeasedBytes, HasLease;
    ReserveLimits(config, s, consumer, key, tier, size);
    BudgetsKept(s.entries, Reserve(s, consumer, key, tier, size).0.entries, s.consumers);
  }

  lemma MetricsSound(config: Config, s: Cache, metrics: Metrics)
    requires Sound(config, s)
    ensures Sound(config, s.(metrics := metrics))
  {
    hide Limits, Listed, Mirror, Tokens, Producers, Budgets, Contents;
  }

  /** A miss evicts at most unused entries, whether or not it ends with a reservation. */
  lemma ProduceSound(config: Config, s: Cache, consumer: Token, key: Key, size: nat)
    requires Sound(config, s) && key !in s.entries && consumer in s.consumers
    ensures Sound(config, Produce(config, s, consumer, key, size).0)
  {
    hide Sound, Fits, Space, Reserve, OnlyUnused;
    var missed := s.(metrics := s.metrics.(misses := s.metrics.misses + 1));
    MetricsSound(config, s, missed.metrics);
    var inRam := if config.ramBytes > 0 then Space(config, missed, Ram, size) else missed;
    SpaceSound(config, missed, Ram, size);
    Unchanged(missed);
    StillAbsent(missed, inRam, consumer, key);
    if config.ramBytes > 0 && size <= config.ramBytes && Fits(config, inRam, Ram, size) {
      ReserveSound(config, inRam, consumer, key, Ram, size);
    } else {
      var onDisk := if config.diskBytes > 0 then Space(config, inRam, Disk, size) else inRam;
      SpaceSound(config, inRam, Disk, size);
      Unchanged(inRam);
      StillAbsent(inRam, onDisk, consumer, key);
      if config.diskBytes > 0 && size <= config.diskBytes && Fits(config, onDisk, Disk, size) {
        ReserveSound(config, onDisk, consumer, key, Disk, size);
      } else {
        MetricsSound(config, onDisk, onDisk.metrics.(bypasses := onDisk.metrics.bypasses + 1));
      }
    }
  }

  lemma StillAbsent(s: Cache, t: Cache, consumer: Token, key: Key)
    requires OnlyUnused(s, t) && key !in s.entries && consumer in s.consumers
    ensures key !in t.entries && consumer in t.consumers
  {
  }

  // ----- hits

  lemma GrantLimits(config: Config, s: Cache, consumer: Token, key: Key)
    requires Listed(s.order, s.entries) && Limits(config, s.order, s.entries)
    requires consumer in s.consumers && key in s.entries
    ensures var t := Grant(s, consumer, key).0;
            Listed(t.order, t.entries) && Limits(config, t.order, t.entries)
  {
    var t := Grant(s, consumer, key).0;
    MovedUsed(s.order, s.entries, t.entries, key, Ram);
    MovedUsed(s.order, s.entries, t.entries, key, Disk);
    DropMembers(s.order, key);
    hide Used, Drop;
  }

  lemma MovedUsed(order: seq<Key>, entries: map<Key, Entry>, next: map<Key, Entry>, key: Key, tier: Tier)
    requires key in order && forall k :: Bytes(next, k, tier) == Bytes(entries, k, tier)
    ensures Used(Drop(order, key) + [key], next, tier) == Used(order, entries, tier)
  {
    UsedAppend(Drop(order, key), next, key, tier);
    UsedDrop(order, next, key, tier);
    UsedSame(order, next, entries, tier);
  }

  lemma GrantMirror(s: Cache, consumer: Token, key: Key)
    requires Mirror(s.entries, s.consumers) && Tokens(s.consumers, s.nextToken)
    requires consumer in s.consumers && key in s.entries && s.entries[key].ready
    ensures var t := Grant(s, consumer, key).0;
            Mirror(t.entries, t.consumers) && Tokens(t.consumers, t.nextToken)
  {
    var t, lease := Grant(s, consumer, key).0, Lease(Token(s.nextToken), key);
    var n := |s.consumers[consumer].leases|;
    forall c, i, l ensures HasLease(t.consumers, c, i, l) <==>
                             HasLease(s.consumers, c, i, l) || (c == consumer && i == n && l == lease) {
    }
    hide HasLease;
    forall k, x | k in t.entries && x in t.entries[k].leases ensures LeaseHeld(t.consumers, Lease(x, k)) {
      if x in s.entries[k].leases {
        var c, i :| HasLease(s.consumers, c, i, Lease(x, k));
        assert HasLease(t.consumers, c, i, Lease(x, k));
      } else {
        assert HasLease(t.consumers, consumer, n, lease);
      }
    }
  }

  lemma GrantBudgets(s: Cache, consumer: Token, key: Key)
    requires Budgets(s.entries, s.consumers) && Mirror(s.entries, s.consumers)
    requires consumer in s.consumers && key in s.entries
    requires LeasedBytes(s.entries, s.consumers[consumer].leases) + s.entries[key].bytes <= s.consumers[consumer].copyLimit
    ensures Budgets(Grant(s, consumer, key).0.entries, Grant(s, consumer, key).0.consumers)
  {
    hide Mirror;
    var t := Grant(s, consumer, key).0;
    BudgetsKept(s.entries, t.entries, s.consumers);
    LeasedAppend(t.entries, s.consumers[consumer].leases, Lease(Token(s.nextToken), key));
    LeasedGrant(s, consumer, key, t.entries);
  }

  lemma LeasedGrant(s: Cache, consumer: Token, key: Key, next: map<Key, Entry>)
    requires Mirror(s.entries, s.consumers) && consumer in s.consumers
    requires next.Keys == s.entries.Keys && forall k :: k in next ==> next[k].bytes == s.entries[k].bytes
    ensures LeasedBytes(next, s.consumers[consumer].leases) == LeasedBytes(s.entries, s.consumers[consumer].leases)
  {
    var leases := s.consumers[consumer].leases;
    forall i | 0 <= i < |leases| ensures leases[i].key in s.entries {
      assert HasLease(s.consumers, consumer, i, leases[i]);
    }
    LeasedSame(next, s.entries, leases);
  }

  /** A hit keeps the invariants and returns what was published under the key. */
  lemma GrantSound(config: Config, s: Cache, consumer: Token, key: Key)
    requires Sound(config, s) && consumer in s.consumers && key in s.entries && s.entries[key].ready
    requires LeasedBytes(s.entries, s.consumers[consumer].leases) + s.entries[key].bytes <= s.consumers[consumer].copyLimit
    ensures Sound(config, Grant(s, consumer, key).0)
    ensures var reply := Grant(s, consumer, key).1;
            key in s.published && reply.Hit? && reply.content == s.published[key] && reply.bytes == |s.published[key]|
  {
    hide Limits, Listed, Mirror, Tokens, Budgets;
    GrantLimits(config, s, consumer, key);
    GrantMirror(s, consumer, key);
    GrantBudgets(s, consumer, key);
  }

  // ----- publication

  lemma PublishLimits(config: Config, s: Cache, key: Key, content: Content)
    requires Listed(s.order, s.entries) && Limits(config, s.order, s.entries)
    requires key in s.entries && |content| <= s.entries[key].bytes
    ensures var next := s.entries[key := s.entries[key].(bytes := |content|, ready := true, content := content)];
            Listed(s.order, next) && Limits(config, s.order, next)
  {
    var entry := s.entries[key].(bytes := |content|, ready := true, content := content);
    UsedUpdate(s.order, s.entries, key, entry, Ram);
    UsedUpdate(s.order, s.entries, key, entry, Disk);
    hide Used;
  }

  lemma PublishSound(config: Config, s: Cache, consumer: Token, key: Key, content: Content)
    requires Sound(config, s)
    ensures Sound(config, Publish(s, consumer, key, content).0)
  {
    hide Limits, Listed, LeasedBytes, HasLease;
    if ProducedBy(s, key, consumer) && |content| <= s.entries[key].bytes {
      PublishLimits(config, s, key, content);
      BudgetsKept(s.entries, Publish(s, consumer, key, content).0.entries, s.consumers);
    }
  }

  // ----- releases and retirement

  lemma {:induction false} WithoutLeaseAt(leases: seq<Lease>, token: Token, i: nat)
    requires forall j, k :: 0 <= j < k < |leases| ==> leases[j].token != leases[k].token
    requires i < |leases| && leases[i].token == token
    ensures KeyOf(leases, token) == Some(leases[i].key)
    ensures WithoutLease(leases, token) == leases[..i] + leases[i + 1..]
  {
    if i > 0 {
      WithoutLeaseAt(leases[1..], token, i - 1);
      assert leases[..i] == [leases[0]] + leases[1..][..i - 1];
      assert leases[i + 1..] == leases[1..][i..];
    }
  }

  lemma {:induction false} WithoutLeaseAbsent(leases: seq<Lease>, token: Token)
    requires forall j :: 0 <= j < |leases| ==> leases[j].token != token
    ensures KeyOf(leases, token) == None && WithoutLease(leases, token) == leases
  {
    if leases != [] {
      WithoutLeaseAbsent(leases[1..], token);
    }
  }

  /** The leases of one consumer that remain keep their meaning under new places. */
  lemma ReleaseAtMirror(
    entries: map<Key, Entry>, consumers: map<Token, Consumer>, consumer: Token, i: nat, next: map<Key, Entry>,
    left: map<Token, Consumer>)
    requires Mirror(entries, consumers) && consumer in consumers && i < |consumers[consumer].leases|
    requires var record := consumers[consumer];
             && left == consumers[consumer := record.(leases := record.leases[..i] + record.leases[i + 1..])]
             && record.leases[i].key in entries
             && next == entries[record.leases[i].key := entries[record.leases[i].key].(
                          leases := entries[record.leases[i].key].leases - {record.leases[i].token})]
    ensures Mirror(next, left)
  {
    var gone := consumers[consumer].leases[i];
    assert HasLease(consumers, consumer, i, gone);
    forall c, j: nat, l | HasLease(left, c, j, l)
      ensures HasLease(consumers, c, if c == consumer && j >= i then j + 1 else j, l) && l.token != gone.token
    {
      assert HasLease(consumers, c, if c == consumer && j >= i then j + 1 else j, l);
    }
    forall k, t | k in next && t in next[k].leases ensures LeaseHeld(left, Lease(t, k)) {
      assert LeaseHeld(consumers, Lease(t, k));
      var c, j :| HasLease(consumers, c, j, Lease(t, k));
      StillHeld(consumers, consumer, i, left, c, j, Lease(t, k));
    }
    hide HasLease;
  }

  lemma StillHeld(
    consumers: map<Token, Consumer>, consumer: Token, i: nat, left: map<Token, Consumer>, c: Token, j: nat, lease: Lease)
    requires consumer in consumers && i < |consumers[consumer].leases| && HasLease(consumers, c, j, lease)
    requires left == consumers[consumer := consumers[consumer].(
                       leases := consumers[consumer].leases[..i] + consumers[consumer].leases[i + 1..])]
    requires lease != consumers[consumer].leases[i]
    ensures LeaseHeld(left, lease)
  {
    if c == consumer && i < j {
      assert HasLease(left, c, j - 1, lease);
    } else {
      assert HasLease(left, c, j, lease);
    }
  }

  /** Entries that differ in nothing but unleased ones' leases. */
  lemma UsedUnderLeases(order: seq<Key>, entries: map<Key, Entry>, key: Key, leases: set<Token>, tier: Tier)
    requires key in entries
    ensures Used(order, entries[key := entries[key].(leases := leases)], tier) == Used(order, entries, tier)
  {
    UsedSame(order, entries[key := entries[key].(leases := leases)], entries, tier);
  }

  lemma TokensDistinct(entries: map<Key, Entry>, consumers: map<Token, Consumer>, consumer: Token)
    requires Mirror(entries, consumers) && consumer in consumers
    ensures forall j, k :: 0 <= j < k < |consumers[consumer].leases| ==>
              consumers[consumer].leases[j].token != consumers[consumer].leases[k].token
  {
    var leases := consumers[consumer].leases;
    forall j: nat, k: nat | j < k < |leases| ensures leases[j].token != leases[k].token {
      assert HasLease(consumers, consumer, j, leases[j]) && HasLease(consumers, consumer, k, leases[k]);
    }
  }

  lemma ReleaseBudgets(
    entries: map<Key, Entry>, consumers: map<Token, Consumer>, consumer: Token, token: Token, next: map<Key, Entry>,
    left: map<Token, Consumer>)
    requires Budgets(entries, consumers) && Mirror(entries, consumers) && consumer in consumers
    requires next.Keys == entries.Keys && forall k :: k in next ==> next[k].bytes == entries[k].bytes
    requires left == consumers[consumer := consumers[consumer].(leases := WithoutLease(consumers[consumer].leases, token))]
    ensures Budgets(next, left)
  {
    BudgetsKept(entries, next, consumers);
    LeasedWithout(next, consumers[consumer].leases, token);
    hide Mirror, LeasedBytes;
  }

  lemma LeftTokens(consumers: map<Token, Consumer>, consumer: Token, i: nat, left: map<Token, Consumer>, next: nat)
    requires Tokens(consumers, next) && consumer in consumers && i < |consumers[consumer].leases|
    requires left == consumers[consumer := consumers[consumer].(
                       leases := consumers[consumer].leases[..i] + consumers[consumer].leases[i + 1..])]
    ensures Tokens(left, next)
  {
    forall c, j: nat, l | HasLease(left, c, j, l) ensures l.token.id < next {
      assert HasLease(consumers, c, if c == consumer && j >= i then j + 1 else j, l);
    }
  }

  /** Releasing a lease that the consumer has. */
  lemma ReleaseAt(config: Config, s: Cache, consumer: Token, i: nat)
    requires Sound(config, s) && consumer in s.consumers && i < |s.consumers[consumer].leases|
    ensures var lease := s.consumers[consumer].leases[i];
            var t := Release(s, consumer, lease.token);
            && Sound(config, t) && t.order == s.order && t.entries.Keys == s.entries.Keys
            && t.consumers.Keys == s.consumers.Keys
            && |t.consumers[consumer].leases| == |s.consumers[consumer].leases| - 1
            && t.published == s.published && t.metrics == s.metrics && t.nextToken == s.nextToken
            && forall k :: k in s.entries ==> t.entries[k] == s.entries[k].(leases := t.entries[k].leases)
  {
    hide Limits, Listed, Used, LeasedBytes, Tokens, Budgets;
    var record := s.consumers[consumer];
    var lease := record.leases[i];
    TokensDistinct(s.entries, s.consumers, consumer);
    WithoutLeaseAt(record.leases, lease.token, i);
    assert HasLease(s.consumers, consumer, i, lease);
    ReleasedParts(config, s, consumer, i, Release(s, consumer, lease.token));
    hide Mirror;
  }

  lemma ReleasedParts(config: Config, s: Cache, consumer: Token, i: nat, t: Cache)
    requires Sound(config, s) && consumer in s.consumers && i < |s.consumers[consumer].leases|
    requires s.consumers[consumer].leases[i].key in s.entries
    requires WithoutLease(s.consumers[consumer].leases, s.consumers[consumer].leases[i].token)
             == s.consumers[consumer].leases[..i] + s.consumers[consumer].leases[i + 1..]
    requires var record, lease := s.consumers[consumer], s.consumers[consumer].leases[i];
             t == s.(
               consumers := s.consumers[consumer := record.(leases := record.leases[..i] + record.leases[i + 1..])],
               entries := s.entries[lease.key := s.entries[lease.key].(
                                      leases := s.entries[lease.key].leases - {lease.token})])
    ensures Sound(config, t)
  {
    hide Limits, Used, LeasedBytes, Tokens, Budgets, Mirror;
    var lease := s.consumers[consumer].leases[i];
    var left := s.entries[lease.key].leases - {lease.token};
    ReleaseAtMirror(s.entries, s.consumers, consumer, i, t.entries, t.consumers);
    ReleaseBudgets(s.entries, s.consumers, consumer, lease.token, t.entries, t.consumers);
    LeftTokens(s.consumers, consumer, i, t.consumers, s.nextToken);
    LimitsUnderLeases(config, s.order, s.entries, lease.key, left);
  }

  lemma LimitsUnderLeases(config: Config, order: seq<Key>, entries: map<Key, Entry>, key: Key, leases: set<Token>)
    requires Limits(config, order, entries) && key in entries
    ensures Limits(config, order, entries[key := entries[key].(leases := leases)])
  {
    UsedUnderLeases(order, entries, key, leases, Ram);
    UsedUnderLeases(order, entries, key, leases, Disk);
    hide Used;
  }

  lemma ReleaseSound(config: Config, s: Cache, consumer: Token, lease: Token)
    requires Sound(config, s) && consumer in s.consumers
    ensures Sound(config, Release(s, consumer, lease))
  {
    hide Sound, Release;
    var leases := s.consumers[consumer].leases;
    if i: nat :| i < |leases| && leases[i].token == lease {
      ReleaseAt(config, s, consumer, i);
    } else {
      NoSuchLease(s, consumer, lease);
    }
  }

  lemma NoSuchLease(s: Cache, consumer: Token, lease: Token)
    requires consumer in s.consumers
    requires forall i :: 0 <= i < |s.consumers[consumer].leases| ==> s.consumers[consumer].leases[i].token != lease
    ensures Release(s, consumer, lease) == s
  {
    WithoutLeaseAbsent(s.consumers[consumer].leases, lease);
  }

  /** Retiring takes every lease from the consumer and changes nothing else about any entry. */
  lemma {:induction false} ReleaseAllSound(config: Config, s: Cache, consumer: Token)
    requires Sound(config, s) && consumer in s.consumers
    ensures var t := ReleaseAll(s, consumer);
            && Sound(config, t) && t.order == s.order && t.entries.Keys == s.entries.Keys
            && t.consumers.Keys == s.consumers.Keys && t.consumers[consumer].leases == []
            && t.published == s.published
            && forall k :: k in s.entries ==> t.entries[k] == s.entries[k].(leases := t.entries[k].leases)
    decreases |s.consumers[consumer].leases|
  {
    hide Sound, Release;
    if s.consumers[consumer].leases != [] {
      ReleaseAt(config, s, consumer, 0);
      ReleaseAllSound(config, Release(s, consumer, s.consumers[consumer].leases[0].token), consumer);
    }
  }

  /** What retiring aborts is what the consumer was generating; other entries stay. */
  lemma {:induction false} AbortAllSound(config: Config, s: Cache, consumer: Token, candidates: seq<Key>)
    requires Sound(config, s)
    ensures var t := AbortAll(s, consumer, candidates);
            && Sound(config, t) && t.consumers == s.consumers && t.published == s.published
            && (forall k :: k in t.entries ==> k in s.entries && t.entries[k] == s.entries[k])
            && (forall k :: k in s.entries && !ProducedBy(s, k, consumer) ==> k in t.entries)
            && (forall k :: k in candidates ==> !ProducedBy(t, k, consumer))
    decreases |candidates|
  {
    hide Sound;
    if candidates != [] {
      var key := candidates[0];
      assert candidates == [key] + candidates[1..];
      if ProducedBy(s, key, consumer) {
        GeneratingIsUnleased(config, s, key);
        RemoveSound(config, s, key);
        AbortAllSound(config, Remove(s, key), consumer, candidates[1..]);
      } else {
        AbortAllSound(config, s, consumer, candidates[1..]);
      }
    }
  }

  lemma GeneratingIsUnleased(config: Config, s: Cache, key: Key)
    requires Sound(config, s) && key in s.entries && !s.entries[key].ready
    ensures s.entries[key].leases == {} && s.entries[key].producer in s.consumers
  {
    hide Limits, Listed, Mirror, Tokens, Budgets, Contents;
  }

  /** A consumer without leases that generates nothing can go. */
  lemma ForgetSound(config: Config, s: Cache, consumer: Token)
    requires Sound(config, s) && consumer in s.consumers && s.consumers[consumer].leases == []
    requires forall k :: k in s.entries ==> !ProducedBy(s, k, consumer)
    ensures Sound(config, s.(consumers := s.consumers - {consumer}))
  {
    hide Limits, Listed, LeasedBytes;
    var left := s.consumers - {consumer};
    forall c, i: nat, l ensures HasLease(left, c, i, l) <==> HasLease(s.consumers, c, i, l) {
    }
    forall k, t | k in s.entries && t in s.entries[k].leases ensures LeaseHeld(left, Lease(t, k)) {
      var c, i :| HasLease(s.consumers, c, i, Lease(t, k));
      assert HasLease(left, c, i, Lease(t, k));
    }
  }

  lemma AllKeysListed(config: Config, s: Cache)
    requires Sound(config, s)
    ensures forall k :: k in s.entries <==> k in s.order
  {
    hide Limits, Mirror, Tokens, Budgets, Contents, Producers;
  }

  /** Retiring a consumer frees everything it held: its leases, its unfinished entries, and its own record. */
  lemma EndSound(config: Config, s: Cache, consumer: Token)
    requires Sound(config, s) && consumer in s.consumers
    ensures var t := End(s, consumer);
            && Sound(config, t) && t.consumers.Keys == s.consumers.Keys - {consumer}
            && (forall k :: k in t.entries ==> !t.entries[k].ready ==> t.entries[k].producer != consumer)
            && (forall k :: k in s.entries && s.entries[k].ready ==> k in t.entries && t.entries[k].content == s.entries[k].content)
  {
    hide Sound, ReleaseAll, AbortAll;
    var released := ReleaseAll(s, consumer);
    ReleaseAllSound(config, s, consumer);
    AllKeysListed(config, released);
    var aborted := AbortAll(released, consumer, released.order);
    AbortAllSound(config, released, consumer, released.order);
    forall k | k in aborted.entries ensures !ProducedBy(aborted, k, consumer) {
      assert k in released.order;
    }
    ForgetSound(config, aborted, consumer);
  }

  lemma BeginSound(config: Config, s: Cache, copyLimit: nat)
    requires Sound(config, s)
    ensures Sound(config, Begin(s, copyLimit).0) && Begin(s, copyLimit).1.Begun? && Begin(s, copyLimit).1.consumer !in s.consumers
  {
    hide Limits, Listed;
    var token, next := Token(s.nextToken), Begin(s, copyLimit).0.consumers;
    assert token !in s.consumers;
    forall c, i: nat, l ensures HasLease(next, c, i, l) <==> HasLease(s.consumers, c, i, l) {
    }
    forall k, t | k in s.entries && t in s.entries[k].leases ensures LeaseHeld(next, Lease(t, k)) {
      var c, i :| HasLease(s.consumers, c, i, Lease(t, k));
      assert HasLease(next, c, i, Lease(t, k));
    }
  }

  lemma AbortSound(config: Config, s: Cache, consumer: Token, key: Key)
    requires Sound(config, s)
    ensures Sound(config, Abort(s, consumer, key))
  {
    hide Sound;
    if ProducedBy(s, key, consumer) {
      GeneratingIsUnleased(config, s, key);
      RemoveSound(config, s, key);
    }
  }

  lemma ClearSound(config: Config, s: Cache)
    requires Sound(config, s)
    ensures Sound(config, Clear(s).0)
  {
    hide LeasedBytes;
  }

  lemma AcquireSound(config: Config, s: Cache, consumer: Token, key: Key, size: int, timedOut: bool)
    requires Sound(config, s)
    ensures Sound(config, Acquire(config, s, consumer, key, size, timedOut).0)
    ensures var reply := Acquire(config, s, consumer, key, size, timedOut).1;
            reply.Hit? ==> key in s.published && reply.content == s.published[key] && reply.bytes == |s.published[key]|
  {
    hide Sound, Produce, Grant, LeasedBytes;
    MetricsSound(config, s, s.metrics.(bypasses := s.metrics.bypasses + 1));
    if consumer in s.consumers && 0 <= size {
      if key !in s.entries {
        ProduceSound(config, s, consumer, key, size);
        ProduceNeverHits(config, s, consumer, key, size);
      } else if s.entries[key].ready
        && LeasedBytes(s.entries, s.consumers[consumer].leases) + s.entries[key].bytes <= s.consumers[consumer].copyLimit
      {
        GrantSound(config, s, consumer, key);
      }
    }
  }

  lemma ProduceNeverHits(config: Config, s: Cache, consumer: Token, key: Key, size: nat)
    ensures !Produce(config, s, consumer, key, size).1.Hit?
  {
    hide Fits, Space;
  }

  // ----- whole runs

  /** Every request, from any caller, keeps every invariant. */
  lemma HandleSound(config: Config, s: Cache, request: Request)
    requires Sound(config, s)
    ensures Sound(config, Handle(config, s, request).0)
  {
    hide Sound, Begin, Acquire, Publish, Release, End, Abort, Clear;
    match request
    case BeginRequest(copyLimit) => BeginSound(config, s, copyLimit);
    case AcquireRequest(consumer, key, size, timedOut) => AcquireSound(config, s, consumer, key, size, timedOut);
    case PublishRequest(consumer, key, content) => PublishSound(config, s, consumer, key, content);
    case ReleaseRequest(consumer, lease) => if consumer in s.consumers { ReleaseSound(config, s, consumer, lease); }
    case EndRequest(consumer) => if consumer in s.consumers { EndSound(config, s, consumer); }
    case AbortRequest(consumer, key) => AbortSound(config, s, consumer, key);
    case ClearRequest => ClearSound(config, s);
  }

  lemma {:induction false} ServeSound(config: Config, requests: seq<Request>)
    requires config.Valid()
    ensures Sound(config, Serve(config, requests))
  {
    hide Sound, Handle;
    if requests != [] {
      ServeSound(config, requests[..|requests| - 1]);
      HandleSound(config, Serve(config, requests[..|requests| - 1]), requests[|requests| - 1]);
    } else {
      EmptySound(config);
    }
  }

  lemma EmptySound(config: Config)
    ensures Sound(config, Empty())
  {
  }

  /** After any sequence of requests, a hit returns exactly what was last published under its key, and the
      consumer's copies stay within its budget. */
  lemma HitsReturnPublished(config: Config, requests: seq<Request>, consumer: Token, key: Key, size: int)
    requires config.Valid()
    ensures var s := Serve(config, requests);
            var reply := Acquire(config, s, consumer, key, size, false).1;
            var t := Acquire(config, s, consumer, key, size, false).0;
            && (reply.Hit? ==> key in s.published && reply.content == s.published[key])
            && (consumer in t.consumers ==>
                  LeasedBytes(t.entries, t.consumers[consumer].leases) <= t.consumers[consumer].copyLimit)
  {
    hide Acquire, LeasedBytes, Serve;
    var s := Serve(config, requests);
    ServeSound(config, requests);
    AcquireSound(config, s, consumer, key, size, false);
  }

  /** A miss leaves what a producer generates or a consumer leases as it was. */
  lemma ProduceKeepsPinned(config: Config, s: Cache, consumer: Token, key: Key, size: nat, pinned: Key)
    requires Sound(config, s) && key !in s.entries
    requires pinned in s.entries && (!s.entries[pinned].ready || s.entries[pinned].leases != {})
    ensures var t := Produce(config, s, consumer, key, size).0;
            pinned in t.entries && t.entries[pinned] == s.entries[pinned]
  {
    hide Fits, Space, Sound;
    var missed := s.(metrics := s.metrics.(misses := s.metrics.misses + 1));
    MetricsSound(config, s, missed.metrics);
    var inRam := if config.ramBytes > 0 then Space(config, missed, Ram, size) else missed;
    SpaceSound(config, missed, Ram, size);
    SpaceSound(config, inRam, Disk, size);
  }

  /** After any sequence of requests, what a producer generates or a consumer leases survives every acquisition by
      anybody, of any key and size: nothing about it changes but that a hit adds its own lease to what it hits. */
  lemma PinnedSurvives(config: Config, requests: seq<Request>, request: Request, pinned: Key)
    requires config.Valid() && request.AcquireRequest?
    requires var s := Serve(config, requests);
             pinned in s.entries && (!s.entries[pinned].ready || s.entries[pinned].leases != {})
    ensures var s := Serve(config, requests);
            var (t, reply) := Handle(config, s, request);
            && pinned in t.entries
            && t.entries[pinned] ==
                 if reply.Hit? && request.key == pinned
                 then s.entries[pinned].(leases := s.entries[pinned].leases + {reply.lease}) else s.entries[pinned]
  {
    hide Serve, Produce, Sound, LeasedBytes;
    var s := Serve(config, requests);
    ServeSound(config, requests);
    if request.key !in s.entries && 0 <= request.size {
      ProduceKeepsPinned(config, s, request.consumer, request.key, request.size, pinned);
      MissIsNoHit(config, s, request.consumer, request.key, request.size);
    }
  }

  lemma MissIsNoHit(config: Config, s: Cache, consumer: Token, key: Key, size: nat)
    ensures !Produce(config, s, consumer, key, size).1.Hit?
  {
    hide Space, Fits;
  }
}
