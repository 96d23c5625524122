/** What the input cache does with a request in terms of the requests before: which entries give way, when there is
    room, and what is answered. */
module InputCacheUse {
  import opened Basics
  import opened Wrappers
  import opened InputCacheSpec
  import opened InputCacheTheorems

  // ----- the last use

  /** The key a reply hits or reserves. */
  predicate UsesKey(request: Request, reply: Reply) {
    request.AcquireRequest? && (reply.Hit? || reply.Miss?)
  }

  /** Under each key, which of the requests hit or reserved it last, counted from one. */
  function LastUses(config: Config, requests: seq<Request>): (uses: map<Key, nat>)
    ensures forall k :: k in uses ==> uses[k] <= |requests|
  {
    if requests == [] then map[]
    else
      var (front, last) := (requests[..|requests| - 1], requests[|requests| - 1]);
      var before := LastUses(config, front);
      if UsesKey(last, Handle(config, Serve(config, front), last).1) then before[last.key := |requests|] else before
  }

  /** From the one used least recently to the one used last. */
  ghost predicate ByUse(order: seq<Key>, uses: map<Key, nat>) {
    && (forall i :: 0 <= i < |order| ==> order[i] in uses)
    && (forall i, j :: 0 <= i < j < |order| ==> uses[order[i]] < uses[order[j]])
  }

  lemma {:induction false} DropByUse(order: seq<Key>, uses: map<Key, nat>, key: Key)
    requires ByUse(order, uses)
    ensures ByUse(Drop(order, key), uses)
    ensures forall k :: k in Drop(order, key) ==> k in order
  {
    if order != [] {
      var rest := order[1..];
      assert forall i :: 0 <= i < |rest| ==> rest[i] == order[i + 1];
      DropByUse(rest, uses, key);
      if order[0] != key {
        var left := Drop(rest, key);
        forall i | 0 <= i < |left| ensures uses[order[0]] < uses[left[i]] {
          assert left[i] in rest;
        }
      }
    }
  }

  lemma UsedLast(order: seq<Key>, uses: map<Key, nat>, key: Key, now: nat)
    requires ByUse(order, uses) && key !in order && forall k :: k in uses ==> uses[k] < now
    ensures ByUse(order + [key], uses[key := now])
  {
    forall i | 0 <= i < |order| ensures uses[key := now][order[i]] == uses[order[i]] < now {
      assert order[i] in order;
    }
  }

  lemma {:induction false} MakeSpaceByUse(config: Config, s: Cache, tier: Tier, size: nat, candidates: seq<Key>, uses: map<Key, nat>)
    requires ByUse(s.order, uses)
    ensures ByUse(MakeSpace(config, s, tier, size, candidates).order, uses)
    decreases |candidates|
  {
    hide Fits, ByUse;
    if candidates != [] && !Fits(config, s, tier, size) {
      var key := candidates[0];
      DropByUse(s.order, uses, key);
      MakeSpaceByUse(config, if key in s.entries && s.entries[key].Evictable(tier) then Evict(s, key) else s,
                     tier, size, candidates[1..], uses);
    }
  }

  lemma SpaceByUse(config: Config, s: Cache, tier: Tier, size: nat, uses: map<Key, nat>)
    requires ByUse(s.order, uses)
    ensures ByUse(Space(config, s, tier, size).order, uses)
  {
    hide MakeSpace, ByUse;
    MakeSpaceByUse(config, s, tier, size, s.order, uses);
  }

  lemma {:induction false} AbortAllByUse(s: Cache, consumer: Token, candidates: seq<Key>, uses: map<Key, nat>)
    requires ByUse(s.order, uses)
    ensures ByUse(AbortAll(s, consumer, candidates).order, uses)
    decreases |candidates|
  {
    hide ByUse;
    if candidates != [] {
      DropByUse(s.order, uses, candidates[0]);
      AbortAllByUse(if ProducedBy(s, candidates[0], consumer) then Remove(s, candidates[0]) else s, consumer, candidates[1..], uses);
    }
  }

  lemma {:induction false} ReleaseAllOrder(s: Cache, consumer: Token)
    requires consumer in s.consumers
    ensures ReleaseAll(s, consumer).order == s.order
    decreases if consumer in s.consumers then |s.consumers[consumer].leases| else 0
  {
    if s.consumers[consumer].leases != [] {
      ReleaseAllOrder(Release(s, consumer, s.consumers[consumer].leases[0].token), consumer);
    }
  }

  lemma EndByUse(s: Cache, consumer: Token, uses: map<Key, nat>)
    requires consumer in s.consumers && ByUse(s.order, uses)
    ensures ByUse(End(s, consumer).order, uses)
  {
    hide ByUse, ReleaseAll, AbortAll;
    ReleaseAllOrder(s, consumer);
    var released := ReleaseAll(s, consumer);
    AbortAllByUse(released, consumer, released.order, uses);
  }

  lemma ProduceByUse(config: Config, s: Cache, consumer: Token, key: Key, size: nat, uses: map<Key, nat>, now: nat)
    requires Listed(s.order, s.entries) && key !in s.entries && ByUse(s.order, uses) && forall k :: k in uses ==> uses[k] < now
    ensures var (t, reply) := Produce(config, s, consumer, key, size);
            ByUse(t.order, if reply.Miss? then uses[key := now] else uses)
  {
    hide Fits, Space, ByUse;
    var missed := s.(metrics := s.metrics.(misses := s.metrics.misses + 1));
    var inRam := if config.ramBytes > 0 then Space(config, missed, Ram, size) else missed;
    var onDisk := if config.diskBytes > 0 then Space(config, inRam, Disk, size) else inRam;
    SpaceByUse(config, missed, Ram, size, uses);
    SpaceByUse(config, inRam, Disk, size, uses);
    SpaceShrinks(config, missed, Ram, size);
    SpaceShrinks(config, inRam, Disk, size);
    UsedLast(inRam.order, uses, key, now);
    UsedLast(onDisk.order, uses, key, now);
  }

  lemma {:induction false} MakeSpaceShrinks(config: Config, s: Cache, tier: Tier, size: nat, candidates: seq<Key>)
    ensures forall k :: k in MakeSpace(config, s, tier, size, candidates).order ==> k in s.order
    decreases |candidates|
  {
    hide Fits;
    if candidates != [] && !Fits(config, s, tier, size) {
      var key := candidates[0];
      DropShrinks(s.order, key);
      MakeSpaceShrinks(config, if key in s.entries && s.entries[key].Evictable(tier) then Evict(s, key) else s,
                       tier, size, candidates[1..]);
    }
  }

  lemma {:induction false} DropShrinks<T>(s: seq<T>, x: T)
    ensures forall y :: y in Drop(s, x) ==> y in s
  {
    if s != [] {
      DropShrinks(s[1..], x);
      assert forall y :: y in s[1..] ==> y in s;
    }
  }

  lemma SpaceShrinks(config: Config, s: Cache, tier: Tier, size: nat)
    ensures forall k :: k in Space(config, s, tier, size).order ==> k in s.order
  {
    hide MakeSpace;
    MakeSpaceShrinks(config, s, tier, size, s.order);
  }

  lemma GrantByUse(s: Cache, consumer: Token, key: Key, uses: map<Key, nat>, now: nat)
    requires consumer in s.consumers && key in s.entries && Listed(s.order, s.entries)
    requires ByUse(s.order, uses) && forall k :: k in uses ==> uses[k] < now
    ensures ByUse(Grant(s, consumer, key).0.order, uses[key := now])
  {
    hide ByUse;
    DropByUse(s.order, uses, key);
    DropMembers(s.order, key);
    UsedLast(Drop(s.order, key), uses, key, now);
  }

  lemma AcquireByUse(config: Config, s: Cache, consumer: Token, key: Key, size: int, timedOut: bool, uses: map<Key, nat>, now: nat)
    requires Listed(s.order, s.entries) && ByUse(s.order, uses) && forall k :: k in uses ==> uses[k] < now
    ensures var (t, reply) := Acquire(config, s, consumer, key, size, timedOut);
            ByUse(t.order, if reply.Hit? || reply.Miss? then uses[key := now] else uses)
  {
    hide ByUse, Produce, Grant, LeasedBytes;
    if consumer in s.consumers && 0 <= size {
      if key !in s.entries {
        ProduceByUse(config, s, consumer, key, size, uses, now);
        ProduceNeverHits(config, s, consumer, key, size);
      } else if s.entries[key].ready {
        GrantByUse(s, consumer, key, uses, now);
        GrantHits(s, consumer, key);
      }
    }
  }

  lemma GrantHits(s: Cache, consumer: Token, key: Key)
    requires consumer in s.consumers && key in s.entries
    ensures Grant(s, consumer, key).1.Hit?
  {
  }

  lemma HandleByUse(config: Config, s: Cache, request: Request, uses: map<Key, nat>, now: nat)
    requires Listed(s.order, s.entries) && ByUse(s.order, uses) && forall k :: k in uses ==> uses[k] < now
    ensures var (t, reply) := Handle(config, s, request);
            ByUse(t.order, if UsesKey(request, reply) then uses[request.key := now] else uses)
  {
    hide ByUse, Acquire, Listed, End, Drop, KeyOf, WithoutLease;
    match request
    case AcquireRequest(consumer, key, size, timedOut) => AcquireByUse(config, s, consumer, key, size, timedOut, uses, now);
    case EndRequest(consumer) =>
      if consumer in s.consumers {
        EndByUse(s, consumer, uses);
      }
    case AbortRequest(consumer, key) => DropByUse(s.order, uses, key);
    case ClearRequest => NoneByUse(uses);
    case _ =>
  }

  lemma NoneByUse(uses: map<Key, nat>)
    ensures ByUse([], uses)
  {
  }

  /** After any sequence of requests, the entries are listed by the last request that hit or reserved them. */
  lemma {:induction false} OrderIsByLastUse(config: Config, requests: seq<Request>)
    requires config.Valid()
    ensures ByUse(Serve(config, requests).order, LastUses(config, requests))
  {
    hide ByUse, Handle, Sound;
    if requests == [] {
      NoneByUse(map[]);
    } else {
      var front, last := requests[..|requests| - 1], requests[|requests| - 1];
      OrderIsByLastUse(config, front);
      ServeSound(config, front);
      SoundIsListed(config, Serve(config, front));
      HandleByUse(config, Serve(config, front), last, LastUses(config, front), |requests|);
    }
  }

  lemma SoundIsListed(config: Config, s: Cache)
    requires Sound(config, s)
    ensures Listed(s.order, s.entries)
  {
    hide Listed, Limits, Mirror, Tokens, Producers, Budgets, Contents;
  }

  // ----- the least recently used gives way first

  lemma UsedBefore(order: seq<Key>, uses: map<Key, nat>, older: Key, newer: Key)
    requires ByUse(order, uses) && older in order && newer in order && uses[older] < uses[newer]
    ensures exists i: nat, j: nat :: i < j < |order| && order[i] == older && order[j] == newer
  {
    var i: nat :| i < |order| && order[i] == older;
    var j: nat :| j < |order| && order[j] == newer;
  }

  /** Making room in one tier leaves the other as it is. */
  lemma {:induction false} OtherTierStays(config: Config, s: Cache, tier: Tier, size: nat, candidates: seq<Key>, k: Key)
    requires k in s.entries && s.entries[k].tier != tier
    ensures k in MakeSpace(config, s, tier, size, candidates).entries
    decreases |candidates|
  {
    hide Fits;
    if candidates != [] && !Fits(config, s, tier, size) {
      var key := candidates[0];
      OtherTierStays(config, if key in s.entries && s.entries[key].Evictable(tier) then Evict(s, key) else s,
                     tier, size, candidates[1..], k);
    }
  }

  /** If `older` survives making room in its tier, so does everything used after it. */
  lemma SpaceLeastRecentFirst(config: Config, s: Cache, tier: Tier, size: nat, uses: map<Key, nat>, older: Key, newer: Key)
    requires Sound(config, s) && ByUse(s.order, uses)
    requires older in s.entries && newer in s.entries && older in uses && newer in uses && uses[older] < uses[newer]
    requires s.entries[older].Evictable(s.entries[older].tier) && s.entries[newer].tier == s.entries[older].tier
    requires older in Space(config, s, tier, size).entries
    ensures newer in Space(config, s, tier, size).entries
  {
    hide Sound, MakeSpace, ByUse, Fits;
    SoundIsListed(config, s);
    if size <= config.Capacity(tier) {
      if s.entries[newer].tier != tier {
        OtherTierStays(config, s, tier, size, s.order, newer);
      } else {
        UsedBefore(s.order, uses, older, newer);
        var i: nat, j: nat :| i < j < |s.order| && s.order[i] == older && s.order[j] == newer;
        OldestFirst(config, s, tier, size, s.order, i, j);
      }
    }
  }

  lemma ProduceLeastRecentFirst(
    config: Config, s: Cache, consumer: Token, key: Key, size: nat, uses: map<Key, nat>, older: Key, newer: Key)
    requires Sound(config, s) && ByUse(s.order, uses) && key !in s.entries
    requires older in s.entries && newer in s.entries && older in uses && newer in uses && uses[older] < uses[newer]
    requires s.entries[older].Evictable(s.entries[older].tier) && s.entries[newer].tier == s.entries[older].tier
    requires older in Produce(config, s, consumer, key, size).0.entries
    ensures newer in Produce(config, s, consumer, key, size).0.entries
  {
    hide Fits, Space, Sound, ByUse;
    var missed := s.(metrics := s.metrics.(misses := s.metrics.misses + 1));
    MetricsSound(config, s, missed.metrics);
    var inRam := if config.ramBytes > 0 then Space(config, missed, Ram, size) else missed;
    SpaceSound(config, missed, Ram, size);
    SpaceByUse(config, missed, Ram, size, uses);
    var onDisk := if config.diskBytes > 0 then Space(config, inRam, Disk, size) else inRam;
    SpaceSound(config, inRam, Disk, size);
    OnlyUnusedKeeps(missed, inRam, older);
    OnlyUnusedKeeps(missed, inRam, newer);
    OnlyUnusedKeeps(inRam, onDisk, older);
    if config.ramBytes > 0 && older in inRam.entries {
      SpaceLeastRecentFirst(config, missed, Ram, size, uses, older, newer);
    }
    if config.diskBytes > 0 && older in onDisk.entries {
      SpaceLeastRecentFirst(config, inRam, Disk, size, uses, older, newer);
    }
  }

  lemma OnlyUnusedKeeps(s: Cache, t: Cache, k: Key)
    requires s == t || OnlyUnused(s, t)
    ensures k in t.entries ==> k in s.entries && t.entries[k] == s.entries[k]
  {
  }

  /** After any sequence of requests, if an acquisition leaves an unused entry in its place, it leaves there every
      entry of that tier that was hit or reserved later. */
  lemma LeastRecentlyUsedFirst(config: Config, requests: seq<Request>, request: Request, older: Key, newer: Key)
    requires config.Valid() && request.AcquireRequest?
    requires var (s, uses) := (Serve(config, requests), LastUses(config, requests));
             && older in s.entries && newer in s.entries && older in uses && newer in uses && uses[older] < uses[newer]
             && s.entries[older].Evictable(s.entries[older].tier) && s.entries[newer].tier == s.entries[older].tier
             && older in Handle(config, s, request).0.entries
    ensures newer in Handle(config, Serve(config, requests), request).0.entries
  {
    hide Serve, LastUses, Produce, Sound, ByUse, LeasedBytes;
    var s, uses := Serve(config, requests), LastUses(config, requests);
    ServeSound(config, requests);
    OrderIsByLastUse(config, requests);
    if request.key !in s.entries && 0 <= request.size && request.consumer in s.consumers {
      ProduceLeastRecentFirst(config, s, request.consumer, request.key, request.size, uses, older, newer);
    }
  }

  // ----- when there is room

  /** Bytes and number of entries that making room in the given tiers cannot remove. */
  function StuckBytes(order: seq<Key>, entries: map<Key, Entry>, tier: Tier): nat {
    if order == [] then 0
    else
      (if order[0] in entries && !entries[order[0]].Evictable(tier) then Bytes(entries, order[0], tier) else 0)
      + StuckBytes(order[1..], entries, tier)
  }

  predicate Removable(entries: map<Key, Entry>, key: Key, tiers: set<Tier>) {
    key in entries && entries[key].Evictable(entries[key].tier) && entries[key].tier in tiers
  }

  function StuckCount(order: seq<Key>, entries: map<Key, Entry>, tiers: set<Tier>): nat {
    if order == [] then 0
    else (if Removable(entries, order[0], tiers) then 0 else 1) + StuckCount(order[1..], entries, tiers)
  }

  /** Whether a reservation fits a tier once everything unused in the given tiers is gone. */
  predicate FitsAtLast(config: Config, s: Cache, tier: Tier, size: nat, tiers: set<Tier>) {
    && config.Capacity(tier) > 0 && size <= config.Capacity(tier)
    && StuckBytes(s.order, s.entries, tier) + size <= config.Capacity(tier)
    && StuckCount(s.order, s.entries, tiers) < config.maxEntries
  }

  lemma {:induction false} StuckSame(order: seq<Key>, a: map<Key, Entry>, b: map<Key, Entry>, tier: Tier, tiers: set<Tier>)
    requires forall k :: k in order ==> k in a && k in b && a[k] == b[k]
    ensures StuckBytes(order, a, tier) == StuckBytes(order, b, tier)
    ensures StuckCount(order, a, tiers) == StuckCount(order, b, tiers)
  {
    if order != [] {
      StuckSame(order[1..], a, b, tier, tiers);
    }
  }

  /** Dropping a removable key leaves what is stuck. */
  lemma {:induction false} StuckDrop(order: seq<Key>, entries: map<Key, Entry>, key: Key, tier: Tier, tiers: set<Tier>)
    requires key in entries && entries[key].ready && entries[key].leases == {}
    ensures StuckBytes(Drop(order, key), entries, tier) == StuckBytes(order, entries, tier)
    ensures Removable(entries, key, tiers) ==> StuckCount(Drop(order, key), entries, tiers) == StuckCount(order, entries, tiers)
  {
    if order != [] && order[0] != key {
      StuckDrop(order[1..], entries, key, tier, tiers);
      assert Drop(order, key)[1..] == Drop(order[1..], key);
    }
  }

  /** What is stuck is never more than what is there, and all of it once nothing is removable. */
  lemma {:induction false} StuckBelow(order: seq<Key>, entries: map<Key, Entry>, tier: Tier, tiers: set<Tier>)
    requires forall k :: k in order ==> k in entries
    ensures StuckBytes(order, entries, tier) <= Used(order, entries, tier) && StuckCount(order, entries, tiers) <= |order|
    ensures (forall k :: k in entries ==> !entries[k].Evictable(tier)) ==>
              StuckBytes(order, entries, tier) == Used(order, entries, tier)
    ensures (forall k :: k in entries ==> !Removable(entries, k, tiers)) ==> StuckCount(order, entries, tiers) == |order|
  {
    if order != [] {
      StuckBelow(order[1..], entries, tier, tiers);
    }
  }

  /** What making room in a tier leaves alone. */
  ghost predicate StuckKept(s: Cache, t: Cache) {
    && (forall tier :: StuckBytes(t.order, t.entries, tier) == StuckBytes(s.order, s.entries, tier))
    && (forall k :: k in t.entries ==> k in s.entries && t.entries[k] == s.entries[k])
  }

  lemma EvictKeepsStuck(s: Cache, key: Key, tier: Tier, tiers: set<Tier>)
    requires Listed(s.order, s.entries) && key in s.entries && s.entries[key].Evictable(tier) && tier in tiers
    ensures StuckKept(s, Evict(s, key))
    ensures StuckCount(Evict(s, key).order, Evict(s, key).entries, tiers) == StuckCount(s.order, s.entries, tiers)
  {
    var t := Evict(s, key);
    DropMembers(s.order, key);
    forall other ensures StuckBytes(t.order, t.entries, other) == StuckBytes(s.order, s.entries, other) {
      StuckDrop(s.order, s.entries, key, other, tiers);
      StuckSame(t.order, t.entries, s.entries, other, tiers);
    }
    StuckDrop(s.order, s.entries, key, tier, tiers);
    StuckSame(t.order, t.entries, s.entries, tier, tiers);
  }

  lemma EvictListed(s: Cache, key: Key)
    requires Listed(s.order, s.entries)
    requires key in s.entries
    ensures Listed(Evict(s, key).order, Evict(s, key).entries)
  {
    DropMembers(s.order, key);
  }

  lemma {:induction false} MakeSpaceKeepsStuck(config: Config, s: Cache, tier: Tier, size: nat, candidates: seq<Key>, tiers: set<Tier>)
    requires Listed(s.order, s.entries) && tier in tiers
    ensures var t := MakeSpace(config, s, tier, size, candidates);
            && Listed(t.order, t.entries) && StuckKept(s, t)
            && StuckCount(t.order, t.entries, tiers) == StuckCount(s.order, s.entries, tiers)
    decreases |candidates|
  {
    hide Fits, Listed, StuckBytes, StuckCount, Evict;
    if candidates != [] && !Fits(config, s, tier, size) {
      var key := candidates[0];
      var evict := key in s.entries && s.entries[key].Evictable(tier);
      if evict {
        EvictKeepsStuck(s, key, tier, tiers);
        EvictListed(s, key);
      }
      MakeSpaceKeepsStuck(config, if evict then Evict(s, key) else s, tier, size, candidates[1..], tiers);
    }
  }

  lemma StuckIfAllLeft(s: Cache, tier: Tier)
    requires Listed(s.order, s.entries) && UnusedAmong(s, tier, [])
    ensures StuckBytes(s.order, s.entries, tier) == Used(s.order, s.entries, tier)
    ensures StuckCount(s.order, s.entries, {tier}) == |s.order|
  {
    StuckBelow(s.order, s.entries, tier, {tier});
  }

  /** Making room in a tier succeeds exactly if it can. */
  lemma SpaceFitsIff(config: Config, s: Cache, tier: Tier, size: nat)
    requires Listed(s.order, s.entries) && config.Capacity(tier) > 0 && size <= config.Capacity(tier)
    ensures var t := Space(config, s, tier, size);
            && (Fits(config, t, tier, size) <==> FitsAtLast(config, s, tier, size, {tier}))
            && (!Fits(config, t, tier, size) ==> UnusedAmong(t, tier, []))
  {
    hide MakeSpace, StuckBytes, StuckCount, UnusedAmong, Used;
    var t := Space(config, s, tier, size);
    MakeSpaceKeepsStuck(config, s, tier, size, s.order, {tier});
    StuckBelow(t.order, t.entries, tier, {tier});
    AllAmong(s, tier);
    SpaceIsThorough(config, s, tier, size, s.order);
    if !Fits(config, t, tier, size) {
      StuckIfAllLeft(t, tier);
    }
  }

  lemma AllAmong(s: Cache, tier: Tier)
    requires Listed(s.order, s.entries)
    ensures UnusedAmong(s, tier, s.order)
  {
  }

  /** Once nothing in RAM is removable, it does not matter whether one counts on it. */
  lemma {:induction false} RamIsStuck(order: seq<Key>, entries: map<Key, Entry>)
    requires forall k :: k in entries ==> !entries[k].Evictable(Ram)
    ensures StuckCount(order, entries, {Disk}) == StuckCount(order, entries, {Ram, Disk})
  {
    if order != [] {
      RamIsStuck(order[1..], entries);
    }
  }

  /** The tiers that may be emptied before a reservation of this size is given up. */
  function Emptied(config: Config, size: nat): set<Tier> {
    if config.ramBytes > 0 && size <= config.ramBytes then {Ram, Disk} else {Disk}
  }

  /** Where a missing entry finds room: in RAM if it can be made there, else on disk, else nowhere. */
  function RoomFor(config: Config, s: Cache, size: nat): Reply {
    if FitsAtLast(config, s, Ram, size, {Ram}) then Miss(Ram)
    else if FitsAtLast(config, s, Disk, size, Emptied(config, size)) then Miss(Disk)
    else Bypass(NoCapacity)
  }

  lemma NoRam(s: Cache)
    requires UnusedAmong(s, Ram, [])
    ensures StuckCount(s.order, s.entries, {Disk}) == StuckCount(s.order, s.entries, {Ram, Disk})
  {
    forall k | k in s.entries ensures !s.entries[k].Evictable(Ram) {
    }
    RamIsStuck(s.order, s.entries);
  }

  /** What is tried in RAM, in terms of what is stuck there. */
  lemma TriedInRam(config: Config, s: Cache, size: nat)
    requires Listed(s.order, s.entries)
    ensures var t := if config.ramBytes > 0 then Space(config, s, Ram, size) else s;
            var ram := config.ramBytes > 0 && size <= config.ramBytes && Fits(config, t, Ram, size);
            && Listed(t.order, t.entries)
            && (ram <==> FitsAtLast(config, s, Ram, size, {Ram}))
            && (!ram ==> && StuckBytes(t.order, t.entries, Disk) == StuckBytes(s.order, s.entries, Disk)
                         && StuckCount(t.order, t.entries, {Disk}) == StuckCount(s.order, s.entries, Emptied(config, size)))
  {
    hide MakeSpace, StuckBytes, StuckCount, UnusedAmong, Fits, Listed;
    if config.ramBytes > 0 && size <= config.ramBytes {
      SpaceFitsIff(config, s, Ram, size);
      MakeSpaceKeepsStuck(config, s, Ram, size, s.order, {Ram, Disk});
      var t := Space(config, s, Ram, size);
      if !Fits(config, t, Ram, size) {
        NoRam(t);
      }
    }
  }

  lemma ProduceRoom(config: Config, s: Cache, consumer: Token, key: Key, size: nat)
    requires Listed(s.order, s.entries)
    ensures var (t, reply) := Produce(config, s, consumer, key, size);
            && reply == RoomFor(config, s, size)
            && (reply.Miss? ==> key in t.entries && t.entries[key] == Entry(size, reply.tier, false, consumer, [], {}))
  {
    hide Space, StuckBytes, StuckCount, Fits, Listed;
    var missed := s.(metrics := s.metrics.(misses := s.metrics.misses + 1));
    var inRam := if config.ramBytes > 0 then Space(config, missed, Ram, size) else missed;
    TriedInRam(config, missed, size);
    if config.diskBytes > 0 && size <= config.diskBytes {
      SpaceFitsIff(config, inRam, Disk, size);
    }
  }

  /** After any sequence of requests, an acquisition is answered as follows. Who is unknown, or asks for a negative
      size, is refused. What is being generated is waited for, or bypassed once the wait is over. What is there is
      leased if the consumer's copies stay within its budget. What is not is reserved where there is room once all
      that is unused has given way, in RAM first, and bypassed exactly if there is none. */
  lemma AcquisitionsAnswered(config: Config, requests: seq<Request>, consumer: Token, key: Key, size: int, timedOut: bool)
    requires config.Valid()
    ensures var s := Serve(config, requests);
            var (t, reply) := Handle(config, s, AcquireRequest(consumer, key, size, timedOut));
            if consumer !in s.consumers then reply == Refused(UnknownConsumer) && t == s
            else if size < 0 then reply == Refused(BadSize) && t == s
            else if key !in s.entries then
              && reply == RoomFor(config, s, size) && (reply.Miss? <==> key in t.entries)
              && (reply.Miss? ==> t.entries[key] == Entry(size, reply.tier, false, consumer, [], {}))
            else if !s.entries[key].ready then
              reply == (if timedOut then Bypass(WaitTimeout) else MustWait) && t.entries == s.entries && t.order == s.order
            else if LeasedBytes(s.entries, s.consumers[consumer].leases) + s.entries[key].bytes > s.consumers[consumer].copyLimit then
              reply == Bypass(CopyBudget) && t.entries == s.entries && t.consumers == s.consumers && t.order == s.order
            else
              && reply.Hit? && reply.lease !in s.entries[key].leases && key in t.entries
              && reply.content == s.entries[key].content && reply.bytes == s.entries[key].bytes && reply.tier == s.entries[key].tier
              && t.entries[key] == s.entries[key].(leases := s.entries[key].leases + {reply.lease})
              && consumer in t.consumers
              && t.consumers[consumer].leases == s.consumers[consumer].leases + [Lease(reply.lease, key)]
  {
    hide Serve, Produce, Sound, LeasedBytes, RoomFor;
    var s := Serve(config, requests);
    ServeSound(config, requests);
    SoundIsListed(config, s);
    if key !in s.entries && 0 <= size && consumer in s.consumers {
      ProduceRoom(config, s, consumer, key, size);
      ProduceBypassed(config, s, consumer, key, size);
    } else if key in s.entries {
      TokenIsNew(config, s, key);
    }
  }

  lemma ProduceBypassed(config: Config, s: Cache, consumer: Token, key: Key, size: nat)
    requires key !in s.entries && Listed(s.order, s.entries)
    ensures var (t, reply) := Produce(config, s, consumer, key, size); !reply.Miss? ==> key !in t.entries
  {
    hide Space, Fits;
    var missed := s.(metrics := s.metrics.(misses := s.metrics.misses + 1));
    var inRam := if config.ramBytes > 0 then Space(config, missed, Ram, size) else missed;
    EvictionOnlyRemoves(config, missed, Ram, size, missed.order);
    SpaceIs(config, missed, Ram, size);
    EvictionOnlyRemoves(config, inRam, Disk, size, inRam.order);
    SpaceIs(config, inRam, Disk, size);
  }

  lemma SpaceIs(config: Config, s: Cache, tier: Tier, size: nat)
    ensures Space(config, s, tier, size) == s || Space(config, s, tier, size) == MakeSpace(config, s, tier, size, s.order)
  {
    hide MakeSpace;
  }

  lemma TokenIsNew(config: Config, s: Cache, key: Key)
    requires Sound(config, s) && key in s.entries
    ensures Token(s.nextToken) !in s.entries[key].leases
  {
    hide Listed, Limits, Producers, Budgets, Contents;
    forall token | token in s.entries[key].leases ensures token.id < s.nextToken {
      assert LeaseHeld(s.consumers, Lease(token, key));
      var c, i :| HasLease(s.consumers, c, i, Lease(token, key));
    }
  }

  // ----- what a request does to the entries there are

  function LeasesOn(leases: seq<Lease>, key: Key): set<Token> {
    set i | 0 <= i < |leases| && leases[i].key == key :: leases[i].token
  }

  /** The leases a request gives back on a key: one of the consumer's, or all of them. */
  function GivenBack(s: Cache, request: Request, key: Key): set<Token> {
    match request
    case ReleaseRequest(consumer, lease) =>
      if consumer in s.consumers then LeasesOn(s.consumers[consumer].leases, key) * {lease} else {}
    case EndRequest(consumer) => if consumer in s.consumers then LeasesOn(s.consumers[consumer].leases, key) else {}
    case _ => {}
  }

  /** Only its live producer may publish an entry, once, within what it reserved. */
  predicate MayPublish(s: Cache, request: Request, key: Key) {
    && request.PublishRequest? && request.key == key && request.consumer in s.consumers && key in s.entries
    && !s.entries[key].ready && s.entries[key].producer == request.consumer && |request.content| <= s.entries[key].bytes
  }

  /** Its live producer gives up an entry it has not published, by an abort or by ending. */
  predicate GivesUp(s: Cache, request: Request, key: Key) {
    && (request.EndRequest? || (request.AbortRequest? && request.key == key)) && request.consumer in s.consumers
    && key in s.entries && !s.entries[key].ready && s.entries[key].producer == request.consumer
  }

  /** What becomes of an entry, apart from being evicted. */
  ghost predicate FateIs(s: Cache, t: Cache, request: Request, reply: Reply, key: Key)
    requires key in s.entries
  {
    var e := s.entries[key];
    if GivesUp(s, request, key) || (request.ClearRequest? && s.consumers == map[]) then key !in t.entries
    else if key !in t.entries then request.AcquireRequest? && request.key != key && e.ready && e.leases == {}
    else if MayPublish(s, request, key) then
      t.entries[key] == e.(bytes := |request.content|, ready := true, content := request.content)
    else
      t.entries[key] == e.(leases := e.leases - GivenBack(s, request, key)
        + (if request.AcquireRequest? && request.key == key && reply.Hit? then {reply.lease} else {}))
  }

  lemma AcquireFate(config: Config, s: Cache, consumer: Token, key: Key, size: int, timedOut: bool, k: Key)
    requires Sound(config, s) && k in s.entries
    ensures var (t, reply) := Acquire(config, s, consumer, key, size, timedOut);
            if k !in t.entries then key != k && s.entries[k].ready && s.entries[k].leases == {}
            else t.entries[k] == s.entries[k].(leases := s.entries[k].leases + (if key == k && reply.Hit? then {reply.lease} else {}))
  {
    hide Sound, Produce, LeasedBytes;
    if consumer in s.consumers && 0 <= size && key !in s.entries {
      ProduceNeverHits(config, s, consumer, key, size);
      ProduceEvicts(config, s, consumer, key, size, k);
    }
  }

  lemma ProduceEvicts(config: Config, s: Cache, consumer: Token, key: Key, size: nat, k: Key)
    requires Sound(config, s) && key !in s.entries && k in s.entries
    ensures var t := Produce(config, s, consumer, key, size).0;
            if k in t.entries then t.entries[k] == s.entries[k] else s.entries[k].ready && s.entries[k].leases == {}
  {
    hide Fits, Space, Sound;
    var missed := s.(metrics := s.metrics.(misses := s.metrics.misses + 1));
    MetricsSound(config, s, missed.metrics);
    var inRam := if config.ramBytes > 0 then Space(config, missed, Ram, size) else missed;
    SpaceSound(config, missed, Ram, size);
    SpaceSound(config, inRam, Disk, size);
  }

  lemma ReleaseFate(config: Config, s: Cache, consumer: Token, lease: Token, k: Key)
    requires Sound(config, s) && consumer in s.consumers && k in s.entries
    ensures var t := Release(s, consumer, lease);
            && k in t.entries
            && t.entries[k] == s.entries[k].(leases := s.entries[k].leases - LeasesOn(s.consumers[consumer].leases, k) * {lease})
  {
    hide Sound, KeyOf, WithoutLease;
    var leases := s.consumers[consumer].leases;
    SoundMirror(config, s, consumer);
    if i: nat :| i < |leases| && leases[i].token == lease {
      WithoutLeaseAt(leases, lease, i);
      if k == leases[i].key {
        assert lease in LeasesOn(leases, k);
        assert LeasesOn(leases, k) * {lease} == {lease};
      } else {
        assert LeasesOn(leases, k) * {lease} == {};
      }
    } else {
      WithoutLeaseAbsent(leases, lease);
      assert LeasesOn(leases, k) * {lease} == {};
    }
  }

  /** A consumer's leases are of different tokens, on entries there are. */
  lemma SoundMirror(config: Config, s: Cache, consumer: Token)
    requires Sound(config, s) && consumer in s.consumers
    ensures var leases := s.consumers[consumer].leases;
            && (forall j, k :: 0 <= j < k < |leases| ==> leases[j].token != leases[k].token)
            && (forall j :: 0 <= j < |leases| ==> leases[j].key in s.entries)
  {
    hide Listed, Limits, Tokens, Producers, Budgets, Contents;
    var leases := s.consumers[consumer].leases;
    TokensDistinct(s.entries, s.consumers, consumer);
    forall j: nat | j < |leases| ensures leases[j].key in s.entries {
      assert HasLease(s.consumers, consumer, j, leases[j]);
    }
  }

  lemma FirstAndRest(leases: seq<Lease>, k: Key)
    requires leases != []
    ensures LeasesOn(leases, k) == LeasesOn(leases, k) * {leases[0].token} + LeasesOn(leases[1..], k)
  {
    var rest := leases[1..];
    assert forall i :: 0 <= i < |rest| ==> rest[i] == leases[i + 1];
    forall token | token in LeasesOn(leases, k) ensures token == leases[0].token || token in LeasesOn(rest, k) {
      var i :| 0 <= i < |leases| && leases[i].key == k && leases[i].token == token;
      if i > 0 {
        assert rest[i - 1] == leases[i];
      }
    }
  }

  lemma {:induction false} ReleaseAllFate(config: Config, s: Cache, consumer: Token, k: Key)
    requires Sound(config, s) && consumer in s.consumers && k in s.entries
    ensures var t := ReleaseAll(s, consumer);
            && k in t.entries
            && t.entries[k] == s.entries[k].(leases := s.entries[k].leases - LeasesOn(s.consumers[consumer].leases, k))
    decreases |s.consumers[consumer].leases|
  {
    hide Sound, Release;
    var leases := s.consumers[consumer].leases;
    if leases != [] {
      var t := Release(s, consumer, leases[0].token);
      ReleaseFate(config, s, consumer, leases[0].token, k);
      ReleaseAt(config, s, consumer, 0);
      ReleaseFirst(s, consumer);
      FirstAndRest(leases, k);
      ReleaseAllFate(config, t, consumer, k);
    } else {
      assert LeasesOn(leases, k) == {};
    }
  }

  lemma ReleaseFirst(s: Cache, consumer: Token)
    requires consumer in s.consumers && s.consumers[consumer].leases != []
    ensures var t := Release(s, consumer, s.consumers[consumer].leases[0].token);
            consumer in t.consumers && t.consumers[consumer].leases == s.consumers[consumer].leases[1..]
  {
    hide KeyOf;
  }

  lemma EndFate(config: Config, s: Cache, consumer: Token, k: Key)
    requires Sound(config, s) && consumer in s.consumers && k in s.entries
    ensures var t := End(s, consumer);
            if ProducedBy(s, k, consumer) then k !in t.entries
            else k in t.entries
                 && t.entries[k] == s.entries[k].(leases := s.entries[k].leases - LeasesOn(s.consumers[consumer].leases, k))
  {
    hide Sound, ReleaseAll, AbortAll, LeasesOn;
    var released := ReleaseAll(s, consumer);
    ReleaseAllSound(config, s, consumer);
    ReleaseAllFate(config, s, consumer, k);
    AllKeysListed(config, released);
    AbortAllSound(config, released, consumer, released.order);
  }

  /** After any sequence of requests, what the next one does to an entry is exactly this. Its live producer may give
      it up, and all is forgotten by a clear without consumers; else it goes only by the eviction of an unused entry
      for another key. Its producer may publish it, once and within what was reserved. Beyond that a request changes
      nothing about it but the leases that it takes, or that its own consumer gives back. */
  lemma EntryFate(config: Config, requests: seq<Request>, request: Request, key: Key)
    requires config.Valid() && key in Serve(config, requests).entries
    ensures var s := Serve(config, requests);
            FateIs(s, Handle(config, s, request).0, request, Handle(config, s, request).1, key)
  {
    hide Serve, Sound, Acquire, Release, End, LeasesOn;
    var s := Serve(config, requests);
    ServeSound(config, requests);
    match request
    case AcquireRequest(consumer, other, size, timedOut) => AcquireFate(config, s, consumer, other, size, timedOut, key);
    case ReleaseRequest(consumer, lease) =>
      if consumer in s.consumers {
        ReleaseFate(config, s, consumer, lease, key);
      }
    case EndRequest(consumer) =>
      if consumer in s.consumers {
        EndFate(config, s, consumer, key);
        UnfinishedIsUnleased(config, s, key);
      }
    case _ =>
  }

  lemma UnfinishedIsUnleased(config: Config, s: Cache, key: Key)
    requires Sound(config, s) && key in s.entries
    ensures !s.entries[key].ready ==> s.entries[key].leases == {}
  {
    hide Listed, Limits, Mirror, Tokens, Budgets, Contents;
  }

  // ----- the other answers

  lemma ReleaseRecord(config: Config, s: Cache, consumer: Token, lease: Token)
    requires Sound(config, s) && consumer in s.consumers
    ensures var t := Release(s, consumer, lease);
            && t.consumers.Keys == s.consumers.Keys
            && (forall c :: c in s.consumers && c != consumer ==> t.consumers[c] == s.consumers[c])
            && t.consumers[consumer].copyLimit == s.consumers[consumer].copyLimit
            && forall l :: l in t.consumers[consumer].leases <==> l in s.consumers[consumer].leases && l.token != lease
  {
    hide Sound, KeyOf, WithoutLease;
    var leases := s.consumers[consumer].leases;
    SoundMirror(config, s, consumer);
    if i: nat :| i < |leases| && leases[i].token == lease {
      WithoutLeaseAt(leases, lease, i);
      assert leases == leases[..i] + [leases[i]] + leases[i + 1..];
    } else {
      WithoutLeaseAbsent(leases, lease);
    }
  }

  lemma {:induction false} ReleaseAllRecords(config: Config, s: Cache, consumer: Token)
    requires Sound(config, s) && consumer in s.consumers
    ensures ReleaseAll(s, consumer).consumers - {consumer} == s.consumers - {consumer}
    decreases |s.consumers[consumer].leases|
  {
    hide Sound, Release;
    var leases := s.consumers[consumer].leases;
    if leases != [] {
      ReleaseAt(config, s, consumer, 0);
      ReleaseRecord(config, s, consumer, leases[0].token);
      ReleaseAllRecords(config, Release(s, consumer, leases[0].token), consumer);
    }
  }

  lemma EndRecords(config: Config, s: Cache, consumer: Token)
    requires Sound(config, s) && consumer in s.consumers
    ensures End(s, consumer).consumers == s.consumers - {consumer}
  {
    hide Sound, ReleaseAll, AbortAll;
    ReleaseAllSound(config, s, consumer);
    ReleaseAllRecords(config, s, consumer);
    var released := ReleaseAll(s, consumer);
    AbortAllSound(config, released, consumer, released.order);
  }

  lemma TokenIsFree(config: Config, s: Cache)
    requires Sound(config, s)
    ensures Token(s.nextToken) !in s.consumers
  {
    hide Listed, Limits, Mirror, Producers, Budgets, Contents;
  }

  /** After any sequence of requests, a new consumer gets a token of its own and no leases; a publication is done
      exactly if its producer may make it; a consumer loses the lease it releases, or with its end its whole record;
      a clear is done exactly if nobody is left; and no request touches another consumer's record. */
  lemma OthersAnswered(config: Config, requests: seq<Request>, request: Request)
    requires config.Valid() && !request.AcquireRequest?
    ensures var s := Serve(config, requests);
            var (t, reply) := Handle(config, s, request);
            match request
            case BeginRequest(copyLimit) =>
              reply.Begun? && reply.consumer !in s.consumers && t.consumers == s.consumers[reply.consumer := Consumer(copyLimit, [])]
            case PublishRequest(consumer, key, _) =>
              && t.consumers == s.consumers
              && reply == (if MayPublish(s, request, key) then Done
                           else Refused(if consumer in s.consumers then BadPublication else UnknownConsumer))
              && (reply == Done ==> t.published == s.published[key := request.content])
            case ReleaseRequest(consumer, lease) =>
              if consumer !in s.consumers then reply == Refused(UnknownConsumer) && t == s
              else && reply == Done && t.consumers.Keys == s.consumers.Keys
                   && (forall c :: c in s.consumers && c != consumer ==> t.consumers[c] == s.consumers[c])
                   && forall l :: l in t.consumers[consumer].leases <==> l in s.consumers[consumer].leases && l.token != lease
            case EndRequest(consumer) =>
              && reply == (if consumer in s.consumers then Done else Refused(UnknownConsumer))
              && t.consumers == s.consumers - {consumer}
            case AbortRequest(consumer, _) =>
              reply == (if consumer in s.consumers then Done else Refused(UnknownConsumer)) && t.consumers == s.consumers
            case ClearRequest =>
              && reply == (if s.consumers == map[] then Done else Refused(LiveConsumers))
              && t.consumers == s.consumers && (reply == Done ==> t.entries == map[] && t.order == [])
  {
    hide Serve, Sound, Release, End;
    var s := Serve(config, requests);
    ServeSound(config, requests);
    match request
    case BeginRequest(_) => TokenIsFree(config, s);
    case ReleaseRequest(consumer, lease) =>
      if consumer in s.consumers {
        ReleaseRecord(config, s, consumer, lease);
      }
    case EndRequest(consumer) =>
      if consumer in s.consumers {
        EndRecords(config, s, consumer);
      }
    case _ =>
  }

  // ----- what the metrics count

  datatype Kind = Hits | Misses | Bypasses | Publications

  /** A miss is also counted when no room is found for it. */
  predicate Counts(kind: Kind, request: Request, reply: Reply) {
    match kind
    case Hits => reply.Hit?
    case Misses => reply.Miss? || reply == Bypass(NoCapacity)
    case Bypasses => reply.Bypass?
    case Publications => request.PublishRequest? && reply == Done
  }

  function Count(config: Config, requests: seq<Request>, kind: Kind): nat {
    if requests == [] then 0
    else
      var (front, last) := (requests[..|requests| - 1], requests[|requests| - 1]);
      Count(config, front, kind) + (if Counts(kind, last, Handle(config, Serve(config, front), last).1) then 1 else 0)
  }

  function Metric(m: Metrics, kind: Kind): nat {
    match kind
    case Hits => m.hits
    case Misses => m.misses
    case Bypasses => m.bypasses
    case Publications => m.publications
  }

  function Total(s: Cache): nat {
    Used(s.order, s.entries, Ram) + Used(s.order, s.entries, Disk)
  }

  /** Evictions and evicted bytes are what is gone. */
  predicate EvictionsAdd(s: Cache, t: Cache) {
    && |t.order| + t.metrics.evictions == |s.order| + s.metrics.evictions
    && Total(t) + t.metrics.evictedBytes == Total(s) + s.metrics.evictedBytes
    && t.metrics == s.metrics.(evictions := t.metrics.evictions, evictedBytes := t.metrics.evictedBytes)
  }

  lemma EvictAdds(s: Cache, key: Key)
    requires Listed(s.order, s.entries) && key in s.entries
    ensures EvictionsAdd(s, Evict(s, key))
  {
    var t := Evict(s, key);
    DropMembers(s.order, key);
    UsedDrop(s.order, s.entries, key, Ram);
    UsedDrop(s.order, s.entries, key, Disk);
    UsedSame(t.order, s.entries, t.entries, Ram);
    UsedSame(t.order, s.entries, t.entries, Disk);
  }

  lemma {:induction false} MakeSpaceAdds(config: Config, s: Cache, tier: Tier, size: nat, candidates: seq<Key>)
    requires Listed(s.order, s.entries)
    ensures EvictionsAdd(s, MakeSpace(config, s, tier, size, candidates))
    ensures Listed(MakeSpace(config, s, tier, size, candidates).order, MakeSpace(config, s, tier, size, candidates).entries)
    decreases |candidates|
  {
    hide Fits, Listed, Evict, Total;
    if candidates != [] && !Fits(config, s, tier, size) {
      var key := candidates[0];
      var evict := key in s.entries && s.entries[key].Evictable(tier);
      if evict {
        EvictAdds(s, key);
        EvictListed(s, key);
      }
      MakeSpaceAdds(config, if evict then Evict(s, key) else s, tier, size, candidates[1..]);
    }
  }

  lemma SpaceAdds(config: Config, s: Cache, tier: Tier, size: nat)
    requires Listed(s.order, s.entries)
    ensures var t := Space(config, s, tier, size); EvictionsAdd(s, t) && Listed(t.order, t.entries)
  {
    hide MakeSpace, Listed, Total;
    MakeSpaceAdds(config, s, tier, size, s.order);
  }

  lemma ReserveAdds(s: Cache, consumer: Token, key: Key, tier: Tier, size: nat)
    requires Listed(s.order, s.entries) && key !in s.entries
    ensures var t := Reserve(s, consumer, key, tier, size).0;
            |t.order| == |s.order| + 1 && Total(t) == Total(s) + size && t.metrics == s.metrics
  {
    var t := Reserve(s, consumer, key, tier, size).0;
    UsedAppend(s.order, t.entries, key, Ram);
    UsedAppend(s.order, t.entries, key, Disk);
    UsedSame(s.order, s.entries, t.entries, Ram);
    UsedSame(s.order, s.entries, t.entries, Disk);
  }

  /** Entries and bytes are conserved by an acquisition: what it reserves comes in, what it evicts is counted. */
  predicate Conserves(s: Cache, t: Cache, reply: Reply, size: int) {
    && |t.order| + t.metrics.evictions == |s.order| + s.metrics.evictions + (if reply.Miss? then 1 else 0)
    && Total(t) + t.metrics.evictedBytes == Total(s) + s.metrics.evictedBytes + (if reply.Miss? then size else 0)
  }

  lemma ProduceConserves(config: Config, s: Cache, consumer: Token, key: Key, size: nat)
    requires Listed(s.order, s.entries) && key !in s.entries
    ensures var (t, reply) := Produce(config, s, consumer, key, size);
            && Conserves(s, t, reply, size)
            && t.metrics.hits == s.metrics.hits && t.metrics.publications == s.metrics.publications
            && t.metrics.misses == s.metrics.misses + 1
            && t.metrics.bypasses == s.metrics.bypasses + (if reply.Bypass? then 1 else 0)
  {
    hide Space, Fits, Reserve, Listed, Used;
    var missed := s.(metrics := s.metrics.(misses := s.metrics.misses + 1));
    var inRam := if config.ramBytes > 0 then Space(config, missed, Ram, size) else missed;
    SpaceAdds(config, missed, Ram, size);
    SpaceAdds(config, inRam, Disk, size);
    StaysAbsent(config, missed, Ram, size, key);
    StaysAbsent(config, inRam, Disk, size, key);
    var onDisk := if config.diskBytes > 0 then Space(config, inRam, Disk, size) else inRam;
    ReserveMisses(inRam, consumer, key, Ram, size);
    ReserveAdds(inRam, consumer, key, Ram, size);
    ReserveMisses(onDisk, consumer, key, Disk, size);
    ReserveAdds(onDisk, consumer, key, Disk, size);
  }

  lemma ReserveMisses(s: Cache, consumer: Token, key: Key, tier: Tier, size: nat)
    ensures Reserve(s, consumer, key, tier, size).1 == Miss(tier)
  {
  }

  lemma StaysAbsent(config: Config, s: Cache, tier: Tier, size: nat, key: Key)
    requires key !in s.entries
    ensures key !in Space(config, s, tier, size).entries
  {
    hide Fits, MakeSpace;
    EvictionOnlyRemoves(config, s, tier, size, s.order);
  }

  lemma GrantConserves(s: Cache, consumer: Token, key: Key)
    requires consumer in s.consumers && key in s.entries && Listed(s.order, s.entries)
    ensures var (t, reply) := Grant(s, consumer, key);
            |t.order| == |s.order| && Total(t) == Total(s) && t.metrics == s.metrics.(hits := s.metrics.hits + 1) && reply.Hit?
  {
    hide Used, Drop;
    var t := Grant(s, consumer, key).0;
    DropMembers(s.order, key);
    MovedUsed(s.order, s.entries, t.entries, key, Ram);
    MovedUsed(s.order, s.entries, t.entries, key, Disk);
  }

  lemma AcquireConserves(config: Config, s: Cache, consumer: Token, key: Key, size: int, timedOut: bool)
    requires Listed(s.order, s.entries)
    ensures var (t, reply) := Acquire(config, s, consumer, key, size, timedOut);
            && Conserves(s, t, reply, size)
            && forall kind :: Metric(t.metrics, kind) == Metric(s.metrics, kind)
                 + (if Counts(kind, AcquireRequest(consumer, key, size, timedOut), reply) then 1 else 0)
  {
    hide Grant, Produce, LeasedBytes, Listed, Used;
    if consumer in s.consumers && 0 <= size {
      if key !in s.entries {
        ProduceConserves(config, s, consumer, key, size);
        ProduceReplies(config, s, consumer, key, size);
      } else if s.entries[key].ready {
        GrantConserves(s, consumer, key);
      }
    }
  }

  lemma ProduceReplies(config: Config, s: Cache, consumer: Token, key: Key, size: nat)
    ensures var reply := Produce(config, s, consumer, key, size).1; reply.Miss? || reply == Bypass(NoCapacity)
  {
    hide Space, Fits;
  }

  lemma {:induction false} ReleaseAllMetrics(s: Cache, consumer: Token)
    requires consumer in s.consumers
    ensures ReleaseAll(s, consumer).metrics == s.metrics
    decreases if consumer in s.consumers then |s.consumers[consumer].leases| else 0
  {
    if s.consumers[consumer].leases != [] {
      ReleaseAllMetrics(Release(s, consumer, s.consumers[consumer].leases[0].token), consumer);
    }
  }

  lemma {:induction false} AbortAllMetrics(s: Cache, consumer: Token, candidates: seq<Key>)
    ensures AbortAll(s, consumer, candidates).metrics == s.metrics
    decreases |candidates|
  {
    if candidates != [] {
      AbortAllMetrics(if ProducedBy(s, candidates[0], consumer) then Remove(s, candidates[0]) else s, consumer, candidates[1..]);
    }
  }

  lemma EndMetrics(s: Cache, consumer: Token)
    requires consumer in s.consumers
    ensures End(s, consumer).metrics == s.metrics
  {
    hide ReleaseAll, AbortAll;
    ReleaseAllMetrics(s, consumer);
    var released := ReleaseAll(s, consumer);
    AbortAllMetrics(released, consumer, released.order);
  }

  lemma HandleCounts(config: Config, s: Cache, request: Request)
    requires Listed(s.order, s.entries)
    ensures var (t, reply) := Handle(config, s, request);
            && (forall kind :: Metric(t.metrics, kind) == Metric(s.metrics, kind) + (if Counts(kind, request, reply) then 1 else 0))
            && (if request.AcquireRequest? then Conserves(s, t, reply, request.size)
                else t.metrics.evictions == s.metrics.evictions && t.metrics.evictedBytes == s.metrics.evictedBytes)
  {
    hide Acquire, End, Listed, KeyOf, WithoutLease, Drop, Total, Conserves;
    match request
    case AcquireRequest(consumer, key, size, timedOut) => AcquireConserves(config, s, consumer, key, size, timedOut);
    case EndRequest(consumer) =>
      if consumer in s.consumers {
        EndMetrics(s, consumer);
      }
    case _ =>
  }

  /** The metrics are the numbers of requests so answered. */
  lemma {:induction false} MetricsCount(config: Config, requests: seq<Request>, kind: Kind)
    requires config.Valid()
    ensures Metric(Serve(config, requests).metrics, kind) == Count(config, requests, kind)
  {
    hide Handle, Sound, Counts;
    if requests != [] {
      var front := requests[..|requests| - 1];
      MetricsCount(config, front, kind);
      ServeSound(config, front);
      SoundIsListed(config, Serve(config, front));
      HandleCounts(config, Serve(config, front), requests[|requests| - 1]);
    }
  }

  /** After any sequence of requests, an acquisition conserves entries and bytes, counting those evicted, and no other
      request counts an eviction. */
  lemma EvictionsCounted(config: Config, requests: seq<Request>, request: Request)
    requires config.Valid()
    ensures var s := Serve(config, requests);
            var (t, reply) := Handle(config, s, request);
            if request.AcquireRequest? then Conserves(s, t, reply, request.size)
            else t.metrics.evictions == s.metrics.evictions && t.metrics.evictedBytes == s.metrics.evictedBytes
  {
    hide *;
    var s := Serve(config, requests);
    ServeSound(config, requests);
    SoundIsListed(config, s);
    HandleCounts(config, s, request);
  }
}
