/** The bounded input cache (rollout_manager/input_cache.py) as a state machine.

    Every request runs under one lock, so each operation is one step. A caller
    that waits for another producer is an acquisition that changes nothing until
    it is retried or times out. Descriptors become the published content. */
module InputCacheSpec {
  import opened Wrappers

  datatype Key = Key(digest: nat)
  datatype Token = Token(id: nat)
  datatype Tier = Ram | Disk
  type Content = seq<int>

  datatype Entry = Entry(bytes: nat, tier: Tier, ready: bool, producer: Token, content: Content, leases: set<Token>)
  {
    predicate Evictable(t: Tier) {
      tier == t && ready && leases == {}
    }
  }

  datatype Lease = Lease(token: Token, key: Key)
  datatype Consumer = Consumer(copyLimit: nat, leases: seq<Lease>)

  datatype Config = Config(ramBytes: nat, diskBytes: nat, maxEntries: nat)
  {
    predicate Valid() {
      0 < ramBytes + diskBytes && 1 <= maxEntries
    }

    function Capacity(tier: Tier): nat {
      if tier == Ram then ramBytes else diskBytes
    }
  }

  datatype Metrics = Metrics(hits: nat, misses: nat, bypasses: nat, evictions: nat, evictedBytes: nat, publications: nat)

  /** `order` is the dictionary's order, least recently used first; `published` is what was last published
      under each key. */
  datatype Cache = Cache(
    order: seq<Key>, entries: map<Key, Entry>, consumers: map<Token, Consumer>, nextToken: nat,
    metrics: Metrics, published: map<Key, Content>)

  function Empty(): Cache {
    Cache([], map[], map[], 0, Metrics(0, 0, 0, 0, 0, 0), map[])
  }

  // ----- accounting

  function Bytes(entries: map<Key, Entry>, key: Key, tier: Tier): nat {
    if key in entries && entries[key].tier == tier then entries[key].bytes else 0
  }

  function Used(order: seq<Key>, entries: map<Key, Entry>, tier: Tier): nat {
    if order == [] then 0 else Bytes(entries, order[0], tier) + Used(order[1..], entries, tier)
  }

  predicate Fits(config: Config, s: Cache, tier: Tier, size: nat) {
    Used(s.order, s.entries, tier) + size <= config.Capacity(tier) && |s.order| < config.maxEntries
  }

  function LeasedBytes(entries: map<Key, Entry>, leases: seq<Lease>): nat {
    if leases == [] then 0
    else (if leases[0].key in entries then entries[leases[0].key].bytes else 0) + LeasedBytes(entries, leases[1..])
  }

  // ----- removal and eviction

  function Drop<T(==)>(s: seq<T>, x: T): (r: seq<T>)
    ensures |r| <= |s|
  {
    if s == [] then [] else if s[0] == x then s[1..] else [s[0]] + Drop(s[1..], x)
  }

  function Remove(s: Cache, key: Key): Cache {
    s.(order := Drop(s.order, key), entries := s.entries - {key})
  }

  function Evict(s: Cache, key: Key): Cache
    requires key in s.entries
  {
    Remove(s, key).(metrics := s.metrics.(
      evictions := s.metrics.evictions + 1, evictedBytes := s.metrics.evictedBytes + s.entries[key].bytes))
  }

  /** `_space`: evict unused entries of the tier, oldest first, until the reservation fits or none is left. */
  function MakeSpace(config: Config, s: Cache, tier: Tier, size: nat, candidates: seq<Key>): Cache
    decreases |candidates|
  {
    if candidates == [] || Fits(config, s, tier, size) then s
    else
      var key := candidates[0];
      var next := if key in s.entries && s.entries[key].Evictable(tier) then Evict(s, key) else s;
      MakeSpace(config, next, tier, size, candidates[1..])
  }

  function Space(config: Config, s: Cache, tier: Tier, size: nat): Cache {
    if size > config.Capacity(tier) then s else MakeSpace(config, s, tier, size, s.order)
  }

  // ----- consumers

  datatype Refusal = UnknownConsumer | BadSize | BadPublication | LiveConsumers
  datatype Reason = WaitTimeout | CopyBudget | NoCapacity

  datatype Reply =
    | Begun(consumer: Token)
    | Hit(lease: Token, content: Content, bytes: nat, tier: Tier)
    | Miss(tier: Tier)
    | Bypass(reason: Reason)
    | MustWait
    | Done
    | Refused(refusal: Refusal)

  function Begin(s: Cache, copyLimit: nat): (Cache, Reply) {
    var token := Token(s.nextToken);
    (s.(consumers := s.consumers[token := Consumer(copyLimit, [])], nextToken := s.nextToken + 1), Begun(token))
  }

  function KeyOf(leases: seq<Lease>, lease: Token): Option<Key> {
    if leases == [] then None else if leases[0].token == lease then Some(leases[0].key) else KeyOf(leases[1..], lease)
  }

  function WithoutLease(leases: seq<Lease>, lease: Token): seq<Lease> {
    if leases == [] then [] else if leases[0].token == lease then leases[1..] else [leases[0]] + WithoutLease(leases[1..], lease)
  }

  function Release(s: Cache, consumer: Token, lease: Token): Cache
    requires consumer in s.consumers
  {
    var record := s.consumers[consumer];
    var t := s.(consumers := s.consumers[consumer := record.(leases := WithoutLease(record.leases, lease))]);
    match KeyOf(record.leases, lease)
    case None => t
    case Some(key) =>
      if key !in s.entries then t
      else t.(entries := s.entries[key := s.entries[key].(leases := s.entries[key].leases - {lease})])
  }

  /** Release every lease of a consumer, oldest first. */
  function ReleaseAll(s: Cache, consumer: Token): Cache
    requires consumer in s.consumers
    decreases if consumer in s.consumers then |s.consumers[consumer].leases| else 0
  {
    var leases := s.consumers[consumer].leases;
    if leases == [] then s else ReleaseAll(Release(s, consumer, leases[0].token), consumer)
  }

  predicate ProducedBy(s: Cache, key: Key, consumer: Token) {
    key in s.entries && !s.entries[key].ready && s.entries[key].producer == consumer
  }

  /** Abort what a consumer was generating. */
  function AbortAll(s: Cache, consumer: Token, candidates: seq<Key>): Cache
    decreases |candidates|
  {
    if candidates == [] then s
    else AbortAll(if ProducedBy(s, candidates[0], consumer) then Remove(s, candidates[0]) else s, consumer, candidates[1..])
  }

  function End(s: Cache, consumer: Token): Cache
    requires consumer in s.consumers
  {
    var released := ReleaseAll(s, consumer);
    var aborted := AbortAll(released, consumer, released.order);
    aborted.(consumers := aborted.consumers - {consumer})
  }

  function Abort(s: Cache, consumer: Token, key: Key): Cache {
    if ProducedBy(s, key, consumer) then Remove(s, key) else s
  }

  // ----- acquisition and publication

  function Grant(s: Cache, consumer: Token, key: Key): (Cache, Reply)
    requires consumer in s.consumers && key in s.entries
  {
    var record, entry, lease := s.consumers[consumer], s.entries[key], Token(s.nextToken);
    (s.(consumers := s.consumers[consumer := record.(leases := record.leases + [Lease(lease, key)])],
        entries := s.entries[key := entry.(leases := entry.leases + {lease})],
        order := Drop(s.order, key) + [key], nextToken := s.nextToken + 1,
        metrics := s.metrics.(hits := s.metrics.hits + 1)),
     Hit(lease, entry.content, entry.bytes, entry.tier))
  }

  function Bypassed(s: Cache, reason: Reason): (Cache, Reply) {
    (s.(metrics := s.metrics.(bypasses := s.metrics.bypasses + 1)), Bypass(reason))
  }

  function Reserve(s: Cache, consumer: Token, key: Key, tier: Tier, size: nat): (Cache, Reply) {
    (s.(order := s.order + [key], entries := s.entries[key := Entry(size, tier, false, consumer, [], {})]), Miss(tier))
  }

  /** Make room in RAM, else on disk; a tier without capacity is not tried. */
  function Produce(config: Config, s: Cache, consumer: Token, key: Key, size: nat): (Cache, Reply) {
    var missed := s.(metrics := s.metrics.(misses := s.metrics.misses + 1));
    var inRam := if config.ramBytes > 0 then Space(config, missed, Ram, size) else missed;
    if config.ramBytes > 0 && size <= config.ramBytes && Fits(config, inRam, Ram, size)
    then Reserve(inRam, consumer, key, Ram, size)
    else
      var onDisk := if config.diskBytes > 0 then Space(config, inRam, Disk, size) else inRam;
      if config.diskBytes > 0 && size <= config.diskBytes && Fits(config, onDisk, Disk, size)
      then Reserve(onDisk, consumer, key, Disk, size)
      else Bypassed(onDisk, NoCapacity)
  }

  /** One attempt; `timedOut` says that the caller has waited long enough for another producer. */
  function Acquire(config: Config, s: Cache, consumer: Token, key: Key, size: int, timedOut: bool): (Cache, Reply) {
    if consumer !in s.consumers then (s, Refused(UnknownConsumer))
    else if size < 0 then (s, Refused(BadSize))
    else if key in s.entries && !s.entries[key].ready then
      if timedOut then Bypassed(s, WaitTimeout) else (s, MustWait)
    else if key in s.entries then
      if LeasedBytes(s.entries, s.consumers[consumer].leases) + s.entries[key].bytes > s.consumers[consumer].copyLimit
      then Bypassed(s, CopyBudget)
      else Grant(s, consumer, key)
    else Produce(config, s, consumer, key, size)
  }

  function Publish(s: Cache, consumer: Token, key: Key, content: Content): (Cache, Reply) {
    if !ProducedBy(s, key, consumer) || |content| > s.entries[key].bytes then (s, Refused(BadPublication))
    else
      (s.(entries := s.entries[key := s.entries[key].(bytes := |content|, ready := true, content := content)],
          published := s.published[key := content],
          metrics := s.metrics.(publications := s.metrics.publications + 1)), Done)
  }

  function Clear(s: Cache): (Cache, Reply) {
    if s.consumers != map[] then (s, Refused(LiveConsumers)) else (s.(order := [], entries := map[]), Done)
  }

  // ----- requests

  datatype Request =
    | BeginRequest(copyLimit: nat)
    | AcquireRequest(consumer: Token, key: Key, size: int, timedOut: bool)
    | PublishRequest(consumer: Token, key: Key, content: Content)
    | ReleaseRequest(consumer: Token, lease: Token)
    | EndRequest(consumer: Token)
    | AbortRequest(consumer: Token, key: Key)
    | ClearRequest

  function Handle(config: Config, s: Cache, request: Request): (Cache, Reply) {
    match request
    case BeginRequest(copyLimit) => Begin(s, copyLimit)
    case AcquireRequest(consumer, key, size, timedOut) => Acquire(config, s, consumer, key, size, timedOut)
    case PublishRequest(consumer, key, content) =>
      if consumer in s.consumers then Publish(s, consumer, key, content) else (s, Refused(UnknownConsumer))
    case ReleaseRequest(consumer, lease) =>
      if consumer in s.consumers then (Release(s, consumer, lease), Done) else (s, Refused(UnknownConsumer))
    case EndRequest(consumer) =>
      if consumer in s.consumers then (End(s, consumer), Done) else (s, Refused(UnknownConsumer))
    case AbortRequest(consumer, key) =>
      if consumer in s.consumers then (Abort(s, consumer, key), Done) else (s, Refused(UnknownConsumer))
    case ClearRequest => Clear(s)
  }

  function Serve(config: Config, requests: seq<Request>): Cache {
    if requests == [] then Empty()
    else Handle(config, Serve(config, requests[..|requests| - 1]), requests[|requests| - 1]).0
  }
}
