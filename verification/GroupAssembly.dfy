/** `GroupAssembler` (rollout_manager/benchmark_training.py): one receipt per registered group. */
module GroupAssembly {
  import opened Basics
  import opened Wrappers

  datatype Identity = Identity(text: string)

  /** A sampled turn, with the request it was sampled by and the context it was given. */
  datatype Turn = Turn(wellFormed: bool, number: int, request: nat, policy: nat, context: nat)

  /** What an episode ended with: its source, its reward unless the reward policy refuses it, its turns, and which
      of its requests' delivery records prove a completed and validated response. */
  datatype Result = Result(
    source: nat, reward: Option<real>, turns: seq<Turn>, deliveries: map<nat, bool>, evidenceIsJson: bool)

  /** What the group's episodes share, and the sample identity of each. */
  datatype Lease = Lease(policy: nat, source: nat, context: nat, samples: seq<Identity>)

  datatype Open = Open(plans: seq<Identity>, lease: Lease, results: map<Identity, Result>)

  datatype Reason =
    | SourceDiffers | RewardRefused | NoTurns | MalformedTurn | PolicyDiffers | NoDeliveryRecord | DeliveryUnproven
    | TurnsOutOfOrder | RepeatedRequest | ContextDiffers | MalformedEvidence
    | RepeatedSample | SharedRequest

  /** A refused group names the samples at fault, or what is wrong with them together. */
  datatype Receipt =
    | Trainable(id: nat, lease: Lease, results: seq<Result>)
    | Excluded(id: nat, faults: seq<(nat, Reason)>, together: Option<Reason>, results: seq<Result>)

  datatype AssemblyError = NotMonotonic | CapacityExhausted | SharedEpisode | UnknownEpisode | DuplicateCompletion

  type Groups = map<nat, Open>
  type Episodes = map<Identity, nat>

  function InOrder(plans: seq<Identity>, results: map<Identity, Result>): (ordered: seq<Result>)
    requires forall k :: 0 <= k < |plans| ==> plans[k] in results
    ensures |ordered| == |plans| && forall k :: 0 <= k < |plans| ==> ordered[k] == results[plans[k]]
  {
    seq(|plans|, k requires 0 <= k < |plans| => results[plans[k]])
  }

  // ----- which samples may be trained on

  predicate InTurn(turns: seq<Turn>) {
    forall k :: 0 <= k < |turns| ==> turns[k].number == k + 1
  }

  function Requests(turns: seq<Turn>): (requests: seq<nat>)
    ensures |requests| == |turns| && forall k :: 0 <= k < |turns| ==> requests[k] == turns[k].request
  {
    seq(|turns|, k requires 0 <= k < |turns| => turns[k].request)
  }

  /** What keeps an episode from being a sample of its group, the first thing that does. */
  function Fault(lease: Lease, result: Result): Option<Reason> {
    var turns := result.turns;
    if result.source != lease.source then Some(SourceDiffers)
    else if result.reward == None then Some(RewardRefused)
    else if turns == [] then Some(NoTurns)
    else if exists k :: 0 <= k < |turns| && !turns[k].wellFormed then Some(MalformedTurn)
    else if exists k :: 0 <= k < |turns| && turns[k].policy != lease.policy then Some(PolicyDiffers)
    else if exists k :: 0 <= k < |turns| && turns[k].request !in result.deliveries then Some(NoDeliveryRecord)
    else if exists k :: 0 <= k < |turns| && !result.deliveries[turns[k].request] then Some(DeliveryUnproven)
    else if !InTurn(turns) then Some(TurnsOutOfOrder)
    else if !Distinct(Requests(turns)) then Some(RepeatedRequest)
    else if turns[0].context != lease.context then Some(ContextDiffers)
    else if !result.evidenceIsJson then Some(MalformedEvidence)
    else None
  }

  /** An episode that may be trained on: of the registered source, with a reward, and with turns in order, each by
      its own request, sampled under the leased policy and proven delivered, from the leased context. */
  predicate Eligible(lease: Lease, result: Result) {
    && result.source == lease.source && result.reward.Some? && result.evidenceIsJson
    && result.turns != [] && result.turns[0].context == lease.context
    && (forall k :: 0 <= k < |result.turns| ==>
          var turn := result.turns[k];
          && turn.wellFormed && turn.number == k + 1 && turn.policy == lease.policy
          && turn.request in result.deliveries && result.deliveries[turn.request])
    && forall j, k :: 0 <= j < k < |result.turns| ==> result.turns[j].request != result.turns[k].request
  }

  lemma NoFaultIsEligible(lease: Lease, result: Result)
    ensures Fault(lease, result) == None <==> Eligible(lease, result)
  {
  }

  /** No request was used for two samples. */
  predicate Apart(results: seq<Result>) {
    forall a, b, j, k :: 0 <= a < b < |results| && 0 <= j < |results[a].turns| && 0 <= k < |results[b].turns| ==>
      results[a].turns[j].request != results[b].turns[k].request
  }

  /** A group may be trained on if all its episodes are, with samples and requests of their own. */
  predicate Qualifies(lease: Lease, results: seq<Result>) {
    && (forall k :: 0 <= k < |results| ==> Eligible(lease, results[k]))
    && Distinct(lease.samples) && Apart(results)
  }

  function AllRequests(results: seq<Result>): (requests: seq<nat>) {
    if results == [] then [] else AllRequests(results[..|results| - 1]) + Requests(results[|results| - 1].turns)
  }

  lemma {:induction false} InAllRequests(results: seq<Result>, request: nat)
    ensures request in AllRequests(results) <==>
              exists a, j :: 0 <= a < |results| && 0 <= j < |results[a].turns| && results[a].turns[j].request == request
  {
    if results != [] {
      var front, last := results[..|results| - 1], results[|results| - 1];
      InAllRequests(front, request);
      if a, j :| 0 <= a < |results| && 0 <= j < |results[a].turns| && results[a].turns[j].request == request {
        assert if a < |front| then front[a] == results[a] else Requests(last.turns)[j] == request;
      }
    }
  }

  lemma DistinctAppend<T>(a: seq<T>, b: seq<T>)
    ensures Distinct(a + b) <==> Distinct(a) && Distinct(b) && forall x :: x in a ==> x !in b
  {
    var c := a + b;
    if Distinct(c) {
      forall x | x in a ensures x !in b {
        var j :| 0 <= j < |a| && a[j] == x;
        forall k | 0 <= k < |b| ensures b[k] != x {
          assert c[j] == x && c[|a| + k] == b[k];
        }
      }
      forall j, k | 0 <= j < k < |b| ensures b[j] != b[k] {
        assert c[|a| + j] == b[j] && c[|a| + k] == b[k];
      }
      forall j, k | 0 <= j < k < |a| ensures a[j] != a[k] {
        assert c[j] == a[j] && c[k] == a[k];
      }
    }
    if Distinct(a) && Distinct(b) && forall x :: x in a ==> x !in b {
      forall j, k | 0 <= j < k < |c| ensures c[j] != c[k] {
        if j < |a| <= k {
          assert c[j] in a && c[k] in b;
        }
      }
    }
  }

  /** The group's requests are pairwise different exactly if those of each sample are, and no two samples share one. */
  lemma {:induction false} RequestsApart(results: seq<Result>)
    ensures Distinct(AllRequests(results)) <==>
              Apart(results) && forall a :: 0 <= a < |results| ==> Distinct(Requests(results[a].turns))
  {
    if results != [] {
      var front, last := results[..|results| - 1], results[|results| - 1];
      RequestsApart(front);
      DistinctAppend(AllRequests(front), Requests(last.turns));
      LastApart(results);
    }
  }

  lemma LastApart(results: seq<Result>)
    requires results != []
    ensures var front, last := results[..|results| - 1], results[|results| - 1];
            Apart(results) <==> Apart(front) && forall x :: x in AllRequests(front) ==> x !in Requests(last.turns)
  {
    var front, last := results[..|results| - 1], results[|results| - 1];
    forall x ensures x in AllRequests(front) <==>
        exists a, j :: 0 <= a < |front| && 0 <= j < |front[a].turns| && front[a].turns[j].request == x
    {
      InAllRequests(front, x);
    }
    if Apart(results) {
      forall x | x in AllRequests(front) ensures x !in Requests(last.turns) {
        var a, j :| 0 <= a < |front| && 0 <= j < |front[a].turns| && front[a].turns[j].request == x;
        assert results[a] == front[a];
      }
    }
    if Apart(front) && forall x :: x in AllRequests(front) ==> x !in Requests(last.turns) {
      forall a, b, j, k | 0 <= a < b < |results| && 0 <= j < |results[a].turns| && 0 <= k < |results[b].turns|
        ensures results[a].turns[j].request != results[b].turns[k].request
      {
        assert front[a] == results[a];
        if b == |front| {
          assert front[a].turns[j].request in AllRequests(front);
          assert Requests(last.turns)[k] == results[b].turns[k].request;
        } else {
          assert front[b] == results[b];
        }
      }
    }
  }

  // ----- what holds between calls

  /** A group waits for at least one of its distinct episodes. */
  predicate Waits(open: Open) {
    Distinct(open.plans) && open.results.Keys < Elements(open.plans)
  }

  ghost predicate AllWait(groups: Groups) {
    forall g :: g in groups ==> Waits(groups[g])
  }

  /** Every episode of an open group is booked for that group. */
  ghost predicate Booked(groups: Groups, episodes: Episodes) {
    forall g, i :: g in groups && i in groups[g].plans ==> i in episodes && episodes[i] == g
  }

  /** Every booked episode belongs to an open group. */
  ghost predicate Owned(groups: Groups, episodes: Episodes) {
    forall i :: i in episodes ==> episodes[i] in groups && i in groups[episodes[i]].plans
  }

  ghost predicate Consistent(groups: Groups, episodes: Episodes) {
    AllWait(groups) && Booked(groups, episodes) && Owned(groups, episodes)
  }

  function Joined(episodes: Episodes, plans: seq<Identity>, g: nat): Episodes {
    episodes + map i | i in plans :: g
  }

  function Without(episodes: Episodes, plans: seq<Identity>): Episodes {
    map i | i in episodes && i !in plans :: episodes[i]
  }

  lemma JoinedKeeps(groups: Groups, episodes: Episodes, g: nat, open: Open)
    requires Consistent(groups, episodes) && g !in groups && Waits(open)
    requires forall k :: 0 <= k < |open.plans| ==> open.plans[k] !in episodes
    ensures Consistent(groups[g := open], Joined(episodes, open.plans, g))
  {
  }

  lemma JoinedSize(episodes: Episodes, plans: seq<Identity>, g: nat)
    requires Distinct(plans)
    ensures |Joined(episodes, plans, g)| <= |episodes| + |plans|
  {
    var after := Joined(episodes, plans, g);
    DistinctCounts(plans);
    assert after.Keys == episodes.Keys + Elements(plans);
    assert |episodes.Keys + Elements(plans)| <= |episodes.Keys| + |Elements(plans)|;
  }

  lemma WithoutKeeps(groups: Groups, episodes: Episodes, g: nat)
    requires Consistent(groups, episodes) && g in groups
    ensures Consistent(groups - {g}, Without(episodes, groups[g].plans))
    ensures |groups - {g}| <= |groups| && |Without(episodes, groups[g].plans)| <= |episodes|
  {
    hide Waits, Booked, Owned;
    assert (groups - {g}).Keys == groups.Keys - {g};
    SubsetSize(groups.Keys - {g}, groups.Keys);
    SubsetSize(Without(episodes, groups[g].plans).Keys, episodes.Keys);
    StillBooked(groups, episodes, g);
    StillOwned(groups, episodes, g);
  }

  lemma StillBooked(groups: Groups, episodes: Episodes, g: nat)
    requires Booked(groups, episodes) && g in groups
    ensures Booked(groups - {g}, Without(episodes, groups[g].plans))
  {
    forall h, i | h in groups - {g} && i in groups[h].plans
      ensures i in Without(episodes, groups[g].plans) && episodes[i] == h
    {
      assert i in episodes && episodes[i] == h;
      if i in groups[g].plans {
        assert episodes[i] == g;
      }
    }
  }

  lemma StillOwned(groups: Groups, episodes: Episodes, g: nat)
    requires Booked(groups, episodes) && Owned(groups, episodes) && g in groups
    ensures Owned(groups - {g}, Without(episodes, groups[g].plans))
  {
  }

  /** Once as many results as plans are recorded, every plan has its own. */
  lemma CountDecides(open: Open, identity: Identity, result: Result)
    requires Waits(open) && identity in open.plans
    ensures var results := open.results[identity := result];
            results.Keys <= Elements(open.plans) && (|results| == |open.plans| <==> results.Keys == Elements(open.plans))
  {
    var results := open.results[identity := result];
    DistinctCounts(open.plans);
    assert results.Keys == open.results.Keys + {identity};
    SubsetSize(results.Keys, Elements(open.plans));
    assert |results| == |results.Keys|;
  }

  lemma RecordKeeps(groups: Groups, episodes: Episodes, g: nat, identity: Identity, result: Result)
    requires Consistent(groups, episodes) && g in groups && identity in groups[g].plans
    requires |groups[g].results[identity := result]| != |groups[g].plans|
    ensures var open := groups[g];
            Consistent(groups[g := open.(results := open.results[identity := result])], episodes)
  {
    hide Waits, Booked, Owned;
    RecordWaits(groups[g], identity, result);
    SamePlansKeep(groups, episodes, g, groups[g].(results := groups[g].results[identity := result]));
  }

  lemma RecordWaits(open: Open, identity: Identity, result: Result)
    requires Waits(open) && identity in open.plans && |open.results[identity := result]| != |open.plans|
    ensures Waits(open.(results := open.results[identity := result]))
  {
    CountDecides(open, identity, result);
  }

  lemma SamePlansKeep(groups: Groups, episodes: Episodes, g: nat, open: Open)
    requires Booked(groups, episodes) && Owned(groups, episodes) && g in groups && open.plans == groups[g].plans
    ensures Booked(groups[g := open], episodes) && Owned(groups[g := open], episodes)
  {
  }

  class GroupAssembler {
    const maxGroups: nat
    const maxEpisodes: nat
    var groups: Groups
    var episodes: Episodes
    var lastRegistered: int

    ghost predicate Valid()
      reads this
    {
      && |groups| <= maxGroups && |episodes| <= maxEpisodes && Consistent(groups, episodes)
      && forall g :: g in groups ==> g <= lastRegistered
    }

    constructor (maxGroups: nat, maxEpisodes: nat)
      ensures Valid() && groups == map[] && episodes == map[] && lastRegistered == -1
      ensures this.maxGroups == maxGroups && this.maxEpisodes == maxEpisodes
    {
      this.maxGroups, this.maxEpisodes := maxGroups, maxEpisodes;
      groups, episodes, lastRegistered := map[], map[], -1;
    }

    /** Take a group on if its id is new and highest, and there is room for it and its episodes. */
    method Register(id: nat, plans: seq<Identity>, lease: Lease) returns (error: Option<AssemblyError>)
      requires Valid() && 2 <= |plans| == |lease.samples| && Distinct(plans)
      modifies this`groups, this`episodes, this`lastRegistered
      ensures Valid()
      ensures error.None? <==>
                && id > old(lastRegistered) && old(|groups|) < maxGroups && old(|episodes|) + |plans| <= maxEpisodes
                && forall k :: 0 <= k < |plans| ==> plans[k] !in old(episodes)
      ensures error.None? ==> groups == old(groups)[id := Open(plans, lease, map[])] && lastRegistered == id
      ensures error.None? ==> episodes == Joined(old(episodes), plans, id)
      ensures error.Some? ==> groups == old(groups) && episodes == old(episodes) && lastRegistered == old(lastRegistered)
    {
      hide Consistent, Joined, Distinct, Elements;
      if id <= lastRegistered {
        return Some(NotMonotonic);
      }
      if |groups| >= maxGroups || |episodes| + |plans| > maxEpisodes {
        return Some(CapacityExhausted);
      }
      if exists k :: 0 <= k < |plans| && plans[k] in episodes {
        return Some(SharedEpisode);
      }
      NewWaits(plans, lease);
      JoinedKeeps(groups, episodes, id, Open(plans, lease, map[]));
      JoinedSize(episodes, plans, id);
      groups, episodes, lastRegistered := groups[id := Open(plans, lease, map[])], Joined(episodes, plans, id), id;
      return None;
    }

    /** Record a result. The last sibling closes the group with its only receipt: trainable exactly if every
        episode qualifies, with the results in the registered order. */
    method Complete(identity: Identity, result: Result) returns (outcome: Wrappers.Result<Option<Receipt>, AssemblyError>)
      requires Valid()
      modifies this`groups, this`episodes
      ensures Valid()
      ensures outcome.Ok? <==> identity in old(episodes) && identity !in old(groups[episodes[identity]].results)
      ensures outcome.Err? ==> groups == old(groups) && episodes == old(episodes)
      ensures outcome.Ok? ==>
                var g := old(episodes[identity]);
                var open := old(groups[episodes[identity]]);
                var results := open.results[identity := result];
                match outcome.value
                case None =>
                  && results.Keys < Elements(open.plans) && episodes == old(episodes)
                  && groups == old(groups)[g := open.(results := results)]
                case Some(receipt) =>
                  && results.Keys == Elements(open.plans) && g !in groups
                  && groups == old(groups) - {g} && episodes == Without(old(episodes), open.plans)
                  && IsReceipt(receipt, g, open.(results := results))
    {
      hide Consistent, Waits, Without, IsReceipt;
      if identity !in episodes {
        return Err(UnknownEpisode);
      }
      var g := episodes[identity];
      EpisodeIsBooked(groups, episodes, identity);
      if identity in groups[g].results {
        return Err(DuplicateCompletion);
      }
      CountDecides(groups[g], identity, result);
      if |groups[g].results[identity := result]| != |groups[g].plans| {
        Record(g, identity, result);
        return Ok(None);
      }
      var receipt := CloseGroup(g, groups[g].results[identity := result]);
      return Ok(Some(receipt));
    }

    /** A result that is not its group's last. */
    method Record(g: nat, identity: Identity, result: Result)
      requires Valid() && g in groups && identity in groups[g].plans
      requires |groups[g].results[identity := result]| != |groups[g].plans|
      modifies this`groups
      ensures Valid()
      ensures groups == old(groups)[g := old(groups[g]).(results := old(groups[g]).results[identity := result])]
    {
      hide Consistent, Waits;
      RecordKeeps(groups, episodes, g, identity, result);
      groups := groups[g := groups[g].(results := groups[g].results[identity := result])];
    }

    /** The group's receipt; nothing else is kept of it. */
    method CloseGroup(g: nat, results: map<Identity, Result>) returns (receipt: Receipt)
      requires Valid() && g in groups && results.Keys == Elements(groups[g].plans)
      modifies this`groups, this`episodes
      ensures Valid()
      ensures groups == old(groups) - {g} && episodes == Without(old(episodes), old(groups[g]).plans)
      ensures IsReceipt(receipt, g, old(groups[g]).(results := results))
    {
      hide Consistent, Waits, Without, IsReceipt;
      receipt := Receive(g, groups[g].(results := results));
      WithoutKeeps(groups, episodes, g);
      groups, episodes := groups - {g}, Without(episodes, groups[g].plans);
    }
  }

  /** A live episode is one of its group's plans, and the group waits for more. */
  lemma EpisodeIsBooked(groups: Groups, episodes: Episodes, identity: Identity)
    requires Consistent(groups, episodes) && identity in episodes
    ensures var g := episodes[identity]; g in groups && identity in groups[g].plans && Waits(groups[g])
  {
  }

  lemma NewWaits(plans: seq<Identity>, lease: Lease)
    requires 2 <= |plans| && Distinct(plans)
    ensures Waits(Open(plans, lease, map[]))
  {
    assert plans[0] in Elements(plans);
  }

  /** The samples at fault among the first n, in order. */
  function Faults(lease: Lease, results: seq<Result>, n: nat): (faults: seq<(nat, Reason)>)
    requires n <= |results|
    ensures forall k: nat, r :: (k, r) in faults <==> k < n && Fault(lease, results[k]) == Some(r)
  {
    if n == 0 then []
    else
      var before, fault := Faults(lease, results, n - 1), Fault(lease, results[n - 1]);
      if fault == None then before else before + [(n - 1, fault.value)]
  }

  /** The receipt of a complete group: its results in plan order, trainable exactly if they qualify, and otherwise with
      every sample at fault, or, without any, with what is wrong with them together. */
  ghost predicate IsReceipt(receipt: Receipt, g: nat, open: Open) {
    && receipt.id == g && |receipt.results| == |open.plans|
    && (forall k :: 0 <= k < |open.plans| ==> open.plans[k] in open.results && receipt.results[k] == open.results[open.plans[k]])
    && IsVerdict(receipt, open.lease)
  }

  ghost predicate IsVerdict(receipt: Receipt, lease: Lease) {
    && (receipt.Trainable? <==> Qualifies(lease, receipt.results))
    && (receipt.Trainable? ==> receipt.lease == lease)
    && (receipt.Excluded? ==>
          && receipt.faults == Faults(lease, receipt.results, |receipt.results|)
          && (if receipt.faults != [] then receipt.together == None
              else if !Distinct(lease.samples) then receipt.together == Some(RepeatedSample)
              else receipt.together == Some(SharedRequest) && !Apart(receipt.results)))
  }

  lemma NoFaultsMeansEligible(lease: Lease, results: seq<Result>)
    ensures Faults(lease, results, |results|) == [] <==> forall k :: 0 <= k < |results| ==> Eligible(lease, results[k])
  {
    hide Fault, Eligible;
    var faults := Faults(lease, results, |results|);
    forall k | 0 <= k < |results| ensures Fault(lease, results[k]) == None <==> Eligible(lease, results[k]) {
      NoFaultIsEligible(lease, results[k]);
    }
    if k :| 0 <= k < |results| && Fault(lease, results[k]).Some? {
      assert (k, Fault(lease, results[k]).value) in faults;
    }
    if faults != [] {
      var (k, r) := faults[0];
      assert (k, r) in faults;
    }
  }

  /** A group qualifies exactly if the checks find no fault with any of its samples, and neither a sample identity nor a
      request of the group occurs twice. */
  lemma QualifiesIff(lease: Lease, results: seq<Result>)
    ensures Qualifies(lease, results) <==>
              && (forall k :: 0 <= k < |results| ==> Fault(lease, results[k]) == None)
              && Distinct(lease.samples) && Distinct(AllRequests(results))
  {
    hide Fault, Eligible, Apart, AllRequests;
    forall k | 0 <= k < |results| ensures Fault(lease, results[k]) == None <==> Eligible(lease, results[k]) {
      NoFaultIsEligible(lease, results[k]);
    }
    if forall k :: 0 <= k < |results| ==> Eligible(lease, results[k]) {
      EligibleRequests(lease, results);
    }
  }

  /** There is only one receipt for a complete group: it is trainable, or names every fault, or the repeated sample, or
      the shared request, in this order. */
  lemma ReceiptIs(receipt: Receipt, g: nat, open: Open)
    requires IsReceipt(receipt, g, open)
    ensures open.results.Keys >= Elements(open.plans)
    ensures var results := InOrder(open.plans, open.results);
            var faults := Faults(open.lease, results, |results|);
            receipt == if faults != [] then Excluded(g, faults, None, results)
                       else if !Distinct(open.lease.samples) then Excluded(g, [], Some(RepeatedSample), results)
                       else if !Distinct(AllRequests(results)) then Excluded(g, [], Some(SharedRequest), results)
                       else Trainable(g, open.lease, results)
  {
    hide Fault, Eligible, Apart, AllRequests;
    var results := InOrder(open.plans, open.results);
    assert receipt.results == results;
    NoFaultsMeansEligible(open.lease, results);
    QualifiesIff(open.lease, results);
    if forall k :: 0 <= k < |results| ==> Eligible(open.lease, results[k]) {
      EligibleRequests(open.lease, results);
    }
  }

  lemma EligibleRequests(lease: Lease, results: seq<Result>)
    requires forall k :: 0 <= k < |results| ==> Eligible(lease, results[k])
    ensures Distinct(AllRequests(results)) <==> Apart(results)
  {
    RequestsApart(results);
    forall a | 0 <= a < |results| ensures Distinct(Requests(results[a].turns)) {
      assert Eligible(lease, results[a]);
    }
  }

  /** Check every sample, then the samples together. */
  method Judge(g: nat, lease: Lease, results: seq<Result>) returns (receipt: Receipt)
    ensures receipt.id == g && receipt.results == results && IsVerdict(receipt, lease)
  {
    hide Fault, Eligible, Apart;
    var faults := [];
    for k := 0 to |results|
      invariant faults == Faults(lease, results, k)
    {
      var fault := Fault(lease, results[k]);
      if fault != None {
        faults := faults + [(k, fault.value)];
      }
    }
    NoFaultsMeansEligible(lease, results);
    if faults != [] {
      return Excluded(g, faults, None, results);
    }
    EligibleRequests(lease, results);
    if !Distinct(lease.samples) {
      return Excluded(g, faults, Some(RepeatedSample), results);
    }
    if !Distinct(AllRequests(results)) {
      return Excluded(g, faults, Some(SharedRequest), results);
    }
    return Trainable(g, lease, results);
  }

  method Receive(g: nat, open: Open) returns (receipt: Receipt)
    requires open.results.Keys == Elements(open.plans)
    ensures IsReceipt(receipt, g, open)
  {
    hide IsVerdict;
    assert forall k :: 0 <= k < |open.plans| ==> open.plans[k] in Elements(open.plans);
    receipt := Judge(g, open.lease, InOrder(open.plans, open.results));
  }
}
