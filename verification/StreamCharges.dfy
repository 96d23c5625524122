/** Charging, releasing and quarantining a range of a stream's plans at once. */
module StreamCharges {
  import opened Resources
  import opened CoordinatorSpec
  import opened StreamSpec

  lemma {:induction false} CreditRangeBalance(ledger: Ledger, plans: seq<Plan>, low: nat, high: nat, account: Account)
    requires high <= |plans|
    ensures Balance(CreditRange(ledger, plans, low, high), account)
            == Balance(ledger, account) + Balance(CreditRange(map[], plans, low, high), account)
    decreases high
  {
    if low < high {
      CreditRangeBalance(ledger, plans, low, high - 1, account);
    }
  }

  lemma {:induction false} CreditRangeAccounts(ledger: Ledger, plans: seq<Plan>, held: set<nat>, low: nat, high: nat)
    requires high <= |plans| && Accounts(ledger, Requirements(plans), held)
    requires forall i: nat :: low <= i < high ==> i !in held
    ensures Accounts(CreditRange(ledger, plans, low, high), Requirements(plans), held + Range(low, high))
    decreases high
  {
    hide Accounts, Credit;
    if low < high {
      CreditRangeAccounts(ledger, plans, held, low, high - 1);
      CreditAccounts(CreditRange(ledger, plans, low, high - 1), Requirements(plans), held + Range(low, high - 1), high - 1);
      assert held + Range(low, high) == held + Range(low, high - 1) + {high - 1};
    } else {
      assert held + Range(low, high) == held;
    }
  }

  lemma {:induction false} DebitRangeAccounts(ledger: Ledger, plans: seq<Plan>, held: set<nat>, low: nat, high: nat)
    requires high <= |plans| && Accounts(ledger, Requirements(plans), held)
    requires forall i: nat :: low <= i < high ==> i in held
    ensures Accounts(DebitRange(ledger, plans, low, high), Requirements(plans), held - Range(low, high))
    decreases high
  {
    hide Accounts, Debit;
    if low < high {
      DebitRangeAccounts(ledger, plans, held, low, high - 1);
      DebitAccounts(DebitRange(ledger, plans, low, high - 1), Requirements(plans), held - Range(low, high - 1), high - 1);
      assert held - Range(low, high) == held - Range(low, high - 1) - {high - 1};
    } else {
      assert held - Range(low, high) == held;
    }
  }

  ghost predicate Kept(
    plans: seq<Plan>, capacities: Capacities, reserved: Ledger, held: set<nat>, quarantined: Ledger, quarantine: set<nat>)
  {
    Balanced(Requirements(plans), capacities, reserved, held, quarantined, quarantine)
  }

  /** A range that fits on top of what is reserved can be charged. */
  lemma ChargeRange(
    plans: seq<Plan>, capacities: Capacities, reserved: Ledger, held: set<nat>, quarantined: Ledger, quarantine: set<nat>,
    low: nat, high: nat)
    requires Kept(plans, capacities, reserved, held, quarantined, quarantine) && high <= |plans|
    requires forall i: nat :: low <= i < high ==> i !in held
    requires RangeFits(reserved, capacities, plans, low, high)
    ensures Kept(plans, capacities, CreditRange(reserved, plans, low, high), held + Range(low, high), quarantined, quarantine)
  {
    var next, totals := CreditRange(reserved, plans, low, high), CreditRange(map[], plans, low, high);
    forall a: Account | a.executor in capacities ensures Balance(next, a) <= capacities[a.executor].Of(a.quantity) {
      CreditRangeBalance(reserved, plans, low, high, a);
      assert a in totals ==> Balance(reserved, a) + totals[a] <= capacities[a.executor].Of(a.quantity);
    }
    hide CreditRange, Accounts;
    CreditRangeAccounts(reserved, plans, held, low, high);
  }

  lemma ReleaseRange(
    plans: seq<Plan>, capacities: Capacities, reserved: Ledger, held: set<nat>, quarantined: Ledger, quarantine: set<nat>,
    low: nat, high: nat)
    requires Kept(plans, capacities, reserved, held, quarantined, quarantine) && high <= |plans|
    requires AllNonNegative(Requirements(plans))
    requires forall i: nat :: low <= i < high ==> i in held && i !in quarantine
    ensures Kept(plans, capacities, DebitRange(reserved, plans, low, high), held - Range(low, high), quarantined, quarantine)
  {
    var next, rest := DebitRange(reserved, plans, low, high), held - Range(low, high);
    DebitRangeAccounts(reserved, plans, held, low, high);
    hide DebitRange;
    forall a: Account | a.executor in capacities ensures Balance(next, a) <= capacities[a.executor].Of(a.quantity) {
      TotalMonotone(Requirements(plans), rest, held, a, |plans|);
      assert Balance(next, a) == HeldTotal(Requirements(plans), rest, a);
    }
  }

  lemma QuarantineRange(
    plans: seq<Plan>, capacities: Capacities, reserved: Ledger, held: set<nat>, quarantined: Ledger, quarantine: set<nat>,
    low: nat, high: nat)
    requires Kept(plans, capacities, reserved, held, quarantined, quarantine) && high <= |plans|
    requires forall i: nat :: low <= i < high ==> i in held && i !in quarantine
    ensures Kept(plans, capacities, reserved, held, CreditRange(quarantined, plans, low, high), quarantine + Range(low, high))
  {
    hide CreditRange, Accounts;
    CreditRangeAccounts(quarantined, plans, quarantine, low, high);
  }

  // ----- choosing a wave

  lemma FitsIsRangeFits(capacities: Capacities, plans: seq<Plan>, i: nat)
    requires i < |plans| && Fits(map[], capacities, plans[i].requirement)
    ensures RangeFits(map[], capacities, plans, i, i + 1)
  {
    assert CreditRange(map[], plans, i, i) == map[];
    assert CreditRange(map[], plans, i, i + 1) == Credit(map[], plans[i].requirement);
  }

  /** The wave taken is the longest that keeps every longer prefix within the worker limit and capacity. */
  lemma {:induction false} WaveSizeIsGreedy(config: StreamConfig, plans: seq<Plan>, low: nat, stop: nat, taken: nat)
    requires low + taken <= stop <= |plans| && taken <= config.limits.maxWorkers
    requires taken > 0 ==> RangeFits(map[], config.limits.capacities, plans, low, low + taken)
    ensures var size := WaveSize(config, plans, low, stop, taken);
            && taken <= size <= config.limits.maxWorkers && low + size <= stop
            && (size > 0 ==> RangeFits(map[], config.limits.capacities, plans, low, low + size))
            && (size == config.limits.maxWorkers || low + size == stop
                || !RangeFits(map[], config.limits.capacities, plans, low, low + size + 1))
    decreases stop - taken
  {
    hide RangeFits;
    if !(low + taken == stop || taken == config.limits.maxWorkers
         || !RangeFits(map[], config.limits.capacities, plans, low, low + taken + 1))
    {
      WaveSizeIsGreedy(config, plans, low, stop, taken + 1);
    }
  }

  /** Every plan that passed submission starts a wave. */
  lemma WaveIsNonempty(config: StreamConfig, plans: seq<Plan>, low: nat, stop: nat)
    requires config.Valid() && low < stop <= |plans|
    requires Fits(map[], config.limits.capacities, plans[low].requirement)
    ensures 0 < WaveSize(config, plans, low, stop, 0) <= config.limits.maxWorkers
    ensures low + WaveSize(config, plans, low, stop, 0) <= stop
    ensures RangeFits(map[], config.limits.capacities, plans, low, low + WaveSize(config, plans, low, stop, 0))
  {
    FitsIsRangeFits(config.limits.capacities, plans, low);
    WaveSizeIsGreedy(config, plans, low, stop, 0);
    hide RangeFits, Fits;
  }

  // ----- more plans

  lemma {:induction false} CreditRangeOnPrefix(ledger: Ledger, plans: seq<Plan>, more: seq<Plan>, low: nat, high: nat)
    requires high <= |plans|
    ensures CreditRange(ledger, plans + more, low, high) == CreditRange(ledger, plans, low, high)
    decreases high
  {
    if low < high {
      CreditRangeOnPrefix(ledger, plans, more, low, high - 1);
    }
  }

  lemma {:induction false} TotalOnPrefix(plans: seq<Plan>, more: seq<Plan>, held: set<nat>, account: Account, n: nat)
    requires n <= |plans|
    ensures Total(Requirements(plans + more), held, account, n) == Total(Requirements(plans), held, account, n)
  {
    if n > 0 {
      TotalOnPrefix(plans, more, held, account, n - 1);
    }
  }

  lemma {:induction false} TotalBeyond(requirements: seq<Requirement>, held: set<nat>, account: Account, n: nat, m: nat)
    requires n <= m <= |requirements| && forall i :: i in held ==> i < n
    ensures Total(requirements, held, account, m) == Total(requirements, held, account, n)
  {
    if n < m {
      TotalBeyond(requirements, held, account, n, m - 1);
    }
  }

  lemma AccountsOnPrefix(ledger: Ledger, plans: seq<Plan>, more: seq<Plan>, held: set<nat>)
    requires Accounts(ledger, Requirements(plans), held) && forall i :: i in held ==> i < |plans|
    ensures Accounts(ledger, Requirements(plans + more), held)
  {
    forall a ensures Balance(ledger, a) == HeldTotal(Requirements(plans + more), held, a) {
      TotalBeyond(Requirements(plans + more), held, a, |plans|, |plans + more|);
      TotalOnPrefix(plans, more, held, a, |plans|);
    }
  }

  lemma KeptOnPrefix(
    plans: seq<Plan>, more: seq<Plan>, capacities: Capacities,
    reserved: Ledger, held: set<nat>, quarantined: Ledger, quarantine: set<nat>)
    requires Kept(plans, capacities, reserved, held, quarantined, quarantine)
    ensures Kept(plans + more, capacities, reserved, held, quarantined, quarantine)
  {
    AccountsOnPrefix(reserved, plans, more, held);
    AccountsOnPrefix(quarantined, plans, more, quarantine);
    hide Accounts, WithinCapacity;
  }
}
