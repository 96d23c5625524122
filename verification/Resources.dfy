/** Executor resources and the accounting of charges held by episode plans
    (rollout_manager/contracts.py, rollout_manager/coordinator.py). */
module Resources {

  datatype Executor = Executor(name: string)

  datatype Quantity = Cpu | MemoryBytes | StorageBytes | GpuCount

  /** CPU shares are fractional, so every quantity is a real here and arithmetic is exact.
      `episodeScoped` is false for backend-stage accounting, which the coordinator never charges. */
  datatype Requirement = Requirement(
    executor: Executor, cpu: real, memoryBytes: real, storageBytes: real, gpuCount: real, episodeScoped: bool)
  {
    function Of(quantity: Quantity): real {
      match quantity
      case Cpu => cpu
      case MemoryBytes => memoryBytes
      case StorageBytes => storageBytes
      case GpuCount => gpuCount
    }

    predicate NonNegative() {
      0.0 <= cpu && 0.0 <= memoryBytes && 0.0 <= storageBytes && 0.0 <= gpuCount
    }
  }

  /** One quantity of one executor. */
  datatype Account = Account(executor: Executor, quantity: Quantity)

  type Ledger = map<Account, real>

  function Balance(ledger: Ledger, account: Account): real {
    if account in ledger then ledger[account] else 0.0
  }

  /** What a requirement costs one account. */
  function Cost(requirement: Requirement, account: Account): real {
    if requirement.episodeScoped && requirement.executor == account.executor
    then requirement.Of(account.quantity) else 0.0
  }

  function Post(ledger: Ledger, account: Account, amount: real): Ledger {
    ledger[account := Balance(ledger, account) + amount]
  }

  /** `_charge` with sign 1 on the reserved ledger, and `_quarantine` on the quarantined one. */
  function Credit(ledger: Ledger, requirement: Requirement): (r: Ledger)
    ensures forall a :: Balance(r, a) == Balance(ledger, a) + Cost(requirement, a)
  {
    if !requirement.episodeScoped then ledger
    else
      var e := requirement.executor;
      Post(Post(Post(Post(ledger, Account(e, Cpu), requirement.cpu), Account(e, MemoryBytes), requirement.memoryBytes),
                Account(e, StorageBytes), requirement.storageBytes), Account(e, GpuCount), requirement.gpuCount)
  }

  /** `_charge` with sign -1. */
  function Debit(ledger: Ledger, requirement: Requirement): (r: Ledger)
    ensures forall a :: Balance(r, a) == Balance(ledger, a) - Cost(requirement, a)
  {
    if !requirement.episodeScoped then ledger
    else
      var e := requirement.executor;
      Post(Post(Post(Post(ledger, Account(e, Cpu), -requirement.cpu), Account(e, MemoryBytes), -requirement.memoryBytes),
                Account(e, StorageBytes), -requirement.storageBytes), Account(e, GpuCount), -requirement.gpuCount)
  }

  /** Executor capacities; an executor without one is unlimited. */
  type Capacities = map<Executor, Requirement>

  predicate Room(reserved: Ledger, capacities: Capacities, requirement: Requirement, quantity: Quantity)
    requires requirement.executor in capacities
  {
    Balance(reserved, Account(requirement.executor, quantity)) + requirement.Of(quantity)
      <= capacities[requirement.executor].Of(quantity)
  }

  /** `_fits`: room for one more requirement, given what is reserved. */
  predicate Fits(reserved: Ledger, capacities: Capacities, requirement: Requirement) {
    !requirement.episodeScoped || requirement.executor !in capacities ||
    (&& Room(reserved, capacities, requirement, Cpu) && Room(reserved, capacities, requirement, MemoryBytes)
     && Room(reserved, capacities, requirement, StorageBytes) && Room(reserved, capacities, requirement, GpuCount))
  }

  /** What fits alone, but not on top of what is reserved, meets an account with something reserved. */
  lemma AccountOver(reserved: Ledger, capacities: Capacities, requirement: Requirement) returns (a: Account)
    requires !Fits(reserved, capacities, requirement) && Fits(map[], capacities, requirement)
    ensures a.executor in capacities && Balance(reserved, a) > 0.0
  {
    var e := requirement.executor;
    a := if !Room(reserved, capacities, requirement, Cpu) then Account(e, Cpu)
         else if !Room(reserved, capacities, requirement, MemoryBytes) then Account(e, MemoryBytes)
         else if !Room(reserved, capacities, requirement, StorageBytes) then Account(e, StorageBytes)
         else Account(e, GpuCount);
  }

  /** Nothing reserved beyond an executor's capacity. */
  ghost predicate WithinCapacity(reserved: Ledger, capacities: Capacities) {
    forall a: Account :: a.executor in capacities ==> Balance(reserved, a) <= capacities[a.executor].Of(a.quantity)
  }

  lemma CreditWithin(reserved: Ledger, capacities: Capacities, requirement: Requirement)
    requires WithinCapacity(reserved, capacities) && Fits(reserved, capacities, requirement)
    ensures WithinCapacity(Credit(reserved, requirement), capacities)
  {
    forall a: Account | a.executor in capacities
      ensures Balance(Credit(reserved, requirement), a) <= capacities[a.executor].Of(a.quantity)
    {
      if requirement.episodeScoped && a.executor == requirement.executor {
        assert a == Account(requirement.executor, a.quantity);
        assert Room(reserved, capacities, requirement, a.quantity);
      }
    }
  }

  // ----- sums over sets of plans, by index

  ghost function Total(requirements: seq<Requirement>, held: set<nat>, account: Account, n: nat): real
    requires n <= |requirements|
  {
    if n == 0 then 0.0
    else Total(requirements, held, account, n - 1) + if n - 1 in held then Cost(requirements[n - 1], account) else 0.0
  }

  ghost function HeldTotal(requirements: seq<Requirement>, held: set<nat>, account: Account): real {
    Total(requirements, held, account, |requirements|)
  }

  /** The ledger is exactly the sum of the charges of these plans, on every account. */
  ghost predicate Accounts(ledger: Ledger, requirements: seq<Requirement>, held: set<nat>) {
    forall a :: Balance(ledger, a) == HeldTotal(requirements, held, a)
  }

  lemma {:induction false} TotalUnaffected(requirements: seq<Requirement>, a: set<nat>, b: set<nat>, account: Account, n: nat)
    requires n <= |requirements|
    requires forall i :: 0 <= i < n ==> (i in a <==> i in b)
    ensures Total(requirements, a, account, n) == Total(requirements, b, account, n)
  {
    if n > 0 {
      TotalUnaffected(requirements, a, b, account, n - 1);
    }
  }

  lemma {:induction false} TotalAdds(requirements: seq<Requirement>, held: set<nat>, i: nat, account: Account, n: nat)
    requires n <= |requirements| && i < n && i !in held
    ensures Total(requirements, held + {i}, account, n) == Total(requirements, held, account, n) + Cost(requirements[i], account)
  {
    if i == n - 1 {
      TotalUnaffected(requirements, held + {i}, held, account, n - 1);
    } else {
      TotalAdds(requirements, held, i, account, n - 1);
    }
  }

  lemma {:induction false} EmptyTotal(requirements: seq<Requirement>, account: Account, n: nat)
    requires n <= |requirements|
    ensures Total(requirements, {}, account, n) == 0.0
  {
    if n > 0 {
      EmptyTotal(requirements, account, n - 1);
    }
  }

  lemma CreditAccounts(ledger: Ledger, requirements: seq<Requirement>, held: set<nat>, i: nat)
    requires Accounts(ledger, requirements, held) && i < |requirements| && i !in held
    ensures Accounts(Credit(ledger, requirements[i]), requirements, held + {i})
  {
    forall a ensures Balance(Credit(ledger, requirements[i]), a) == HeldTotal(requirements, held + {i}, a) {
      TotalAdds(requirements, held, i, a, |requirements|);
    }
  }

  lemma DebitAccounts(ledger: Ledger, requirements: seq<Requirement>, held: set<nat>, i: nat)
    requires Accounts(ledger, requirements, held) && i < |requirements| && i in held
    ensures Accounts(Debit(ledger, requirements[i]), requirements, held - {i})
  {
    assert held - {i} + {i} == held;
    forall a ensures Balance(Debit(ledger, requirements[i]), a) == HeldTotal(requirements, held - {i}, a) {
      TotalAdds(requirements, held - {i}, i, a, |requirements|);
    }
  }

  lemma EmptyAccounts(requirements: seq<Requirement>)
    ensures Accounts(map[], requirements, {})
  {
    forall a ensures Balance(map[], a) == HeldTotal(requirements, {}, a) {
      EmptyTotal(requirements, a, |requirements|);
    }
  }

  lemma NothingHeld(ledger: Ledger, requirements: seq<Requirement>, account: Account)
    requires Accounts(ledger, requirements, {})
    ensures Balance(ledger, account) == 0.0
  {
    EmptyTotal(requirements, account, |requirements|);
  }

  ghost predicate AllNonNegative(requirements: seq<Requirement>) {
    forall i :: 0 <= i < |requirements| ==> requirements[i].NonNegative()
  }

  /** Holding fewer charges never needs more capacity. */
  lemma {:induction false} TotalMonotone(requirements: seq<Requirement>, a: set<nat>, b: set<nat>, account: Account, n: nat)
    requires n <= |requirements| && AllNonNegative(requirements)
    requires forall i :: 0 <= i < n && i in a ==> i in b
    ensures Total(requirements, a, account, n) <= Total(requirements, b, account, n)
  {
    if n > 0 {
      TotalMonotone(requirements, a, b, account, n - 1);
    }
  }

  /** The books: what is reserved is exactly what is held, the quarantined part is held too, and no
      executor is over capacity. */
  ghost predicate Balanced(
    requirements: seq<Requirement>, capacities: Capacities,
    reserved: Ledger, held: set<nat>, quarantined: Ledger, quarantine: set<nat>)
  {
    && quarantine <= held
    && (forall i :: i in held ==> i < |requirements|)
    && Accounts(reserved, requirements, held)
    && Accounts(quarantined, requirements, quarantine)
    && WithinCapacity(reserved, capacities)
  }

  lemma ChargeBalanced(
    requirements: seq<Requirement>, capacities: Capacities,
    reserved: Ledger, held: set<nat>, quarantined: Ledger, quarantine: set<nat>, i: nat)
    requires Balanced(requirements, capacities, reserved, held, quarantined, quarantine)
    requires i < |requirements| && i !in held
    requires WithinCapacity(Credit(reserved, requirements[i]), capacities)
    ensures Balanced(requirements, capacities, Credit(reserved, requirements[i]), held + {i}, quarantined, quarantine)
  {
    CreditAccounts(reserved, requirements, held, i);
  }

  lemma ReleaseBalanced(
    requirements: seq<Requirement>, capacities: Capacities,
    reserved: Ledger, held: set<nat>, quarantined: Ledger, quarantine: set<nat>, i: nat)
    requires Balanced(requirements, capacities, reserved, held, quarantined, quarantine)
    requires AllNonNegative(requirements)
    requires i in held && i !in quarantine
    ensures Balanced(requirements, capacities, Debit(reserved, requirements[i]), held - {i}, quarantined, quarantine)
  {
    DebitAccounts(reserved, requirements, held, i);
    forall a: Account | a.executor in capacities
      ensures Balance(Debit(reserved, requirements[i]), a) <= capacities[a.executor].Of(a.quantity)
    {
      TotalMonotone(requirements, held - {i}, held, a, |requirements|);
    }
  }

  lemma QuarantineBalanced(
    requirements: seq<Requirement>, capacities: Capacities,
    reserved: Ledger, held: set<nat>, quarantined: Ledger, quarantine: set<nat>, i: nat)
    requires Balanced(requirements, capacities, reserved, held, quarantined, quarantine)
    requires i in held && i !in quarantine
    ensures Balanced(requirements, capacities, reserved, held, Credit(quarantined, requirements[i]), quarantine + {i})
  {
    CreditAccounts(quarantined, requirements, quarantine, i);
  }
}
