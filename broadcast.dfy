/**
 * The agent's broadcast/storage cycle counters. Every cycle of the metric
 * broadcast loop pushes metrics to the dashboards; every `storageCycles`-th
 * cycle also sends them to the server for storage. A `config_update` event
 * addressed to this VM replaces the intervals and restarts both counters.
 */
module Broadcast {
  import opened Wrappers

  /**
   * The number of storage sends in the first `n` cycles when a send happens
   * on every cycle whose counter is a multiple of `c`.
   */
  function StorageSends(n: nat, c: nat): nat
  {
    if n == 0 || c == 0 then 0
    else StorageSends(n - 1, c) + (if (n - 1) % c == 0 then 1 else 0)
  }

  /** A positive multiple of `c` is at least `c`. */
  lemma {:induction false} MultipleAtLeast(k: nat, c: nat)
    requires k >= 1
    ensures k * c >= c
  {
    if k > 1 {
      MultipleAtLeast(k - 1, c);
      assert k * c == (k - 1) * c + c;
    }
  }

  /** Euclidean division is determined by quotient and remainder. */
  lemma DivMod(a: int, c: int, q: int, r: int)
    requires c > 0 && 0 <= r < c && a == q * c + r
    ensures a / c == q && a % c == r
  {
    var q', r' := a / c, a % c;
    assert a == q' * c + r' && 0 <= r' < c;
    assert (q - q') * c == r' - r;
    if q > q' {
      MultipleAtLeast(q - q', c);
    } else if q < q' {
      MultipleAtLeast(q' - q, c);
    }
  }

  /** The cycles `0, c, 2c, …` below `n`: the count is `n / c` rounded up. */
  lemma {:induction false} StorageSendsClosedForm(n: nat, c: nat)
    requires c > 0
    ensures StorageSends(n, c) == (n + c - 1) / c
  {
    if n > 0 {
      StorageSendsClosedForm(n - 1, c);
      var q := (n - 1) / c;
      var r := (n - 1) % c;
      DivMod(n - 1, c, q, r);
      if r == 0 {
        DivMod(n + c - 1, c, q + 1, 0);
        DivMod(n - 1 + c - 1, c, q, c - 1);
      } else {
        DivMod(n + c - 1, c, q + 1, r);
        DivMod(n - 1 + c - 1, c, q + 1, r - 1);
      }
    }
  }

  /** Adding `c` to the dividend adds one to the quotient. */
  lemma DivShift(a: int, c: int)
    requires c > 0
    ensures (a + c) / c == a / c + 1
  {
    var q, r := a / c, a % c;
    assert (q + 1) * c == q * c + c;
    DivMod(a + c, c, q + 1, r);
  }

  /** Every run of `c` consecutive cycles holds exactly one storage send. */
  lemma StorageSendsPeriodic(n: nat, c: nat)
    requires c > 0
    ensures StorageSends(n + c, c) == StorageSends(n, c) + 1
  {
    StorageSendsClosedForm(n, c);
    StorageSendsClosedForm(n + c, c);
    DivShift(n + c - 1, c);
    assert n + c + c - 1 == (n + c - 1) + c;
  }

  /** With one cycle per storage period, every cycle stores. */
  lemma StorageSendsEveryCycle(n: nat)
    ensures StorageSends(n, 1) == n
  {
    StorageSendsClosedForm(n, 1);
  }

  /** The fields of a `config_update` event: `vmId`, and the intervals it carries, if any. */
  datatype ConfigPayload = ConfigPayload(vmId: Option<string>, broadcastInterval: Option<real>, storageInterval: Option<real>)

  /** The agent's interval settings and cycle counters. */
  class Agent {
    const vmId: Option<string>
    var broadcastInterval: real
    var storageInterval: real
    var broadcastCounter: nat
    var storageCounter: nat

    /** The agent at start-up: the configured intervals and both counters at zero. */
    constructor(vmId: Option<string>, broadcastInterval: real, storageInterval: real)
      ensures this.vmId == vmId
      ensures this.broadcastInterval == broadcastInterval && this.storageInterval == storageInterval
      ensures broadcastCounter == 0 && storageCounter == 0
    {
      this.vmId := vmId;
      this.broadcastInterval := broadcastInterval;
      this.storageInterval := storageInterval;
      broadcastCounter := 0;
      storageCounter := 0;
    }

    /** The storage counter agrees with the number of sends the broadcast counter implies. */
    predicate Synced(storageCycles: nat)
      reads this
    {
      storageCounter == StorageSends(broadcastCounter, storageCycles)
    }

    /**
     * One pass of the broadcast loop. `emitted` says whether collecting and
     * broadcasting the metrics succeeded; when it did not, or when
     * `storageCycles` is 0 and the modulo raises, the exception is logged and
     * neither counter moves. A storage send counts whether or not the server
     * connection is up.
     */
    method BroadcastCycle(storageCycles: nat, emitted: bool) returns (stored: bool)
      modifies this
      ensures stored <==> emitted && storageCycles > 0 && old(broadcastCounter) % storageCycles == 0
      ensures broadcastCounter == old(broadcastCounter) + (if emitted && storageCycles > 0 then 1 else 0)
      ensures storageCounter == old(storageCounter) + (if stored then 1 else 0)
      // the send, if any, is the one the broadcast counter's step implies
      ensures StorageSends(broadcastCounter, storageCycles) == StorageSends(old(broadcastCounter), storageCycles) + (if stored then 1 else 0)
      ensures broadcastInterval == old(broadcastInterval) && storageInterval == old(storageInterval)
      ensures old(Synced(storageCycles)) ==> Synced(storageCycles)
    {
      stored := false;
      if !emitted || storageCycles == 0 {
        return;
      }
      if broadcastCounter % storageCycles == 0 {
        stored := true;
        storageCounter := storageCounter + 1;
      }
      broadcastCounter := broadcastCounter + 1;
    }

    /**
     * `metric_broadcast_loop` over a finite run of cycles, `outcomes[k]`
     * telling whether cycle `k` emitted its metrics. `storageCycles` is
     * fixed for the whole run, as the loop computes it once at its start.
     */
    method Run(storageCycles: nat, outcomes: seq<bool>) returns (stores: nat)
      modifies this
      requires storageCycles > 0
      ensures broadcastCounter == old(broadcastCounter) + Emitted(outcomes)
      ensures storageCounter == old(storageCounter) + stores
      ensures StorageSends(broadcastCounter, storageCycles) == StorageSends(old(broadcastCounter), storageCycles) + stores
      ensures old(Synced(storageCycles)) ==> Synced(storageCycles)
      ensures broadcastInterval == old(broadcastInterval) && storageInterval == old(storageInterval)
    {
      stores := 0;
      var k := 0;
      while k < |outcomes|
        invariant 0 <= k <= |outcomes|
        invariant broadcastCounter == old(broadcastCounter) + Emitted(outcomes[..k])
        invariant storageCounter == old(storageCounter) + stores
        invariant StorageSends(broadcastCounter, storageCycles) == StorageSends(old(broadcastCounter), storageCycles) + stores
        invariant old(Synced(storageCycles)) ==> Synced(storageCycles)
        invariant broadcastInterval == old(broadcastInterval) && storageInterval == old(storageInterval)
      {
        assert outcomes[..k + 1][..k] == outcomes[..k];
        var stored := BroadcastCycle(storageCycles, outcomes[k]);
        if stored {
          stores := stores + 1;
        }
        k := k + 1;
      }
      assert outcomes[..k] == outcomes;
    }

    /**
     * `config_update`: an event whose `vmId` equals this agent's (both
     * absent counts as equal) replaces each interval the event carries and
     * resets both counters; any other event changes nothing.
     */
    method ConfigUpdate(payload: ConfigPayload)
      modifies this
      ensures payload.vmId == vmId ==>
        && broadcastInterval == (if payload.broadcastInterval.Some? then payload.broadcastInterval.value else old(broadcastInterval))
        && storageInterval == (if payload.storageInterval.Some? then payload.storageInterval.value else old(storageInterval))
        && broadcastCounter == 0 && storageCounter == 0
      ensures payload.vmId != vmId ==>
        && broadcastInterval == old(broadcastInterval) && storageInterval == old(storageInterval)
        && broadcastCounter == old(broadcastCounter) && storageCounter == old(storageCounter)
      ensures payload.vmId == vmId ==> forall c: nat :: Synced(c)
    {
      if payload.vmId == vmId {
        if payload.broadcastInterval.Some? {
          broadcastInterval := payload.broadcastInterval.value;
        }
        if payload.storageInterval.Some? {
          storageInterval := payload.storageInterval.value;
        }
        broadcastCounter := 0;
        storageCounter := 0;
      }
    }
  }

  /** The number of cycles that emitted their metrics. */
  function Emitted(outcomes: seq<bool>): nat
  {
    if |outcomes| == 0 then 0
    else Emitted(outcomes[..|outcomes| - 1]) + (if outcomes[|outcomes| - 1] then 1 else 0)
  }

  /**
   * From a reset, a run of cycles that all emit leaves the broadcast counter
   * at the number of cycles and the storage counter at one send per
   * started storage period.
   */
  method RunFromReset(vmId: Option<string>, broadcastInterval: real, storageInterval: real, storageCycles: nat, cycles: nat)
    returns (broadcasts: nat, stores: nat)
    requires storageCycles > 0
    ensures broadcasts == cycles
    ensures stores == (cycles + storageCycles - 1) / storageCycles
  {
    var agent := new Agent(vmId, broadcastInterval, storageInterval);
    var outcomes := seq(cycles, _ => true);
    AllEmitted(outcomes);
    var _ := agent.Run(storageCycles, outcomes);
    StorageSendsClosedForm(cycles, storageCycles);
    broadcasts := agent.broadcastCounter;
    stores := agent.storageCounter;
  }

  /** A run in which every cycle emits counts every cycle. */
  lemma {:induction false} AllEmitted(outcomes: seq<bool>)
    requires forall k :: 0 <= k < |outcomes| ==> outcomes[k]
    ensures Emitted(outcomes) == |outcomes|
  {
    if |outcomes| > 0 {
      AllEmitted(outcomes[..|outcomes| - 1]);
    }
  }
}
