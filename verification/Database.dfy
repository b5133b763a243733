/**
 The store as the code runs it: statements executed one after another on mutable tables, with a rollback
 where the transaction is abandoned. Each method is proved to be the transaction `Store` specifies.
 */
module Database {
  import opened Domain
  import Store

  class Database {
    var epoch: nat
    var jobs: Jobs
    var topups: Topups
    var attempts: Attempts
    var slots: map<Slot, Owner>
    var pairs: Pairs
    var gas: map<GasKey, GasRow>
    var rollup: map<RollupKey, nat>
    var deliveries: seq<Delivery>
    var clock: int

    function State(): Db
      reads this
    {
      Db(epoch, jobs, topups, attempts, slots, pairs, gas, rollup, deliveries, clock)
    }

    constructor ()
      ensures State() == Db(0, map[], map[], map[], map[], map[], map[], map[], [], 0)
    {
      epoch, jobs, topups, attempts, slots := 0, map[], map[], map[], map[];
      pairs, gas, rollup, deliveries, clock := map[], map[], map[], [], 0;
    }

    /** The bump on acquiring the lease; the result is the fencing token of the new leader. */
    method AcquireLease() returns (token: nat)
      modifies this
      ensures State() == Store.BumpEpoch(old(State())) && token == epoch
    {
      epoch := epoch + 1;
      token := epoch;
    }

    method AddGas(key: GasKey, n: int, used: int, fee: int)
      modifies this`gas
      ensures gas == Store.AddGas(old(gas), key, n, used, fee)
    {
      if key in gas {
        var row := gas[key];
        gas := gas[key := GasRow(row.count + n, Max(row.gas + used, 0), Max(row.fee + fee, 0))];
      } else {
        gas := gas[key := GasRow(Max(n, 0), Max(used, 0), Max(fee, 0))];
      }
    }

    /** An UPDATE of one job row with the event and the counter that go with it. */
    method UpdateJob(j: nat, row: JobRow, reincluded: bool)
      requires j in jobs
      modifies this`jobs, this`deliveries, this`rollup
      ensures State() == Store.PutJob(old(State()), j, row, reincluded)
    {
      var announced := row.webhookSeq > jobs[j].webhookSeq;
      jobs := jobs[j := row];
      if announced {
        var event := Store.EventOf(row.status);
        var version := Store.MaxVersion(deliveries, j, event) + 1;
        var again := reincluded || (event.Included? && version > 1);
        deliveries := deliveries + [Delivery(j, event, version, row.webhookSeq, again, Pending, clock, 0)];
        if row.status.Terminal() {
          var key := Store.RollupKeyOf(row);
          rollup := rollup[key := if key in rollup then rollup[key] + 1 else 1];
        }
      }
    }

    method UpdateOwner(tx: Tx, c: Store.Change, reincluded: bool)
      modifies this`jobs, this`topups, this`deliveries, this`rollup
      ensures State() == Store.PutOwner(old(State()), tx, c, reincluded)
    {
      match tx.owner {
        case Job(j) =>
          if j in jobs { UpdateJob(j, Store.NextJob(jobs[j], tx, c), reincluded); }
        case Topup(t) =>
          if t in topups { topups := topups[t := Store.NextTopup(topups[t], c)]; }
      }
    }

    method BindAttempt(mine: nat, tx: Tx, kind: Store.BindKind) returns (r: Store.BindResult)
      modifies this
      ensures (State(), r) == Store.Bind(old(State()), mine, tx, kind)
    {
      if epoch != mine { return Store.Fenced; }
      var slots0, attempts0 := slots, attempts;
      if kind.First? {
        if tx.slot in slots { return Store.SlotTaken; }
        slots := slots[tx.slot := tx.owner];
      } else if tx.slot !in slots || slots[tx.slot] != tx.owner {
        return Store.SlotTaken;
      }
      if tx in attempts {
        slots := slots0;
        return Store.DuplicateHash;
      }
      attempts := attempts[tx := AttemptRow(AttemptStatus.Broadcast, true, 0, 0)];
      var moves := Store.OwnerMoves(State(), tx, kind);
      if !moves {
        slots, attempts := slots0, attempts0;
        return Store.StateConflict;
      }
      UpdateOwner(tx, Store.ToBound(kind), false);
      if tx.slot.pair in pairs {
        var mark := pairs[tx.slot.pair];
        pairs := pairs[tx.slot.pair := Some(if mark.Some? && mark.value > tx.slot.nonce then mark.value else tx.slot.nonce)];
      }
      r := Store.Bound;
    }

    method SettleInclusion(tx: Tx, inc: Inclusion, confirmNow: bool, reincluded: bool) returns (r: Store.Settled)
      modifies this
      ensures (State(), r) == Store.Settle(old(State()), tx, inc, confirmNow, reincluded)
    {
      if tx !in attempts || !attempts[tx].status.Broadcast? { return Store.Noop; }
      if Store.SlotMinedByOther(attempts, tx) { return Store.MinedTwice; }
      var attempts0, gas0 := attempts, gas;
      attempts := Store.IncludedAttempts(attempts, tx, inc);
      AddGas(GasKey(tx.slot.pair, tx.purpose), 1, inc.gasUsed, inc.feePaid);
      if !Store.InclusionFits(jobs, tx) {
        attempts, gas := attempts0, gas0;
        return Store.OwnerConflict;
      }
      UpdateOwner(tx, Store.ToIncluded(inc), reincluded);
      if confirmNow {
        var _ := SettleConfirmation(tx);
      }
      r := Store.Applied;
    }

    method SettleConfirmation(tx: Tx) returns (r: Store.Settled)
      modifies this
      ensures (State(), r) == Store.Confirm(old(State()), tx)
    {
      if tx !in attempts || !attempts[tx].status.Included? { return Store.Noop; }
      attempts := Store.ConfirmedAttempts(attempts, tx);
      UpdateOwner(tx, Store.ToConfirmed, false);
      r := Store.Applied;
    }

    method DemoteInclusion(tx: Tx) returns (r: Store.Settled)
      modifies this
      ensures (State(), r) == Store.Demote(old(State()), tx)
    {
      if tx !in attempts || !attempts[tx].status.Included? { return Store.Noop; }
      var row := attempts[tx];
      attempts := attempts[tx := row.(status := AttemptStatus.Broadcast)];
      AddGas(GasKey(tx.slot.pair, tx.purpose), -1, 0 - row.gasUsed, 0 - row.feePaid);
      UpdateOwner(tx, Store.ToDemoted, false);
      r := Store.Applied;
    }

    method VoidBinding(mine: nat, tx: Tx, mode: Store.VoidMode, d: Store.Disposition) returns (committed: bool)
      modifies this
      ensures (State(), committed) == Store.Void(old(State()), mine, tx, mode, d)
    {
      if epoch != mine { return false; }
      attempts := Store.DroppedAttempts(attempts, tx.slot);
      if mode.NonceUnused? {
        if tx.slot in slots && slots[tx.slot] == tx.owner { slots := slots - {tx.slot}; }
        if tx.slot.pair in pairs && pairs[tx.slot.pair] == Some(tx.slot.nonce) {
          pairs := pairs[tx.slot.pair := if tx.slot.nonce == 0 then None else Some(tx.slot.nonce - 1)];
        }
      }
      UpdateOwner(tx, Store.ToVoided(d), false);
      committed := true;
    }

    /** `fail_job` from `queued`; false leaves the job untouched. */
    method FailQueued(j: nat) returns (failed: bool)
      modifies this
      ensures State() == Store.FailQueued(old(State()), j) && (failed <==> j in old(jobs) && old(jobs)[j].status.Queued?)
    {
      failed := j in jobs && jobs[j].status.Queued?;
      if failed { UpdateJob(j, Store.FailedRow(jobs[j]), false); }
    }

    method RequeueFront(j: nat) returns (count: Option<nat>)
      modifies this
      ensures State() == Store.RequeueFront(old(State()), j)
      ensures count.Some? <==> j in old(jobs) && old(jobs)[j].status.Queued?
      ensures count.Some? ==> j in jobs && count.value == jobs[j].requeues == old(jobs)[j].requeues + 1
    {
      if j in jobs && jobs[j].status.Queued? {
        UpdateJob(j, jobs[j].(requeues := jobs[j].requeues + 1), false);
        count := Some(jobs[j].requeues);
      } else {
        count := None;
      }
    }
  }
}
