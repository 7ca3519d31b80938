/** The migrator and the release control as they run: each handler blocks the actor's other requests,
    but while it waits for the network the container may stop under it. */
module MigrationActors {
  import opened Options
  import opened Migration

  class ProductionMigrator {
    const env: Env
    const isDate: string -> bool

    var receipt: Option<Receipt>
    /** How often a start request was sent, and every identity proof read. */
    ghost var starts: nat
    ghost var proofs: set<Proof>

    ghost function Now(): World
      reads this
    {
      World(receipt, Idle, starts, proofs, None, Resting, false)
    }

    ghost predicate Valid()
      reads this
    {
      MigratorOk(env, Now(), isDate)
    }

    /** The stored receipt moved only as receipts may. */
    twostate predicate Evolved()
      reads this
    {
      Keeps(old(receipt), receipt) && old(proofs) <= proofs && old(starts) <= starts
    }

    constructor (env: Env, isDate: string -> bool)
      ensures Valid() && receipt.None? && starts == 0 && this.env == env && this.isDate == isDate
    {
      this.env, this.isDate := env, isDate;
      receipt, starts, proofs := None, 0, {};
    }

    method OnStop(stop: Stop)
      requires Valid()
      modifies `receipt
      ensures Valid() && receipt == (if old(receipt).Some? then Some(MigrationStopped(old(receipt).value, stop)) else None)
    {
      if receipt.Some? { receipt := Some(MigrationStopped(receipt.value, stop)); }
    }

    /** The network takes its time; the container may stop meanwhile, any number of times. */
    method Wait()
      requires Valid()
      modifies `receipt
      ensures Valid() && Evolved()
      ensures receipt == old(receipt) || (receipt.Some? && old(receipt).Some? && old(receipt).value.status == Running
                                          && (receipt.value.status == Failed || receipt.value.status == Unknown))
    {
      var stops: nat := *;
      while stops > 0
        invariant Valid() && Evolved()
        invariant receipt == old(receipt) || (receipt.Some? && old(receipt).Some? && old(receipt).value.status == Running
                                              && (receipt.value.status == Failed || receipt.value.status == Unknown))
      {
        var stop: Stop := *;
        OnStop(stop);
        stops := stops - 1;
      }
    }

    /** The image's identity, if it answers and runs the expected source. */
    method ReadIdentity() returns (proof: Option<Proof>)
      requires Valid()
      modifies `receipt, `proofs
      ensures Valid() && Evolved()
      ensures receipt == old(receipt) || (receipt.Some? && old(receipt).Some? && old(receipt).value.status == Running
                                          && (receipt.value.status == Failed || receipt.value.status == Unknown))
      ensures proof.Some? ==> FromBuild(env, proof) && proof.value in proofs
    {
      Wait();
      proof := *;
      if !FromBuild(env, proof) { return None; }
      if receipt.Some? && receipt.value.status == Completed { StillProven(receipt.value, proofs, proofs + {proof.value}, isDate); }
      proofs := proofs + {proof.value};
    }

    /** Starts the migration, once for this digest whatever happens; asked again, it only reports. */
    method RunMigration(op: string, wellFormed: bool) returns (answer: Option<Receipt>)
      requires Valid()
      modifies this
      ensures Valid() && Evolved() && starts <= 1
      ensures old(receipt).Some? ==> receipt == old(receipt) && starts == old(starts)
                                     && answer == (if old(receipt).value.operationId == op then old(receipt) else None)
      ensures old(receipt).None? && receipt.None? ==> starts == old(starts) && answer.None?
      ensures old(receipt).None? && receipt.Some? ==>
                && starts == old(starts) + 1 && wellFormed && receipt.value.operationId == op && receipt.value.status != Completed
                && (answer.None? ==> receipt.value.status == Unknown)
                && (answer.Some? ==> answer.value.status == Running && SameReceipt(answer.value, receipt.value))
    {
      if receipt.Some? { return if receipt.value.operationId == op then receipt else None; }
      if !wellFormed { return None; }
      var proof := ReadIdentity();
      if proof.None? || proof.value.state != Prepared { return None; }
      var running := NewReceipt(env, op, proof.value);
      receipt := Some(running);
      starts := starts + 1; // the start request leaves only after the receipt is stored
      Wait();
      var acknowledged: bool := *;
      if !acknowledged {
        receipt := Some(running.(status := Unknown));
        return None;
      }
      answer := Some(running);
    }

    /** Looks for completion. The receipt is read again after the network wait, so a stop that came in
        between is not overwritten. */
    method Result(reconcileUnknown: bool) returns (answer: Option<Receipt>)
      requires Valid()
      modifies `receipt, `proofs
      ensures Valid() && Evolved() && answer == receipt
      ensures receipt.Some? && receipt.value.status == Completed && receipt != old(receipt) ==>
                && exists p :: p in proofs && Proves(p, receipt.value, isDate)
      ensures old(receipt).Some? && (old(receipt).value.status == Failed || (old(receipt).value.status == Unknown && !reconcileUnknown)) ==>
                receipt == old(receipt)
    {
      var previous := receipt;
      if previous.None? || (previous.value.status != Running && !(reconcileUnknown && previous.value.status == Unknown)) { return previous; }
      var proof := ReadIdentity();
      if proof.None? { return receipt; }
      var current := receipt;
      if current.None? { return None; }
      var next := if current.value.status == Unknown && reconcileUnknown
                  then ReconcileMigrationCompletion(current.value, proof.value, isDate)
                  else MigrationCompletion(current.value, proof.value, isDate);
      CompletedExactlyOnProof(current.value, proof.value, isDate);
      if next.status == Completed && current.value.status != Completed { assert Proves(proof.value, next, isDate); }
      receipt := Some(next);
      answer := receipt;
    }
  }

  class ProductionReleaseControl {
    const env: Env
    const migrator: ProductionMigrator

    var activation: Option<Activation>
    ghost var deactivated: bool

    /** A live release stands on a completed migration and was never deactivated. */
    ghost predicate Valid()
      reads this, migrator
    {
      && migrator.Valid() && migrator.env == env
      && ReleaseOk(env, migrator.Now().(activation := activation, deactivated := deactivated))
    }

    constructor (migrator: ProductionMigrator)
      requires migrator.Valid()
      ensures Valid() && activation.None? && this.migrator == migrator && !deactivated
    {
      env, this.migrator := migrator.env, migrator;
      activation, deactivated := None, false;
    }

    /** Activates once: from no record at all, on a migration completed for this digest and build, and
        only if both roles then run with the migration's build nonce. */
    method Activate(grant: Grant) returns (ok: bool)
      requires Valid()
      modifies this, migrator
      ensures Valid() && deactivated == old(deactivated)
      ensures ok ==> activation.Some? && activation.value.status == Active && activation.value.grant == grant
      ensures old(activation).Some? ==>
                && activation == old(activation) && (ok ==> old(activation).value == Activation(Active, grant))
      ensures old(activation).None? && activation.Some? ==>
                && migrator.receipt.Some? && migrator.receipt.value.status == Completed
                && activation == Some(Activation(if ok then Active else Uncertain, grant))
      ensures old(migrator.receipt).Some? && old(migrator.receipt).value.status == Completed ==> migrator.receipt == old(migrator.receipt)
    {
      var receipt := migrator.Result(false);
      if receipt.None? || receipt.value.status != Completed || receipt.value.digest != env.digest || receipt.value.sourceCommit != env.buildSha {
        return false;
      }
      if activation.Some? && activation.value.grant.operationId != grant.operationId { return false; }
      if activation.Some? && activation.value.status == Active { return true; }
      if activation.Some? { return false; }
      activation := Some(Activation(Activating, grant));
      migrator.Wait();
      var web: Option<Proof> := *;
      var worker: Option<Proof> := *;
      ok := && FromBuild(env, web) && FromBuild(env, worker)
            && web.value.state == InProgress && worker.value.state == InProgress
            && web.value.buildNonce == receipt.value.buildNonce && worker.value.buildNonce == receipt.value.buildNonce;
      activation := Some(Activation(if ok then Active else Uncertain, grant));
    }

    method Deactivate(grant: Grant)
      requires Valid()
      modifies this
      ensures Valid() && activation == Some(Activation(StopRequested, grant)) && deactivated
    {
      activation := Some(Activation(StopRequested, grant));
      deactivated := true;
    }
  }
}
