/** Migration receipts: how a stored receipt may move, given proofs from the running image and stops. */
module Migration {
  import opened Options

  datatype Status = Running | Completed | Failed | Unknown
  datatype Receipt = Receipt(
    status: Status, operationId: string, digest: string, sourceCommit: string, buildNonce: string,
    completedAt: Option<string>, reconciledFromUnknown: bool)

  datatype ProofState = Prepared | InProgress | Finished | Broken

  /** What the migrator image says about itself. `role` and the well-formedness of source and nonce were
      checked when it was read. */
  datatype Proof = Proof(sourceCommit: string, buildNonce: string, state: ProofState, operationId: Option<string>, completedAt: Option<string>)

  datatype Stop = Stop(exitCode: int, reason: string)

  /** The proof is about this receipt's own execution. */
  predicate SameExecution(receipt: Receipt, proof: Proof) {
    && proof.sourceCommit == receipt.sourceCommit && proof.operationId == Some(receipt.operationId)
    && proof.buildNonce == receipt.buildNonce
  }

  /** `completedAt` is present and a date; whether a text is one is told by `isDate`. */
  predicate Dated(proof: Proof, isDate: string -> bool) { proof.completedAt.Some? && isDate(proof.completedAt.value) }

  function MigrationCompletion(receipt: Receipt, proof: Proof, isDate: string -> bool): Receipt {
    if receipt.status != Running then receipt
    else if !SameExecution(receipt, proof) then receipt.(status := Unknown)
    else if proof.state == Broken then receipt.(status := Failed)
    else if proof.state != Finished then receipt
    else if !Dated(proof, isDate) then receipt.(status := Unknown)
    else receipt.(status := Completed, sourceCommit := proof.sourceCommit, buildNonce := proof.buildNonce, completedAt := proof.completedAt)
  }

  function MigrationStopped(receipt: Receipt, stop: Stop): Receipt {
    if receipt.status != Running then receipt
    else receipt.(status := if stop.reason == "exit" && stop.exitCode != 0 then Failed else Unknown)
  }

  function ReconcileMigrationCompletion(receipt: Receipt, proof: Proof, isDate: string -> bool): Receipt {
    if receipt.status != Unknown then receipt
    else
      var observed := MigrationCompletion(receipt.(status := Running), proof, isDate);
      if observed.status == Completed then observed.(reconciledFromUnknown := true) else receipt
  }

  /** A receipt is completed, by either door, exactly on a dated proof that its own execution finished. */
  predicate Proves(proof: Proof, receipt: Receipt, isDate: string -> bool) {
    proof.state == Finished && SameExecution(receipt, proof) && Dated(proof, isDate)
  }

  lemma CompletedExactlyOnProof(receipt: Receipt, proof: Proof, isDate: string -> bool)
    ensures MigrationCompletion(receipt, proof, isDate).status == Completed
            <==> receipt.status == Completed || (receipt.status == Running && Proves(proof, receipt, isDate))
    ensures ReconcileMigrationCompletion(receipt, proof, isDate).status == Completed
            <==> receipt.status == Completed || (receipt.status == Unknown && Proves(proof, receipt, isDate))
  {
  }

  /** The execution a receipt stands for never changes. */
  predicate SameReceipt(a: Receipt, b: Receipt) {
    a.operationId == b.operationId && a.digest == b.digest && a.sourceCommit == b.sourceCommit && a.buildNonce == b.buildNonce
  }

  // ------------------------------------------------------------------ the two actors

  datatype Grant = Grant(operationId: string)

  /** Where the migrator's one blocking handler stands: waiting for the image's identity, waiting for
      the start to be acknowledged, or waiting for a proof. */
  datatype Handler = Idle | Identifying(op: string) | Starting(receipt: Receipt) | Reading(reconcile: bool)

  datatype ActivationStatus = Activating | Active | Uncertain | StopRequested
  datatype Activation = Activation(status: ActivationStatus, grant: Grant)

  /** Where the release actor's one blocking handler stands. */
  datatype Release = Resting | Asking(grant: Grant) | Answered(grant: Grant, seen: Option<Receipt>) | Launching(grant: Grant, receipt: Receipt)

  /** Both actors' storage and open handlers, how often a start was sent, every proof read so far, and
      whether the release was ever deactivated. */
  datatype World = World(
    receipt: Option<Receipt>, handler: Handler, starts: nat, proofs: set<Proof>,
    activation: Option<Activation>, release: Release, deactivated: bool)

  /** The deployment: fixed for one image digest. */
  datatype Env = Env(digest: string, buildSha: string)

  datatype Event =
    | RunBegins(op: string, wellFormed: bool)
    | Identified(proof: Option<Proof>)
    | StartAnswered(ok: bool)
    | ResultBegins(reconcile: bool)
    | ProofRead(proof: Option<Proof>)
    | Stopped(stop: Stop)
    | MigratorCrashes
    | ActivateBegins(grant: Grant)
    | MigrationAnswered
    | Decides
    | Launched(web: Option<Proof>, worker: Option<Proof>)
    | Deactivates(grant: Grant)
    | ReleaseCrashes

  predicate Enabled(w: World, e: Event) {
    match e
    case RunBegins(_, _) => w.handler.Idle?
    case Identified(_) => w.handler.Identifying?
    case StartAnswered(_) => w.handler.Starting?
    case ResultBegins(_) => w.handler.Idle?
    case ProofRead(_) => w.handler.Reading?
    case Stopped(_) => true
    case MigratorCrashes => true
    case ActivateBegins(_) => w.release.Resting?
    case MigrationAnswered => w.release.Asking?
    case Decides => w.release.Answered?
    case Launched(_, _) => w.release.Launching?
    case Deactivates(_) => w.release.Resting?
    case ReleaseCrashes => true
  }

  function Seen(w: World, proof: Option<Proof>): World { if proof.Some? then w.(proofs := w.proofs + {proof.value}) else w }

  /** The images really run this source: reading an identity checks it. */
  predicate FromBuild(env: Env, proof: Option<Proof>) { proof.Some? && proof.value.sourceCommit == env.buildSha }

  function NewReceipt(env: Env, op: string, proof: Proof): Receipt {
    Receipt(Running, op, env.digest, proof.sourceCommit, proof.buildNonce, None, false)
  }

  function Next(env: Env, isDate: string -> bool, w: World, e: Event): World
    requires Enabled(w, e)
  {
    match e
    case RunBegins(op, wellFormed) => if w.receipt.Some? || !wellFormed then w else w.(handler := Identifying(op))
    case Identified(proof) =>
      if !FromBuild(env, proof) || proof.value.state != Prepared then w.(handler := Idle)
      else
        var receipt := NewReceipt(env, w.handler.op, proof.value);
        w.(receipt := Some(receipt), handler := Starting(receipt), starts := w.starts + 1)
    case StartAnswered(ok) =>
      if ok then w.(handler := Idle) else w.(receipt := Some(w.handler.receipt.(status := Unknown)), handler := Idle)
    case ResultBegins(reconcile) =>
      if w.receipt.Some? && (w.receipt.value.status == Running || (reconcile && w.receipt.value.status == Unknown))
      then w.(handler := Reading(reconcile)) else w
    case ProofRead(proof) =>
      var v := Seen(w, proof).(handler := Idle);
      if !FromBuild(env, proof) || w.receipt.None? then v
      else if w.receipt.value.status == Unknown && w.handler.reconcile
      then v.(receipt := Some(ReconcileMigrationCompletion(w.receipt.value, proof.value, isDate)))
      else v.(receipt := Some(MigrationCompletion(w.receipt.value, proof.value, isDate)))
    case Stopped(stop) => if w.receipt.Some? then w.(receipt := Some(MigrationStopped(w.receipt.value, stop))) else w
    case MigratorCrashes => w.(handler := Idle)
    case ActivateBegins(grant) => w.(release := Asking(grant))
    case MigrationAnswered => w.(release := Answered(w.release.grant, w.receipt))
    case Decides =>
      var grant, seen := w.release.grant, w.release.seen;
      if seen.None? || seen.value.status != Completed || seen.value.digest != env.digest || seen.value.sourceCommit != env.buildSha
         || w.activation.Some?
      then w.(release := Resting)
      else w.(activation := Some(Activation(Activating, grant)), release := Launching(grant, seen.value))
    case Launched(web, worker) =>
      var ok := && FromBuild(env, web) && FromBuild(env, worker)
                && web.value.state == InProgress && worker.value.state == InProgress
                && web.value.buildNonce == w.release.receipt.buildNonce && worker.value.buildNonce == w.release.receipt.buildNonce;
      w.(activation := Some(Activation(if ok then Active else Uncertain, w.release.grant)), release := Resting)
    case Deactivates(grant) => w.(activation := Some(Activation(StopRequested, grant)), deactivated := true)
    case ReleaseCrashes => w.(release := Resting)
  }

  // ------------------------------------------------------------------ the invariant

  predicate ProvenBy(receipt: Receipt, proofs: set<Proof>, isDate: string -> bool) {
    exists p :: p in proofs && Proves(p, receipt, isDate)
  }

  /** A receipt exists exactly when a start was sent, and only one ever was; a completed one is proven
      and is not waiting for its start to be answered. */
  predicate MigratorOk(env: Env, w: World, isDate: string -> bool) {
    && w.starts == (if w.receipt.Some? then 1 else 0)
    && (w.handler.Identifying? ==> w.receipt.None?)
    && (w.handler.Starting? ==> w.receipt.Some? && SameReceipt(w.handler.receipt, w.receipt.value) && w.receipt.value.status != Completed)
    && (w.receipt.Some? ==> w.receipt.value.digest == env.digest && w.receipt.value.sourceCommit == env.buildSha)
    && (w.receipt.Some? && w.receipt.value.status == Completed ==> ProvenBy(w.receipt.value, w.proofs, isDate))
  }

  predicate CompletedNow(w: World, seen: Receipt) { w.receipt == Some(seen) && seen.status == Completed }

  /** What the release actor saw completed still is; a live release was launched after it. */
  predicate ReleaseOk(env: Env, w: World) {
    && (w.release.Answered? && w.release.seen.Some? && w.release.seen.value.status == Completed ==> CompletedNow(w, w.release.seen.value))
    && (w.release.Launching? ==>
          CompletedNow(w, w.release.receipt) && w.activation == Some(Activation(Activating, w.release.grant)) && !w.deactivated)
    && (w.activation.Some? && w.activation.value.status == Active ==> w.receipt.Some? && w.receipt.value.status == Completed && !w.deactivated)
    && (w.deactivated ==> w.activation.Some?)
  }

  predicate Inv(env: Env, w: World, isDate: string -> bool) { MigratorOk(env, w, isDate) && ReleaseOk(env, w) }

  predicate Init(w: World) { w == World(None, Idle, 0, {}, None, Resting, false) }

  lemma StillProven(r: Receipt, proofs: set<Proof>, more: set<Proof>, isDate: string -> bool)
    requires ProvenBy(r, proofs, isDate) && proofs <= more
    ensures ProvenBy(r, more, isDate)
  {
    var p :| p in proofs && Proves(p, r, isDate);
    assert p in more;
  }

  lemma ProofReadKeepsInv(env: Env, isDate: string -> bool, w: World, proof: Option<Proof>)
    requires Inv(env, w, isDate) && Enabled(w, ProofRead(proof))
    ensures Inv(env, Next(env, isDate, w, ProofRead(proof)), isDate)
  {
    var v := Next(env, isDate, w, ProofRead(proof));
    if w.receipt.Some? && w.receipt.value.status == Completed {
      StillProven(w.receipt.value, w.proofs, v.proofs, isDate);
    } else if v.receipt.Some? && v.receipt.value.status == Completed {
      CompletedExactlyOnProof(w.receipt.value, proof.value, isDate);
      assert Proves(proof.value, v.receipt.value, isDate);
    }
  }

  lemma NextKeepsInv(env: Env, isDate: string -> bool, w: World, e: Event)
    requires Inv(env, w, isDate) && Enabled(w, e)
    ensures Inv(env, Next(env, isDate, w, e), isDate)
  {
    if e.ProofRead? { ProofReadKeepsInv(env, isDate, w, e.proof); }
  }

  // ------------------------------------------------------------------ runs

  ghost predicate Step(env: Env, isDate: string -> bool, w: World, e: Event, v: World) { Enabled(w, e) && v == Next(env, isDate, w, e) }

  /** `ws` are the worlds a run of the events passes through. */
  ghost predicate Run(env: Env, isDate: string -> bool, es: seq<Event>, ws: seq<World>) {
    && |ws| == |es| + 1 && Init(ws[0])
    && forall n {:trigger es[n]} :: 0 <= n < |es| ==> Step(env, isDate, ws[n], es[n], ws[n + 1])
  }

  lemma StepKeepsInv(env: Env, isDate: string -> bool, es: seq<Event>, ws: seq<World>, n: nat)
    requires Run(env, isDate, es, ws) && n < |es| && Inv(env, ws[n], isDate)
    ensures Inv(env, ws[n + 1], isDate)
  {
    var e := es[n];
    NextKeepsInv(env, isDate, ws[n], e);
  }

  lemma {:induction false} InvAt(env: Env, isDate: string -> bool, es: seq<Event>, ws: seq<World>, n: nat)
    requires Run(env, isDate, es, ws) && n <= |es|
    ensures Inv(env, ws[n], isDate)
  {
    if n > 0 {
      InvAt(env, isDate, es, ws, n - 1);
      StepKeepsInv(env, isDate, es, ws, n - 1);
    }
  }

  /** However handlers, stops and crashes interleave, at most one start is ever sent for the digest, and
      a completed receipt has a proof of its own execution behind it. */
  lemma StartedAtMostOnce(env: Env, isDate: string -> bool, es: seq<Event>, ws: seq<World>, n: nat)
    requires Run(env, isDate, es, ws) && n <= |es|
    ensures ws[n].starts <= 1
    ensures ws[n].receipt.Some? && ws[n].receipt.value.status == Completed ==>
              ws[n].starts == 1 && exists p :: p in ws[n].proofs && Proves(p, ws[n].receipt.value, isDate)
  {
    InvAt(env, isDate, es, ws, n);
  }

  /** Which way a receipt may go: never back to running, never out of completed, and from unknown only to
      completed; failed only turns unknown when the start itself was never answered. */
  predicate Moves(a: Status, b: Status) {
    a == b || a == Running || (a == Unknown && b == Completed) || (a == Failed && b == Unknown)
  }

  predicate Keeps(before: Option<Receipt>, after: Option<Receipt>) {
    before.Some? ==>
      && after.Some? && SameReceipt(before.value, after.value) && Moves(before.value.status, after.value.status)
      && (before.value.status == Completed ==> after == before)
  }

  predicate HasFailed(w: World) { w.receipt.Some? && w.receipt.value.status == Failed }

  lemma StepKeepsReceipt(env: Env, isDate: string -> bool, es: seq<Event>, ws: seq<World>, n: nat)
    requires Run(env, isDate, es, ws) && n < |es|
    ensures Keeps(ws[n].receipt, ws[n + 1].receipt)
    ensures HasFailed(ws[n]) ==> (HasFailed(ws[n + 1]) <==> es[n] != StartAnswered(false))
    ensures HasFailed(ws[n]) && es[n] == StartAnswered(false) ==> ws[n + 1].receipt.value.status == Unknown
    ensures HasFailed(ws[n]) && es[n] != StartAnswered(false) ==> ws[n + 1].receipt == ws[n].receipt
  {
    InvAt(env, isDate, es, ws, n);
    var e := es[n];
    assert Step(env, isDate, ws[n], e, ws[n + 1]);
  }

  lemma NotFailedStep(env: Env, isDate: string -> bool, es: seq<Event>, ws: seq<World>, n: nat)
    requires Run(env, isDate, es, ws) && n < |es| && ws[n].receipt.Some? && (ws[n].receipt.value.status == Unknown || ws[n].receipt.value.status == Completed)
    ensures ws[n + 1].receipt.Some? && (ws[n + 1].receipt.value.status == Unknown || ws[n + 1].receipt.value.status == Completed)
  {
    StepKeepsReceipt(env, isDate, es, ws, n);
  }

  lemma {:induction false} NeverFailsAfter(env: Env, isDate: string -> bool, es: seq<Event>, ws: seq<World>, i: nat, j: nat)
    requires Run(env, isDate, es, ws) && i <= j <= |es| && ws[i].receipt.Some?
    requires ws[i].receipt.value.status == Unknown || ws[i].receipt.value.status == Completed
    ensures ws[j].receipt.Some? && (ws[j].receipt.value.status == Unknown || ws[j].receipt.value.status == Completed)
  {
    if i < j {
      NeverFailsAfter(env, isDate, es, ws, i, j - 1);
      NotFailedStep(env, isDate, es, ws, j - 1);
    }
  }

  predicate StartLostIn(es: seq<Event>) { exists n :: 0 <= n < |es| && es[n] == StartAnswered(false) }

  /** A failed receipt is still failed later exactly when its start request was not reported lost in
      between; once it is, the failure is forgotten for good. */
  lemma {:induction false} FailedStaysExactly(env: Env, isDate: string -> bool, es: seq<Event>, ws: seq<World>, i: nat, j: nat)
    requires Run(env, isDate, es, ws) && i <= j <= |es| && HasFailed(ws[i])
    ensures HasFailed(ws[j]) <==> !StartLostIn(es[i..j])
    decreases j - i
  {
    if i < j {
      assert es[i..j] == [es[i]] + es[i + 1..j];
      StepKeepsReceipt(env, isDate, es, ws, i);
      if es[i] == StartAnswered(false) {
        assert es[i..j][0] == StartAnswered(false);
        NeverFailsAfter(env, isDate, es, ws, i + 1, j);
      } else {
        FailedStaysExactly(env, isDate, es, ws, i + 1, j);
        LostLater(es[i], es[i + 1..j]);
      }
    }
  }

  lemma LostLater(e: Event, es: seq<Event>)
    requires e != StartAnswered(false)
    ensures StartLostIn([e] + es) <==> StartLostIn(es)
  {
    if StartLostIn(es) {
      var n :| 0 <= n < |es| && es[n] == StartAnswered(false);
      assert ([e] + es)[n + 1] == StartAnswered(false);
    }
  }

  /** It happens: the migrator exits with an error before the acknowledgement of its start gets lost. */
  lemma ForgottenFailure(env: Env, isDate: string -> bool, op: string, nonce: string) returns (es: seq<Event>, ws: seq<World>)
    ensures Run(env, isDate, es, ws) && |es| == 4
    ensures HasFailed(ws[3]) && ws[4].receipt == Some(ws[3].receipt.value.(status := Unknown))
  {
    var proof := Proof(env.buildSha, nonce, Prepared, None, None);
    es := [RunBegins(op, true), Identified(Some(proof)), Stopped(Stop(1, "exit")), StartAnswered(false)];
    var w0 := World(None, Idle, 0, {}, None, Resting, false);
    var w1 := Next(env, isDate, w0, es[0]);
    var w2 := Next(env, isDate, w1, es[1]);
    var w3 := Next(env, isDate, w2, es[2]);
    var w4 := Next(env, isDate, w3, es[3]);
    ws := [w0, w1, w2, w3, w4];
    assert Step(env, isDate, ws[0], es[0], ws[1]) && Step(env, isDate, ws[1], es[1], ws[2]);
    assert Step(env, isDate, ws[2], es[2], ws[3]) && Step(env, isDate, ws[3], es[3], ws[4]);
  }

  /** `completed` is absorbing, whatever stops, restarts or reconciliations follow. */
  lemma {:induction false} CompletedForever(env: Env, isDate: string -> bool, es: seq<Event>, ws: seq<World>, i: nat, j: nat)
    requires Run(env, isDate, es, ws) && i <= j <= |es|
    requires ws[i].receipt.Some? && ws[i].receipt.value.status == Completed
    ensures ws[j].receipt == ws[i].receipt
  {
    if i < j {
      CompletedForever(env, isDate, es, ws, i, j - 1);
      StepKeepsReceipt(env, isDate, es, ws, j - 1);
    }
  }

  predicate IsActive(w: World) { w.activation.Some? && w.activation.value.status == Active }

  /** A live release stands on a completed migration of the same digest and build, and no deactivation
      came before it. */
  lemma ActiveOnlyAfterCompletion(env: Env, isDate: string -> bool, es: seq<Event>, ws: seq<World>, n: nat)
    requires Run(env, isDate, es, ws) && n <= |es| && IsActive(ws[n])
    ensures ws[n].receipt.Some? && ws[n].receipt.value.status == Completed && ws[n].receipt.value.digest == env.digest
    ensures ws[n].receipt.value.sourceCommit == env.buildSha && !ws[n].deactivated
  {
    InvAt(env, isDate, es, ws, n);
  }

  lemma DeactivatedStep(env: Env, isDate: string -> bool, es: seq<Event>, ws: seq<World>, n: nat)
    requires Run(env, isDate, es, ws) && n < |es| && ws[n].deactivated
    ensures ws[n + 1].deactivated
  {
    var e := es[n];
    assert Step(env, isDate, ws[n], e, ws[n + 1]);
  }

  lemma {:induction false} DeactivatedForever(env: Env, isDate: string -> bool, es: seq<Event>, ws: seq<World>, i: nat, j: nat)
    requires Run(env, isDate, es, ws) && i <= j <= |es| && ws[i].deactivated
    ensures ws[j].deactivated
  {
    if i < j {
      DeactivatedForever(env, isDate, es, ws, i, j - 1);
      DeactivatedStep(env, isDate, es, ws, j - 1);
    }
  }

  /** Once deactivated, never active again. */
  lemma NeverActiveAfterDeactivate(env: Env, isDate: string -> bool, es: seq<Event>, ws: seq<World>, i: nat, j: nat)
    requires Run(env, isDate, es, ws) && i < j <= |es| && es[i].Deactivates?
    ensures !IsActive(ws[j])
  {
    assert Step(env, isDate, ws[i], es[i], ws[i + 1]);
    DeactivatedForever(env, isDate, es, ws, i + 1, j);
    InvAt(env, isDate, es, ws, j);
  }

  lemma ActivationStep(env: Env, isDate: string -> bool, es: seq<Event>, ws: seq<World>, n: nat)
    requires Run(env, isDate, es, ws) && n < |es| && ws[n].activation.Some?
    ensures ws[n + 1].activation.Some?
    ensures IsActive(ws[n + 1]) && !IsActive(ws[n]) ==> ws[n].release.Launching?
    ensures ws[n + 1].release.Launching? ==> ws[n].release.Launching?
  {
    var e := es[n];
    assert Step(env, isDate, ws[n], e, ws[n + 1]);
  }

  /** One attempt is all there is: once a launch ended without success, or was cut off, the release
      never becomes active. */
  lemma {:induction false} OneAttempt(env: Env, isDate: string -> bool, es: seq<Event>, ws: seq<World>, i: nat, j: nat)
    requires Run(env, isDate, es, ws) && i <= j <= |es|
    requires ws[i].activation.Some? && !ws[i].release.Launching? && !IsActive(ws[i])
    ensures ws[j].activation.Some? && !ws[j].release.Launching? && !IsActive(ws[j])
  {
    if i < j {
      OneAttempt(env, isDate, es, ws, i, j - 1);
      ActivationStep(env, isDate, es, ws, j - 1);
    }
  }
}
