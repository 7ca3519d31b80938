/** The idempotent operation runner: one call of `runOperation` as one transaction over the receipts
    table, with the command's own writes under a savepoint. */
module Operations {
  import opened Options

  datatype ActorKind = Staff | Visitor | System | AiService
  datatype Key = Key(kind: ActorKind, actor: string, opType: string, idempotency: string)

  /** One call; `authorized` says that a Butler authorization came with it. */
  datatype Input = Input(key: Key, hash: string, authorized: bool)

  type OpId = nat

  /** What an exception may carry: an application error with its `current` value, or anything else.
      Printing a value that cannot be printed throws a fault of its own. */
  datatype Fault = App(code: string, retryable: bool, unknown: bool, current: Current) | Other(what: string)
  datatype Current = NoCurrent | Printable(json: string) | Unprintable(thrown: Fault)

  /** What the command did: returned a value, which `JSON.stringify` may refuse, or threw. */
  datatype Attempt = Returns(printed: Printed) | Throws(fault: Fault)
  datatype Printed = Prints(json: string) | PrintFails(fault: Fault)

  /** What the Butler authority check answered. */
  datatype Check = Denied(action: string, needsApproval: bool, reason: string) | CheckFails(fault: Fault)

  datatype Verdict = Verdict(action: string, decision: string, reason: string, effect: string)
  datatype Stored =
    | Result(json: string, verdict: Option<Verdict>)
    | Failure(code: string, current: Option<string>, verdict: Option<Verdict>)

  datatype Status = InProgress | Succeeded | Failed | OutcomeUnknown
  datatype Receipt = Receipt(id: OpId, key: Key, hash: string, status: Status, outcome: Option<Stored>, version: nat)

  /** The receipts table (its unique index makes it a map) and, per key, how often the command's
      own writes were kept. */
  datatype Rows = Rows(receipts: map<Key, Receipt>, applied: multiset<Key>)

  datatype Answer =
    | Success(id: OpId, replayed: bool, json: string, verdict: Option<Verdict>)
    | Error(code: string, current: Option<string>, verdict: Option<Verdict>)
    | Thrown(fault: Fault)

  const PENDING := Error("operation_pending", None, None)
  const REUSED := Error("idempotency_key_reused", None, None)
  const UNAVAILABLE := App("unavailable", true, false, NoCurrent)

  predicate StartsWith(s: string, prefix: string) { prefix <= s }

  predicate IsButler(input: Input) {
    || input.key.kind == AiService
    || (input.key.kind == System && input.key.actor == "butler")
    || StartsWith(input.key.opType, "butler.")
    || input.authorized
  }

  // ------------------------------------------------------------------ answering from a receipt

  datatype Decision = Execute | Replay | Reconcile | Reject

  function DecideReplay(existing: Option<Receipt>, hash: string): Decision {
    if existing.None? then Execute
    else if existing.value.hash != hash then Reject
    else if existing.value.status == OutcomeUnknown then Reconcile
    else Replay
  }

  function FailureAnswer(stored: Option<Stored>): Answer {
    if stored.Some? && stored.value.Failure? then Error(stored.value.code, stored.value.current, stored.value.verdict)
    else Error("internal_error", None, None)
  }

  /** What a call with the receipt's own hash is told. */
  function Retold(r: Receipt, butler: bool): Answer {
    match r.status
    case Succeeded =>
      if r.outcome.Some? && r.outcome.value.Result? then Success(r.id, true, r.outcome.value.json, r.outcome.value.verdict)
      else Success(r.id, true, "null", None)
    case Failed => FailureAnswer(r.outcome)
    case OutcomeUnknown =>
      Error("outcome_unknown", None, if butler && r.outcome.Some? && r.outcome.value.Failure? then r.outcome.value.verdict else None)
    case InProgress => PENDING
  }

  // ------------------------------------------------------------------ the fate of a first call

  /** How the one transaction of a first call ends. `kept`: with the command's writes in it. */
  datatype Fate =
    | Settles(status: Status, stored: Stored, kept: bool)
    | RollsBack(fault: Fault)

  /** The result went through printing only after the savepoint had been released. */
  predicate Misprinted(attempt: Attempt) { attempt.Returns? && attempt.printed.PrintFails? }

  /** An exception that the transaction survives. */
  predicate Absorbed(fault: Fault) {
    fault.App? && (fault.unknown || (!fault.retryable && !fault.current.Unprintable?))
  }

  /** What leaves the catch block: the fault it was given, or the one that printing its value throws. */
  function Escaping(fault: Fault): Fault {
    if fault.App? && !fault.unknown && !fault.retryable && fault.current.Unprintable? then fault.current.thrown else fault
  }

  function FaultFate(fault: Fault, kept: bool): Fate {
    if !Absorbed(fault) then RollsBack(Escaping(fault))
    else if fault.unknown then Settles(OutcomeUnknown, Failure(fault.code, None, None), kept)
    else Settles(Failed, Failure(fault.code, if fault.current.Printable? then Some(fault.current.json) else None, None), kept)
  }

  function ButlerFate(opType: string, check: Check): Fate {
    var fallback := if StartsWith(opType, "butler.") then opType[|"butler."|..] else "unclassified";
    match check
    case Denied(action, needsApproval, reason) =>
      var code := if needsApproval then "butler_approval_required" else "forbidden";
      Settles(Failed, Failure(code, None, Some(Verdict(action, if needsApproval then "awaiting_approval" else "blocked", reason, "not_applied"))), false)
    case CheckFails(fault) =>
      var code := if fault.App? && !fault.unknown then fault.code else UNAVAILABLE.code;
      Settles(Failed, Failure(code, None, Some(Verdict(fallback, "blocked", code, "not_applied"))), false)
  }

  function FateOf(input: Input, attempt: Attempt, check: Check): Fate {
    if IsButler(input) then ButlerFate(input.key.opType, check) else AttemptFate(attempt)
  }

  function AttemptFate(attempt: Attempt): Fate {
    match attempt
    case Returns(Prints(json)) => Settles(Succeeded, Result(json, None), true)
    case Returns(PrintFails(fault)) => FaultFate(fault, true)
    case Throws(fault) => FaultFate(fault, false)
  }

  function NewReceipt(input: Input, id: OpId, fate: Fate): Receipt
    requires fate.Settles?
  {
    Receipt(id, input.key, input.hash, fate.status, Some(fate.stored), 1)
  }

  function Committed(rows: Rows, input: Input, id: OpId, fate: Fate): Rows {
    match fate
    case RollsBack(_) => rows
    case Settles(_, _, kept) =>
      Rows(rows.receipts[input.key := NewReceipt(input, id, fate)], if kept then rows.applied + multiset{input.key} else rows.applied)
  }

  function FirstAnswer(id: OpId, fate: Fate): Answer {
    match fate
    case RollsBack(fault) => Thrown(fault)
    case Settles(Succeeded, stored, _) => if stored.Result? then Success(id, false, stored.json, None) else PENDING
    case Settles(Failed, stored, _) => FailureAnswer(Some(stored))
    case Settles(OutcomeUnknown, _, _) => Error("outcome_unknown", None, None)
    case Settles(InProgress, _, _) => PENDING
  }

  /** A failed or unknown receipt is committed together with the command's writes exactly when the
      command had returned and printing its result threw an application error that is absorbed. */
  lemma WritesSurviveFailure(input: Input, attempt: Attempt, check: Check)
    ensures var f := FateOf(input, attempt, check);
            f.Settles? && f.status != Succeeded && f.kept
            <==> !IsButler(input) && Misprinted(attempt) && Absorbed(attempt.printed.fault)
  {
  }

  /** One such command: it returns a value whose `toJSON` throws `validation_failed`. */
  lemma WritesSurviveFailureExample(id: OpId) returns (input: Input, attempt: Attempt)
    ensures forall check :: var rows := Committed(Rows(map[], multiset{}), input, id, FateOf(input, attempt, check));
              && input.key in rows.receipts && rows.receipts[input.key].status == Failed && rows.applied[input.key] == 1
  {
    input := Input(Key(Staff, "s1", "listing.edit", "k1"), "h1", false);
    attempt := Returns(PrintFails(App("validation_failed", false, false, NoCurrent)));
    assert input.key.opType[0] != "butler."[0];
    assert !IsButler(input);
  }

  /** A Butler call settles `failed` whatever the authority check answers, and keeps no write. */
  lemma ButlerAlwaysFails(input: Input, attempt: Attempt, check: Check)
    requires IsButler(input)
    ensures var f := FateOf(input, attempt, check);
            f.Settles? && f.status == Failed && !f.kept && f.stored.verdict.Some? && f.stored.verdict.value.effect == "not_applied"
  {
  }

  /** What the first call is told is what every retry with the same hash is told. */
  lemma RetryHearsTheSame(input: Input, id: OpId, attempt: Attempt, check: Check)
    ensures var f := FateOf(input, attempt, check);
            f.Settles? ==>
              var again := Retold(NewReceipt(input, id, f), IsButler(input));
              var first := FirstAnswer(id, f);
              if first.Success? then again == first.(replayed := true) else again == first
  {
  }

  // ------------------------------------------------------------------ reconciliation

  /** What reconciliation established about a parked operation. */
  datatype Settlement = Applied(json: string) | NotApplied(code: string)

  function Reconciled(r: Receipt, settlement: Settlement): Receipt {
    var previous := if r.outcome.Some? && r.outcome.value.Failure? then r.outcome.value.verdict else None;
    match settlement
    case Applied(json) =>
      var verdict := if previous.None? then None
                     else Some(Verdict(previous.value.action, "done_automatically", "reconciled_applied", "applied"));
      r.(status := Succeeded, outcome := Some(Result(json, verdict)), version := r.version + 1)
    case NotApplied(code) =>
      var verdict := if previous.None? then None else Some(Verdict(previous.value.action, "blocked", code, "not_applied"));
      r.(status := Failed, outcome := Some(Failure(code, None, verdict)), version := r.version + 1)
  }

  predicate Parked(rows: Rows, key: Key, id: OpId) {
    key in rows.receipts && rows.receipts[key].id == id && rows.receipts[key].status == OutcomeUnknown
  }

  /** Settling a parked operation keeps its identity, and afterwards it is parked no more. */
  lemma ReconciledSettles(r: Receipt, settlement: Settlement)
    ensures var s := Reconciled(r, settlement);
            && s.id == r.id && s.key == r.key && s.hash == r.hash && s.version == r.version + 1
            && s.status != OutcomeUnknown && s.status != InProgress && (s.status == Succeeded <==> settlement.Applied?)
            && (r.status == OutcomeUnknown && r.outcome.Some? && r.outcome.value.Failure? && r.outcome.value.verdict.Some? ==>
                  s.outcome.value.verdict.Some? && s.outcome.value.verdict.value.action == r.outcome.value.verdict.value.action)
  {
  }

  // ------------------------------------------------------------------ the runner as it runs

  function SettledRows(rows: Rows, key: Key, status: Status, stored: Stored): Rows
    requires key in rows.receipts
  {
    var r := rows.receipts[key];
    rows.(receipts := rows.receipts[key := r.(status := status, outcome := Some(stored), version := r.version + 1)])
  }

  class Database {
    var committed: Rows
    /** The open transaction's view. */
    var work: Rows
    /** How often a command was entered for each key. */
    var entered: multiset<Key>

    constructor (rows: Rows)
      ensures committed == rows && entered == multiset{}
    {
      committed, work, entered := rows, rows, multiset{};
    }

    /** `runOperation`. `lockFree`: nobody else holds the advisory lock of this key. */
    method Run(input: Input, id: OpId, lockFree: bool, attempt: Attempt, check: Check) returns (answer: Answer)
      modifies this
      ensures !lockFree ==> answer == PENDING && committed == old(committed)
      ensures lockFree && input.key in old(committed).receipts ==>
                && committed == old(committed)
                && var r := old(committed).receipts[input.key];
                   answer == if r.hash != input.hash then REUSED else Retold(r, IsButler(input))
      ensures lockFree && input.key !in old(committed).receipts ==>
                && committed == Committed(old(committed), input, id, FateOf(input, attempt, check))
                && answer == FirstAnswer(id, FateOf(input, attempt, check))
      ensures entered == if lockFree && input.key !in old(committed).receipts && !IsButler(input)
                         then old(entered) + multiset{input.key} else old(entered)
    {
      work := committed;
      if !lockFree { return PENDING; }
      var existing := if input.key in work.receipts then Some(work.receipts[input.key]) else None;
      var decision := DecideReplay(existing, input.hash);
      if decision == Reject { return REUSED; }
      if existing.Some? { return Retold(existing.value, IsButler(input)); }
      answer := FirstCall(input, id, attempt, check);
    }

    /** `reconcileOperation`: false when the operation is not, or no longer, awaiting reconciliation. */
    method Reconcile(id: OpId, settlement: Settlement) returns (won: bool)
      modifies this
      ensures won <==> exists key :: Parked(old(committed), key, id)
      ensures !won ==> committed == old(committed)
      ensures won ==> exists key :: && Parked(old(committed), key, id)
                                    && committed == old(committed).(receipts :=
                                         old(committed).receipts[key := Reconciled(old(committed).receipts[key], settlement)])
      ensures entered == old(entered)
    {
      work := committed;
      if !exists key :: key in work.receipts && Parked(work, key, id) { return false; }
      var key :| key in work.receipts && Parked(work, key, id);
      work := work.(receipts := work.receipts[key := Reconciled(work.receipts[key], settlement)]);
      committed := work;
      won := true;
    }

    /** No receipt yet: insert one in progress, run, and commit or roll back. */
    method FirstCall(input: Input, id: OpId, attempt: Attempt, check: Check) returns (answer: Answer)
      requires work == committed && input.key !in work.receipts
      modifies this
      ensures committed == Committed(old(committed), input, id, FateOf(input, attempt, check))
      ensures answer == FirstAnswer(id, FateOf(input, attempt, check))
      ensures entered == if IsButler(input) then old(entered) else old(entered) + multiset{input.key}
    {
      work := work.(receipts := work.receipts[input.key := Receipt(id, input.key, input.hash, InProgress, None, 0)]);
      var rollback := false;
      if IsButler(input) {
        answer := DenyButler(input, check);
      } else {
        answer, rollback := Execute(input, id, attempt);
      }
      if !rollback {
        ghost var settled := NewReceipt(input, id, FateOf(input, attempt, check));
        assert work.receipts == old(committed).receipts[input.key := settled];
        committed := work;
      }
    }

    /** The savepoint around the command, then settling or the catch block. */
    method Execute(input: Input, id: OpId, attempt: Attempt) returns (answer: Answer, rollback: bool)
      requires !IsButler(input) && input.key in work.receipts
      requires work.receipts[input.key] == Receipt(id, input.key, input.hash, InProgress, None, 0)
      modifies `work, `entered
      ensures entered == old(entered) + multiset{input.key}
      ensures rollback == AttemptFate(attempt).RollsBack? && answer == FirstAnswer(id, AttemptFate(attempt))
      ensures !rollback ==> work == Committed(old(work), input, id, AttemptFate(attempt))
    {
      var mark := work;
      entered := entered + multiset{input.key};
      work := work.(applied := work.applied + multiset{input.key});
      rollback := false;
      match attempt {
        case Returns(Prints(json)) =>
          Settle(input.key, Succeeded, Result(json, None));
          answer := Success(id, false, json, None);
        case Returns(PrintFails(fault)) =>
          answer, rollback := Absorb(input.key, fault);
        case Throws(fault) =>
          work := mark;
          answer, rollback := Absorb(input.key, fault);
      }
    }

    /** The catch block of a command that is not the Butler's. */
    method Absorb(key: Key, error: Fault) returns (answer: Answer, rollback: bool)
      requires key in work.receipts
      modifies `work
      ensures rollback <==> !Absorbed(error)
      ensures rollback ==> answer == Thrown(Escaping(error))
      ensures !rollback ==> && answer == FirstAnswer(0, FaultFate(error, false))
                            && work == SettledRows(old(work), key, FaultFate(error, false).status, FaultFate(error, false).stored)
    {
      rollback := false;
      if !error.App? { return Thrown(error), true; }
      if error.unknown {
        Settle(key, OutcomeUnknown, Failure(error.code, None, None));
        return Error("outcome_unknown", None, None), false;
      }
      if error.retryable { return Thrown(error), true; }
      if error.current.Unprintable? { return Thrown(error.current.thrown), true; }
      var current := if error.current.Printable? then Some(error.current.json) else None;
      Settle(key, Failed, Failure(error.code, current, None));
      answer := Error(error.code, current, None);
    }

    /** A Butler attempt: the check runs in place of the command, and whatever it does is a denial. */
    method DenyButler(input: Input, check: Check) returns (answer: Answer)
      requires IsButler(input) && input.key in work.receipts
      modifies `work
      ensures var f := ButlerFate(input.key.opType, check);
              && answer == FailureAnswer(Some(f.stored))
              && work == SettledRows(old(work), input.key, Failed, f.stored)
    {
      var action := if StartsWith(input.key.opType, "butler.") then input.key.opType[|"butler."|..] else "unclassified";
      var denial, denialReason: Option<string> := None, None;
      var known: Fault;
      match check {
        case Denied(checked, needsApproval, reason) =>
          action := checked;
          denial := Some(if needsApproval then "awaiting_approval" else "blocked");
          denialReason := Some(reason);
          known := App(if needsApproval then "butler_approval_required" else "forbidden", false, false, NoCurrent);
        case CheckFails(fault) =>
          known := if fault.App? then fault else UNAVAILABLE;
          if known.unknown { known := UNAVAILABLE; }
      }
      var decision := if denial.Some? then denial.value else "blocked";
      var verdict := Verdict(action, decision, if denialReason.Some? then denialReason.value else known.code, "not_applied");
      var stored := Failure(known.code, None, Some(verdict));
      Settle(input.key, Failed, stored);
      answer := FailureAnswer(Some(stored));
    }

    method Settle(key: Key, status: Status, stored: Stored)
      requires key in work.receipts
      modifies `work
      ensures work == SettledRows(old(work), key, status, stored)
    {
      var r := work.receipts[key];
      work := work.(receipts := work.receipts[key := r.(status := status, outcome := Some(stored), version := r.version + 1)]);
    }
  }
}
