/** Many callers of the operation runner at once, over the committed receipts: what any interleaving
    of their steps, rollbacks and crashes keeps true. */
module OperationRuns {
  import opened Options
  import opened Operations

  type CallerId = nat

  /** A first call: what came in, the receipt id drawn, what the command or the check did. */
  datatype First = First(input: Input, id: OpId, attempt: Attempt, check: Check) {
    function Fate(): Fate { FateOf(input, attempt, check) }
  }

  /** Where a caller's open transaction stands. */
  datatype Phase =
    | Locked(input: Input)
    | Looked(input: Input, existing: Option<Receipt>)
    | Working(input: Input, first: First)
    | Reconciling(key: Key, settlement: Settlement)

  /** Committed rows, the advisory locks (by lock number), every open transaction, how often a command
      was entered, how each receipt came to be, and how often reconciling an operation won. */
  datatype World = World(
    rows: Rows, locks: map<nat, CallerId>, open: map<CallerId, Phase>,
    entered: multiset<Key>, origin: map<Key, First>, wins: multiset<Key>)

  datatype Event =
    | TryLock(c: CallerId, input: Input)
    | Look(c: CallerId)
    | Reply(c: CallerId)
    | Work(c: CallerId, id: OpId, attempt: Attempt, check: Check)
    | Commit(c: CallerId)
    | Crash(c: CallerId)
    | RowLock(c: CallerId, key: Key, settlement: Settlement)
    | Conclude(c: CallerId)

  /** `h` numbers the keys; two keys may share a lock. */
  type LockNumber = Key -> nat

  predicate HoldsLock(p: Phase) { !p.Reconciling? }

  function KeyOf(p: Phase): Key { if p.Reconciling? then p.key else p.input.key }

  function Close(w: World, h: LockNumber, c: CallerId): World
    requires c in w.open
  {
    w.(open := w.open - {c}, locks := if HoldsLock(w.open[c]) then w.locks - {h(KeyOf(w.open[c]))} else w.locks)
  }

  /** Nobody else has this operation's row locked. */
  predicate RowFree(w: World, key: Key) {
    forall c :: c in w.open && w.open[c].Reconciling? ==> w.open[c].key != key
  }

  predicate Enabled(w: World, h: LockNumber, e: Event) {
    match e
    case TryLock(c, input) => c !in w.open
    case Look(c) => c in w.open && w.open[c].Locked?
    case Reply(c) => c in w.open && w.open[c].Looked? && w.open[c].existing.Some?
    case Work(c, id, _, _) => c in w.open && w.open[c].Looked? && w.open[c].existing.None?
    case Commit(c) => c in w.open && w.open[c].Working?
    case Crash(c) => c in w.open
    case RowLock(c, key, _) =>
      && c !in w.open && key in w.rows.receipts && w.rows.receipts[key].status == OutcomeUnknown && RowFree(w, key)
    case Conclude(c) => c in w.open && w.open[c].Reconciling?
  }

  function Next(w: World, h: LockNumber, e: Event): World
    requires Enabled(w, h, e)
  {
    match e
    case TryLock(c, input) =>
      if h(input.key) in w.locks then w
      else w.(locks := w.locks[h(input.key) := c], open := w.open[c := Locked(input)])
    case Look(c) =>
      var input := w.open[c].input;
      var existing := if input.key in w.rows.receipts then Some(w.rows.receipts[input.key]) else None;
      w.(open := w.open[c := Looked(input, existing)])
    case Reply(c) => Close(w, h, c)
    case Work(c, id, attempt, check) =>
      var input := w.open[c].input;
      var ran := w.(entered := if IsButler(input) then w.entered else w.entered + multiset{input.key});
      var first := First(input, id, attempt, check);
      if first.Fate().RollsBack? then Close(ran, h, c) else ran.(open := ran.open[c := Working(input, first)])
    case Commit(c) =>
      var p := w.open[c];
      var closed := Close(w, h, c);
      if p.input.key in w.rows.receipts then closed // the unique index refuses the insert
      else closed.(rows := Committed(w.rows, p.input, p.first.id, p.first.Fate()), origin := w.origin[p.input.key := p.first])
    case Crash(c) => Close(w, h, c)
    case RowLock(c, key, settlement) => w.(open := w.open[c := Reconciling(key, settlement)])
    case Conclude(c) =>
      var p := w.open[c];
      var closed := Close(w, h, c);
      if p.key in w.rows.receipts
      then closed.(rows := w.rows.(receipts := w.rows.receipts[p.key := Reconciled(w.rows.receipts[p.key], p.settlement)]),
                   wins := w.wins + multiset{p.key})
      else closed
  }

  /** What the caller of a replying step is told. */
  function Told(w: World, c: CallerId): Answer
    requires c in w.open && w.open[c].Looked? && w.open[c].existing.Some?
  {
    var p := w.open[c];
    if DecideReplay(p.existing, p.input.hash) == Reject then REUSED else Retold(p.existing.value, IsButler(p.input))
  }

  // ------------------------------------------------------------------ the invariant

  /** Whoever holds an advisory lock is on record, and a key found without receipt stays without. */
  ghost predicate LocksOk(w: World, h: LockNumber) {
    && (forall c :: c in w.open && HoldsLock(w.open[c]) ==>
          h(KeyOf(w.open[c])) in w.locks && w.locks[h(KeyOf(w.open[c]))] == c)
    && (forall c :: c in w.open && FoundNothing(w.open[c]) ==> KeyOf(w.open[c]) !in w.rows.receipts)
  }

  predicate FoundNothing(p: Phase) { p.Working? || (p.Looked? && p.existing.None?) }

  predicate Final(s: Status) { s == Succeeded || s == Failed }

  /** The row a caller looked at is still the row, unless it was parked and has been reconciled. */
  predicate StillThere(rows: Rows, r: Receipt) {
    && r.key in rows.receipts
    && (rows.receipts[r.key] == r || (r.status == OutcomeUnknown && rows.receipts[r.key].id == r.id && rows.receipts[r.key].hash == r.hash))
  }

  predicate PhaseOk(rows: Rows, wins: multiset<Key>, p: Phase) {
    match p
    case Locked(_) => true
    case Looked(input, existing) => existing.Some? ==> existing.value.key == input.key && StillThere(rows, existing.value)
    case Working(input, first) => first.input == input && first.Fate().Settles?
    case Reconciling(key, _) => key in rows.receipts && rows.receipts[key].status == OutcomeUnknown && wins[key] == 0
  }

  ghost predicate PhasesOk(w: World) {
    && (forall c :: c in w.open ==> PhaseOk(w.rows, w.wins, w.open[c]))
    && (forall c, d :: c in w.open && d in w.open && c != d && w.open[c].Reconciling? && w.open[d].Reconciling? ==>
          w.open[c].key != w.open[d].key)
  }

  /** A receipt is what its first call committed, or that, once, reconciled. */
  predicate ReceiptOk(w: World, key: Key) {
    && key in w.rows.receipts && key in w.origin
    && var r, first := w.rows.receipts[key], w.origin[key];
       && first.input.key == key && first.Fate().Settles?
       && w.rows.applied[key] == (if first.Fate().kept then 1 else 0)
       && r.key == key && r.hash == first.input.hash && r.id == first.id
       && (if w.wins[key] == 0 then r == NewReceipt(first.input, first.id, first.Fate())
           else w.wins[key] == 1 && first.Fate().status == OutcomeUnknown && Final(r.status))
  }

  ghost predicate ReceiptsOk(w: World) {
    && (forall key :: key in w.rows.receipts ==> ReceiptOk(w, key))
    && (forall key :: key !in w.rows.receipts ==> w.rows.applied[key] == 0 && w.wins[key] == 0)
  }

  ghost predicate Inv(w: World, h: LockNumber) { LocksOk(w, h) && PhasesOk(w) && ReceiptsOk(w) }

  predicate Init(w: World) {
    w == World(Rows(map[], multiset{}), map[], map[], multiset{}, map[], multiset{})
  }

  /** Two callers between taking the lock and letting it go never share a key. */
  lemma OneAtATime(w: World, h: LockNumber, c: CallerId, d: CallerId)
    requires LocksOk(w, h) && c in w.open && d in w.open && HoldsLock(w.open[c]) && HoldsLock(w.open[d])
    requires KeyOf(w.open[c]) == KeyOf(w.open[d])
    ensures c == d
  {
  }

  lemma SameRowsKeepReceipts(w: World, v: World)
    requires ReceiptsOk(w) && v.rows == w.rows && v.origin == w.origin && v.wins == w.wins
    ensures ReceiptsOk(v)
  {
    forall key | key in v.rows.receipts ensures ReceiptOk(v, key) { assert ReceiptOk(w, key); }
  }

  lemma CloseKeepsLocks(w: World, h: LockNumber, c: CallerId)
    requires LocksOk(w, h) && c in w.open
    ensures LocksOk(Close(w, h, c), h)
  {
    var v := Close(w, h, c);
    forall d | d in v.open && HoldsLock(v.open[d]) ensures h(KeyOf(v.open[d])) in v.locks && v.locks[h(KeyOf(v.open[d]))] == d {
      assert w.locks[h(KeyOf(w.open[d]))] == d;
    }
  }

  lemma CloseKeepsInv(w: World, h: LockNumber, c: CallerId)
    requires Inv(w, h) && c in w.open
    ensures Inv(Close(w, h, c), h)
  {
    CloseKeepsLocks(w, h, c);
    SameRowsKeepReceipts(w, Close(w, h, c));
  }

  /** A caller moves on to its next phase and nothing is committed. */
  lemma StepKeepsInv(w: World, v: World, h: LockNumber, c: CallerId, p: Phase)
    requires Inv(w, h) && c in w.open && HoldsLock(w.open[c]) && HoldsLock(p) && KeyOf(p) == KeyOf(w.open[c])
    requires v == w.(open := w.open[c := p], entered := v.entered)
    requires PhaseOk(w.rows, w.wins, p) && (FoundNothing(p) ==> KeyOf(p) !in w.rows.receipts)
    ensures Inv(v, h)
  {
    SameRowsKeepReceipts(w, v);
  }

  lemma LockKeepsInv(w: World, v: World, h: LockNumber, c: CallerId, input: Input)
    requires Inv(w, h) && c !in w.open && h(input.key) !in w.locks
    requires v == w.(locks := w.locks[h(input.key) := c], open := w.open[c := Locked(input)])
    ensures Inv(v, h)
  {
    LockKeepsLocks(w, v, h, c, input);
    LockKeepsPhases(w, v, c, input);
    SameRowsKeepReceipts(w, v);
  }

  lemma LockKeepsLocks(w: World, v: World, h: LockNumber, c: CallerId, input: Input)
    requires LocksOk(w, h) && h(input.key) !in w.locks && v.rows == w.rows
    requires v.locks == w.locks[h(input.key) := c] && v.open == w.open[c := Locked(input)]
    ensures LocksOk(v, h)
  {
  }

  lemma LockKeepsPhases(w: World, v: World, c: CallerId, input: Input)
    requires PhasesOk(w) && v.rows == w.rows && v.wins == w.wins && v.open == w.open[c := Locked(input)]
    ensures PhasesOk(v)
  {
  }

  lemma RowLockKeepsInv(w: World, h: LockNumber, c: CallerId, key: Key, settlement: Settlement)
    requires Inv(w, h) && Enabled(w, h, RowLock(c, key, settlement))
    ensures Inv(Next(w, h, RowLock(c, key, settlement)), h)
  {
    var v := Next(w, h, RowLock(c, key, settlement));
    assert ReceiptOk(w, key);
    RowLockKeepsLocks(w, v, h, c, Reconciling(key, settlement));
    RowLockKeepsPhases(w, v, c, Reconciling(key, settlement));
    SameRowsKeepReceipts(w, v);
  }

  lemma RowLockKeepsLocks(w: World, v: World, h: LockNumber, c: CallerId, p: Phase)
    requires LocksOk(w, h) && v.rows == w.rows && v.locks == w.locks && v.open == w.open[c := p] && p.Reconciling?
    ensures LocksOk(v, h)
  {
  }

  lemma RowLockKeepsPhases(w: World, v: World, c: CallerId, p: Phase)
    requires PhasesOk(w) && v.rows == w.rows && v.wins == w.wins && v.open == w.open[c := p]
    requires p.Reconciling? && c !in w.open && RowFree(w, p.key) && PhaseOk(w.rows, w.wins, p)
    ensures PhasesOk(v)
  {
  }

  lemma CommitKeepsInv(w: World, h: LockNumber, c: CallerId)
    requires Inv(w, h) && Enabled(w, h, Commit(c))
    ensures Inv(Next(w, h, Commit(c)), h)
  {
    var p := w.open[c];
    var mid, v := Close(w, h, c), Next(w, h, Commit(c));
    assert PhaseOk(w.rows, w.wins, p) && FoundNothing(p);
    CloseKeepsInv(w, h, c);
    forall d | d in mid.open && HoldsLock(mid.open[d]) ensures KeyOf(mid.open[d]) != p.input.key {
      if KeyOf(w.open[d]) == p.input.key { OneAtATime(w, h, c, d); }
    }
    CommitKeepsReceipts(mid, v, p.first);
    InsertKeepsLocks(mid, v, h, p.input.key);
    InsertKeepsPhases(mid, v, p.input.key);
  }

  lemma InsertKeepsLocks(w: World, v: World, h: LockNumber, key: Key)
    requires LocksOk(w, h) && v.open == w.open && v.locks == w.locks
    requires forall d :: d in w.open && HoldsLock(w.open[d]) ==> KeyOf(w.open[d]) != key
    requires forall k :: k in v.rows.receipts ==> k == key || k in w.rows.receipts
    ensures LocksOk(v, h)
  {
  }

  lemma InsertKeepsPhases(w: World, v: World, key: Key)
    requires PhasesOk(w) && v.open == w.open && v.wins == w.wins && key !in w.rows.receipts
    requires forall k :: k in w.rows.receipts ==> k in v.rows.receipts && v.rows.receipts[k] == w.rows.receipts[k]
    ensures PhasesOk(v)
  {
    forall d | d in v.open ensures PhaseOk(v.rows, v.wins, v.open[d]) {
      assert PhaseOk(w.rows, w.wins, w.open[d]);
    }
  }

  lemma CommitKeepsReceipts(w: World, v: World, first: First)
    requires ReceiptsOk(w) && first.input.key !in w.rows.receipts && first.Fate().Settles?
    requires v.rows == Committed(w.rows, first.input, first.id, first.Fate())
    requires v.origin == w.origin[first.input.key := first] && v.wins == w.wins
    ensures ReceiptsOk(v)
  {
    forall key | key in v.rows.receipts ensures ReceiptOk(v, key) {
      if key != first.input.key { assert ReceiptOk(w, key); }
    }
  }

  lemma ConcludeKeepsInv(w: World, h: LockNumber, c: CallerId)
    requires Inv(w, h) && Enabled(w, h, Conclude(c))
    ensures Inv(Next(w, h, Conclude(c)), h)
  {
    var p := w.open[c];
    var mid, v := Close(w, h, c), Next(w, h, Conclude(c));
    assert PhaseOk(w.rows, w.wins, p);
    CloseKeepsInv(w, h, c);
    assert RowFree(mid, p.key);
    ConcludeKeepsReceipts(mid, v, p.key, p.settlement);
    ConcludeKeepsLocks(mid, v, h, p.key);
    ConcludeKeepsPhases(mid, v, p.key, p.settlement);
  }

  lemma ConcludeKeepsLocks(w: World, v: World, h: LockNumber, key: Key)
    requires LocksOk(w, h) && v.open == w.open && v.locks == w.locks && v.rows.receipts.Keys == w.rows.receipts.Keys
    ensures LocksOk(v, h)
  {
    assert forall k :: k in v.rows.receipts <==> k in w.rows.receipts;
  }

  lemma ConcludeKeepsPhases(w: World, v: World, key: Key, settlement: Settlement)
    requires PhasesOk(w) && v.open == w.open && key in w.rows.receipts && w.rows.receipts[key].status == OutcomeUnknown
    requires RowFree(w, key) && v.wins == w.wins + multiset{key}
    requires v.rows == w.rows.(receipts := w.rows.receipts[key := Reconciled(w.rows.receipts[key], settlement)])
    ensures PhasesOk(v)
  {
    forall d | d in v.open ensures PhaseOk(v.rows, v.wins, v.open[d]) {
      assert PhaseOk(w.rows, w.wins, w.open[d]);
    }
  }

  lemma ConcludeKeepsReceipts(w: World, v: World, key: Key, settlement: Settlement)
    requires ReceiptsOk(w) && key in w.rows.receipts && w.rows.receipts[key].status == OutcomeUnknown && w.wins[key] == 0
    requires v.rows == w.rows.(receipts := w.rows.receipts[key := Reconciled(w.rows.receipts[key], settlement)])
    requires v.origin == w.origin && v.wins == w.wins + multiset{key}
    ensures ReceiptsOk(v)
  {
    forall k | k in v.rows.receipts ensures ReceiptOk(v, k) { assert ReceiptOk(w, k); }
  }

  lemma WorkKeepsInv(w: World, h: LockNumber, c: CallerId, id: OpId, attempt: Attempt, check: Check)
    requires Inv(w, h) && Enabled(w, h, Work(c, id, attempt, check))
    ensures Inv(Next(w, h, Work(c, id, attempt, check)), h)
  {
    var v := Next(w, h, Work(c, id, attempt, check));
    var first := First(w.open[c].input, id, attempt, check);
    if first.Fate().RollsBack? {
      CloseKeepsInv(w, h, c);
      SameRowsKeepReceipts(w, v);
    } else {
      StepKeepsInv(w, v, h, c, Working(w.open[c].input, first));
    }
  }

  lemma NextKeepsInv(w: World, h: LockNumber, e: Event)
    requires Inv(w, h) && Enabled(w, h, e)
    ensures Inv(Next(w, h, e), h)
  {
    match e
    case TryLock(c, input) => if h(input.key) !in w.locks { LockKeepsInv(w, Next(w, h, e), h, c, input); }
    case Look(c) =>
      var input := w.open[c].input;
      if input.key in w.rows.receipts { assert ReceiptOk(w, input.key); }
      StepKeepsInv(w, Next(w, h, e), h, c, Next(w, h, e).open[c]);
    case Reply(c) => CloseKeepsInv(w, h, c);
    case Work(c, id, attempt, check) => WorkKeepsInv(w, h, c, id, attempt, check);
    case Commit(c) => CommitKeepsInv(w, h, c);
    case Crash(c) => CloseKeepsInv(w, h, c);
    case RowLock(c, key, settlement) => RowLockKeepsInv(w, h, c, key, settlement);
    case Conclude(c) => ConcludeKeepsInv(w, h, c);
  }

  // ------------------------------------------------------------------ runs

  ghost predicate Step(w: World, h: LockNumber, e: Event, v: World) { Enabled(w, h, e) && v == Next(w, h, e) }

  /** `ws` are the worlds a run of the events passes through, from the empty table on. */
  ghost predicate Run(h: LockNumber, es: seq<Event>, ws: seq<World>) {
    && |ws| == |es| + 1 && Init(ws[0])
    && forall n {:trigger es[n]} :: 0 <= n < |es| ==> Step(ws[n], h, es[n], ws[n + 1])
  }

  lemma StepKeepsRunInv(h: LockNumber, es: seq<Event>, ws: seq<World>, n: nat)
    requires Run(h, es, ws) && n < |es| && Inv(ws[n], h)
    ensures Inv(ws[n + 1], h)
  {
    var e := es[n];
    NextKeepsInv(ws[n], h, e);
  }

  lemma {:induction false} InvAt(h: LockNumber, es: seq<Event>, ws: seq<World>, n: nat)
    requires Run(h, es, ws) && n <= |es|
    ensures Inv(ws[n], h)
  {
    if n > 0 {
      InvAt(h, es, ws, n - 1);
      StepKeepsRunInv(h, es, ws, n - 1);
    }
  }

  lemma ReceiptAt(h: LockNumber, es: seq<Event>, ws: seq<World>, n: nat, key: Key)
    requires Run(h, es, ws) && n <= |es|
    ensures key in ws[n].rows.receipts ==> ReceiptOk(ws[n], key)
    ensures key !in ws[n].rows.receipts ==> ws[n].rows.applied[key] == 0 && ws[n].wins[key] == 0
  {
    InvAt(h, es, ws, n);
  }

  /** In every reachable world no receipt is in progress, and a command's own writes are committed at
      most once per key: once if the receipt came from a command that returned, never otherwise.
      So a failed or parked receipt stands beside writes only when printing the result failed. */
  lemma WritesCommitOnce(h: LockNumber, es: seq<Event>, ws: seq<World>, n: nat, key: Key)
    requires Run(h, es, ws) && n <= |es|
    ensures ws[n].rows.applied[key] <= 1 && (ws[n].rows.applied[key] == 1 ==> key in ws[n].rows.receipts)
    ensures key in ws[n].rows.receipts ==>
              && key in ws[n].origin && ws[n].rows.receipts[key].status != InProgress && ws[n].origin[key].Fate().Settles?
              && var first := ws[n].origin[key];
                 && (ws[n].rows.applied[key] == 1 <==> !IsButler(first.input) && first.attempt.Returns?)
                 && (ws[n].rows.applied[key] == 1 && first.Fate().status != Succeeded <==> !IsButler(first.input) && Misprinted(first.attempt))
  {
    ReceiptAt(h, es, ws, n, key);
  }

  /** `succeeded`, `failed` and the binding to id and request never change; a parked receipt changes
      only by the one reconciliation that wins. */
  predicate Carried(r: Receipt, v: World) {
    && r.key in v.rows.receipts
    && var s := v.rows.receipts[r.key];
       && s.id == r.id && s.hash == r.hash && s.key == r.key
       && (s == r || (r.status == OutcomeUnknown && Final(s.status) && v.wins[r.key] == 1))
  }

  lemma CarriedPast(w: World, h: LockNumber, e: Event, r: Receipt)
    requires Enabled(w, h, e) && !e.Conclude? && Carried(r, w)
    ensures Carried(r, Next(w, h, e))
  {
    var v := Next(w, h, e);
    assert v.wins == w.wins;
    assert v.rows == w.rows || (r.key in v.rows.receipts && v.rows.receipts[r.key] == w.rows.receipts[r.key]);
  }

  lemma CarriedThroughConclusion(w: World, h: LockNumber, c: CallerId, r: Receipt)
    requires Enabled(w, h, Conclude(c)) && Carried(r, w) && PhaseOk(w.rows, w.wins, w.open[c])
    ensures Carried(r, Next(w, h, Conclude(c)))
  {
  }

  lemma CarriedStep(h: LockNumber, es: seq<Event>, ws: seq<World>, n: nat, r: Receipt)
    requires Run(h, es, ws) && n < |es| && Carried(r, ws[n])
    ensures Carried(r, ws[n + 1])
  {
    InvAt(h, es, ws, n);
    var e := es[n];
    if e.Conclude? { CarriedThroughConclusion(ws[n], h, e.c, r); } else { CarriedPast(ws[n], h, e, r); }
  }

  lemma {:induction false} CarriedAlong(h: LockNumber, es: seq<Event>, ws: seq<World>, i: nat, j: nat, r: Receipt)
    requires Run(h, es, ws) && i <= j <= |es| && Carried(r, ws[i])
    ensures Carried(r, ws[j])
  {
    if i < j {
      CarriedAlong(h, es, ws, i, j - 1, r);
      CarriedStep(h, es, ws, j - 1, r);
    }
  }

  lemma ReceiptsCarry(h: LockNumber, es: seq<Event>, ws: seq<World>, i: nat, j: nat, key: Key)
    requires Run(h, es, ws) && i <= j <= |es| && key in ws[i].rows.receipts
    ensures Carried(ws[i].rows.receipts[key], ws[j])
  {
    ReceiptAt(h, es, ws, i, key);
    CarriedAlong(h, es, ws, i, j, ws[i].rows.receipts[key]);
  }

  /** Once a receipt is committed for a key, the command is never entered for that key again. */
  lemma NeverEnteredAgain(h: LockNumber, es: seq<Event>, ws: seq<World>, i: nat, j: nat, key: Key)
    requires Run(h, es, ws) && i <= j < |es| && key in ws[i].rows.receipts && es[j].Work?
    ensures es[j].c in ws[j].open && KeyOf(ws[j].open[es[j].c]) != key
  {
    ReceiptAt(h, es, ws, i, key);
    ReceiptsCarry(h, es, ws, i, j, key);
    InvAt(h, es, ws, j);
    assert Enabled(ws[j], h, es[j]) && FoundNothing(ws[j].open[es[j].c]);
  }

  /** Whoever looks the key up after it settled is told the stored outcome, if the request is the same;
      with another request it is turned away. Its transaction can do nothing else but crash. */
  lemma LaterCallsAreToldTheOutcome(h: LockNumber, es: seq<Event>, ws: seq<World>, i: nat, j: nat, key: Key)
    requires Run(h, es, ws) && i <= j < |es| && key in ws[i].rows.receipts && Final(ws[i].rows.receipts[key].status)
    requires es[j].Look? && es[j].c in ws[j].open && KeyOf(ws[j].open[es[j].c]) == key
    ensures var r, c, v := ws[i].rows.receipts[key], es[j].c, ws[j + 1];
            && c in v.open && v.open[c] == Looked(v.open[c].input, Some(r))
            && Told(v, c) == (if v.open[c].input.hash == r.hash then Retold(r, IsButler(v.open[c].input)) else REUSED)
            && forall e :: Enabled(v, h, e) && e.c == c ==> e == Reply(c) || e == Crash(c)
  {
    ReceiptAt(h, es, ws, i, key);
    ReceiptsCarry(h, es, ws, i, j, key);
    LookFinds(ws[j], h, es[j].c, ws[j + 1], ws[i].rows.receipts[key]);
  }

  /** Whoever looks the key up at any later time is told what the receipt says by then: while it is
      parked, that its outcome is unknown; once reconciled, what reconciliation established. */
  lemma LookUpsAreToldTheReceipt(h: LockNumber, es: seq<Event>, ws: seq<World>, i: nat, j: nat, key: Key)
    requires Run(h, es, ws) && i <= j < |es| && key in ws[i].rows.receipts
    requires es[j].Look? && es[j].c in ws[j].open && KeyOf(ws[j].open[es[j].c]) == key
    ensures key in ws[j].rows.receipts
    ensures var r, now, c, v := ws[i].rows.receipts[key], ws[j].rows.receipts[key], es[j].c, ws[j + 1];
            && (now == r || (r.status == OutcomeUnknown && Final(now.status) && ws[j].wins[key] == 1))
            && c in v.open && v.open[c] == Looked(v.open[c].input, Some(now))
            && (v.open[c].input.hash != r.hash ==> Told(v, c) == REUSED)
            && (v.open[c].input.hash == r.hash && now.status == OutcomeUnknown ==>
                  Told(v, c).Error? && Told(v, c).code == "outcome_unknown" && Told(v, c).current.None?)
            && (v.open[c].input.hash == r.hash && Final(now.status) ==> Told(v, c) == Retold(now, IsButler(v.open[c].input)))
            && forall e :: Enabled(v, h, e) && e.c == c ==> e == Reply(c) || e == Crash(c)
  {
    ReceiptAt(h, es, ws, i, key);
    ReceiptsCarry(h, es, ws, i, j, key);
    ReceiptAt(h, es, ws, j, key);
    LookFinds(ws[j], h, es[j].c, ws[j + 1], ws[j].rows.receipts[key]);
  }

  /** What a caller is told of an operation that reconciliation settled. */
  predicate TellsSettlement(answer: Answer, id: OpId, settlement: Settlement) {
    match settlement
    case Applied(json) => answer.Success? && answer.id == id && answer.replayed && answer.json == json
    case NotApplied(code) => answer.Error? && answer.code == code && answer.current.None?
  }

  /** After the reconciliation that won, every caller with the same request is told its verdict. */
  lemma ReconciledIsTold(h: LockNumber, es: seq<Event>, ws: seq<World>, i: nat, j: nat, key: Key)
    requires Run(h, es, ws) && i < j < |es| && es[i].Conclude? && es[i].c in ws[i].open && KeyOf(ws[i].open[es[i].c]) == key
    requires es[j].Look? && es[j].c in ws[j].open && KeyOf(ws[j].open[es[j].c]) == key
    ensures key in ws[i].rows.receipts && ws[i].open[es[i].c].Reconciling?
    ensures var r, c, v := ws[i].rows.receipts[key], es[j].c, ws[j + 1];
            && c in v.open && v.open[c].Looked? && v.open[c].existing.Some?
            && (if v.open[c].input.hash != r.hash then Told(v, c) == REUSED
                else TellsSettlement(Told(v, c), r.id, ws[i].open[es[i].c].settlement))
  {
    SettledAt(h, es, ws, i);
    var r, settlement := ws[i].rows.receipts[key], ws[i].open[es[i].c].settlement;
    LaterCallsAreToldTheOutcome(h, es, ws, i + 1, j, key);
    RetoldSettlement(r, settlement, IsButler(ws[j + 1].open[es[j].c].input));
  }

  lemma RetoldSettlement(r: Receipt, settlement: Settlement, butler: bool)
    ensures TellsSettlement(Retold(Reconciled(r, settlement), butler), r.id, settlement)
    ensures Reconciled(r, settlement).hash == r.hash
  {
  }

  lemma SettledAt(h: LockNumber, es: seq<Event>, ws: seq<World>, i: nat)
    requires Run(h, es, ws) && i < |es| && es[i].Conclude? && es[i].c in ws[i].open
    ensures var p := ws[i].open[es[i].c];
            && p.Reconciling? && p.key in ws[i].rows.receipts && p.key in ws[i + 1].rows.receipts
            && ws[i + 1].rows.receipts[p.key] == Reconciled(ws[i].rows.receipts[p.key], p.settlement)
            && Final(ws[i + 1].rows.receipts[p.key].status)
  {
    InvAt(h, es, ws, i);
    var e := es[i];
    ConclusionSettles(ws[i], h, e.c, ws[i + 1]);
  }

  lemma ConclusionSettles(w: World, h: LockNumber, c: CallerId, v: World)
    requires Step(w, h, Conclude(c), v) && PhasesOk(w)
    ensures var p := w.open[c];
            && p.Reconciling? && p.key in w.rows.receipts && p.key in v.rows.receipts
            && v.rows.receipts[p.key] == Reconciled(w.rows.receipts[p.key], p.settlement) && Final(v.rows.receipts[p.key].status)
  {
    assert PhaseOk(w.rows, w.wins, w.open[c]);
  }

  lemma LookFinds(w: World, h: LockNumber, c: CallerId, v: World, r: Receipt)
    requires Step(w, h, Look(c), v) && KeyOf(w.open[c]) == r.key && r.key in w.rows.receipts && w.rows.receipts[r.key] == r
    ensures c in v.open && v.open[c] == Looked(w.open[c].input, Some(r))
    ensures forall e :: Enabled(v, h, e) && e.c == c ==> e == Reply(c) || e == Crash(c)
  {
  }

  /** A parked operation is settled by reconciliation alone, and by one reconciliation alone. */
  lemma OneReconciliationWins(h: LockNumber, es: seq<Event>, ws: seq<World>, n: nat, key: Key)
    requires Run(h, es, ws) && n <= |es|
    ensures ws[n].wins[key] <= 1
    ensures ws[n].wins[key] == 1 <==> key in ws[n].rows.receipts && key in ws[n].origin && ws[n].origin[key].Fate().Settles?
                                      && ws[n].origin[key].Fate().status == OutcomeUnknown && ws[n].rows.receipts[key].status != OutcomeUnknown
  {
    ReceiptAt(h, es, ws, n, key);
  }

  /** The key alone makes the call the Butler's. */
  predicate ButlerKey(key: Key) { IsButler(Input(key, "", false)) }

  lemma ButlerNotEntered(h: LockNumber, es: seq<Event>, ws: seq<World>, n: nat, key: Key)
    requires Run(h, es, ws) && n < |es| && ButlerKey(key) && ws[n].entered[key] == 0 && PhasesOk(ws[n])
    ensures ws[n + 1].entered[key] == 0
  {
    var e := es[n];
    if e.Work? { assert IsButler(Input(key, "", false)); }
  }

  /** A Butler operation never enters its command, commits none of its writes and is never parked. */
  lemma {:induction false} ButlerNeverRuns(h: LockNumber, es: seq<Event>, ws: seq<World>, n: nat, key: Key)
    requires Run(h, es, ws) && n <= |es| && ButlerKey(key)
    ensures ws[n].entered[key] == 0 && ws[n].rows.applied[key] == 0
    ensures key in ws[n].rows.receipts ==> ws[n].rows.receipts[key].status == Failed
  {
    ReceiptAt(h, es, ws, n, key);
    if n > 0 {
      ButlerNeverRuns(h, es, ws, n - 1, key);
      InvAt(h, es, ws, n - 1);
      ButlerNotEntered(h, es, ws, n - 1, key);
    }
  }

  /** Whatever makes a call the Butler's, its key or the authorization it brings, it enters no command. */
  lemma ButlerCallEntersNothing(h: LockNumber, es: seq<Event>, ws: seq<World>, n: nat)
    requires Run(h, es, ws) && n < |es| && es[n].Work? && es[n].c in ws[n].open && ws[n].open[es[n].c].Looked?
    requires IsButler(ws[n].open[es[n].c].input)
    ensures ws[n + 1].entered == ws[n].entered && es[n].c in ws[n + 1].open
    ensures var p := ws[n + 1].open[es[n].c];
            p.Working? && p.first.Fate().Settles? && p.first.Fate().status == Failed && !p.first.Fate().kept
  {
    var e := es[n];
    assert Step(ws[n], h, e, ws[n + 1]);
  }

  /** A receipt that a Butler call committed stands `failed`, beside no write, and is never reconciled. */
  lemma ButlerCallsSettleFailed(h: LockNumber, es: seq<Event>, ws: seq<World>, n: nat, key: Key)
    requires Run(h, es, ws) && n <= |es| && key in ws[n].rows.receipts
    ensures key in ws[n].origin
    ensures IsButler(ws[n].origin[key].input) ==>
              ws[n].rows.receipts[key].status == Failed && ws[n].rows.applied[key] == 0 && ws[n].wins[key] == 0
  {
    ReceiptAt(h, es, ws, n, key);
  }
}
