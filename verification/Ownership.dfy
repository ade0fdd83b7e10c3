/** Probe leases on buffer rows, and the one live main of each client. */
module Ownership {
  import opened Basics

  type Mobile = string
  datatype Lease = Lease(owner: string, until: int)

  // ---------------------------------------------------------------------------
  // Leases
  // ---------------------------------------------------------------------------

  /** The lease of each buffer row, if any; a mobile without a row is absent. */
  type Leases = map<Mobile, Option<Lease>>

  predicate MayTake(lease: Option<Lease>, owner: string, now: int) {
    lease.None? || lease.value.until <= now || lease.value.owner == owner
  }

  predicate HeldBy(lease: Option<Lease>, owner: string) {
    lease.Some? && lease.value.owner == owner
  }

  datatype LeaseOp =
    | Acquire(mobile: Mobile, owner: string, ttlMs: int, now: int)
    | Renew(owner: string, until: int)
    | Release(owner: string, only: Option<Mobile>)

  predicate Acquires(leases: Leases, op: LeaseOp)
    requires op.Acquire?
  {
    op.mobile in leases && MayTake(leases[op.mobile], op.owner, op.now)
  }

  function Step(leases: Leases, op: LeaseOp): Leases {
    match op
    case Acquire(mobile, owner, ttlMs, now) =>
      if Acquires(leases, op) then leases[mobile := Some(Lease(owner, now + ttlMs))] else leases
    case Renew(owner, until) =>
      map m | m in leases :: if HeldBy(leases[m], owner) then Some(Lease(owner, until)) else leases[m]
    case Release(owner, only) =>
      map m | m in leases ::
        if HeldBy(leases[m], owner) && (only.None? || only.value == m) then None else leases[m]
  }

  /** Each query is one atomic update of the stored rows. */
  class ProbeLeases {
    var leases: Leases

    method AcquireProbeLease(mobile: Mobile, owner: string, ttlMs: int, now: int) returns (leased: bool)
      modifies this
      ensures leased <==>
        mobile in old(leases) &&
        (old(leases)[mobile].None? || old(leases)[mobile].value.until <= now || old(leases)[mobile].value.owner == owner)
      ensures leases == if leased then old(leases)[mobile := Some(Lease(owner, now + ttlMs))] else old(leases)
      ensures leased == Acquires(old(leases), Acquire(mobile, owner, ttlMs, now))
      ensures leases == Step(old(leases), Acquire(mobile, owner, ttlMs, now))
    {
      leased := mobile in leases && MayTake(leases[mobile], owner, now);
      if leased {
        leases := leases[mobile := Some(Lease(owner, now + ttlMs))];
      }
    }

    method RenewProbeLeases(owner: string, until: int)
      modifies this
      ensures leases == Step(old(leases), Renew(owner, until))
      ensures leases.Keys == old(leases).Keys && forall m | m in leases ::
        leases[m] == if old(leases)[m].Some? && old(leases)[m].value.owner == owner then Some(Lease(owner, until)) else old(leases)[m]
    {
      leases := map m | m in leases :: if HeldBy(leases[m], owner) then Some(leases[m].value.(until := until)) else leases[m];
    }

    method ReleaseProbeLeases(owner: string, only: Option<Mobile>)
      modifies this
      ensures leases == Step(old(leases), Release(owner, only))
      ensures leases.Keys == old(leases).Keys && forall m | m in leases ::
        leases[m] == if old(leases)[m].Some? && old(leases)[m].value.owner == owner && (only == None || only == Some(m))
                     then None else old(leases)[m]
    {
      leases := map m | m in leases :: if HeldBy(leases[m], owner) && (only.None? || only.value == m) then None else leases[m];
    }
  }

  /** Renewing and releasing never touch a row another owner holds. */
  lemma OthersUntouched(leases: Leases, op: LeaseOp, m: Mobile)
    requires !op.Acquire? && m in leases && !HeldBy(leases[m], op.owner)
    ensures m in Step(leases, op) && Step(leases, op)[m] == leases[m]
  {
  }

  function After(leases: Leases, ops: seq<LeaseOp>): Leases
    decreases |ops|
  {
    if ops == [] then leases else After(Step(leases, ops[0]), ops[1..])
  }

  /** The owner does not give `m` up here, and others only ask for it while its lease runs. */
  predicate Spares(leases: Leases, op: LeaseOp, m: Mobile, owner: string) {
    && !(op.Release? && op.owner == owner && (op.only.None? || op.only.value == m))
    && (op.Acquire? && op.mobile == m && op.owner != owner ==>
          m in leases && leases[m].Some? && op.now < leases[m].value.until)
  }

  ghost predicate AllSpare(leases: Leases, ops: seq<LeaseOp>, m: Mobile, owner: string)
    decreases |ops|
  {
    ops == [] || (Spares(leases, ops[0], m, owner) && AllSpare(Step(leases, ops[0]), ops[1..], m, owner))
  }

  /** Every attempt of another owner on `m` is refused. */
  ghost predicate OthersRefused(leases: Leases, ops: seq<LeaseOp>, m: Mobile, owner: string)
    decreases |ops|
  {
    ops == [] ||
    ((ops[0].Acquire? && ops[0].mobile == m && ops[0].owner != owner ==> !Acquires(leases, ops[0])) &&
     OthersRefused(Step(leases, ops[0]), ops[1..], m, owner))
  }

  /**
   * Over any run in which its owner does not release it, a lease is taken by nobody else before it runs out;
   * and while the owner does nothing, it stays exactly as it is.
   */
  lemma {:induction false} LeaseIsExclusive(leases: Leases, ops: seq<LeaseOp>, m: Mobile, owner: string)
    requires m in leases && HeldBy(leases[m], owner) && AllSpare(leases, ops, m, owner)
    ensures OthersRefused(leases, ops, m, owner)
    ensures m in After(leases, ops) && HeldBy(After(leases, ops)[m], owner)
    ensures (forall op | op in ops :: op.owner != owner) ==> After(leases, ops)[m] == leases[m]
    decreases |ops|
  {
    if ops != [] {
      LeaseIsExclusive(Step(leases, ops[0]), ops[1..], m, owner);
    }
  }

  // ---------------------------------------------------------------------------
  // The live main of a client
  // ---------------------------------------------------------------------------

  datatype Row = Row(clientId: string, inUse: bool, active: bool, lastUsed: int)
  type Rows = map<Mobile, Row>

  /** The partial unique index: one in-use row per client. */
  ghost predicate IndexHolds(rows: Rows) {
    forall m, n | m in rows && n in rows && rows[m].inUse && rows[n].inUse && rows[m].clientId == rows[n].clientId :: m == n
  }

  predicate Belongs(rows: Rows, mobile: Mobile, clientId: string) {
    mobile in rows && rows[mobile].clientId == clientId
  }

  predicate HasMain(rows: Rows, clientId: string) {
    exists m | m in rows :: rows[m].inUse && rows[m].clientId == clientId
  }

  /** The index refuses the assignment while another row of the client is in use. */
  predicate Blocked(rows: Rows, clientId: string, mobile: Mobile) {
    exists m | m in rows :: m != mobile && rows[m].inUse && rows[m].clientId == clientId
  }

  /** A free spare of `from`, as reassignClientId asks for. */
  predicate MayMove(rows: Rows, mobile: Mobile, from: string) {
    Belongs(rows, mobile, from) && !rows[mobile].inUse && rows[mobile].active
  }

  function Moved(rows: Rows, mobile: Mobile, from: string, to: string): Rows {
    if MayMove(rows, mobile, from) then rows[mobile := rows[mobile].(clientId := to)] else rows
  }

  /** The rows the revocation writes: the client's other rows in use. */
  function Live(rows: Rows, clientId: string, mobile: Mobile): set<Mobile> {
    set m | m in rows && rows[m].clientId == clientId && m != mobile && rows[m].inUse
  }

  function Revoked(rows: Rows, clientId: string, mobile: Mobile, now: int): Rows {
    map m | m in rows ::
      if m in Live(rows, clientId, mobile) then rows[m].(inUse := false, lastUsed := now) else rows[m]
  }

  function Assigned(rows: Rows, mobile: Mobile, now: int): Rows
    requires mobile in rows
  {
    rows[mobile := rows[mobile].(inUse := true, active := true, lastUsed := now)]
  }

  // ---------------------------------------------------------------------------
  // The queries of a call
  // ---------------------------------------------------------------------------

  datatype Phase = Moving(from: string) | Checking | Revoking | Assigning | Committing | Succeeded | Failed

  /** A transaction works on its own copy of what it found; `written` lists the rows it wrote. */
  datatype Transaction = Transaction(found: Rows, view: Rows, written: set<Mobile>)

  datatype Call = Call(clientId: string, mobile: Mobile, now: int, phase: Phase, transaction: Option<Transaction>)

  function AdvanceRows(rows: Rows, c: Call): Rows {
    match c.phase
    case Moving(from) => Moved(rows, c.mobile, from, c.clientId)
    case Revoking => Revoked(rows, c.clientId, c.mobile, c.now)
    case Assigning =>
      if Belongs(rows, c.mobile, c.clientId) && !Blocked(rows, c.clientId, c.mobile) then Assigned(rows, c.mobile, c.now) else rows
    case _ => rows
  }

  function Writes(rows: Rows, c: Call): set<Mobile> {
    match c.phase
    case Moving(from) => if MayMove(rows, c.mobile, from) then {c.mobile} else {}
    case Revoking => Live(rows, c.clientId, c.mobile)
    case Assigning => if Belongs(rows, c.mobile, c.clientId) && !Blocked(rows, c.clientId, c.mobile) then {c.mobile} else {}
    case _ => {}
  }

  /** `done` is where a call goes once it has assigned its target. */
  function AdvancePhase(rows: Rows, c: Call, done: Phase): Phase {
    match c.phase
    case Moving(from) => if MayMove(rows, c.mobile, from) then Checking else Failed
    case Checking => if Belongs(rows, c.mobile, c.clientId) then Revoking else Failed
    case Revoking => Assigning
    case Assigning => if Belongs(rows, c.mobile, c.clientId) && !Blocked(rows, c.clientId, c.mobile) then done else Failed
    case other => other
  }

  /** The store takes a transaction only if nobody else changed a row it wrote and the index agrees. */
  predicate Commits(rows: Rows, c: Call)
    requires c.transaction.Some?
  {
    var t := c.transaction.value;
    && (forall m | m in t.written :: m in rows && m in t.found && m in t.view && rows[m] == t.found[m])
    && !Blocked(Merged(rows, t), c.clientId, c.mobile)
  }

  function Merged(rows: Rows, t: Transaction): Rows {
    map m | m in rows :: if m in t.written && m in t.view then t.view[m] else rows[m]
  }

  // ---------------------------------------------------------------------------
  // Interleavings
  // ---------------------------------------------------------------------------

  datatype State = State(rows: Rows, calls: seq<Call>)

  /**
   * Calls advance one query at a time and may fail before any of them; other code stores, moves and removes
   * rows between any two queries.
   */
  datatype Action =
    | Begin(clientId: string, mobile: Mobile, spareOf: Option<string>, now: int, inTransaction: bool)
    | Advance(call: nat)
    | Abort(call: nat)
    | Store(mobile: Mobile, row: Row)
    | Reassign(mobile: Mobile, from: string, to: string)
    | Remove(mobile: Mobile)

  /** A swap with a sibling's spare moves the spare first, in the same transaction. */
  function Begun(rows: Rows, a: Action): Call
    requires a.Begin?
  {
    Call(a.clientId, a.mobile, a.now, if a.spareOf.Some? then Moving(a.spareOf.value) else Checking,
         if a.inTransaction then Some(Transaction(rows, rows, {})) else None)
  }

  /** One query inside a transaction. */
  function InView(c: Call): Call
    requires c.transaction.Some?
  {
    var t := c.transaction.value;
    c.(phase := AdvancePhase(t.view, c, Committing),
       transaction := Some(Transaction(t.found, AdvanceRows(t.view, c), t.written + Writes(t.view, c))))
  }

  function AdvanceCall(rows: Rows, c: Call): (Rows, Call) {
    if c.transaction.None? then (AdvanceRows(rows, c), c.(phase := AdvancePhase(rows, c, Succeeded)))
    else if !c.phase.Committing? then (rows, InView(c))
    else if Commits(rows, c) then (Merged(rows, c.transaction.value), c.(phase := Succeeded))
    else (rows, c.(phase := Failed))
  }

  function Next(s: State, a: Action): State {
    match a
    case Begin(_, _, _, _, _) => s.(calls := s.calls + [Begun(s.rows, a)])
    case Advance(i) =>
      if i >= |s.calls| then s
      else
        var (rows, c) := AdvanceCall(s.rows, s.calls[i]);
        State(rows, s.calls[i := c])
    case Abort(i) =>
      if i >= |s.calls| || s.calls[i].phase.Succeeded? then s
      else s.(calls := s.calls[i := s.calls[i].(phase := Failed)])
    case Store(mobile, row) => if row.inUse && Blocked(s.rows, row.clientId, mobile) then s else s.(rows := s.rows[mobile := row])
    case Reassign(mobile, from, to) => s.(rows := Moved(s.rows, mobile, from, to))
    case Remove(mobile) => s.(rows := s.rows - {mobile})
  }

  function Run(s: State, actions: seq<Action>): State
    decreases |actions|
  {
    if actions == [] then s else Run(Next(s, actions[0]), actions[1..])
  }

  // ---------------------------------------------------------------------------
  // Never two mains
  // ---------------------------------------------------------------------------

  /** What a transaction has written: its client's rows, and only its target in use. */
  ghost predicate WritesOwn(c: Call) {
    c.transaction.Some? ==>
      var t := c.transaction.value;
      && t.view.Keys == t.found.Keys && t.written <= t.found.Keys
      && (forall m | m in t.found && m !in t.written :: t.view[m] == t.found[m])
      && (forall m | m in t.written :: t.view[m].clientId == c.clientId)
      && (forall m | m in t.written && m != c.mobile :: !t.view[m].inUse && t.found[m].clientId == c.clientId)
      && (c.mobile in t.written ==> t.found[c.mobile].clientId == c.clientId || !t.found[c.mobile].inUse)
      && (c.phase.Committing? ==> c.mobile in t.written && t.view[c.mobile].inUse)
  }

  ghost predicate AllWriteOwn(s: State) {
    forall i | 0 <= i < |s.calls| :: WritesOwn(s.calls[i])
  }

  lemma WritesOwnInView(c: Call)
    requires WritesOwn(c) && c.transaction.Some? && !c.phase.Committing?
    ensures WritesOwn(InView(c))
  {
    match c.phase
    case Moving(_) =>
      hide Revoked, Live, Assigned, Blocked;
    case Revoking =>
      hide Moved, MayMove, Assigned, Blocked;
    case Assigning =>
      hide Moved, MayMove, Revoked, Live;
    case _ =>
      hide Moved, MayMove, Revoked, Live, Assigned, Blocked;
  }

  lemma WritesOwnStep(s: State, a: Action)
    requires AllWriteOwn(s)
    ensures AllWriteOwn(Next(s, a))
  {
    hide WritesOwn;
    forall i | 0 <= i < |Next(s, a).calls|
      ensures WritesOwn(Next(s, a).calls[i])
    {
      if i == |s.calls| {
        BegunWritesNothing(s.rows, a);
      } else {
        CallWritesOwn(s, a, i);
      }
    }
  }

  lemma BegunWritesNothing(rows: Rows, a: Action)
    requires a.Begin?
    ensures WritesOwn(Begun(rows, a))
  {
  }

  lemma CallWritesOwn(s: State, a: Action, i: nat)
    requires i < |s.calls| && WritesOwn(s.calls[i])
    ensures WritesOwn(Next(s, a).calls[i])
  {
    var c := s.calls[i];
    if a == Advance(i) && c.transaction.Some? && !c.phase.Committing? {
      WritesOwnInView(c);
    } else {
      hide InView;
    }
  }

  lemma IndexHoldsStep(s: State, a: Action)
    requires IndexHolds(s.rows) && AllWriteOwn(s)
    ensures IndexHolds(Next(s, a).rows)
  {
    if a.Advance? && a.call < |s.calls| {
      assert WritesOwn(s.calls[a.call]);
      AdvanceKeepsIndex(s.rows, s.calls[a.call]);
    }
  }

  lemma AdvanceKeepsIndex(rows: Rows, c: Call)
    requires IndexHolds(rows) && WritesOwn(c)
    ensures IndexHolds(AdvanceCall(rows, c).0)
  {
    if c.transaction.Some? && c.phase.Committing? && Commits(rows, c) {
      MergeKeepsIndex(rows, c);
    }
  }

  lemma MergeKeepsIndex(rows: Rows, c: Call)
    requires IndexHolds(rows) && WritesOwn(c) && c.transaction.Some? && c.phase.Committing? && Commits(rows, c)
    ensures IndexHolds(Merged(rows, c.transaction.value))
  {
    var t := c.transaction.value;
    var merged := Merged(rows, t);
    forall m, n | m in merged && n in merged && merged[m].inUse && merged[n].inUse && merged[m].clientId == merged[n].clientId
      ensures m == n
    {
      if m == c.mobile || n == c.mobile {
        assert merged[c.mobile] == t.view[c.mobile];
      } else {
        assert merged[m] == rows[m] && merged[n] == rows[n];
      }
    }
  }

  /** However calls, transactions, failures and other writers interleave, no client ever has two live mains. */
  lemma {:induction false} NeverTwoMains(s: State, actions: seq<Action>)
    requires IndexHolds(s.rows) && AllWriteOwn(s)
    ensures IndexHolds(Run(s, actions).rows)
    decreases |actions|
  {
    hide Next, AllWriteOwn, IndexHolds;
    if actions != [] {
      IndexHoldsStep(s, actions[0]);
      WritesOwnStep(s, actions[0]);
      NeverTwoMains(Next(s, actions[0]), actions[1..]);
    }
  }

  class BufferClients {
    var rows: Rows

    /** Only a free spare of `from` moves. */
    method ReassignClientId(mobile: Mobile, from: string, to: string) returns (moved: bool)
      modifies this
      ensures moved <==>
        mobile in old(rows) && old(rows)[mobile].clientId == from && !old(rows)[mobile].inUse && old(rows)[mobile].active
      ensures rows == if moved then old(rows)[mobile := old(rows)[mobile].(clientId := to)] else old(rows)
      ensures rows == Moved(old(rows), mobile, from, to)
    {
      moved := mobile in rows && rows[mobile].clientId == from && !rows[mobile].inUse && rows[mobile].active;
      if moved {
        rows := rows[mobile := rows[mobile].(clientId := to)];
      }
    }

    /** One uninterrupted call: nothing changes unless the target exists; then it alone is the client's main. */
    method SetPrimaryInUse(clientId: string, mobile: Mobile, now: int) returns (found: bool)
      requires IndexHolds(rows)
      modifies this
      ensures IndexHolds(rows) && rows.Keys == old(rows).Keys
      ensures found == Belongs(old(rows), mobile, clientId)
      ensures !found ==> rows == old(rows)
      ensures found ==> rows[mobile] == Row(clientId, true, true, now)
      ensures found ==> forall m | m in rows && m != mobile ::
        rows[m] == if rows[m].clientId == clientId && old(rows)[m].inUse then old(rows)[m].(inUse := false, lastUsed := now) else old(rows)[m]
    {
      if !(mobile in rows && rows[mobile].clientId == clientId) {
        return false;
      }
      rows := map m | m in rows ::
        if rows[m].clientId == clientId && m != mobile && rows[m].inUse then rows[m].(inUse := false, lastUsed := now) else rows[m];
      rows := rows[mobile := rows[mobile].(inUse := true, active := true, lastUsed := now)];
      return true;
    }
  }

  /** The queries of a call, one after the other, do what the uninterrupted call does. */
  lemma QueriesAreTheCall(rows: Rows, clientId: string, mobile: Mobile, now: int)
    requires IndexHolds(rows)
    ensures var c := Call(clientId, mobile, now, Checking, None);
      var (rows1, c1) := AdvanceCall(rows, c);
      var (rows2, c2) := AdvanceCall(rows1, c1);
      var (rows3, c3) := AdvanceCall(rows2, c2);
      && (c3.phase == Succeeded <==> mobile in rows && rows[mobile].clientId == clientId)
      && (c3.phase != Succeeded ==> c3.phase == Failed && rows3 == rows)
      && rows3.Keys == rows.Keys
      && (c3.phase == Succeeded ==> rows3[mobile] == Row(clientId, true, true, now))
      && (c3.phase == Succeeded ==> forall m | m in rows && m != mobile ::
            rows3[m] == if rows[m].clientId == clientId && rows[m].inUse then rows[m].(inUse := false, lastUsed := now) else rows[m])
  {
  }

  /** A call that finds its target missing at the check, and only that, ends there; it has changed nothing. */
  lemma MissingTargetChangesNothing(rows: Rows, c: Call, done: Phase)
    requires c.phase == Checking
    ensures AdvanceRows(rows, c) == rows
    ensures AdvancePhase(rows, c, done) == Failed <==> !Belongs(rows, c.mobile, c.clientId)
  {
  }

  // ---------------------------------------------------------------------------
  // Inside a transaction
  // ---------------------------------------------------------------------------

  /** A call in a transaction changes the rows only by succeeding, and then its target is the client's one main. */
  lemma AllOrNothing(rows: Rows, c: Call)
    requires WritesOwn(c) && c.transaction.Some?
    ensures var (rows', c') := AdvanceCall(rows, c);
      && (rows' != rows ==> c'.phase.Succeeded?)
      && (c'.phase.Succeeded? && !c.phase.Succeeded? ==>
            && Belongs(rows', c.mobile, c.clientId) && rows'[c.mobile].inUse
            && !Blocked(rows', c.clientId, c.mobile))
  {
  }

  /** A commit takes no other client's main. */
  lemma CommitSparesOthers(rows: Rows, c: Call, clientId: string)
    requires WritesOwn(c) && c.transaction.Some? && HasMain(rows, clientId)
    ensures HasMain(AdvanceCall(rows, c).0, clientId)
  {
    var rows' := AdvanceCall(rows, c).0;
    AllOrNothing(rows, c);
    if rows' != rows {
      if clientId == c.clientId {
        assert rows'[c.mobile].inUse && rows'[c.mobile].clientId == clientId;
      } else {
        var m :| m in rows && rows[m].inUse && rows[m].clientId == clientId;
        assert rows'[m] == rows[m];
      }
    }
  }

  /** Other code does not take the client's main away. */
  predicate Spared(rows: Rows, a: Action, clientId: string) {
    match a
    case Store(mobile, row) =>
      Belongs(rows, mobile, clientId) && rows[mobile].inUse ==> row.inUse && row.clientId == clientId
    case Remove(mobile) => !(Belongs(rows, mobile, clientId) && rows[mobile].inUse)
    case Begin(_, _, _, _, inTransaction) => inTransaction
    case _ => true
  }

  ghost predicate AllSpared(s: State, actions: seq<Action>, clientId: string)
    decreases |actions|
  {
    actions == [] || (Spared(s.rows, actions[0], clientId) && AllSpared(Next(s, actions[0]), actions[1..], clientId))
  }

  ghost predicate AllInTransactions(s: State) {
    forall i | 0 <= i < |s.calls| :: s.calls[i].transaction.Some?
  }

  lemma MainKeptStep(s: State, a: Action, clientId: string)
    requires AllWriteOwn(s) && AllInTransactions(s) && Spared(s.rows, a, clientId) && HasMain(s.rows, clientId)
    ensures HasMain(Next(s, a).rows, clientId) && AllInTransactions(Next(s, a))
  {
    var m :| m in s.rows && s.rows[m].inUse && s.rows[m].clientId == clientId;
    var rows' := Next(s, a).rows;
    if a.Advance? && a.call < |s.calls| {
      assert WritesOwn(s.calls[a.call]);
      CommitSparesOthers(s.rows, s.calls[a.call], clientId);
    } else {
      assert m in rows' && rows'[m].inUse && rows'[m].clientId == clientId;
    }
  }

  /**
   * As long as every call runs in a transaction, whatever fails, aborts, conflicts or is moved or removed in
   * between: a client that has a main keeps one, unless other code takes it away.
   */
  lemma {:induction false} TransactionsKeepMains(s: State, actions: seq<Action>, clientId: string)
    requires AllWriteOwn(s) && AllInTransactions(s) && AllSpared(s, actions, clientId) && HasMain(s.rows, clientId)
    ensures HasMain(Run(s, actions).rows, clientId)
    decreases |actions|
  {
    hide Next, AllWriteOwn, AllInTransactions, HasMain, Spared;
    if actions != [] {
      MainKeptStep(s, actions[0], clientId);
      WritesOwnStep(s, actions[0]);
      TransactionsKeepMains(Next(s, actions[0]), actions[1..], clientId);
    }
  }

  /** The client's rows in use, other than the target, that a transaction found. */
  ghost predicate WasMain(found: Rows, m: Mobile, clientId: string, mobile: Mobile) {
    m in found && m != mobile && found[m].inUse && found[m].clientId == clientId
  }

  /** Nothing the swap writes changed since, and nobody else became the main. */
  ghost predicate Unchanged(found: Rows, later: Rows, clientId: string, mobile: Mobile) {
    && mobile in later && mobile in found && later[mobile] == found[mobile]
    && forall m :: (WasMain(found, m, clientId, mobile) || WasMain(later, m, clientId, mobile)) ==>
         m in found && m in later && later[m] == found[m]
  }

  /** The queries of a swap up to its commit. */
  function ToCommit(found: Rows, a: Action): Call
    requires a.Begin? && a.inTransaction
  {
    var c := Begun(found, a);
    var moved := if a.spareOf.Some? then InView(c) else c;
    InView(InView(InView(moved)))
  }

  /** What a swap has done in its own view when it comes to commit. */
  lemma SwapInView(found: Rows, a: Action)
    requires a.Begin? && a.inTransaction
    ensures var c := ToCommit(found, a);
      && c.clientId == a.clientId && c.mobile == a.mobile && c.transaction.Some?
      && (c.phase.Committing? <==>
            && a.mobile in found
            && (if a.spareOf.Some? then found[a.mobile].clientId == a.spareOf.value && !found[a.mobile].inUse && found[a.mobile].active
                else found[a.mobile].clientId == a.clientId))
      && (c.phase.Committing? ==>
            var t := c.transaction.value;
            && t.found == found && t.view.Keys == found.Keys
            && t.written == (set m | m in found && WasMain(found, m, a.clientId, a.mobile)) + {a.mobile}
            && t.view[a.mobile] == Row(a.clientId, true, true, a.now)
            && forall m | m in found && WasMain(found, m, a.clientId, a.mobile) :: t.view[m] == found[m].(inUse := false, lastUsed := a.now))
      && (!c.phase.Committing? ==> c.phase == Failed)
  {
  }

  /** The store takes a call that revoked the mains it found and assigned its target when none of these rows changed. */
  lemma CommitsIff(found: Rows, later: Rows, c: Call)
    requires c.transaction.Some? && c.transaction.value.found == found && c.transaction.value.view.Keys == found.Keys
    requires c.mobile in found
    requires c.transaction.value.written == (set m | m in found && WasMain(found, m, c.clientId, c.mobile)) + {c.mobile}
    requires forall m | m in found && WasMain(found, m, c.clientId, c.mobile) :: !c.transaction.value.view[m].inUse
    ensures Commits(later, c) <==> Unchanged(found, later, c.clientId, c.mobile)
  {
    var t := c.transaction.value;
    var merged := Merged(later, t);
    var same := forall m | m in t.written :: m in later && later[m] == found[m];
    assert Commits(later, c) <==> same && !Blocked(merged, c.clientId, c.mobile);
    if m :| m in merged && m != c.mobile && merged[m].inUse && merged[m].clientId == c.clientId {
      assert WasMain(later, m, c.clientId, c.mobile) && m !in t.written;
      assert !WasMain(found, m, c.clientId, c.mobile);
    } else if same {
      forall m | WasMain(later, m, c.clientId, c.mobile)
        ensures m in t.written
      {
        assert m in merged;
      }
    }
  }

  /**
   * A swap in a transaction, whatever happened to the rows between its snapshot and its commit: it succeeds
   * exactly when its target was the client's (or the sibling's free spare it asked for), nothing it writes has
   * changed since and nobody else became the main; then the target is the main, the old main is not, and no
   * other row is touched. Otherwise no row is.
   */
  lemma SwapCommitsIff(found: Rows, later: Rows, a: Action)
    requires a.Begin? && a.inTransaction
    ensures var (rows, c) := AdvanceCall(later, ToCommit(found, a));
      && (c.phase == Succeeded <==>
            && a.mobile in found
            && (if a.spareOf.Some? then found[a.mobile].clientId == a.spareOf.value && !found[a.mobile].inUse && found[a.mobile].active
                else found[a.mobile].clientId == a.clientId)
            && Unchanged(found, later, a.clientId, a.mobile))
      && (c.phase != Succeeded ==> c.phase == Failed && rows == later)
      && (c.phase == Succeeded ==> rows.Keys == later.Keys && rows[a.mobile] == Row(a.clientId, true, true, a.now))
      && (c.phase == Succeeded ==> forall m | m in later && m != a.mobile ::
            rows[m] == if WasMain(found, m, a.clientId, a.mobile) then found[m].(inUse := false, lastUsed := a.now) else later[m])
  {
    SwapInView(found, a);
    hide ToCommit;
    var c := ToCommit(found, a);
    if c.phase.Committing? {
      CommitsIff(found, later, c);
    }
    hide Commits, Unchanged;
  }

  // ---------------------------------------------------------------------------
  // Without a transaction
  // ---------------------------------------------------------------------------

  /**
   * Whatever others did since the revocation: the assignment leaves the client without a main exactly when
   * the target is then gone or another client's, and nobody else has become the client's main. The call
   * reports a failure in that case, so the check before the revocation does not keep the old main.
   */
  lemma StrandedIffTargetLost(later: Rows, c: Call)
    requires c.phase == Assigning && c.transaction.None?
    ensures var (rows', c') := AdvanceCall(later, c);
      && (!HasMain(rows', c.clientId) <==> !Belongs(later, c.mobile, c.clientId) && !HasMain(later, c.clientId))
      && (!HasMain(rows', c.clientId) ==> c'.phase == Failed)
  {
    if Belongs(later, c.mobile, c.clientId) && !Blocked(later, c.clientId, c.mobile) {
      var rows' := Assigned(later, c.mobile, c.now);
      assert c.mobile in rows' && rows'[c.mobile].inUse && rows'[c.mobile].clientId == c.clientId;
    }
  }

  /**
   * Both ways a call can go on after its revocation, whatever others did since: it leaves the client without a
   * main exactly when nobody else has become the main, and the call stops there or its target is then gone or
   * another client's. It stops when the notification between the two writes, or the second write, throws.
   */
  lemma StrandedIff(s: State, i: nat, a: Action)
    requires i < |s.calls| && s.calls[i].phase == Assigning && s.calls[i].transaction.None?
    requires a == Advance(i) || a == Abort(i)
    ensures var c := s.calls[i];
      !HasMain(Next(s, a).rows, c.clientId) <==>
        !HasMain(s.rows, c.clientId) && (a.Abort? || !Belongs(s.rows, c.mobile, c.clientId))
    ensures !HasMain(Next(s, a).rows, s.calls[i].clientId) ==> Next(s, a).calls[i].phase == Failed
  {
    StrandedIffTargetLost(s.rows, s.calls[i]);
  }

  /** What can go wrong with a call: its target is removed or moved, or the call stops. */
  datatype Mishap = Removes | Reassigns | Stops

  function Happening(mishap: Mishap): Action {
    match mishap
    case Removes => Remove("new")
    case Reassigns => Reassign("new", "c", "d")
    case Stops => Abort(0)
  }

  /** A swap that goes wrong before (`early`) or after the revocation. */
  function MishapRun(mishap: Mishap, early: bool, inTransaction: bool): seq<Action> {
    [Begin("c", "new", None, 1, inTransaction), Advance(0),
     if early then Happening(mishap) else Advance(0), if early then Advance(0) else Happening(mishap), Advance(0), Advance(0)]
  }

  lemma RunSix(s: State, a: Action, b: Action, c: Action, d: Action, e: Action, f: Action)
    ensures Run(s, [a, b, c, d, e, f]) == Next(Next(Next(Next(Next(Next(s, a), b), c), d), e), f)
  {
    hide Next;
    assert [a, b, c, d, e, f][1..] == [b, c, d, e, f] && [b, c, d, e, f][1..] == [c, d, e, f];
    assert [c, d, e, f][1..] == [d, e, f] && [d, e, f][1..] == [e, f] && [e, f][1..] == [f] && [f][1..] == [];
    var t := Next(Next(Next(s, a), b), c);
    assert Run(s, [a, b, c, d, e, f]) == Run(Next(s, a), [b, c, d, e, f]);
    assert Run(Next(s, a), [b, c, d, e, f]) == Run(Next(Next(s, a), b), [c, d, e, f]) == Run(t, [d, e, f]);
    assert Run(t, [d, e, f]) == Run(Next(t, d), [e, f]) == Run(Next(Next(t, d), e), [f]);
  }

  const TWO_ROWS: Rows := map["old" := Row("c", true, true, 0), "new" := Row("c", false, true, 0)]

  /** Up to the assignment, without a transaction. */
  lemma RevokedAndWrong(mishap: Mishap, early: bool)
    ensures var s := Next(Next(State(TWO_ROWS, []), Begin("c", "new", None, 1, false)), Advance(0));
      var happens := Happening(mishap);
      var s' := if early then Next(Next(s, happens), Advance(0)) else Next(Next(s, Advance(0)), happens);
      && |s'.calls| == 1 && s'.calls[0] == Call("c", "new", 1, if mishap.Stops? then Failed else Assigning, None)
      && (HasMain(s'.rows, "c") <==> mishap.Stops? && early)
      && (!mishap.Stops? ==> !Belongs(s'.rows, "new", "c"))
  {
    var s := State(TWO_ROWS, [Call("c", "new", 1, Revoking, None)]);
    assert Next(Next(State(TWO_ROWS, []), Begin("c", "new", None, 1, false)), Advance(0)) == s;
    assert TWO_ROWS["old"].inUse;
    if early {
      assert !mishap.Stops? ==> Next(s, Happening(mishap)).calls == s.calls;
    }
  }

  lemma SparedSix(s: State, a: Action, b: Action, c: Action, d: Action, e: Action, f: Action, clientId: string)
    requires Spared(s.rows, a, clientId)
    requires var t := Next(s, a); Spared(t.rows, b, clientId) && Spared(Next(t, b).rows, c, clientId)
    requires Spared(Next(Next(Next(s, a), b), c).rows, d, clientId)
    requires forall rows :: Spared(rows, e, clientId) && Spared(rows, f, clientId)
    ensures AllSpared(s, [a, b, c, d, e, f], clientId)
  {
    hide Next, Spared;
    assert [a, b, c, d, e, f][1..] == [b, c, d, e, f] && [b, c, d, e, f][1..] == [c, d, e, f];
    assert [c, d, e, f][1..] == [d, e, f] && [d, e, f][1..] == [e, f] && [e, f][1..] == [f] && [f][1..] == [];
    var t := Next(Next(Next(s, a), b), c);
    assert AllSpared(Next(Next(t, d), e), [f], clientId) && AllSpared(Next(t, d), [e, f], clientId);
    assert AllSpared(t, [d, e, f], clientId);
    assert AllSpared(Next(Next(s, a), b), [c, d, e, f], clientId);
    assert AllSpared(Next(s, a), [b, c, d, e, f], clientId);
  }

  /** Until the commit a transaction leaves the rows alone, so the target lost is nobody's main. */
  lemma MishapSpared(mishap: Mishap, early: bool)
    ensures AllSpared(State(TWO_ROWS, []), MishapRun(mishap, early, true), "c")
  {
    var s := State(TWO_ROWS, []);
    var begin := Begin("c", "new", None, 1, true);
    var (a, b) := if early then (Happening(mishap), Advance(0)) else (Advance(0), Happening(mishap));
    var s2 := Next(Next(s, begin), Advance(0));
    assert s2.rows == TWO_ROWS && s2.calls[0].phase == Revoking;
    assert !early ==> Next(s2, a).rows == TWO_ROWS;
    SparedSix(s, begin, Advance(0), a, b, Advance(0), Advance(0), "c");
  }

  /**
   * Concretely: without a transaction the old main is revoked and the client left with none, whether the
   * target is removed or moved, before or after the revocation, or the call stops after it; in a transaction
   * the old main stays.
   */
  lemma StrandedClient(mishap: Mishap, early: bool)
    ensures HasMain(TWO_ROWS, "c")
    ensures HasMain(Run(State(TWO_ROWS, []), MishapRun(mishap, early, false)).rows, "c") <==> mishap.Stops? && early
    ensures HasMain(Run(State(TWO_ROWS, []), MishapRun(mishap, early, true)).rows, "c")
  {
    var s := State(TWO_ROWS, []);
    assert TWO_ROWS["old"].inUse;
    var (a, b) := if early then (Happening(mishap), Advance(0)) else (Advance(0), Happening(mishap));
    RunSix(s, Begin("c", "new", None, 1, false), Advance(0), a, b, Advance(0), Advance(0));
    RevokedAndWrong(mishap, early);
    hide Next, Happening;
    MishapSpared(mishap, early);
    TransactionsKeepMains(s, MishapRun(mishap, early, true), "c");
  }
}
