/**
 What holds in every reachable store: slots, selection, sessions and ledger stay consistent, and
 every slot stays healthy.
 */
module SaveStoreLaws {
  import opened Wrappers
  import opened SaveDomain
  import opened SlotTables
  import opened SaveStore
  import opened StoreKeys
  import R = PassRotation

  // ----- Consistency -----

  /** Slots have positive numbers and the user id of their number; each has tables and a ledger. */
  ghost predicate SlotsOk(db: Db) {
    && db.players.Keys == db.slots.Keys && db.ledgers.Keys == db.slots.Keys
    && forall u | u in db.slots :: u > 0 && db.slots[u].userId == UserIdOf(u)
  }

  /** Active and pending name slots, and as soon as there is a slot one is active. */
  ghost predicate SelectionOk(db: Db) {
    && (db.active.Some? ==> db.active.value in db.slots)
    && (db.pending.Some? ==> db.pending.value in db.slots)
    && (db.slots != map[] ==> db.active.Some?)
  }

  /** Sessions belong to slots; an open one carries the newest nonce and belongs to the active slot. */
  ghost predicate SessionsOk(db: Db) {
    forall n | n in db.sessions ::
      && 0 < n <= db.nonce && db.sessions[n].usn in db.slots
      && (!db.sessions[n].ended ==> n == db.nonce && db.active == Some(db.sessions[n].usn))
  }

  /** A row was written for some request that has its key, and no later session's. */
  ghost predicate WrittenBy(key: string, row: LedgerRow, nonce: int, r: Request) {
    && WellFormed(r) && KeyOf(r) == key && r.sequence == row.requestSeq && r.name == row.rpc
    && (r.origin.Gameplay? ==> r.nonce <= nonce)
  }

  ghost predicate RowOk(key: string, row: LedgerRow, nonce: int) {
    exists r: Request :: WrittenBy(key, row, nonce, r)
  }

  ghost predicate LedgersOk(db: Db) {
    forall u, key | u in db.ledgers && key in db.ledgers[u] :: RowOk(key, db.ledgers[u][key], db.nonce)
  }

  ghost predicate Safe(db: Db) {
    SlotsOk(db) && SelectionOk(db) && SessionsOk(db) && LedgersOk(db) && db.nonce >= 0
  }

  /** Digests of submitted gameplay requests are SHA-256 texts. */
  predicate ValidEvent(event: Event) {
    event.Submit? && event.request.origin.Gameplay? ==> ValidDigest(event.request.origin.digest)
  }

  lemma EmptySafe()
    ensures Safe(EMPTY_DB)
  {
  }

  lemma NextUsnFree(db: Db)
    requires SlotsOk(db)
    ensures NextUsn(db) > 0 && NextUsn(db) !in db.slots && !UserIdTaken(db, UserIdOf(NextUsn(db)))
    ensures forall u | u in db.slots :: u < NextUsn(db)
  {
    var usn := NextUsn(db);
    if db.slots.Keys != {} {
      assert MaxOf(db.slots.Keys) in db.slots;
    }
    forall u | u in db.slots ensures u < usn && db.slots[u].userId != UserIdOf(usn) {
      if UserIdOf(u) == UserIdOf(usn) {
        IntTextInjective(USER_ID_BASE + u, USER_ID_BASE + usn);
      }
    }
  }

  function AddSlot(db: Db, usn: Usn, row: SlotRow, tables: Tables): Db {
    db.(slots := db.slots[usn := row], players := db.players[usn := tables], ledgers := db.ledgers[usn := map[]],
        active := if db.active.Some? then db.active else Some(usn))
  }

  lemma AddKeepsLedgers(db: Db, usn: Usn, row: SlotRow, tables: Tables)
    requires LedgersOk(db)
    ensures LedgersOk(AddSlot(db, usn, row, tables))
  {
    hide RowOk;
    var after := AddSlot(db, usn, row, tables);
    forall u, key | u in after.ledgers && key in after.ledgers[u]
      ensures RowOk(key, after.ledgers[u][key], after.nonce)
    {
      assert u in db.ledgers && key in db.ledgers[u];
    }
  }

  lemma AddKeepsSafe(db: Db, usn: Usn, row: SlotRow, tables: Tables)
    requires Safe(db) && usn > 0 && usn !in db.slots && row.userId == UserIdOf(usn)
    ensures Safe(AddSlot(db, usn, row, tables))
  {
    AddKeepsLedgers(db, usn, row, tables);
    hide UserIdOf, LedgersOk;
  }

  /** In a consistent store creating a slot succeeds, with a number above all others. */
  lemma CreateSucceeds(s: Setup, db: Db, displayName: string, now: int)
    requires Safe(db)
    ensures CreateSlot(s, db, displayName, now).Ok?
    ensures var (after, usn) := CreateSlot(s, db, displayName, now).value;
      && Safe(after) && after.nonce == db.nonce
      && usn !in db.slots && (forall u | u in db.slots :: u < usn)
      && after.slots == db.slots[usn := SlotRow(UserIdOf(usn), displayName)]
  {
    NextUsnFree(db);
    var usn := NextUsn(db);
    AddKeepsSafe(db, usn, SlotRow(UserIdOf(usn), displayName), NewTables(s.achievementIds, now));
    hide UserIdTaken, UserIdOf, NewTables, Safe, NextUsn;
  }

  lemma DeleteKeepsSafe(db: Db, usn: Usn, displayName: string)
    requires Safe(db) && DeleteSlot(db, usn, displayName).Ok?
    ensures Safe(DeleteSlot(db, usn, displayName).value) && DeleteSlot(db, usn, displayName).value.nonce == db.nonce
  {
    hide UserIdOf, RowOk;
    var after := DeleteSlot(db, usn, displayName).value;
    assert SlotsOk(after);
    assert SelectionOk(after);
    assert SessionsOk(after);
  }

  lemma PendingKeepsSafe(db: Db, usn: Usn)
    requires Safe(db) && usn in db.slots
    ensures Safe(db.(pending := Some(usn)))
  {
    hide UserIdOf, RowOk;
  }

  lemma RowLater(key: string, row: LedgerRow, nonce: int, later: int)
    requires RowOk(key, row, nonce) && nonce <= later
    ensures RowOk(key, row, later)
  {
    var r :| WrittenBy(key, row, nonce, r);
    assert WrittenBy(key, row, later, r);
  }

  /**
   A login opens the only open session, with a new nonce, on the slot that was pending, else on
   the active one, and no switch stays pending.
   */
  lemma LoginKeepsSafe(db: Db, hash: string, clock: R.DeviceClock)
    requires Safe(db) && BeginLogin(db, hash, clock).Ok?
    ensures var after := BeginLogin(db, hash, clock).value;
      && Safe(after) && after.nonce == db.nonce + 1 && after.pending == None
      && after.active == (if db.pending.Some? then db.pending else db.active)
      && (forall n | n in after.sessions :: !after.sessions[n].ended <==> n == after.nonce)
      && after.slots == db.slots
  {
    var after := BeginLogin(db, hash, clock).value;
    forall u, key | u in after.ledgers && key in after.ledgers[u]
      ensures RowOk(key, after.ledgers[u][key], after.nonce)
    {
      RowLater(key, db.ledgers[u][key], db.nonce, after.nonce);
    }
    hide UserIdOf, RowOk, AnchorAtLogin;
  }

  lemma EndKeepsSafe(db: Db, nonce: int)
    requires Safe(db)
    ensures Safe(EndSession(db, nonce)) && EndSession(db, nonce).nonce == db.nonce
  {
    hide UserIdOf, RowOk;
  }

  lemma ExecuteKeepsSafe(s: Setup, db: Db, usn: Usn, rpc: Rpc, now: int)
    requires Safe(db) && Execute(s, db, usn, rpc, now).Ok?
    ensures Safe(Execute(s, db, usn, rpc, now).value.db) && Execute(s, db, usn, rpc, now).value.db.nonce == db.nonce
  {
    hide Apply, CreateSlot, DeleteSlot, UserIdOf, RowOk;
    match rpc {
      case SlotRpc(call) =>
      case CreateRpc(displayName) => CreateSucceeds(s, db, displayName, now);
      case DeleteRpc(target, typedName) => DeleteKeepsSafe(db, target, typedName);
      case SwitchRpc(selector) =>
        hide Safe;
        PendingKeepsSafe(db, SwitchTo(db, selector).value.1);
    }
  }

  lemma SequenceKeepsSafe(db: Db, nonce: int, sequence: int)
    requires Safe(db) && nonce in db.sessions
    ensures Safe(db.(sessions := db.sessions[nonce := db.sessions[nonce].(lastSeq := sequence)]))
  {
    hide UserIdOf, RowOk;
  }

  lemma RecordKeepsSafe(db: Db, r: Request, reply: Reply)
    requires Safe(db) && r.usn in db.ledgers && WellFormed(r) && r.nonce <= db.nonce
    ensures Safe(db.(ledgers := db.ledgers[r.usn := db.ledgers[r.usn][KeyOf(r) := LedgerRow(r.sequence, r.name, reply)]]))
  {
    hide UserIdOf, KeyOf;
    var row := LedgerRow(r.sequence, r.name, reply);
    assert WrittenBy(KeyOf(r), row, db.nonce, r);
    hide RowOk;
  }

  lemma OpenIsNewest(db: Db, r: Request)
    requires Safe(db) && SessionOpen(db, r)
    ensures r.nonce == db.nonce && r.nonce > 0 && db.active == Some(r.usn)
  {
  }

  /** A commit in parts: the session, the ledger, the sequence, the command. */
  lemma CommitParts(s: Setup, db: Db, r: Request)
    requires Commit(s, db, r).Ok?
    ensures SessionOpen(db, r) && RefusedEarly(r.rpc).None?
    ensures Retried(db, r) ==>
      && r.usn in db.ledgers && KeyOf(r) in db.ledgers[r.usn]
      && Commit(s, db, r).value == (db, db.ledgers[r.usn][KeyOf(r)].reply)
    ensures !Retried(db, r) ==>
      var begun := db.(sessions := db.sessions[r.nonce := db.sessions[r.nonce].(lastSeq := r.sequence)]);
      && db.sessions[r.nonce].lastSeq < r.sequence
      && Execute(s, begun, r.usn, r.rpc, r.committedAt).Ok?
      && var e := Execute(s, begun, r.usn, r.rpc, r.committedAt).value;
      && r.usn in e.db.ledgers
      && Commit(s, db, r).value ==
         (e.db.(ledgers := e.db.ledgers[r.usn := e.db.ledgers[r.usn][KeyOf(r) := LedgerRow(r.sequence, r.name, e.replay)]]),
          e.reply)
  {
    hide Execute, KeyOf;
  }

  lemma CommitKeepsSafe(s: Setup, db: Db, r: Request)
    requires Safe(db) && ValidEvent(Submit(r)) && Commit(s, db, r).Ok?
    ensures Safe(Commit(s, db, r).value.0) && Commit(s, db, r).value.0.nonce == db.nonce
  {
    CommitParts(s, db, r);
    OpenIsNewest(db, r);
    hide Commit, Execute, KeyOf, Safe;
    if !Retried(db, r) {
      var begun := db.(sessions := db.sessions[r.nonce := db.sessions[r.nonce].(lastSeq := r.sequence)]);
      SequenceKeepsSafe(db, r.nonce, r.sequence);
      ExecuteKeepsSafe(s, begun, r.usn, r.rpc, r.committedAt);
      var e := Execute(s, begun, r.usn, r.rpc, r.committedAt).value;
      RecordKeepsSafe(e.db, r, e.replay);
    }
  }

  /** Every step keeps the store consistent, and the nonce never falls. */
  lemma StepKeepsSafe(s: Setup, db: Db, event: Event)
    requires Safe(db) && ValidEvent(event)
    ensures Safe(Next(s, db, event)) && db.nonce <= Next(s, db, event).nonce
  {
    hide CreateSlot, DeleteSlot, BeginLogin, EndSession, Commit, Execute, Safe;
    match event {
      case Create(displayName, now) => CreateSucceeds(s, db, displayName, now);
      case Switch(usn) =>
        if usn in db.slots {
          PendingKeepsSafe(db, usn);
        }
      case Delete(usn, typedName) =>
        if DeleteSlot(db, usn, typedName).Ok? {
          DeleteKeepsSafe(db, usn, typedName);
        }
      case Login(hash, clock) =>
        if BeginLogin(db, hash, clock).Ok? {
          LoginKeepsSafe(db, hash, clock);
        }
      case End(nonce) => EndKeepsSafe(db, nonce);
      case Submit(request) =>
        if Commit(s, db, request).Ok? {
          CommitKeepsSafe(s, db, request);
        }
      case Direct(usn, call, now) =>
        if Execute(s, db, usn, SlotRpc(call), now).Ok? {
          ExecuteKeepsSafe(s, db, usn, SlotRpc(call), now);
        }
    }
  }

  /**
   In every run from an empty store: at most one session is open, it carries the newest nonce and
   its slot is the active one; active and pending name existing slots once one exists.
   */
  lemma {:induction false} RunKeepsSafe(s: Setup, db: Db, events: seq<Event>)
    requires Safe(db) && forall i | 0 <= i < |events| :: ValidEvent(events[i])
    ensures Safe(Run(s, db, events)) && db.nonce <= Run(s, db, events).nonce
    decreases |events|
  {
    hide Safe, Next;
    if events != [] {
      StepKeepsSafe(s, db, events[0]);
      RunKeepsSafe(s, Next(s, db, events[0]), events[1..]);
    }
  }
}
