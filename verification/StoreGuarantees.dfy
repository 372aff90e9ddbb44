/**
 Guarantees over whole runs of the store: sessions and slot switches, isolation, retries, sequence
 numbers, and gameplay effects applied exactly once.
 */
module StoreGuarantees {
  import opened Wrappers
  import opened SaveDomain
  import opened SlotTables
  import opened SaveStore
  import opened StoreKeys
  import opened SaveStoreLaws
  import R = PassRotation

  ghost predicate ValidEvents(events: seq<Event>) {
    forall i | 0 <= i < |events| :: ValidEvent(events[i])
  }

  // ----- Switching -----

  lemma ExecuteKeepsActive(s: Setup, db: Db, usn: Usn, rpc: Rpc, now: int)
    requires Execute(s, db, usn, rpc, now).Ok? && db.active.Some?
    ensures Execute(s, db, usn, rpc, now).value.db.active == db.active
    ensures Execute(s, db, usn, rpc, now).value.db.pending != db.pending ==> rpc.SwitchRpc?
  {
    hide Apply, NewTables, UserIdTaken;
  }

  /** Once a slot is active, only a login changes the active slot, and then to the pending one. */
  lemma PendingTakesEffectAtLogin(s: Setup, db: Db, event: Event)
    requires db.active.Some? && Next(s, db, event).active != db.active
    ensures event.Login? && db.pending.Some? && Next(s, db, event).active == db.pending
    ensures Next(s, db, event).pending == None
  {
    hide CreateSlot, DeleteSlot, Commit, Execute, NewTables, AnchorAtLogin;
    match event {
      case Create(displayName, now) => CreateKeepsActive(s, db, displayName, now);
      case Delete(usn, typedName) => DeleteKeepsActive(db, usn, typedName);
      case Submit(r) =>
        if Commit(s, db, r).Ok? {
          CommitParts(s, db, r);
          if !Retried(db, r) {
            var begun := db.(sessions := db.sessions[r.nonce := db.sessions[r.nonce].(lastSeq := r.sequence)]);
            ExecuteKeepsActive(s, begun, r.usn, r.rpc, r.committedAt);
          }
        }
      case Direct(usn, call, now) =>
        if Execute(s, db, usn, SlotRpc(call), now).Ok? {
          ExecuteKeepsActive(s, db, usn, SlotRpc(call), now);
        }
      case _ =>
    }
  }

  lemma CreateKeepsActive(s: Setup, db: Db, displayName: string, now: int)
    requires db.active.Some? && CreateSlot(s, db, displayName, now).Ok?
    ensures CreateSlot(s, db, displayName, now).value.0.active == db.active
  {
    hide NewTables, UserIdTaken;
  }

  lemma DeleteKeepsActive(db: Db, usn: Usn, typedName: string)
    requires DeleteSlot(db, usn, typedName).Ok?
    ensures DeleteSlot(db, usn, typedName).value.active == db.active
  {
  }

  // ----- Sessions that are over -----

  /** The session cannot write: it was superseded, ended or deleted with its slot. */
  ghost predicate Closed(db: Db, nonce: int) {
    nonce <= db.nonce && (nonce in db.sessions ==> db.sessions[nonce].ended)
  }

  /** How a step may treat the sessions other than opening the one of the next nonce. */
  ghost predicate SessionsFollow(db: Db, after: Db) {
    && db.nonce <= after.nonce
    && forall n | n in after.sessions && n <= db.nonce ::
         && n in db.sessions && after.sessions[n].usn == db.sessions[n].usn
         && after.sessions[n].lastSeq >= db.sessions[n].lastSeq
         && (db.sessions[n].ended ==> after.sessions[n].ended)
  }

  lemma ExecuteSessions(s: Setup, db: Db, usn: Usn, rpc: Rpc, now: int)
    requires Execute(s, db, usn, rpc, now).Ok?
    ensures SessionsFollow(db, Execute(s, db, usn, rpc, now).value.db)
  {
    hide Apply, NewTables, UserIdTaken;
  }

  lemma CommitSessions(s: Setup, db: Db, r: Request)
    requires Commit(s, db, r).Ok?
    ensures SessionsFollow(db, Commit(s, db, r).value.0)
  {
    CommitParts(s, db, r);
    hide Commit, Execute;
    if !Retried(db, r) {
      var begun := db.(sessions := db.sessions[r.nonce := db.sessions[r.nonce].(lastSeq := r.sequence)]);
      ExecuteSessions(s, begun, r.usn, r.rpc, r.committedAt);
    }
  }

  lemma StepSessions(s: Setup, db: Db, event: Event)
    ensures SessionsFollow(db, Next(s, db, event))
  {
    hide Commit, Execute, NewTables, UserIdTaken, AnchorAtLogin, HashTaken;
    match event {
      case Submit(r) =>
        if Commit(s, db, r).Ok? {
          CommitSessions(s, db, r);
        }
      case Direct(usn, call, now) =>
        if Execute(s, db, usn, SlotRpc(call), now).Ok? {
          ExecuteSessions(s, db, usn, SlotRpc(call), now);
        }
      case _ =>
    }
  }

  lemma {:induction false} RunSessions(s: Setup, db: Db, events: seq<Event>)
    ensures SessionsFollow(db, Run(s, db, events))
    decreases |events|
  {
    hide Next;
    if events != [] {
      StepSessions(s, db, events[0]);
      RunSessions(s, Next(s, db, events[0]), events[1..]);
    }
  }

  lemma CommitNeedsSession(s: Setup, db: Db, r: Request)
    requires RefusedEarly(r.rpc).None? && !SessionOpen(db, r)
    ensures Commit(s, db, r) == Err(StaleRequest)
  {
    hide Execute;
  }

  /** A login closes every session before it. */
  lemma LoginCloses(db: Db, hash: string, clock: R.DeviceClock, nonce: int)
    requires Safe(db) && BeginLogin(db, hash, clock).Ok? && nonce <= db.nonce
    ensures Closed(BeginLogin(db, hash, clock).value, nonce)
  {
    LoginKeepsSafe(db, hash, clock);
    hide BeginLogin, SlotsOk, SelectionOk, LedgersOk;
  }

  /** A closed session never writes again, whatever happens in between. */
  lemma ClosedNeverWrites(s: Setup, db: Db, events: seq<Event>, r: Request)
    requires Closed(db, r.nonce) && RefusedEarly(r.rpc).None?
    ensures Commit(s, Run(s, db, events), r) == Err(StaleRequest)
  {
    hide Run, Commit;
    RunSessions(s, db, events);
    CommitNeedsSession(s, Run(s, db, events), r);
  }

  /** Whoever writes uses the newest session, on the active slot. */
  lemma OnlyNewestWrites(s: Setup, db: Db, r: Request)
    requires Safe(db) && Commit(s, db, r).Ok?
    ensures r.nonce == db.nonce && db.active == Some(r.usn)
  {
    CommitParts(s, db, r);
    hide Commit;
    OpenIsNewest(db, r);
  }

  // ----- Isolation -----

  /** The slot, its tables and its ledger are the same. */
  ghost predicate SameSlot(db: Db, after: Db, usn: Usn) {
    && usn in db.slots && usn in after.slots && after.slots[usn] == db.slots[usn]
    && usn in db.players && usn in after.players && after.players[usn] == db.players[usn]
    && usn in db.ledgers && usn in after.ledgers && after.ledgers[usn] == db.ledgers[usn]
  }

  lemma CreateKeepsOthers(s: Setup, db: Db, displayName: string, now: int, other: Usn)
    requires Safe(db) && other in db.slots && CreateSlot(s, db, displayName, now).Ok?
    ensures SameSlot(db, CreateSlot(s, db, displayName, now).value.0, other)
  {
    NextUsnFree(db);
    SlotsHaveRows(db, other);
    hide NewTables, UserIdTaken, NextUsn, Safe, UserIdOf;
  }

  lemma DeleteKeepsOthers(db: Db, usn: Usn, displayName: string, other: Usn)
    requires Safe(db) && other in db.slots && DeleteSlot(db, usn, displayName).Ok?
    ensures other != usn ==> SameSlot(db, DeleteSlot(db, usn, displayName).value, other)
    ensures other == usn ==> other !in DeleteSlot(db, usn, displayName).value.slots
  {
    SlotsHaveRows(db, other);
    hide Safe;
  }

  lemma ExecuteIsolated(s: Setup, db: Db, usn: Usn, rpc: Rpc, now: int, other: Usn)
    requires Safe(db) && Execute(s, db, usn, rpc, now).Ok? && other in db.slots && (other != usn || !rpc.SlotRpc?)
    ensures var after := Execute(s, db, usn, rpc, now).value.db;
      if rpc.DeleteRpc? && rpc.target == other then other !in after.slots else SameSlot(db, after, other)
  {
    SlotsHaveRows(db, other);
    hide Apply, Safe, CreateSlot, DeleteSlot, SwitchTo, SameSlot;
    match rpc {
      case SlotRpc(call) => CallIsolated(s, db, usn, call, now, other);
      case CreateRpc(displayName) => CreateKeepsOthers(s, db, displayName, now, other);
      case DeleteRpc(target, typedName) => DeleteKeepsOthers(db, target, typedName, other);
      case SwitchRpc(selector) => SwitchIsolated(db, selector, other);
    }
  }

  lemma CallIsolated(s: Setup, db: Db, usn: Usn, call: SlotCall, now: int, other: Usn)
    requires other in db.slots && other in db.players && other in db.ledgers && other != usn
    requires Execute(s, db, usn, SlotRpc(call), now).Ok?
    ensures SameSlot(db, Execute(s, db, usn, SlotRpc(call), now).value.db, other)
  {
    hide Apply;
  }

  lemma SwitchIsolated(db: Db, selector: string, other: Usn)
    requires other in db.slots && other in db.players && other in db.ledgers && SwitchTo(db, selector).Ok?
    ensures SameSlot(db, SwitchTo(db, selector).value.0, other)
  {
    hide Selected, MinOf;
  }

  /** A request changes nothing of any other slot, except that a deletion removes its target. */
  lemma CommitIsolated(s: Setup, db: Db, r: Request, other: Usn)
    requires Safe(db) && Commit(s, db, r).Ok? && other in db.slots && other != r.usn
    ensures var after := Commit(s, db, r).value.0;
      other in after.slots ==> SameSlot(db, after, other)
    ensures other !in Commit(s, db, r).value.0.slots ==> r.rpc.DeleteRpc? && r.rpc.target == other
  {
    CommitParts(s, db, r);
    SlotsHaveRows(db, other);
    hide Commit, Execute, KeyOf;
    if !Retried(db, r) {
      var begun := db.(sessions := db.sessions[r.nonce := db.sessions[r.nonce].(lastSeq := r.sequence)]);
      SequenceKeepsSafe(db, r.nonce, r.sequence);
      hide Safe;
      ExecuteIsolated(s, begun, r.usn, r.rpc, r.committedAt, other);
    }
  }

  lemma SlotsHaveRows(db: Db, usn: Usn)
    requires Safe(db) && usn in db.slots
    ensures usn in db.players && usn in db.ledgers
  {
  }

  // ----- Retries and keys -----

  /** A known key always gets its stored reply and changes nothing; it never conflicts. */
  lemma KnownKeyAnswers(s: Setup, db: Db, r: Request)
    requires Safe(db) && WellFormed(r) && SessionOpen(db, r) && RefusedEarly(r.rpc).None? && Retried(db, r)
    ensures r.usn in db.ledgers && KeyOf(r) in db.ledgers[r.usn]
    ensures Commit(s, db, r) == Ok((db, db.ledgers[r.usn][KeyOf(r)].reply))
  {
    RowAgrees(db, r);
    hide Execute, KeyOf, Safe;
  }

  /** The row of a known key was written by a request of the same name and number, and the same session if it is gameplay. */
  lemma RowAgrees(db: Db, r: Request)
    requires Safe(db) && WellFormed(r) && Retried(db, r)
    ensures r.usn in db.ledgers && KeyOf(r) in db.ledgers[r.usn]
    ensures var row := db.ledgers[r.usn][KeyOf(r)];
      row.requestSeq == r.sequence && row.rpc == r.name && (r.origin.Gameplay? ==> r.nonce <= db.nonce)
  {
    hide KeyOf, SlotsOk, SelectionOk, SessionsOk, WellFormed;
    var row := db.ledgers[r.usn][KeyOf(r)];
    assert RowOk(KeyOf(r), row, db.nonce);
    var w: Request :| WrittenBy(KeyOf(r), row, db.nonce, w);
    SharedKeyAgrees(r, w);
  }

  /** After a login, no gameplay request of the new session is taken for a retry. */
  lemma GameplayFreshAfterLogin(db: Db, hash: string, clock: R.DeviceClock, r: Request)
    requires Safe(db) && BeginLogin(db, hash, clock).Ok?
    requires WellFormed(r) && r.origin.Gameplay? && r.nonce == db.nonce + 1
    ensures !Retried(BeginLogin(db, hash, clock).value, r)
  {
    var after := BeginLogin(db, hash, clock).value;
    assert after.ledgers == db.ledgers;
    hide BeginLogin, KeyOf, WellFormed, Safe;
    if Retried(db, r) {
      RowAgrees(db, r);
    }
  }

  /** An accepted new request leaves the row that answers its retries. */
  lemma AcceptedIsKnown(s: Setup, db: Db, r: Request)
    requires Commit(s, db, r).Ok?
    ensures Retried(Commit(s, db, r).value.0, r)
  {
    CommitParts(s, db, r);
    hide Commit, Execute, KeyOf;
  }

  // ----- Sequence numbers -----

  /** The request is executed, not answered from the ledger. */
  ghost predicate Executes(s: Setup, db: Db, r: Request) {
    Commit(s, db, r).Ok? && !Retried(db, r)
  }

  lemma ExecutedRaises(s: Setup, db: Db, r: Request)
    requires Executes(s, db, r)
    ensures r.nonce in db.sessions && db.sessions[r.nonce].lastSeq < r.sequence
    ensures var after := Commit(s, db, r).value.0;
      r.nonce in after.sessions ==> after.sessions[r.nonce].lastSeq >= r.sequence
  {
    CommitParts(s, db, r);
    hide Commit, Execute, KeyOf;
    var begun := db.(sessions := db.sessions[r.nonce := db.sessions[r.nonce].(lastSeq := r.sequence)]);
    ExecuteSessionsExact(s, begun, r.usn, r.rpc, r.committedAt);
  }

  lemma ExecuteSessionsExact(s: Setup, db: Db, usn: Usn, rpc: Rpc, now: int)
    requires Execute(s, db, usn, rpc, now).Ok?
    ensures var after := Execute(s, db, usn, rpc, now).value.db;
      forall n | n in after.sessions :: n in db.sessions && after.sessions[n] == db.sessions[n]
  {
    hide Apply, NewTables, UserIdTaken;
  }

  lemma {:induction false} RunAppend(s: Setup, db: Db, a: seq<Event>, b: seq<Event>)
    ensures Run(s, db, a + b) == Run(s, Run(s, db, a), b)
    decreases |a|
  {
    hide Next;
    if a == [] {
      assert a + b == b;
    } else {
      RunAppend(s, Next(s, db, a[0]), a[1..], b);
      assert (a + b)[1..] == a[1..] + b;
    }
  }

  /** A run up to `j` passes through its event `i`. */
  lemma RunThrough(s: Setup, db: Db, events: seq<Event>, i: nat, j: nat)
    requires i < j < |events|
    ensures Run(s, db, events[..j]) == Run(s, Next(s, Run(s, db, events[..i]), events[i]), events[i + 1..j])
  {
    hide Next;
    var between := events[i + 1..j];
    assert events[..j] == events[..i] + ([events[i]] + between);
    RunAppend(s, db, events[..i], [events[i]] + between);
    assert ([events[i]] + between)[1..] == between;
  }

  /** In every run, the requests executed within one session have strictly increasing numbers. */
  lemma SequencesIncrease(s: Setup, db: Db, events: seq<Event>, i: nat, j: nat)
    requires Safe(db) && ValidEvents(events) && i < j < |events|
    requires events[i].Submit? && events[j].Submit? && events[i].request.nonce == events[j].request.nonce
    requires Executes(s, Run(s, db, events[..i]), events[i].request)
    requires Executes(s, Run(s, db, events[..j]), events[j].request)
    ensures events[i].request.sequence < events[j].request.sequence
  {
    hide Commit, Safe, Retried, SessionsFollow, Run, Execute, BeginLogin, CreateSlot, DeleteSlot, KeyOf;
    var before := Run(s, db, events[..i]);
    var after := Next(s, before, events[i]);
    var later := Run(s, db, events[..j]);
    RunThrough(s, db, events, i, j);
    RunKeepsSafe(s, db, events[..i]);
    OnlyNewestWrites(s, before, events[i].request);
    StepKeepsSafe(s, before, events[i]);
    ExecutedRaises(s, before, events[i].request);
    ExecutedRaises(s, later, events[j].request);
    RunSessions(s, after, events[i + 1..j]);
    LaterSequence(after, later, events[i].request.nonce, events[i].request.sequence);
  }

  lemma LaterSequence(db: Db, later: Db, nonce: int, sequence: int)
    requires SessionsFollow(db, later) && nonce <= db.nonce && nonce in later.sessions
    requires nonce in db.sessions ==> db.sessions[nonce].lastSeq >= sequence
    ensures later.sessions[nonce].lastSeq >= sequence
  {
  }
}
