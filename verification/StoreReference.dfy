/**
 The store without its ledger: a reference that keeps no replies, only which keys were accepted, and
 decides by sessions, its own keys and its own tables. The store of crates/persistence-sqlite/src/lib.rs
 accepts and refuses exactly what the reference does, and slots end up the same.
 */
module StoreReference {
  import opened Wrappers
  import opened SaveDomain
  import opened SlotTables
  import opened SaveStore
  import opened StoreKeys
  import opened SaveStoreLaws
  import opened StoreGuarantees
  import opened StoreExactlyOnce
  import S = SlotRuns
  import R = PassRotation

  /** The ledgers of `store` stay empty; `seen` holds the accepted keys of each slot. */
  datatype Reference = Reference(store: Db, seen: map<Usn, set<string>>)

  function SeenBy(ref: Reference, usn: Usn): set<string> {
    if usn in ref.seen then ref.seen[usn] else {}
  }

  /** The reference after a change of its store: new slots have seen nothing, deleted ones are forgotten. */
  function Follow(seen: map<Usn, set<string>>, store: Db): Reference {
    Reference(store, map u | u in store.ledgers :: if u in seen then seen[u] else {})
  }

  function Accept(s: Setup, ref: Reference, r: Request): Result<Reference, StoreError> {
    if RefusedEarly(r.rpc).Some? then Err(RefusedEarly(r.rpc).value)
    else if !SessionOpen(ref.store, r) then Err(StaleRequest)
    else if KeyOf(r) in SeenBy(ref, r.usn) then Ok(ref)
    else if ref.store.sessions[r.nonce].lastSeq >= r.sequence then Err(StaleRequest)
    else
      var begun := ref.store.(sessions := ref.store.sessions[r.nonce := ref.store.sessions[r.nonce].(lastSeq := r.sequence)]);
      var e :- Execute(s, begun, r.usn, r.rpc, r.committedAt);
      if r.usn !in e.db.ledgers then Err(SqlConstraint)
      else Ok(Follow(ref.seen[r.usn := SeenBy(ref, r.usn) + {KeyOf(r)}], e.db))
  }

  /** Only requests have keys; every other event changes slots, selection, sessions and tables alone. */
  function RefStep(s: Setup, ref: Reference, event: Event): Result<Reference, StoreError> {
    if event.Submit? then Accept(s, ref, event.request)
    else
      var (after, _) :- Step(s, ref.store, event);
      Ok(Follow(ref.seen, after))
  }

  function RefNext(s: Setup, ref: Reference, event: Event): Reference {
    var o := RefStep(s, ref, event);
    if o.Ok? then o.value else ref
  }

  function RefRun(s: Setup, ref: Reference, events: seq<Event>): Reference
    decreases |events|
  {
    if events == [] then ref else RefRun(s, RefNext(s, ref, events[0]), events[1..])
  }

  // ----- Forgetting the ledger -----

  function Bare(db: Db): Db {
    db.(ledgers := map u | u in db.ledgers :: map[])
  }

  function SeenIn(db: Db): map<Usn, set<string>> {
    map u | u in db.ledgers :: db.ledgers[u].Keys
  }

  function Forget(db: Db): Reference {
    Reference(Bare(db), SeenIn(db))
  }

  lemma FollowSame(db: Db, after: Db)
    requires KeepsLedgers(db, after)
    ensures Follow(SeenIn(db), Bare(after)) == Forget(after)
  {
    forall u | u in after.ledgers ensures Follow(SeenIn(db), Bare(after)).seen[u] == SeenIn(after)[u] {
      assert after.ledgers[u] == LedgerOf(db, u);
    }
    assert Follow(SeenIn(db), Bare(after)).seen == SeenIn(after);
  }

  /** The ledgers of the slots that stay are as before, and those of new slots are empty. */
  ghost predicate KeepsLedgers(db: Db, after: Db) {
    forall u | u in after.ledgers :: after.ledgers[u] == LedgerOf(db, u)
  }

  /** The new ledger row of `r` is a new key of the reference. */
  lemma FollowRecord(db: Db, after: Db, r: Request, row: LedgerRow)
    requires KeepsLedgers(db, after) && r.usn in after.ledgers
    ensures Follow(SeenIn(db)[r.usn := SeenBy(Forget(db), r.usn) + {KeyOf(r)}], Bare(after))
         == Forget(after.(ledgers := after.ledgers[r.usn := after.ledgers[r.usn][KeyOf(r) := row]]))
  {
    hide KeyOf;
    var recorded := after.(ledgers := after.ledgers[r.usn := after.ledgers[r.usn][KeyOf(r) := row]]);
    assert Bare(recorded) == Bare(after);
    var ref := Follow(SeenIn(db)[r.usn := SeenBy(Forget(db), r.usn) + {KeyOf(r)}], Bare(after));
    forall u | u in after.ledgers ensures ref.seen[u] == SeenIn(recorded)[u] {
      assert after.ledgers[u] == LedgerOf(db, u);
    }
    assert ref.seen == SeenIn(recorded);
  }

  /** A command inside a commit never looks at ledgers, and it leaves those of the slots that stay. */
  lemma ExecuteForgets(s: Setup, db: Db, usn: Usn, rpc: Rpc, now: int)
    requires Safe(db)
    ensures var (o, o') := (Execute(s, db, usn, rpc, now), Execute(s, Bare(db), usn, rpc, now));
      && (o.Err? ==> o' == Err(o.error))
      && (o.Ok? ==> o'.Ok? && o'.value.db == Bare(o.value.db))
      && (o.Ok? ==> KeepsLedgers(db, o.value.db))
  {
    hide Apply, NewTables, UserIdOf, CreateSlot, DeleteSlot, Selected, NextUsn, KeepsLedgers, UserIdTaken;
    LedgersOfSlots(db);
    LedgersKept(db);
    match rpc {
      case SlotRpc(call) =>
      case CreateRpc(displayName) =>
        NextUsnFree(db);
        CreateForgets(s, db, displayName, now);
      case DeleteRpc(target, typedName) => DeleteForgets(db, target, typedName);
      case SwitchRpc(selector) => SelectedSame(db, selector);
    }
  }

  lemma LedgersKept(db: Db)
    ensures forall after: Db | after.ledgers == db.ledgers :: KeepsLedgers(db, after)
  {
  }

  lemma SelectedSame(db: Db, selector: string)
    ensures Selected(Bare(db), selector) == Selected(db, selector)
  {
  }

  lemma LedgersOfSlots(db: Db)
    requires Safe(db)
    ensures db.ledgers.Keys == db.slots.Keys && SlotsOk(db)
  {
  }

  lemma CreateForgets(s: Setup, db: Db, displayName: string, now: int)
    requires db.ledgers.Keys == db.slots.Keys && NextUsn(db) !in db.slots
    ensures var (o, o') := (CreateSlot(s, db, displayName, now), CreateSlot(s, Bare(db), displayName, now));
      && (o.Err? ==> o' == Err(o.error))
      && (o.Ok? ==> o'.Ok? && o'.value.0 == Bare(o.value.0) && o'.value.1 == o.value.1)
      && (o.Ok? ==> KeepsLedgers(db, o.value.0))
  {
    hide NewTables, UserIdOf, MaxOr;
    assert UserIdTaken(Bare(db), UserIdOf(NextUsn(db))) == UserIdTaken(db, UserIdOf(NextUsn(db)));
  }

  lemma DeleteForgets(db: Db, usn: Usn, typedName: string)
    ensures var (o, o') := (DeleteSlot(db, usn, typedName), DeleteSlot(Bare(db), usn, typedName));
      && (o.Err? ==> o' == Err(o.error))
      && (o.Ok? ==> o'.Ok? && o'.value == Bare(o.value))
      && (o.Ok? ==> KeepsLedgers(db, o.value))
  {
  }

  // ----- One event -----

  /** The reference fails with the same error, or goes where the store goes. */
  ghost predicate Matches(s: Setup, db: Db, event: Event) {
    var (o, o') := (Step(s, db, event), RefStep(s, Forget(db), event));
    if o.Ok? then o' == Ok(Forget(o.value.0)) else o' == Err(o.error)
  }

  lemma SubmitMatches(s: Setup, db: Db, r: Request)
    requires Safe(db) && ValidEvent(Submit(r))
    ensures Matches(s, db, Submit(r))
  {
    hide Execute, KeyOf, RefusedEarly;
    assert SessionOpen(Bare(db), r) == SessionOpen(db, r);
    assert Retried(db, r) <==> KeyOf(r) in SeenBy(Forget(db), r.usn);
    if RefusedEarly(r.rpc).None? && SessionOpen(db, r) {
      OpenIsNewest(db, r);
      if Retried(db, r) {
        KnownKeyAnswers(s, db, r);
      } else if db.sessions[r.nonce].lastSeq < r.sequence {
        NewKeyMatches(s, db, r);
      }
    }
  }

  /** The number of `r` recorded in its session. */
  function Begun(db: Db, r: Request): Db
    requires r.nonce in db.sessions
  {
    db.(sessions := db.sessions[r.nonce := db.sessions[r.nonce].(lastSeq := r.sequence)])
  }

  lemma CommitOfNewKey(s: Setup, db: Db, r: Request)
    requires RefusedEarly(r.rpc).None? && SessionOpen(db, r) && !Retried(db, r)
    requires db.sessions[r.nonce].lastSeq < r.sequence
    ensures Commit(s, db, r) ==
      match Execute(s, Begun(db, r), r.usn, r.rpc, r.committedAt)
      case Err(e) => Err(e)
      case Ok(x) =>
        if r.usn !in x.db.ledgers then Err(SqlConstraint)
        else
          Ok((x.db.(ledgers := x.db.ledgers[r.usn := x.db.ledgers[r.usn][KeyOf(r) := LedgerRow(r.sequence, r.name, x.replay)]]),
              x.reply))
  {
    hide Execute, KeyOf, RefusedEarly;
  }

  lemma AcceptOfNewKey(s: Setup, ref: Reference, r: Request)
    requires RefusedEarly(r.rpc).None? && SessionOpen(ref.store, r) && KeyOf(r) !in SeenBy(ref, r.usn)
    requires ref.store.sessions[r.nonce].lastSeq < r.sequence
    ensures Accept(s, ref, r) ==
      match Execute(s, Begun(ref.store, r), r.usn, r.rpc, r.committedAt)
      case Err(e) => Err(e)
      case Ok(x) =>
        if r.usn !in x.db.ledgers then Err(SqlConstraint)
        else Ok(Follow(ref.seen[r.usn := SeenBy(ref, r.usn) + {KeyOf(r)}], x.db))
  {
    hide Execute, KeyOf, RefusedEarly, Follow, SeenBy;
  }

  lemma NewKeyMatches(s: Setup, db: Db, r: Request)
    requires Safe(db) && RefusedEarly(r.rpc).None? && SessionOpen(db, r) && !Retried(db, r)
    requires db.sessions[r.nonce].lastSeq < r.sequence
    ensures Matches(s, db, Submit(r))
  {
    var begun := Begun(db, r);
    SequenceKeepsSafe(db, r.nonce, r.sequence);
    hide Safe, Execute, KeyOf, RefusedEarly, KeepsLedgers;
    ExecuteForgets(s, begun, r.usn, r.rpc, r.committedAt);
    CommitOfNewKey(s, db, r);
    AcceptOfNewKey(s, Forget(db), r);
    SameLedgers(db, begun);
    assert Bare(begun) == Begun(Bare(db), r);
    hide Commit, Accept, Retried, SessionOpen, Follow, SeenIn, SeenBy, Step, RefStep, Matches, Begun;
    var o := Execute(s, begun, r.usn, r.rpc, r.committedAt);
    if o.Ok? && r.usn in o.value.db.ledgers {
      FollowRecord(begun, o.value.db, r, LedgerRow(r.sequence, r.name, o.value.replay));
    }
    MatchesCommit(s, db, r);
  }

  lemma MatchesCommit(s: Setup, db: Db, r: Request)
    requires Commit(s, db, r).Ok? ==> Accept(s, Forget(db), r) == Ok(Forget(Commit(s, db, r).value.0))
    requires Commit(s, db, r).Err? ==> Accept(s, Forget(db), r) == Err(Commit(s, db, r).error)
    ensures Matches(s, db, Submit(r))
  {
    hide Commit, Accept, Forget;
  }

  lemma SameLedgers(db: Db, after: Db)
    requires db.ledgers == after.ledgers
    ensures SeenIn(after) == SeenIn(db) && forall u :: SeenBy(Forget(after), u) == SeenBy(Forget(db), u)
  {
  }

  lemma LoginForgets(db: Db, hash: string, clock: R.DeviceClock)
    ensures var (o, o') := (BeginLogin(db, hash, clock), BeginLogin(Bare(db), hash, clock));
      && (o.Err? ==> o' == Err(o.error))
      && (o.Ok? ==> o' == Ok(Bare(o.value)) && o.value.ledgers == db.ledgers)
  {
    hide AnchorAtLogin, HashTaken, EndAll;
  }

  lemma LoginMatches(s: Setup, db: Db, hash: string, clock: R.DeviceClock)
    ensures Matches(s, db, Login(hash, clock))
  {
    LoginForgets(db, hash, clock);
    LedgersKept(db);
    hide BeginLogin, KeepsLedgers, Commit, Execute, Accept;
    if BeginLogin(db, hash, clock).Ok? {
      FollowSame(db, BeginLogin(db, hash, clock).value);
    }
  }

  lemma DirectMatches(s: Setup, db: Db, usn: Usn, call: SlotCall, now: int)
    requires Safe(db)
    ensures Matches(s, db, Direct(usn, call, now))
  {
    ExecuteForgets(s, db, usn, SlotRpc(call), now);
    hide Execute, Safe, KeepsLedgers;
    if Execute(s, db, usn, SlotRpc(call), now).Ok? {
      FollowSame(db, Execute(s, db, usn, SlotRpc(call), now).value.db);
    }
  }

  lemma CreateMatches(s: Setup, db: Db, displayName: string, now: int)
    requires Safe(db)
    ensures Matches(s, db, Create(displayName, now))
  {
    LedgersOfSlots(db);
    NextUsnFree(db);
    CreateForgets(s, db, displayName, now);
    hide CreateSlot, Safe, KeepsLedgers, NextUsn;
    if CreateSlot(s, db, displayName, now).Ok? {
      FollowSame(db, CreateSlot(s, db, displayName, now).value.0);
    }
  }

  lemma DeleteMatches(s: Setup, db: Db, usn: Usn, typedName: string)
    ensures Matches(s, db, Delete(usn, typedName))
  {
    DeleteForgets(db, usn, typedName);
    hide DeleteSlot, KeepsLedgers;
    if DeleteSlot(db, usn, typedName).Ok? {
      FollowSame(db, DeleteSlot(db, usn, typedName).value);
    }
  }

  lemma SwitchMatches(s: Setup, db: Db, usn: Usn)
    ensures Matches(s, db, Switch(usn))
  {
    FollowSame(db, db.(pending := Some(usn)));
  }

  lemma EndMatches(s: Setup, db: Db, nonce: int)
    ensures Matches(s, db, End(nonce))
  {
    FollowSame(db, EndSession(db, nonce));
  }

  /** The store accepts, refuses and changes exactly as the reference, which has no ledger. */
  lemma StepMatches(s: Setup, db: Db, event: Event)
    requires Safe(db) && ValidEvent(event)
    ensures Matches(s, db, event)
  {
    hide Matches, Safe;
    match event {
      case Submit(r) => SubmitMatches(s, db, r);
      case Login(hash, clock) => LoginMatches(s, db, hash, clock);
      case Direct(usn, call, now) => DirectMatches(s, db, usn, call, now);
      case Create(displayName, now) => CreateMatches(s, db, displayName, now);
      case Delete(usn, typedName) => DeleteMatches(s, db, usn, typedName);
      case Switch(usn) => SwitchMatches(s, db, usn);
      case End(nonce) => EndMatches(s, db, nonce);
    }
  }

  // ----- Whole runs -----

  /** Over any run the store, its ledger forgotten, is where the reference is. */
  lemma {:induction false} RunMatches(s: Setup, db: Db, events: seq<Event>)
    requires Safe(db) && ValidEvents(events)
    ensures Forget(Run(s, db, events)) == RefRun(s, Forget(db), events)
    decreases |events|
  {
    hide Safe, Step, RefStep, Forget;
    if events != [] {
      StepMatches(s, db, events[0]);
      StepKeepsSafe(s, db, events[0]);
      RunMatches(s, Next(s, db, events[0]), events[1..]);
    }
  }

  /** What an event does to a slot, by the reference alone: an accepted command under a key not seen before. */
  function RefEffect(s: Setup, ref: Reference, event: Event, usn: Usn): seq<S.SlotStep> {
    if RefStep(s, ref, event).Err? then []
    else
      match event
      case Submit(r) =>
        if r.usn == usn && r.rpc.SlotRpc? && KeyOf(r) !in SeenBy(ref, usn) then [S.Command(r.rpc.call, r.committedAt)] else []
      case Direct(target, call, now) => if target == usn then [S.Command(call, now)] else []
      case Login(_, clock) => if RefNext(s, ref, event).store.active == Some(usn) then [S.Login(clock)] else []
      case _ => []
  }

  function RefOccurrences(s: Setup, ref: Reference, events: seq<Event>, usn: Usn): seq<S.SlotStep>
    decreases |events|
  {
    if events == [] then []
    else RefEffect(s, ref, events[0], usn) + RefOccurrences(s, RefNext(s, ref, events[0]), events[1..], usn)
  }

  ghost predicate RefSurvives(s: Setup, ref: Reference, events: seq<Event>, usn: Usn)
    decreases |events|
  {
    usn in ref.store.slots && (events == [] || RefSurvives(s, RefNext(s, ref, events[0]), events[1..], usn))
  }

  lemma SameEffect(s: Setup, db: Db, event: Event, usn: Usn)
    requires Matches(s, db, event) && usn in db.ledgers
    ensures RefNext(s, Forget(db), event) == Forget(Next(s, db, event))
    ensures RefEffect(s, Forget(db), event, usn) == EffectOf(s, db, event, usn, db.ledgers[usn].Keys)
  {
    hide Step, RefStep, KeyOf;
  }

  lemma {:induction false} SameOccurrences(s: Setup, db: Db, events: seq<Event>, usn: Usn)
    requires Safe(db) && ValidEvents(events) && RefSurvives(s, Forget(db), events, usn)
    ensures Survives(s, db, events, usn) && usn in db.players && usn in db.ledgers
    ensures RefOccurrences(s, Forget(db), events, usn) == FirstOccurrences(s, db, events, usn, db.ledgers[usn].Keys)
    decreases |events|
  {
    SlotsHaveRows(db, usn);
    hide Safe, Step, RefStep, EffectOf, RefEffect, SeenAfter, Next, RefNext;
    if events != [] {
      var next := Next(s, db, events[0]);
      StepMatches(s, db, events[0]);
      SameEffect(s, db, events[0], usn);
      StepKeepsSafe(s, db, events[0]);
      SameOccurrences(s, next, events[1..], usn);
      EventRefines(s, db, events[0], usn);
    }
  }

  /**
   Exactly once, told by the reference: over any run that a slot lives through, its tables are what the
   commands lead to that the reference accepts under keys it had not seen, in order.
   */
  lemma ReferenceExactlyOnce(s: Setup, db: Db, events: seq<Event>, usn: Usn)
    requires Safe(db) && ValidEvents(events) && RefSurvives(s, Forget(db), events, usn)
    ensures usn in db.players && usn in Run(s, db, events).players
    ensures Run(s, db, events).players[usn]
         == S.RunSlot(s.rules, db.players[usn], RefOccurrences(s, Forget(db), events, usn))
  {
    hide Safe, Run, S.RunSlot, RefSurvives, Survives, RefOccurrences, FirstOccurrences;
    SameOccurrences(s, db, events, usn);
    ExactlyOnce(s, db, events, usn);
  }
}
