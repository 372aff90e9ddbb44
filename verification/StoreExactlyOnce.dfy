/**
 Gameplay effects are applied exactly once: whatever mix of new, retried, stale and failing
 requests, logins and slot operations a store runs through, the tables of a slot end up as if only
 the first accepted occurrence of each key had been applied, in order.
 */
module StoreExactlyOnce {
  import opened Wrappers
  import opened SaveDomain
  import opened SlotRewards
  import opened SlotTables
  import opened SaveStore
  import opened SaveStoreLaws
  import opened StoreGuarantees
  import B = ClientSave
  import H = SlotHealth
  import L = SlotCommandLaws
  import S = SlotRuns
  import R = PassRotation

  // ----- The reference: first occurrences only -----

  /** What one accepted event does to a slot when the keys in `seen` were accepted before. */
  function EffectOf(s: Setup, db: Db, event: Event, usn: Usn, seen: set<string>): seq<S.SlotStep> {
    if Step(s, db, event).Err? then []
    else
      match event
      case Submit(r) =>
        if r.usn == usn && r.rpc.SlotRpc? && KeyOf(r) !in seen then [S.Command(r.rpc.call, r.committedAt)] else []
      case Direct(target, call, now) => if target == usn then [S.Command(call, now)] else []
      case Login(_, clock) => if Next(s, db, event).active == Some(usn) then [S.Login(clock)] else []
      case _ => []
  }

  function SeenAfter(s: Setup, db: Db, event: Event, usn: Usn, seen: set<string>): set<string> {
    if event.Submit? && event.request.usn == usn && Step(s, db, event).Ok? then seen + {KeyOf(event.request)} else seen
  }

  function FirstOccurrences(s: Setup, db: Db, events: seq<Event>, usn: Usn, seen: set<string>): seq<S.SlotStep>
    decreases |events|
  {
    if events == [] then []
    else EffectOf(s, db, events[0], usn, seen)
         + FirstOccurrences(s, Next(s, db, events[0]), events[1..], usn, SeenAfter(s, db, events[0], usn, seen))
  }

  /** The slot is never deleted along the run. */
  ghost predicate Survives(s: Setup, db: Db, events: seq<Event>, usn: Usn)
    decreases |events|
  {
    usn in db.slots && (events == [] || Survives(s, Next(s, db, events[0]), events[1..], usn))
  }

  // ----- One event -----

  /**
   After the event the slot's tables are those the effect leads to; its ledger knows the new key and
   keeps every row it had.
   */
  ghost predicate Refines(s: Setup, db: Db, event: Event, usn: Usn)
    requires usn in db.players && usn in db.ledgers
  {
    var after := Next(s, db, event);
    var seen := db.ledgers[usn].Keys;
    && usn in after.players && usn in after.ledgers
    && after.players[usn] == S.RunSlot(s.rules, db.players[usn], EffectOf(s, db, event, usn, seen))
    && after.ledgers[usn].Keys == SeenAfter(s, db, event, usn, seen)
    && forall key | key in db.ledgers[usn] :: after.ledgers[usn][key] == db.ledgers[usn][key]
  }

  lemma RunNothing(rules: Rules, t: Tables)
    ensures S.RunSlot(rules, t, []) == t
  {
  }

  lemma RunOne(rules: Rules, t: Tables, step: S.SlotStep)
    ensures S.RunSlot(rules, t, [step]) == S.TakeStep(rules, t, step)
  {
    hide S.TakeStep;
    assert [step][1..] == [];
  }

  lemma RunCommand(rules: Rules, t: Tables, call: SlotCall, now: int)
    requires Apply(rules, t, call, now).Ok?
    ensures S.RunSlot(rules, t, [S.Command(call, now)]) == Apply(rules, t, call, now).value.tables
  {
    hide Apply, S.RunSlot;
    RunOne(rules, t, S.Command(call, now));
  }

  lemma RunLogin(rules: Rules, t: Tables, clock: R.DeviceClock)
    ensures S.RunSlot(rules, t, [S.Login(clock)]) == AnchorAtLogin(t, clock)
  {
    hide Apply, S.RunSlot, AnchorAtLogin;
    RunOne(rules, t, S.Login(clock));
  }

  lemma ExecuteSlotRpc(s: Setup, db: Db, usn: Usn, call: SlotCall, now: int)
    requires Execute(s, db, usn, SlotRpc(call), now).Ok?
    ensures usn in db.players && Apply(s.rules, db.players[usn], call, now).Ok?
    ensures var a := Apply(s.rules, db.players[usn], call, now).value;
      Execute(s, db, usn, SlotRpc(call), now).value == Executed(db.(players := db.players[usn := a.tables]), a.reply, a.replay)
  {
    hide Apply;
  }

  lemma SubmitRefines(s: Setup, db: Db, r: Request, usn: Usn)
    requires Safe(db) && usn in db.players && usn in db.ledgers && usn in db.slots
    requires usn in Next(s, db, Submit(r)).slots
    ensures Refines(s, db, Submit(r), usn)
  {
    hide Commit, Execute, Apply, S.RunSlot, KeyOf;
    RunNothing(s.rules, db.players[usn]);
    if Commit(s, db, r).Ok? {
      CommitParts(s, db, r);
      if !Retried(db, r) {
        var begun := db.(sessions := db.sessions[r.nonce := db.sessions[r.nonce].(lastSeq := r.sequence)]);
        SequenceKeepsSafe(db, r.nonce, r.sequence);
        hide Safe;
        if r.rpc.SlotRpc? {
          ExecuteSlotRpc(s, begun, r.usn, r.rpc.call, r.committedAt);
          RunCommand(s.rules, db.players[r.usn], r.rpc.call, r.committedAt);
        } else {
          ExecuteIsolated(s, begun, r.usn, r.rpc, r.committedAt, usn);
        }
      }
    }
  }

  lemma LoginRefines(s: Setup, db: Db, hash: string, clock: R.DeviceClock, usn: Usn)
    requires usn in db.players && usn in db.ledgers
    ensures Refines(s, db, Login(hash, clock), usn)
  {
    hide Apply, S.RunSlot, AnchorAtLogin, HashTaken, Commit, Execute;
    RunNothing(s.rules, db.players[usn]);
    RunLogin(s.rules, db.players[usn], clock);
  }

  lemma DirectRefines(s: Setup, db: Db, target: Usn, call: SlotCall, now: int, usn: Usn)
    requires usn in db.players && usn in db.ledgers
    ensures Refines(s, db, Direct(target, call, now), usn)
  {
    hide Apply, S.RunSlot, Execute, Commit;
    RunNothing(s.rules, db.players[usn]);
    if Execute(s, db, target, SlotRpc(call), now).Ok? {
      ExecuteSlotRpc(s, db, target, call, now);
      RunCommand(s.rules, db.players[target], call, now);
    }
  }

  /** An event that leaves the slot alone. */
  lemma SameRefines(s: Setup, db: Db, event: Event, usn: Usn)
    requires usn in db.players && usn in db.ledgers && SameSlot(db, Next(s, db, event), usn)
    requires event.Create? || event.Switch? || event.Delete? || event.End?
    ensures Refines(s, db, event, usn)
  {
    hide Next, S.RunSlot, Step;
    RunNothing(s.rules, db.players[usn]);
  }

  lemma NextOfSlotStep(s: Setup, db: Db, event: Event)
    ensures event.Create? ==>
      var o := CreateSlot(s, db, event.displayName, event.now); Next(s, db, event) == if o.Ok? then o.value.0 else db
    ensures event.Delete? ==>
      var o := DeleteSlot(db, event.usn, event.typedName); Next(s, db, event) == if o.Ok? then o.value else db
    ensures event.Switch? ==>
      var o := RequestSwitch(db, event.usn); Next(s, db, event) == if o.Ok? then o.value else db
    ensures event.End? ==> Next(s, db, event) == EndSession(db, event.nonce)
  {
    hide CreateSlot, DeleteSlot, RequestSwitch, EndSession, Commit, Execute, BeginLogin;
  }

  lemma SelectionSame(db: Db, event: Event, usn: Usn)
    requires usn in db.slots && usn in db.players && usn in db.ledgers
    ensures SameSlot(db, db, usn)
    ensures event.Switch? && RequestSwitch(db, event.usn).Ok? ==> SameSlot(db, RequestSwitch(db, event.usn).value, usn)
    ensures event.End? ==> SameSlot(db, EndSession(db, event.nonce), usn)
  {
  }

  lemma SlotStepsSame(s: Setup, db: Db, event: Event, usn: Usn)
    requires Safe(db) && usn in db.slots && usn in Next(s, db, event).slots
    requires event.Create? || event.Switch? || event.Delete? || event.End?
    ensures SameSlot(db, Next(s, db, event), usn)
  {
    SlotsHaveRows(db, usn);
    NextOfSlotStep(s, db, event);
    SelectionSame(db, event, usn);
    hide Safe, SameSlot, CreateSlot, DeleteSlot, RequestSwitch, EndSession, Next;
    match event {
      case Create(displayName, now) =>
        if CreateSlot(s, db, displayName, now).Ok? {
          CreateKeepsOthers(s, db, displayName, now, usn);
        }
      case Delete(target, typedName) =>
        if DeleteSlot(db, target, typedName).Ok? {
          DeleteKeepsOthers(db, target, typedName, usn);
        }
      case _ =>
    }
  }

  lemma EventRefines(s: Setup, db: Db, event: Event, usn: Usn)
    requires Safe(db) && usn in db.players && usn in db.ledgers && usn in db.slots && usn in Next(s, db, event).slots
    ensures Refines(s, db, event, usn)
  {
    hide Safe, Refines, Next;
    match event {
      case Submit(r) => SubmitRefines(s, db, r, usn);
      case Login(hash, clock) => LoginRefines(s, db, hash, clock, usn);
      case Direct(target, call, now) => DirectRefines(s, db, target, call, now, usn);
      case _ =>
        SlotStepsSame(s, db, event, usn);
        SameRefines(s, db, event, usn);
    }
  }

  // ----- Whole runs -----

  /**
   Over any run a slot lives through, its tables are what its first accepted occurrences lead to,
   starting from the keys its ledger holds.
   */
  lemma {:induction false} ExactlyOnce(s: Setup, db: Db, events: seq<Event>, usn: Usn)
    requires Safe(db) && ValidEvents(events) && Survives(s, db, events, usn)
    requires usn in db.players && usn in db.ledgers
    ensures usn in Run(s, db, events).players
    ensures Run(s, db, events).players[usn]
         == S.RunSlot(s.rules, db.players[usn], FirstOccurrences(s, db, events, usn, db.ledgers[usn].Keys))
    decreases |events|
  {
    hide Safe, Next, EffectOf, SeenAfter, S.RunSlot;
    if events == [] {
      RunNothing(s.rules, db.players[usn]);
    } else {
      var next := Next(s, db, events[0]);
      var seen := db.ledgers[usn].Keys;
      assert Survives(s, next, events[1..], usn);
      StepKeepsSafe(s, db, events[0]);
      EventRefines(s, db, events[0], usn);
      ExactlyOnce(s, next, events[1..], usn);
      S.RunAppend(s.rules, db.players[usn], EffectOf(s, db, events[0], usn, seen),
                  FirstOccurrences(s, next, events[1..], usn, next.ledgers[usn].Keys));
    }
  }

  /**
   So over any run, retries included, the candy and the other balances owned by transactions of a
   slot move by the net amounts of its first accepted occurrences.
   */
  lemma StoreConserves(s: Setup, db: Db, events: seq<Event>, usn: Usn, kind: CurrencyKind)
    requires Safe(db) && ValidEvents(events) && Survives(s, db, events, usn) && B.TransactionOwned(kind)
    requires usn in db.players && usn in db.ledgers
    ensures usn in Run(s, db, events).players
    ensures Balance(Run(s, db, events).players[usn].holdings.wallet, kind)
         == Balance(db.players[usn].holdings.wallet, kind)
            + S.NetOver(s.rules, db.players[usn], FirstOccurrences(s, db, events, usn, db.ledgers[usn].Keys), kind)
  {
    hide Safe, Run, S.RunSlot, S.NetOver, FirstOccurrences, Balance, B.TransactionOwned, Survives;
    ExactlyOnce(s, db, events, usn);
    S.RunConserves(s.rules, db.players[usn], FirstOccurrences(s, db, events, usn, db.ledgers[usn].Keys), kind);
  }

  // ----- Health of all slots -----

  ghost predicate AllHealthy(m: H.Master, db: Db) {
    forall u | u in db.players :: H.Healthy(m, db.players[u])
  }

  /** Commands reach the store with their fixed arguments from the master data. */
  ghost predicate EventIssued(m: H.Master, event: Event) {
    match event
    case Submit(r) => r.rpc.SlotRpc? ==> H.IssuedBy(m, r.rpc.call)
    case Direct(_, call, _) => H.IssuedBy(m, call)
    case _ => true
  }

  lemma ExecuteKeepsHealthy(m: H.Master, s: Setup, db: Db, usn: Usn, rpc: Rpc, now: int)
    requires H.ValidMaster(m) && AllHealthy(m, db) && (rpc.SlotRpc? ==> H.IssuedBy(m, rpc.call))
    requires Execute(s, db, usn, rpc, now).Ok?
    ensures AllHealthy(m, Execute(s, db, usn, rpc, now).value.db)
  {
    hide Apply, NewTables, UserIdTaken, H.Healthy, H.ValidMaster, H.IssuedBy, H.Progresses;
    match rpc {
      case SlotRpc(call) => L.CommandKeeps(m, s.rules, db.players[usn], call, now);
      case CreateRpc(displayName) => L.NewTablesHealthy(m, s.achievementIds, now);
      case _ =>
    }
  }

  lemma CommitKeepsHealthy(m: H.Master, s: Setup, db: Db, r: Request)
    requires H.ValidMaster(m) && AllHealthy(m, db) && EventIssued(m, Submit(r)) && Commit(s, db, r).Ok?
    ensures AllHealthy(m, Commit(s, db, r).value.0)
  {
    CommitParts(s, db, r);
    hide Commit, Execute, KeyOf, H.Healthy, H.ValidMaster, H.IssuedBy;
    if !Retried(db, r) {
      var begun := db.(sessions := db.sessions[r.nonce := db.sessions[r.nonce].(lastSeq := r.sequence)]);
      ExecuteKeepsHealthy(m, s, begun, r.usn, r.rpc, r.committedAt);
    }
  }

  lemma LoginKeepsHealthy(m: H.Master, db: Db, hash: string, clock: R.DeviceClock)
    requires H.ValidMaster(m) && AllHealthy(m, db) && BeginLogin(db, hash, clock).Ok?
    ensures AllHealthy(m, BeginLogin(db, hash, clock).value)
  {
    hide H.Healthy, H.ValidMaster, H.Progresses, AnchorAtLogin, HashTaken;
    var active := if db.pending.Some? then db.pending.value else db.active.value;
    L.SelectKeeps(m, db.players[active], R.AnchorAtLogin(clock));
  }

  lemma StepKeepsHealthy(m: H.Master, s: Setup, db: Db, event: Event)
    requires H.ValidMaster(m) && AllHealthy(m, db) && EventIssued(m, event)
    ensures AllHealthy(m, Next(s, db, event))
  {
    hide Commit, Execute, BeginLogin, CreateSlot, H.Healthy, H.ValidMaster, H.IssuedBy, NewTables;
    match event {
      case Create(displayName, now) => CreateKeepsHealthy(m, s, db, displayName, now);
      case Login(hash, clock) =>
        if BeginLogin(db, hash, clock).Ok? {
          LoginKeepsHealthy(m, db, hash, clock);
        }
      case Submit(r) =>
        if Commit(s, db, r).Ok? {
          CommitKeepsHealthy(m, s, db, r);
        }
      case Direct(usn, call, now) =>
        if Execute(s, db, usn, SlotRpc(call), now).Ok? {
          ExecuteKeepsHealthy(m, s, db, usn, SlotRpc(call), now);
        }
      case _ =>
    }
  }

  lemma CreateKeepsHealthy(m: H.Master, s: Setup, db: Db, displayName: string, now: int)
    requires H.ValidMaster(m) && AllHealthy(m, db)
    ensures CreateSlot(s, db, displayName, now).Ok? ==> AllHealthy(m, CreateSlot(s, db, displayName, now).value.0)
  {
    hide H.Healthy, H.ValidMaster, NewTables, UserIdTaken;
    L.NewTablesHealthy(m, s.achievementIds, now);
  }

  /** Every store reached from the empty one is consistent, and all its slots are healthy. */
  lemma {:induction false} ReachableStore(m: H.Master, s: Setup, db: Db, events: seq<Event>)
    requires H.ValidMaster(m) && Safe(db) && AllHealthy(m, db)
    requires ValidEvents(events) && forall i | 0 <= i < |events| :: EventIssued(m, events[i])
    ensures Safe(Run(s, db, events)) && AllHealthy(m, Run(s, db, events))
    decreases |events|
  {
    hide Safe, AllHealthy, Next, EventIssued, H.ValidMaster;
    if events != [] {
      StepKeepsSafe(s, db, events[0]);
      StepKeepsHealthy(m, s, db, events[0]);
      ReachableStore(m, s, Next(s, db, events[0]), events[1..]);
    }
  }
}
