/**
 Retries over whole runs of the store: which requests are answered from the ledger instead of being
 executed, with what reply, and that no mix of requests and retries pays a one-time reward twice.
 */
module StoreRetries {
  import opened Wrappers
  import opened SaveDomain
  import opened SlotTables
  import opened SaveStore
  import opened StoreKeys
  import opened SaveStoreLaws
  import opened StoreGuarantees
  import opened StoreExactlyOnce
  import H = SlotHealth
  import M = SlotMoney
  import S = SlotRuns
  import R = PassRotation

  // ----- The ledger over a run -----

  /** Event `i` of the run is an accepted request to the slot, executed or answered from its ledger. */
  ghost predicate AcceptedAt(s: Setup, db: Db, events: seq<Event>, i: int, usn: Usn) {
    && 0 <= i < |events| && events[i].Submit? && events[i].request.usn == usn
    && Step(s, Run(s, db, events[..i]), events[i]).Ok?
  }

  /** The keys of the accepted requests of a run to one slot. */
  function AcceptedKeys(s: Setup, db: Db, events: seq<Event>, usn: Usn): set<string>
    decreases |events|
  {
    if events == [] then {}
    else SeenAfter(s, db, events[0], usn, {}) + AcceptedKeys(s, Next(s, db, events[0]), events[1..], usn)
  }

  /** The ledger of a slot that lives on keeps its rows and gains exactly the keys of its accepted requests. */
  lemma {:induction false} LedgerOverRun(s: Setup, db: Db, events: seq<Event>, usn: Usn)
    requires Safe(db) && ValidEvents(events) && Survives(s, db, events, usn)
    requires usn in db.players && usn in db.ledgers
    ensures var after := Run(s, db, events);
      && usn in after.ledgers && after.ledgers[usn].Keys == db.ledgers[usn].Keys + AcceptedKeys(s, db, events, usn)
      && forall key | key in db.ledgers[usn] :: after.ledgers[usn][key] == db.ledgers[usn][key]
    decreases |events|
  {
    hide Safe, Next, EffectOf, Step, S.RunSlot;
    if events != [] {
      var next := Next(s, db, events[0]);
      assert Survives(s, next, events[1..], usn);
      StepKeepsSafe(s, db, events[0]);
      EventRefines(s, db, events[0], usn);
      LedgerOverRun(s, next, events[1..], usn);
    }
  }

  lemma {:induction false} AcceptedKeysExactly(s: Setup, db: Db, events: seq<Event>, usn: Usn, key: string)
    ensures key in AcceptedKeys(s, db, events, usn)
       <==> exists i :: AcceptedAt(s, db, events, i, usn) && KeyOf(events[i].request) == key
    decreases |events|
  {
    hide Next, Step, KeyOf;
    if events != [] {
      var next, rest := Next(s, db, events[0]), events[1..];
      AcceptedKeysExactly(s, next, rest, usn, key);
      FirstAccepted(s, db, events, usn);
      if key in AcceptedKeys(s, next, rest, usn) {
        var i :| AcceptedAt(s, next, rest, i, usn) && KeyOf(rest[i].request) == key;
        AcceptedLater(s, db, events, i, usn);
        assert AcceptedAt(s, db, events, i + 1, usn) && KeyOf(events[i + 1].request) == key;
      }
      if key in SeenAfter(s, db, events[0], usn, {}) {
        assert AcceptedAt(s, db, events, 0, usn);
      }
      if i :| AcceptedAt(s, db, events, i, usn) && KeyOf(events[i].request) == key {
        if i > 0 {
          AcceptedLater(s, db, events, i - 1, usn);
          assert AcceptedAt(s, next, rest, i - 1, usn) && KeyOf(rest[i - 1].request) == key;
        }
      }
    }
  }

  lemma FirstAccepted(s: Setup, db: Db, events: seq<Event>, usn: Usn)
    requires events != []
    ensures AcceptedAt(s, db, events, 0, usn)
       <==> events[0].Submit? && events[0].request.usn == usn && Step(s, db, events[0]).Ok?
  {
    hide Step;
    assert events[..0] == [];
  }

  lemma AcceptedLater(s: Setup, db: Db, events: seq<Event>, i: int, usn: Usn)
    requires events != [] && i >= 0
    ensures AcceptedAt(s, Next(s, db, events[0]), events[1..], i, usn) <==> AcceptedAt(s, db, events, i + 1, usn)
  {
    hide Step, Next;
    if i < |events| - 1 {
      assert events[..i + 1][1..] == events[1..][..i];
      assert Run(s, db, events[..i + 1]) == Run(s, Next(s, db, events[0]), events[1..][..i]);
    }
  }

  // ----- Admin requests -----

  /** Event `i` is an accepted admin request to the slot of `r` with the name and number of `r`. */
  ghost predicate SameAdminAt(s: Setup, db: Db, events: seq<Event>, i: int, r: Request) {
    && AcceptedAt(s, db, events, i, r.usn)
    && events[i].request.origin.Admin? && events[i].request.name == r.name && events[i].request.sequence == r.sequence
  }

  lemma SharesAdminKey(s: Setup, db: Db, events: seq<Event>, i: int, r: Request)
    requires Safe(db) && ValidEvents(events) && r.origin.Admin? && AcceptedAt(s, db, events, i, r.usn)
    ensures KeyOf(events[i].request) == KeyOf(r) <==> SameAdminAt(s, db, events, i, r)
  {
    var earlier := events[i].request;
    if earlier.origin.Admin? {
      AdminKeysExact(earlier, r);
    } else {
      assert ValidEvent(events[i]);
      RunKeepsSafe(s, db, events[..i]);
      CommitParts(s, Run(s, db, events[..i]), earlier);
      hide Commit, Safe, KeyOf;
      OpenIsNewest(Run(s, db, events[..i]), earlier);
      KeysApart(earlier, r);
    }
  }

  /**
   After any run, whatever sessions it had, an admin request is answered from the ledger, and not
   executed, exactly when its key was known before the run or an admin request of the same name and
   number was accepted on the slot during it.
   */
  lemma AdminAnsweredExactly(s: Setup, db: Db, events: seq<Event>, r: Request)
    requires Safe(db) && ValidEvents(events) && Survives(s, db, events, r.usn) && r.origin.Admin?
    ensures var later := Run(s, db, events);
      && (Retried(later, r) <==> Retried(db, r) || exists i :: SameAdminAt(s, db, events, i, r))
      && (SessionOpen(later, r) && RefusedEarly(r.rpc).None? && Retried(later, r) ==>
            Commit(s, later, r) == Ok((later, later.ledgers[r.usn][KeyOf(r)].reply)))
  {
    hide Run, AcceptedKeys, Commit, KeyOf, SessionOpen, RefusedEarly;
    var later := Run(s, db, events);
    SlotsHaveRows(db, r.usn);
    hide Safe;
    LedgerOverRun(s, db, events, r.usn);
    AcceptedKeysExactly(s, db, events, r.usn, KeyOf(r));
    forall i | AcceptedAt(s, db, events, i, r.usn)
      ensures KeyOf(events[i].request) == KeyOf(r) <==> SameAdminAt(s, db, events, i, r)
    {
      SharesAdminKey(s, db, events, i, r);
    }
    RunKeepsSafe(s, db, events);
    hide SameAdminAt, AcceptedAt, Survives;
    if SessionOpen(later, r) && RefusedEarly(r.rpc).None? && Retried(later, r) {
      OpenIsNewest(later, r);
      KnownKeyAnswers(s, later, r);
    }
  }

  /** Since its creation: a slot answers an admin request exactly when it accepted one of that name and number before. */
  lemma AdminAnsweredSinceCreation(s: Setup, db: Db, displayName: string, now: int, events: seq<Event>, r: Request)
    requires Safe(db) && ValidEvents(events) && r.origin.Admin?
    ensures CreateSlot(s, db, displayName, now).Ok?
    ensures var (created, usn) := CreateSlot(s, db, displayName, now).value;
      r.usn == usn && Survives(s, created, events, usn) ==>
        (Retried(Run(s, created, events), r) <==> exists i :: SameAdminAt(s, created, events, i, r))
  {
    hide SameAdminAt, Survives, Run, Safe, KeyOf;
    CreateSucceeds(s, db, displayName, now);
    hide CreateSlot, Retried;
    var (created, usn) := CreateSlot(s, db, displayName, now).value;
    if r.usn == usn && Survives(s, created, events, usn) {
      NewSlotKnowsNothing(s, db, displayName, now, r);
      AdminAnsweredExactly(s, created, events, r);
    }
  }

  lemma NewSlotKnowsNothing(s: Setup, db: Db, displayName: string, now: int, r: Request)
    requires CreateSlot(s, db, displayName, now).Ok? && CreateSlot(s, db, displayName, now).value.1 == r.usn
    ensures !Retried(CreateSlot(s, db, displayName, now).value.0, r)
  {
    hide KeyOf, NewTables, NextUsn, UserIdTaken;
  }

  const DAY_ZERO := R.DeviceClock(0, 0)

  /** The admin request, numbered 1, by which session `nonce` of slot 1 selects a pass season. */
  function PickSeason(nonce: int, season: int): Request {
    Request(nonce, 1, UserIdOf(1), 1, "memorial.selectPass", Admin, SlotRpc(SelectSeason(DAY_ZERO, season)), 0)
  }

  lemma FirstLogin(s: Setup)
    ensures var db := Next(s, Next(s, EMPTY_DB, Create("a", 0)), Login("h1", DAY_ZERO));
      && db == Db(map[1 := SlotRow(UserIdOf(1), "a")], Some(1), None, 1, map[1 := Session(1, "h1", 0, false)],
                  map[1 := map[]], map[1 := AnchorAtLogin(NewTables(s.achievementIds, 0), DAY_ZERO)])
  {
    FirstSlot(s);
    hide NewTables, AnchorAtLogin, UserIdOf, CreateSlot, Commit, Execute;
    var db := OneSlot(s);
    assert EndAll(db.sessions) == map[];
    assert !HashTaken(db.sessions, "h1");
  }

  function OneSlot(s: Setup): Db {
    Db(map[1 := SlotRow(UserIdOf(1), "a")], Some(1), None, 0, map[], map[1 := map[]],
       map[1 := NewTables(s.achievementIds, 0)])
  }

  lemma FirstSlot(s: Setup)
    ensures Next(s, EMPTY_DB, Create("a", 0)) == OneSlot(s)
  {
    hide NewTables, UserIdOf, BeginLogin, Commit, Execute;
    assert EMPTY_DB.slots.Keys == {};
    assert NextUsn(EMPTY_DB) == 1;
  }

  /**
   The season selected by the second session is lost: slot 1 selects season 3, logs in again and
   selects season 5 under the same request number; that request succeeds, and season 3 stays.
   */
  lemma AdminSelectionLost(s: Setup)
    ensures var db2 := Next(s, Next(s, EMPTY_DB, Create("a", 0)), Login("h1", DAY_ZERO));
      var db4 := Next(s, Next(s, db2, Submit(PickSeason(1, 3))), Login("h2", DAY_ZERO));
      && Step(s, db2, Submit(PickSeason(1, 3))).Ok? && Step(s, db4, Submit(PickSeason(2, 5))).Ok?
      && 1 in Next(s, db4, Submit(PickSeason(2, 5))).players
      && Next(s, db4, Submit(PickSeason(2, 5))).players[1].rotation.anchor == Some(R.Anchor(0, 3))
  {
    FirstLogin(s);
    var db2 := Next(s, Next(s, EMPTY_DB, Create("a", 0)), Login("h1", DAY_ZERO));
    var (first, second) := (PickSeason(1, 3), PickSeason(2, 5));
    hide KeyOf, UserIdOf, NewTables, AnchorAtLogin, Apply;
    SelectsSeason(s, db2.players[1], 3);
    var t := Apply(s.rules, db2.players[1], SelectSeason(DAY_ZERO, 3), 0).value.tables;
    var db3 := Next(s, db2, Submit(first));
    assert Commit(s, db2, first).Ok?;
    assert db3.players[1] == t;
    var db4 := Next(s, db3, Login("h2", DAY_ZERO));
    AnchorStays(t);
    AdminKeysExact(first, second);
    assert Retried(db4, second);
    assert Commit(s, db4, second).Ok?;
  }

  lemma SelectsSeason(s: Setup, t: Tables, season: int)
    requires R.ValidSeason(season)
    ensures Apply(s.rules, t, SelectSeason(DAY_ZERO, season), 0).Ok?
    ensures Apply(s.rules, t, SelectSeason(DAY_ZERO, season), 0).value.tables.rotation.anchor == Some(R.Anchor(0, season))
  {
  }

  lemma AnchorStays(t: Tables)
    requires t.rotation.anchor.Some?
    ensures AnchorAtLogin(t, DAY_ZERO).rotation == t.rotation
  {
  }

  // ----- What a retry is answered -----

  lemma {:induction false} SurvivesThrough(s: Setup, db: Db, events: seq<Event>, usn: Usn, i: nat)
    requires Survives(s, db, events, usn) && i <= |events|
    ensures Survives(s, Run(s, db, events[..i]), events[i..], usn)
    ensures Survives(s, db, events[..i], usn)
    decreases i
  {
    hide Next;
    if i == 0 {
      assert events[..0] == [] && events[0..] == events;
    } else {
      var next := Next(s, db, events[0]);
      SurvivesThrough(s, next, events[1..], usn, i - 1);
      assert events[..i][1..] == events[1..][..i - 1] && events[1..][i - 1..] == events[i..];
    }
  }

  /** The run passes through its event `i`, and the slot lives on from there. */
  lemma AfterEvent(s: Setup, db: Db, events: seq<Event>, usn: Usn, i: nat)
    requires Safe(db) && ValidEvents(events) && Survives(s, db, events, usn) && i < |events|
    ensures var before := Run(s, db, events[..i]);
      var after := Next(s, before, events[i]);
      && Safe(before) && Safe(after) && usn in before.slots && usn in after.slots
      && Survives(s, after, events[i + 1..], usn) && Run(s, db, events) == Run(s, after, events[i + 1..])
  {
    hide Safe, Next;
    var before := Run(s, db, events[..i]);
    RunKeepsSafe(s, db, events[..i]);
    StepKeepsSafe(s, before, events[i]);
    SurvivesThrough(s, db, events, usn, i);
    assert events[i..][0] == events[i] && events[i..][1..] == events[i + 1..];
    assert events == events[..i] + events[i..];
    RunAppend(s, db, events[..i], events[i..]);
  }

  lemma ExecutedRow(s: Setup, db: Db, r: Request)
    requires Executes(s, db, r) && r.rpc.SlotRpc?
    ensures r.usn in db.players && Apply(s.rules, db.players[r.usn], r.rpc.call, r.committedAt).Ok?
    ensures var after := Commit(s, db, r).value.0;
      var a := Apply(s.rules, db.players[r.usn], r.rpc.call, r.committedAt).value;
      && r.usn in after.ledgers && KeyOf(r) in after.ledgers[r.usn] && after.ledgers[r.usn][KeyOf(r)].reply == a.replay
      && r.usn in after.players && after.players[r.usn] == a.tables
  {
    hide Commit, Execute, Apply, KeyOf;
    CommitParts(s, db, r);
    var begun := db.(sessions := db.sessions[r.nonce := db.sessions[r.nonce].(lastSeq := r.sequence)]);
    ExecuteSlotRpc(s, begun, r.usn, r.rpc.call, r.committedAt);
  }

  /**
   A request executed once is answered the same way ever after: whatever the store runs through,
   whoever asks with its key gets the reply its first execution kept for retries and changes nothing,
   and that reply tells of rewards exactly when the command claimed encores of music it could take.
   */
  lemma RetryGetsFirstReply(s: Setup, db: Db, events: seq<Event>, i: nat, r: Request)
    requires Safe(db) && ValidEvents(events) && Survives(s, db, events, r.usn)
    requires i < |events| && events[i].Submit? && events[i].request.usn == r.usn && events[i].request.rpc.SlotRpc?
    requires Executes(s, Run(s, db, events[..i]), events[i].request) && KeyOf(r) == KeyOf(events[i].request)
    requires ValidEvent(Submit(r)) && SessionOpen(Run(s, db, events), r) && RefusedEarly(r.rpc).None?
    ensures var (t, first) := (Run(s, db, events[..i]).players, events[i].request);
      && r.usn in t && Apply(s.rules, t[r.usn], first.rpc.call, first.committedAt).Ok?
      && var reply := Apply(s.rules, t[r.usn], first.rpc.call, first.committedAt).value.replay;
      && Commit(s, Run(s, db, events), r) == Ok((Run(s, db, events), reply))
      && (M.Earned(reply) != [] <==>
          first.rpc.call.ClaimEncores?
          && exists k :: 0 <= k < |first.rpc.call.items|
                         && M.Encorable(t[r.usn].encores, t[r.usn].holdings.owned, first.rpc.call.items[k], first.committedAt))
  {
    hide Run, Commit, Execute, Apply, KeyOf, Survives, M.Earned, M.Encorable, SessionOpen, RefusedEarly;
    var (before, first, later) := (Run(s, db, events[..i]), events[i].request, Run(s, db, events));
    AfterEvent(s, db, events, r.usn, i);
    RunKeepsSafe(s, db, events);
    ExecutedRow(s, before, first);
    var after := Next(s, before, events[i]);
    assert after == Commit(s, before, first).value.0;
    hide Next, AcceptedKeys;
    LedgerOverRun(s, after, events[i + 1..], r.usn);
    M.RetriesTellRewardsExactly(s.rules, before.players[r.usn], first.rpc.call, first.committedAt);
    OpenIsNewest(later, r);
    hide Safe;
    KnownKeyAnswers(s, later, r);
  }

  // ----- One-time rewards over runs of the store -----

  /** The one-time rewards an event pays to a slot. */
  ghost function PaidBy(s: Setup, db: Db, event: Event, usn: Usn): set<M.GrantKey> {
    if usn !in db.players then {}
    else
      match event
      case Submit(r) =>
        if r.usn == usn && r.rpc.SlotRpc? && Executes(s, db, r)
        then M.PaidKeys(db.players[usn], r.rpc.call, Apply(s.rules, db.players[usn], r.rpc.call, r.committedAt)) else {}
      case Direct(target, call, now) =>
        if target == usn then M.PaidKeys(db.players[usn], call, Apply(s.rules, db.players[usn], call, now)) else {}
      case _ => {}
  }

  lemma PaidByIsRecorded(m: H.Master, s: Setup, db: Db, event: Event, usn: Usn, key: M.GrantKey)
    requires EventIssued(m, event) && key in PaidBy(s, db, event, usn)
    ensures var after := Next(s, db, event);
      usn in db.players && usn in after.players && !M.Recorded(db.players[usn], key) && M.Recorded(after.players[usn], key)
  {
    hide Apply, Commit, Execute, M.PaidKeys, M.Recorded, KeyOf, H.IssuedBy;
    match event {
      case Submit(r) =>
        Lane(m, r.rpc.call);
        M.CommandPaysKeys(s.rules, db.players[usn], r.rpc.call, r.committedAt);
        ExecutedRow(s, db, r);
      case Direct(target, call, now) =>
        Lane(m, call);
        M.CommandPaysKeys(s.rules, db.players[usn], call, now);
        S.PaidByAccepted(db.players[usn], call, Apply(s.rules, db.players[usn], call, now), key);
        DirectRuns(s, db, usn, call, now);
      case _ =>
    }
  }

  lemma Lane(m: H.Master, call: SlotCall)
    requires H.IssuedBy(m, call)
    ensures call.ClaimPass? ==> call.key.lane in {0, 1}
  {
  }

  lemma DirectRuns(s: Setup, db: Db, usn: Usn, call: SlotCall, now: int)
    requires usn in db.players && Apply(s.rules, db.players[usn], call, now).Ok?
    ensures var after := Next(s, db, Direct(usn, call, now));
      usn in after.players && after.players[usn] == Apply(s.rules, db.players[usn], call, now).value.tables
  {
    hide Apply;
  }

  lemma {:induction false} FirstOccurrencesIssued(m: H.Master, s: Setup, db: Db, events: seq<Event>, usn: Usn, seen: set<string>)
    requires forall i | 0 <= i < |events| :: EventIssued(m, events[i])
    ensures S.Issued(m, FirstOccurrences(s, db, events, usn, seen))
    decreases |events|
  {
    hide H.IssuedBy, Next, Step, SeenAfter;
    if events != [] {
      FirstOccurrencesIssued(m, s, Next(s, db, events[0]), events[1..], usn, SeenAfter(s, db, events[0], usn, seen));
      var first := EffectOf(s, db, events[0], usn, seen);
      assert forall i | 0 <= i < |first| && first[i].Command? :: H.IssuedBy(m, first[i].call);
    }
  }

  /** What is recorded of a slot stays recorded as long as the slot lives. */
  lemma RecordedOverRun(m: H.Master, s: Setup, db: Db, events: seq<Event>, usn: Usn, key: M.GrantKey)
    requires H.ValidMaster(m) && Safe(db) && AllHealthy(m, db) && ValidEvents(events) && Survives(s, db, events, usn)
    requires forall i | 0 <= i < |events| :: EventIssued(m, events[i])
    requires usn in db.players && M.Recorded(db.players[usn], key)
    ensures usn in Run(s, db, events).players && M.Recorded(Run(s, db, events).players[usn], key)
  {
    hide Run, Apply, M.Recorded, H.ValidMaster, H.Healthy, H.Progresses, FirstOccurrences, S.RunSlot, EventIssued, S.Issued;
    SlotsHaveRows(db, usn);
    var steps := FirstOccurrences(s, db, events, usn, db.ledgers[usn].Keys);
    ExactlyOnce(s, db, events, usn);
    FirstOccurrencesIssued(m, s, db, events, usn, db.ledgers[usn].Keys);
    hide Safe, Survives;
    S.RunKeeps(m, s.rules, db.players[usn], steps);
    S.RecordedStays(db.players[usn], S.RunSlot(s.rules, db.players[usn], steps), key);
  }

  /**
   In any run of the store, retries, logins and other slots included, each one-time reward of a slot
   is paid by at most one event, each single follower level counted for itself.
   */
  lemma StorePaysOnce(m: H.Master, s: Setup, db: Db, events: seq<Event>, usn: Usn, i: nat, j: nat, key: M.GrantKey)
    requires H.ValidMaster(m) && Safe(db) && AllHealthy(m, db) && ValidEvents(events) && Survives(s, db, events, usn)
    requires forall k | 0 <= k < |events| :: EventIssued(m, events[k])
    requires i < j < |events| && key in PaidBy(s, Run(s, db, events[..i]), events[i], usn)
    ensures key !in PaidBy(s, Run(s, db, events[..j]), events[j], usn)
  {
    hide Run, Next, PaidBy, M.Recorded, H.ValidMaster, AllHealthy, EventIssued, Safe, Survives;
    var (before, later, until) := (Run(s, db, events[..i]), Run(s, db, events[..j]), events[..j]);
    var after := Next(s, before, events[i]);
    PaidByIsRecorded(m, s, before, events[i], usn, key);
    SurvivesThrough(s, db, events, usn, j);
    AfterEvent(s, db, until, usn, i);
    assert until[..i] == events[..i] && until[i] == events[i];
    ReachableStore(m, s, db, events[..i]);
    StepKeepsHealthy(m, s, before, events[i]);
    RecordedOverRun(m, s, after, until[i + 1..], usn, key);
    if key in PaidBy(s, later, events[j], usn) {
      PaidByIsRecorded(m, s, later, events[j], usn, key);
    }
  }
}
