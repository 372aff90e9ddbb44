/**
 The database of the save store, in the source's own form: tables that its methods update in place.
 A method that fails puts every table back, as rolling its transaction back does; so each method is
 one step of the store's specification.
 */
module StoreDatabase {
  import opened Wrappers
  import opened Text
  import opened SaveDomain
  import opened SlotTables
  import opened SaveStore
  import T = SlotTransaction
  import R = PassRotation

  class Database {
    var slots: map<Usn, SlotRow>
    var active: Option<Usn>
    var pending: Option<Usn>
    var nonce: int
    var sessions: map<int, Session>
    var ledgers: map<Usn, Ledger>
    var players: map<Usn, Tables>

    /** The committed tables. */
    function State(): Db
      reads this
    {
      Db(slots, active, pending, nonce, sessions, ledgers, players)
    }

    constructor ()
      ensures State() == EMPTY_DB
    {
      slots, active, pending, nonce := map[], None, None, 0;
      sessions, ledgers, players := map[], map[], map[];
    }

    /** Rolling a transaction back. */
    method Restore(saved: Db)
      modifies this
      ensures State() == saved
    {
      slots, active, pending, nonce := saved.slots, saved.active, saved.pending, saved.nonce;
      sessions, ledgers, players := saved.sessions, saved.ledgers, saved.players;
    }

    // ----- Slots -----

    /** `create_slot_in_transaction`. */
    method CreateSlot(s: Setup, displayName: string, now: int) returns (r: Result<Usn, StoreError>)
      modifies `slots, `players, `ledgers, `active
      ensures match SaveStore.CreateSlot(s, old(State()), displayName, now)
        case Ok((after, usn)) => r == Ok(usn) && State() == after
        case Err(e) => r == Err(e) && State() == old(State())
    {
      hide NewTables, UserIdTaken, NextUsn;
      var usn := NextUsn(State());
      var userId := UserIdOf(usn);
      if usn <= 0 || UserIdTaken(State(), userId) {
        return Err(SqlConstraint);
      }
      slots := slots[usn := SlotRow(userId, displayName)];
      players := players[usn := NewTables(s.achievementIds, now)];
      ledgers := ledgers[usn := map[]];
      if active.None? {
        active := Some(usn);
      }
      return Ok(usn);
    }

    /** `request_switch`. */
    method RequestSwitch(usn: Usn) returns (r: Result<(), StoreError>)
      modifies `pending
      ensures match SaveStore.RequestSwitch(old(State()), usn)
        case Ok(after) => r == Ok(()) && State() == after
        case Err(e) => r == Err(e) && State() == old(State())
    {
      if usn !in slots {
        return Err(MissingSlot(usn));
      }
      pending := Some(usn);
      return Ok(());
    }

    /** `request_switch_rpc`. */
    method SwitchTo(selector: string) returns (r: Result<Usn, StoreError>)
      modifies `pending
      ensures match SaveStore.SwitchTo(old(State()), selector)
        case Ok((after, usn)) => r == Ok(usn) && State() == after
        case Err(e) => r == Err(e) && State() == old(State())
    {
      var named := Selected(State(), selector);
      if named == {} {
        return Err(MissingSlot(ParseI64(selector).GetOr(0)));
      }
      var usn := MinOf(named);
      pending := Some(usn);
      return Ok(usn);
    }

    /** `delete_inactive_slot_in_transaction`, with the rows that cascade. */
    method DeleteInactiveSlot(usn: Usn, displayName: string) returns (r: Result<(), StoreError>)
      modifies `slots, `players, `ledgers, `sessions
      ensures match DeleteSlot(old(State()), usn, displayName)
        case Ok(after) => r == Ok(()) && State() == after
        case Err(e) => r == Err(e) && State() == old(State())
    {
      if usn !in slots {
        return Err(MissingSlot(usn));
      }
      if slots[usn].displayName != displayName {
        return Err(IdentityMismatch);
      }
      if active == Some(usn) || pending == Some(usn) {
        return Err(ActiveSlot(usn));
      }
      slots := slots - {usn};
      players := players - {usn};
      ledgers := ledgers - {usn};
      sessions := map n | n in sessions && sessions[n].usn != usn :: sessions[n];
      return Ok(());
    }

    // ----- Sessions -----

    /** `begin_login`. */
    method BeginLogin(hash: string, clock: R.DeviceClock) returns (r: Result<(), StoreError>)
      modifies this
      ensures match SaveStore.BeginLogin(old(State()), hash, clock)
        case Ok(after) => r == Ok(()) && State() == after
        case Err(e) => r == Err(e) && State() == old(State())
    {
      hide AnchorAtLogin, HashTaken;
      var saved := State();
      if pending.Some? {
        active := pending;
      }
      pending := None;
      nonce := nonce + 1;
      if active.None? {
        Restore(saved);
        return Err(NoActiveSlot);
      }
      var usn := active.value;
      if usn !in slots || usn !in players || nonce in sessions || HashTaken(sessions, hash) {
        Restore(saved);
        return Err(SqlConstraint);
      }
      sessions := map n | n in sessions :: sessions[n].(ended := true);
      sessions := sessions[nonce := Session(usn, hash, 0, false)];
      var tx := new T.Transaction(players[usn]);
      tx.AnchorRotation(clock);
      players := players[usn := tx.Rows()];
      return Ok(());
    }

    /** `end_session`. */
    method EndSession(nonce: int)
      modifies `sessions
      ensures State() == SaveStore.EndSession(old(State()), nonce)
    {
      if nonce in sessions {
        sessions := sessions[nonce := sessions[nonce].(ended := true)];
      }
    }

    // ----- Requests -----

    /** A command on the rows of one slot. */
    method ExecuteCall(s: Setup, usn: Usn, call: SlotCall, now: int) returns (r: T.Answer)
      modifies `players
      ensures match Execute(s, old(State()), usn, SlotRpc(call), now)
        case Ok(e) => r == Ok((e.reply, e.replay)) && State() == e.db
        case Err(e) => r == Err(e) && State() == old(State())
    {
      hide Apply;
      if usn !in players {
        return Err(SqlConstraint);
      }
      var tx := new T.Transaction(players[usn]);
      r := tx.Run(s.rules, call, now);
      if r.Ok? {
        players := players[usn := tx.Rows()];
      }
    }

    method ExecuteRpc(s: Setup, usn: Usn, rpc: Rpc, now: int) returns (r: T.Answer)
      modifies this
      ensures match Execute(s, old(State()), usn, rpc, now)
        case Ok(e) => r == Ok((e.reply, e.replay)) && State() == e.db
        case Err(e) => r == Err(e) && State() == old(State())
    {
      hide Apply, SaveStore.CreateSlot, SaveStore.SwitchTo, DeleteSlot;
      match rpc {
        case SlotRpc(call) => r := ExecuteCall(s, usn, call, now);
        case CreateRpc(displayName) =>
          var created := CreateSlot(s, displayName, now);
          if created.Err? {
            return Err(created.error);
          }
          var told := IdentityReply(created.value, UserIdOf(created.value));
          return Ok((told, told));
        case DeleteRpc(target, typedName) =>
          var deleted := DeleteInactiveSlot(target, typedName);
          return if deleted.Ok? then Ok((Plain, Plain)) else Err(deleted.error);
        case SwitchRpc(selector) =>
          SwitchNames(State(), selector);
          var switched := SwitchTo(selector);
          if switched.Err? {
            return Err(switched.error);
          }
          var told := IdentityReply(switched.value, slots[switched.value].userId);
          return Ok((told, told));
      }
    }

    /** `commit_rpc_mutation_with_replay`. */
    method CommitRpcMutation(s: Setup, request: Request) returns (r: Result<Reply, StoreError>)
      modifies this
      ensures match Commit(s, old(State()), request)
        case Ok((after, reply)) => r == Ok(reply) && State() == after
        case Err(e) => r == Err(e) && State() == old(State())
    {
      hide Execute, KeyOf, Refused;
      if RefusedEarly(request.rpc).Some? {
        return Err(RefusedEarly(request.rpc).value);
      }
      if !SessionOpen(State(), request) {
        return Err(StaleRequest);
      }
      var key := KeyOf(request);
      if request.usn in ledgers && key in ledgers[request.usn] {
        var row := ledgers[request.usn][key];
        if row.requestSeq != request.sequence || row.rpc != request.name {
          return Err(IdempotencyConflict);
        }
        return Ok(row.reply);
      }
      if sessions[request.nonce].lastSeq >= request.sequence {
        return Err(StaleRequest);
      }
      var saved := State();
      sessions := sessions[request.nonce := sessions[request.nonce].(lastSeq := request.sequence)];
      var executed := ExecuteRpc(s, request.usn, request.rpc, request.committedAt);
      if executed.Err? {
        Restore(saved);
        return Err(executed.error);
      }
      if request.usn !in ledgers {
        Restore(saved);
        return Err(SqlConstraint);
      }
      var row := LedgerRow(request.sequence, request.name, executed.value.1);
      ledgers := ledgers[request.usn := ledgers[request.usn][key := row]];
      return Ok(executed.value.0);
    }

    // ----- Any event -----

    /** Every event is one step of the specification, so whatever holds of its runs holds of this class. */
    method Handle(s: Setup, event: Event) returns (r: Result<Response, StoreError>)
      modifies this
      ensures State() == Next(s, old(State()), event)
      ensures match Step(s, old(State()), event)
        case Ok((_, response)) => r == Ok(response)
        case Err(e) => r == Err(e)
    {
      hide SaveStore.CreateSlot, SaveStore.RequestSwitch, DeleteSlot, SaveStore.BeginLogin, SaveStore.EndSession, Commit, Execute;
      match event {
        case Create(displayName, now) =>
          var created := CreateSlot(s, displayName, now);
          return if created.Ok? then Ok(Identity(created.value)) else Err(created.error);
        case Switch(usn) =>
          var switched := RequestSwitch(usn);
          return if switched.Ok? then Ok(Done) else Err(switched.error);
        case Delete(usn, typedName) =>
          var deleted := DeleteInactiveSlot(usn, typedName);
          return if deleted.Ok? then Ok(Done) else Err(deleted.error);
        case Login(hash, clock) =>
          var logged := BeginLogin(hash, clock);
          return if logged.Ok? then Ok(Done) else Err(logged.error);
        case End(nonce) =>
          EndSession(nonce);
          return Ok(Done);
        case Submit(request) =>
          var reply := CommitRpcMutation(s, request);
          return if reply.Ok? then Ok(Answer(reply.value)) else Err(reply.error);
        case Direct(usn, call, now) =>
          var executed := ExecuteCall(s, usn, call, now);
          return if executed.Ok? then Ok(Answer(executed.value.0)) else Err(executed.error);
      }
    }
  }

  lemma SwitchNames(db: Db, selector: string)
    ensures SaveStore.SwitchTo(db, selector).Ok? ==> SaveStore.SwitchTo(db, selector).value.1 in db.slots
  {
  }

  /** Serving a list of events takes the database along the run of the specification. */
  method Serve(db: Database, s: Setup, events: seq<Event>)
    modifies db
    ensures db.State() == Run(s, old(db.State()), events)
  {
    hide Next;
    var i := 0;
    assert events[0..] == events;
    while i < |events|
      invariant i <= |events|
      invariant Run(s, db.State(), events[i..]) == Run(s, old(db.State()), events)
    {
      assert events[i..][1..] == events[i + 1..];
      var _ := db.Handle(s, events[i]);
      i := i + 1;
    }
  }
}
