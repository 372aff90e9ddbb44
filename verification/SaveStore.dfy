/**
 The save store: slots, login sessions, the idempotency ledger and the tables of every slot, and
 the steps that change them (crates/persistence-sqlite/src/lib.rs). A step that fails leaves the
 database as it is.
 */
module SaveStore {
  import opened Wrappers
  import opened Text
  import opened SaveDomain
  import opened SlotRewards
  import opened SlotTables
  import R = PassRotation

  datatype SlotRow = SlotRow(userId: string, displayName: string)

  datatype Session = Session(usn: Usn, capabilityHash: string, lastSeq: int, ended: bool)

  /** The reply kept for retries of one key. */
  datatype LedgerRow = LedgerRow(requestSeq: int, rpc: string, reply: Reply)

  type Ledger = map<string, LedgerRow>

  datatype Db = Db(
    slots: map<Usn, SlotRow>,
    active: Option<Usn>,
    pending: Option<Usn>,
    nonce: int,
    sessions: map<int, Session>,
    ledgers: map<Usn, Ledger>,
    players: map<Usn, Tables>)

  const EMPTY_DB := Db(map[], None, None, 0, map[], map[], map[])

  /** What every step is given: the open float rules and the achievements of the catalog. */
  datatype Setup = Setup(rules: Rules, achievementIds: set<int>)

  const USER_ID_BASE := 1_788_360_000_000

  function UserIdOf(usn: Usn): string {
    IntText(USER_ID_BASE + usn)
  }

  // ----- Slots -----

  function NextUsn(db: Db): Usn {
    MaxOr(db.slots.Keys, 0) + 1
  }

  predicate UserIdTaken(db: Db, userId: string) {
    exists u | u in db.slots :: db.slots[u].userId == userId
  }

  /** `create_slot_in_transaction`: the next number; the first slot becomes the active one. */
  function CreateSlot(s: Setup, db: Db, displayName: string, now: int): Result<(Db, Usn), StoreError> {
    var usn := NextUsn(db);
    if usn <= 0 || UserIdTaken(db, UserIdOf(usn)) then Err(SqlConstraint)
    else
      Ok((db.(slots := db.slots[usn := SlotRow(UserIdOf(usn), displayName)],
              players := db.players[usn := NewTables(s.achievementIds, now)],
              ledgers := db.ledgers[usn := map[]],
              active := if db.active.Some? then db.active else Some(usn)), usn))
  }

  function RequestSwitch(db: Db, usn: Usn): Result<Db, StoreError> {
    if usn !in db.slots then Err(MissingSlot(usn)) else Ok(db.(pending := Some(usn)))
  }

  /** Slots a selector names, by user id or by number. */
  function Selected(db: Db, selector: string): set<Usn> {
    set u | u in db.slots && (db.slots[u].userId == selector || ParseI64(selector) == Some(u))
  }

  /** `request_switch_rpc`: the smallest slot the selector names becomes pending. */
  function SwitchTo(db: Db, selector: string): Result<(Db, Usn), StoreError> {
    if Selected(db, selector) == {} then Err(MissingSlot(ParseI64(selector).GetOr(0)))
    else
      var usn := MinOf(Selected(db, selector));
      Ok((db.(pending := Some(usn)), usn))
  }

  /** Deleting a slot deletes its sessions, its ledger and its tables with it. */
  function DeleteSlot(db: Db, usn: Usn, displayName: string): Result<Db, StoreError> {
    if usn !in db.slots then Err(MissingSlot(usn))
    else if db.slots[usn].displayName != displayName then Err(IdentityMismatch)
    else if db.active == Some(usn) || db.pending == Some(usn) then Err(ActiveSlot(usn))
    else
      Ok(db.(slots := db.slots - {usn}, players := db.players - {usn}, ledgers := db.ledgers - {usn},
             sessions := map n | n in db.sessions && db.sessions[n].usn != usn :: db.sessions[n]))
  }

  // ----- Sessions -----

  predicate HashTaken(sessions: map<int, Session>, hash: string) {
    exists n | n in sessions :: sessions[n].capabilityHash == hash
  }

  function EndAll(sessions: map<int, Session>): map<int, Session> {
    map n | n in sessions :: sessions[n].(ended := true)
  }

  /** `begin_login`: a pending slot becomes active, open sessions end, and a new one is opened. */
  function BeginLogin(db: Db, hash: string, clock: R.DeviceClock): Result<Db, StoreError> {
    var active := if db.pending.Some? then db.pending else db.active;
    var nonce := db.nonce + 1;
    if active.None? then Err(NoActiveSlot)
    else if active.value !in db.slots || active.value !in db.players then Err(SqlConstraint)
    else if nonce in db.sessions || HashTaken(db.sessions, hash) then Err(SqlConstraint)
    else
      Ok(db.(active := active, pending := None, nonce := nonce,
             sessions := EndAll(db.sessions)[nonce := Session(active.value, hash, 0, false)],
             players := db.players[active.value := AnchorAtLogin(db.players[active.value], clock)]))
  }

  function EndSession(db: Db, nonce: int): Db {
    if nonce in db.sessions then db.(sessions := db.sessions[nonce := db.sessions[nonce].(ended := true)]) else db
  }

  // ----- Requests -----

  /** A gameplay request carries the digest of its raw bytes, 64 hexadecimal digits; an admin one does not. */
  datatype Origin = Gameplay(digest: string) | Admin

  datatype Rpc =
    | SlotRpc(call: SlotCall)
    | CreateRpc(displayName: string)
    | DeleteRpc(target: Usn, typedName: string)
    | SwitchRpc(selector: string)

  datatype Request = Request(nonce: int, usn: Usn, userId: string, sequence: int, name: string, origin: Origin,
                             rpc: Rpc, committedAt: int)

  /** The idempotency key: gameplay keys contain the session nonce, admin keys do not. */
  function KeyOf(r: Request): string {
    match r.origin
    case Gameplay(digest) => IntText(r.nonce) + ":" + IntText(r.sequence) + ":" + r.name + ":" + digest
    case Admin => "admin:" + r.name + ":" + IntText(r.sequence)
  }

  datatype Executed = Executed(db: Db, reply: Reply, replay: Reply)

  function Execute(s: Setup, db: Db, usn: Usn, rpc: Rpc, now: int): Result<Executed, StoreError> {
    match rpc
    case SlotRpc(call) =>
      if usn !in db.players then Err(SqlConstraint)
      else
        var a :- Apply(s.rules, db.players[usn], call, now);
        Ok(Executed(db.(players := db.players[usn := a.tables]), a.reply, a.replay))
    case CreateRpc(displayName) =>
      var (after, created) :- CreateSlot(s, db, displayName, now);
      Ok(Executed(after, IdentityReply(created, UserIdOf(created)), IdentityReply(created, UserIdOf(created))))
    case DeleteRpc(target, typedName) =>
      var after :- DeleteSlot(db, target, typedName);
      Ok(Executed(after, Plain, Plain))
    case SwitchRpc(selector) =>
      var (after, usn) :- SwitchTo(db, selector);
      Ok(Executed(after, IdentityReply(usn, db.slots[usn].userId), IdentityReply(usn, db.slots[usn].userId)))
  }

  predicate SessionOpen(db: Db, r: Request) {
    && r.nonce in db.sessions && db.sessions[r.nonce].usn == r.usn && !db.sessions[r.nonce].ended
    && r.usn in db.slots && db.slots[r.usn].userId == r.userId
  }

  function LedgerOf(db: Db, usn: Usn): Ledger {
    if usn in db.ledgers then db.ledgers[usn] else map[]
  }

  predicate Retried(db: Db, r: Request) {
    KeyOf(r) in LedgerOf(db, r.usn)
  }

  /** Some arguments are refused before the transaction begins. */
  function RefusedEarly(rpc: Rpc): Option<StoreError> {
    if rpc.SlotRpc? then Refused(rpc.call) else None
  }

  /**
   `commit_rpc_mutation_with_replay`: an open session is needed; a known key gets its stored reply;
   otherwise the sequence number must be new, and command and ledger row are committed together.
   */
  function Commit(s: Setup, db: Db, r: Request): Result<(Db, Reply), StoreError> {
    if RefusedEarly(r.rpc).Some? then Err(RefusedEarly(r.rpc).value)
    else if !SessionOpen(db, r) then Err(StaleRequest)
    else if Retried(db, r) then
      var row := db.ledgers[r.usn][KeyOf(r)];
      if row.requestSeq != r.sequence || row.rpc != r.name then Err(IdempotencyConflict) else Ok((db, row.reply))
    else if db.sessions[r.nonce].lastSeq >= r.sequence then Err(StaleRequest)
    else
      var begun := db.(sessions := db.sessions[r.nonce := db.sessions[r.nonce].(lastSeq := r.sequence)]);
      var e :- Execute(s, begun, r.usn, r.rpc, r.committedAt);
      if r.usn !in e.db.ledgers then Err(SqlConstraint)
      else
        var row := LedgerRow(r.sequence, r.name, e.replay);
        Ok((e.db.(ledgers := e.db.ledgers[r.usn := e.db.ledgers[r.usn][KeyOf(r) := row]]), e.reply))
  }

  // ----- All steps -----

  datatype Event =
    | Create(displayName: string, now: int)
    | Switch(usn: Usn)
    | Delete(usn: Usn, typedName: string)
    | Login(hash: string, clock: R.DeviceClock)
    | End(nonce: int)
    | Submit(request: Request)
    | Direct(usn: Usn, call: SlotCall, now: int)    // store operations without a session, such as queueing mail

  datatype Response =
    | Done
    | Identity(usn: Usn)
    | Answer(reply: Reply)

  function Step(s: Setup, db: Db, event: Event): Result<(Db, Response), StoreError> {
    match event
    case Create(displayName, now) =>
      var (after, usn) :- CreateSlot(s, db, displayName, now);
      Ok((after, Identity(usn)))
    case Switch(usn) =>
      var after :- RequestSwitch(db, usn);
      Ok((after, Done))
    case Delete(usn, typedName) =>
      var after :- DeleteSlot(db, usn, typedName);
      Ok((after, Done))
    case Login(hash, clock) =>
      var after :- BeginLogin(db, hash, clock);
      Ok((after, Done))
    case End(nonce) => Ok((EndSession(db, nonce), Done))
    case Submit(request) =>
      var (after, reply) :- Commit(s, db, request);
      Ok((after, Answer(reply)))
    case Direct(usn, call, now) =>
      var e :- Execute(s, db, usn, SlotRpc(call), now);
      Ok((e.db, Answer(e.reply)))
  }

  function Next(s: Setup, db: Db, event: Event): Db {
    var o := Step(s, db, event);
    if o.Ok? then o.value.0 else db
  }

  function Run(s: Setup, db: Db, events: seq<Event>): Db
    decreases |events|
  {
    if events == [] then db else Run(s, Next(s, db, events[0]), events[1..])
  }
}
