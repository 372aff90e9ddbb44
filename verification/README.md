# Verification model of the Guitar Girl Fan Memorial Server

A Dafny 4.11 model of the parts of this repository that decide whether a player's save is right, with
proofs over all inputs and whole runs. `dafny verify dfyconfig.toml` checks everything.

Three groups of modules:

- **The save store.** `SaveStore` is the store as a state machine: slots, login sessions, the
  idempotency ledger and the tables of every slot, changed only by steps that either succeed or leave
  everything as it was. `SlotTables` holds the commands of one slot; each feature has its own module
  with its invariant (`GuideChain`, `AttendanceBook`, `PassLedger`, `Ch3Stages`, `Ch3Energy`,
  `PassRotation`, `Mailbox`, `ClientSave`, `SlotRewards`). `SlotHealth` and `SlotCommandLaws` show that
  every command keeps all of them, `SlotMoney` where money comes from and goes, `SlotRuns` and
  `SlotTraces` what holds over runs of a slot. `SaveStoreLaws`, `StoreKeys`, `StoreGuarantees`,
  `StoreExactlyOnce`, `StoreReference` and `StoreRetries` are about runs of the whole store.
  `SlotTransaction` and `StoreDatabase` are the same commands in the source's own form: classes whose
  methods update fields in place with loops, each proved to do exactly what the specification function
  says.
- **The Thrift binary codec and the response envelope.** `ThriftWire` gives the layout of Apache
  Thrift's "Thrift Binary protocol encoding" (sections "Base types", "Struct", "List and Set", "Map"),
  `ThriftCodec` relates it to the decoder, `ThriftCursor` is the cursor reader and buffer writer,
  `ProtocolEnvelope` the schema-driven defaults and responses.
- **Exact arithmetic and text.** `CivilDate`, `DecimalCeiling`, `PercentageText`, `PassRotation`,
  and the shop overlay in `ShopOverlay`, `ShopOverlayLaws` and `StableSort`.

What a handler takes from the master data is an argument of a command; `SlotHealth.IssuedBy` says which
arguments those are, and everything else is left to the client. Clocks, identifiers and received bytes
are arguments too. Amounts are reals; 32 and 64 bit saturation, casts and constraint failures are
written out.

## What the code does not do

Each of these is proved, together with the exact condition under which it happens, and shown at a
concrete input or a family of them. Where the program itself never supplies such an input, the entry
says so:

- Restoring energy in two steps equals restoring once exactly when the clock had not run back in
  between, the instants coincide, or the energy is full anyway (`Ch3Energy.RestoreComposesExactly`).
  A clock moved back and forth earns seconds twice (`Ch3Energy.RollbackEarnsTwice`).
- `civil_from_days` is one day late on days before -719468, except on the last day of each 400-year era
  (`CivilDate.CivilExactly`).
- Percentage rewriting with a negative value is not idempotent
  (`PercentageText.RewriteAbsorbsExactly`, `PercentageText.NegativeLeavesSign`). Only a direct call
  passes one: the handler rewrites with a rounded difference that is positive before rounding
  (crates/transport-http/src/gameplay.rs:5128-5133).
- `wire_kind` and `default_value` disagree on a type that begins with `map[` and is not closed
  (`ProtocolEnvelope.KindAgreesExactly`, `ProtocolEnvelope.KindsCanDisagree`). Only another schema
  holds one: the embedded schema (crates/protocol/src/registry.rs:83) has no such type.
- The replay variant of the commit is documented to keep consumable rewards out of retries; the reply
  kept for an encore claim tells of its gifts, exactly when some item names owned music that is not
  cooling down (`SlotMoney.RetriesTellRewardsExactly`, `SlotMoney.EncoreRepeatsGift`).
- Admin keys do not contain the session nonce, so a request is answered but not executed exactly when
  an admin request of the same name and number was accepted on the slot before, in whatever session
  (`StoreRetries.AdminAnsweredExactly`, `StoreRetries.AdminSelectionLost`).
- The master stamp hides a changed day or revision exactly when the revisions gained make up for the
  way east less the days gained (`PassRotation.HidesExactly`,
  `PassRotation.StampCollidesAcrossOffsets`).
- A failing shop overlay leaves rows behind exactly when it inserts and some row id does not fit
  (`ShopOverlayLaws.FailureLeavesRowsExactly`, `ShopOverlayLaws.OverflowLeavesRows`). Only another
  manifest reaches it: the overlay reads the embedded one (crates/transport-http/src/lib.rs:406-407),
  whose reward groups have five digits, and with groups in range no failure changes the catalog
  (`ShopOverlayLaws.FittingGroupsChangeNothing`).
- After a clock rollback the attendance maximum can be below the longest attended run: exactly when no
  longest run was added in order (`AttendanceBook.MaximumIsLongestBlock`,
  `AttendanceBook.VisitKeepsMaxExactly`, `AttendanceBook.RollbackUnderReports`).
- A mail row of a balance tells the client of one unit and credits none exactly when its amount is
  NULL (`Mailbox.AnnouncesWhatItCredits`, `SlotMoney.MailWithoutAmount`). Only a direct call of the
  store with an amount that is not a number writes such a row: the route that mails currency admits
  finite positive numbers only (crates/transport-http/src/lib.rs:1497-1512).

## Model

| member | source | states |
|---|---|---|
| StoreExactlyOnce.ExactlyOnce | crates/persistence-sqlite/src/lib.rs:571-684 | Exactly once: over every run a slot lives through (new, retried, stale, failing requests, logins, slot operations, direct operations, in any order) its final tables are those of applying only the first accepted occurrence of each key, in order. Which occurrences are accepted is the store's own decision here; `StoreReference` decides it without a ledger. |
| StoreReference.ReferenceExactlyOnce | crates/persistence-sqlite/src/lib.rs:571-684 | The same against a reference that has no ledger: it decides by sessions, its own seen keys and the commands run on its own tables, and over every run a slot lives through the tables of the slot are those of the commands the reference accepts under keys it had not seen, in order. |
| StoreReference.RunMatches | crates/persistence-sqlite/src/lib.rs:198-694 | After any run the store with its ledger contents forgotten is where the reference is: what a stored row says never decides what is accepted or changed. |
| StoreReference.StepMatches | crates/persistence-sqlite/src/lib.rs:198-694 | Each event is accepted or fails with the same error in store and reference, and leads both to the same place. |
| StoreReference.SubmitMatches | crates/persistence-sqlite/src/lib.rs:590-684 | So for a request, whether its key is known, stale, new or failing. |
| StoreReference.ExecuteForgets | crates/persistence-sqlite/src/lib.rs:431-521 | The commands inside a commit read no ledger, keep those of the slots that stay and give a new slot an empty one. |
| StoreExactlyOnce.StoreConserves | crates/persistence-sqlite/src/lib.rs:571-684 | Over any such run the candy, chocolate, gingerbread and choco-milk of a slot move by the sum of the net amounts of its first accepted occurrences; retries add nothing. |
| StoreExactlyOnce.ReachableStore | crates/persistence-sqlite/src/lib.rs:198-684 | Every store reached from a consistent healthy one (the empty store is one) is consistent, and all its slots keep every feature invariant. |
| StoreExactlyOnce.SubmitRefines | crates/persistence-sqlite/src/lib.rs:590-684 | One request refines one step of the reference: it applies its command when its key is new, nothing when the key is known, and the ledger then knows exactly the seen keys. |
| StoreExactlyOnce.LoginRefines | crates/persistence-sqlite/src/lib.rs:523-565 | A login does to every slot what the reference says: it anchors the pass rotation of the slot it activates and touches no other. |
| StoreExactlyOnce.DirectRefines | crates/persistence-sqlite/src/lib.rs:2474-2546 | A store operation without a session applies its command to its own slot only and leaves every ledger alone. |
| StoreExactlyOnce.SlotStepsSame | crates/persistence-sqlite/src/lib.rs:198-472 | Creating, switching, deleting and ending a session leave the tables and the ledger of every surviving slot unchanged. |
| StoreExactlyOnce.StepKeepsHealthy | crates/persistence-sqlite/src/lib.rs:571-684 | Any event, accepted or failing, keeps the invariants of all slots when the commands carry master-data arguments. |
| StoreRetries.LedgerOverRun | crates/persistence-sqlite/src/lib.rs:616-677 | Over any run a slot lives through, its ledger keeps every row and gains exactly the keys of the accepted requests to it. |
| StoreRetries.AcceptedKeysExactly | crates/persistence-sqlite/src/lib.rs:616-677 | A key is among those if and only if some event of the run is an accepted request with that key. |
| StoreRetries.AdminAnsweredExactly | crates/transport-http/src/lib.rs:1326-1333 | After any run, whatever sessions it had, an admin request is answered from the ledger and not executed if and only if its key was known before or an admin request of the same name and number was accepted on the slot during the run. |
| StoreRetries.AdminAnsweredSinceCreation | crates/transport-http/src/lib.rs:1326-1333 | From the creation of a slot on: if and only if an admin request of that name and number was accepted on it before. |
| StoreRetries.AdminSelectionLost | crates/transport-http/src/lib.rs:1291-1309 | A concrete loss: season 3 is selected, the player logs in again and selects season 5 under the same request number; the request succeeds and season 3 stays. |
| StoreRetries.RetryGetsFirstReply | crates/persistence-sqlite/src/lib.rs:616-638 | A request executed once is answered the same way ever after: whoever asks with its key, after any run the slot lives through, gets the reply its first execution kept and changes nothing; that reply tells of rewards if and only if it claimed encores it could take. |
| StoreRetries.StorePaysOnce | crates/persistence-sqlite/src/lib.rs:571-684 | In any run of the store, retries and logins included, each one-time reward of a slot, each single follower level included, is paid by at most one event. |
| StoreRetries.RecordedOverRun | crates/persistence-sqlite/src/lib.rs:571-684 | What is recorded of a slot stays recorded as long as the slot lives, whatever the store runs through. |
| SaveStoreLaws.RunKeepsSafe | crates/persistence-sqlite/src/lib.rs:523-694 | In every run: at most one session is open, it carries the newest nonce and its slot is the active one; active and pending name existing slots, and one is active once any slot exists; nonces never fall. |
| SaveStoreLaws.StepKeepsSafe | crates/persistence-sqlite/src/lib.rs:198-694 | Each kind of event keeps that consistency. |
| SaveStoreLaws.EmptySafe | crates/persistence-sqlite/migrations/0001_initial.sql:6-26 | The freshly migrated store is consistent. |
| SaveStoreLaws.NextUsnFree | crates/persistence-sqlite/src/lib.rs:224-229 | The next slot number is positive, above all existing ones, and its user id is not taken, so the UNIQUE constraint never fires. |
| SaveStoreLaws.CreateSucceeds | crates/persistence-sqlite/src/lib.rs:218-340 | In a consistent store creating a slot succeeds with a number above all others and adds exactly that slot. |
| SaveStoreLaws.DeleteKeepsSafe | crates/persistence-sqlite/src/lib.rs:443-472 | Deleting a slot that is neither active nor pending, with the rows that cascade, keeps the store consistent. |
| SaveStoreLaws.LoginKeepsSafe | crates/persistence-sqlite/src/lib.rs:523-565 | A login takes the next nonce, opens the only open session, activates the pending slot if there is one, and leaves no switch pending. |
| SaveStoreLaws.EndKeepsSafe | crates/persistence-sqlite/src/lib.rs:686-694 | Ending a session keeps the store consistent. |
| SaveStoreLaws.CommitKeepsSafe | crates/persistence-sqlite/src/lib.rs:590-684 | A commit keeps the store consistent, its new ledger row included. |
| SaveStoreLaws.ExecuteKeepsSafe | crates/persistence-sqlite/src/lib.rs:431-521 | The slot commands that run inside a commit keep the store consistent. |
| StoreGuarantees.PendingTakesEffectAtLogin | crates/persistence-sqlite/src/lib.rs:402-416 | Once a slot is active, the active slot changes only by a login, and then to the pending one. |
| StoreGuarantees.LoginCloses | crates/persistence-sqlite/src/lib.rs:544-548 | A login closes every earlier session. |
| StoreGuarantees.ClosedNeverWrites | crates/persistence-sqlite/src/lib.rs:601-615 | A closed session is refused as stale after any further run. |
| StoreGuarantees.OnlyNewestWrites | crates/persistence-sqlite/src/lib.rs:601-615 | Whoever writes holds the newest nonce and writes to the active slot. |
| StoreGuarantees.RunSessions | crates/persistence-sqlite/src/lib.rs:523-694 | Along any run sessions never reopen, never change their slot, and their last number never falls. |
| StoreGuarantees.CommitIsolated | crates/persistence-sqlite/src/lib.rs:571-684 | A request leaves tables, ledger and identity of every other slot unchanged; another slot disappears only as the target of a deletion. |
| StoreGuarantees.ExecuteIsolated | crates/persistence-sqlite/src/lib.rs:431-521 | The same for the command alone. |
| StoreGuarantees.KnownKeyAnswers | crates/persistence-sqlite/src/lib.rs:616-638 | A retried key gets exactly its stored reply and changes nothing; IdempotencyConflict never happens. |
| StoreGuarantees.RowAgrees | crates/persistence-sqlite/src/lib.rs:616-635 | The ledger row of a known key has the request number and name of whoever asks with that key. |
| StoreGuarantees.AcceptedIsKnown | crates/persistence-sqlite/src/lib.rs:658-677 | An accepted request leaves the row that answers its retries. |
| StoreGuarantees.GameplayFreshAfterLogin | crates/transport-http/src/gameplay.rs:3522-3535 | After a login no gameplay request of the new session is mistaken for a retry, because its key contains the nonce. |
| StoreGuarantees.SequencesIncrease | crates/persistence-sqlite/src/lib.rs:639-654 | In every run the requests executed within one session have strictly increasing numbers. |
| StoreGuarantees.ExecutedRaises | crates/persistence-sqlite/src/lib.rs:639-654 | An executed request had a number above the last one of its session and becomes the last one. |
| StoreKeys.GameplayKeysExact | crates/transport-http/src/gameplay.rs:3527-3533 | Two gameplay requests share a key if and only if nonce, number, name and digest agree, although the name may contain colons. |
| StoreKeys.AdminKeysExact | crates/transport-http/src/lib.rs:1331-1331 | Two admin requests share a key if and only if name and number agree. |
| StoreKeys.KeysApart | crates/transport-http/src/gameplay.rs:3527-3533 | No gameplay key is an admin key. |
| StoreKeys.SharedKeyAgrees | crates/persistence-sqlite/src/lib.rs:632-635 | Requests that share a key agree on number and name, and on the session if they are gameplay. |
| StoreDatabase.Database.Handle | crates/persistence-sqlite/src/lib.rs:198-694 | The database class takes exactly one step of the store specification per event, with its reply or error. |
| StoreDatabase.Database.CommitRpcMutation | crates/persistence-sqlite/src/lib.rs:590-684 | The commit method is the specified commit; on any error every table, the session number included, is as before. |
| StoreDatabase.Database.ExecuteRpc | crates/persistence-sqlite/src/lib.rs:431-521 | The commands inside a commit change the tables exactly as specified. |
| StoreDatabase.Database.ExecuteCall | crates/persistence-sqlite/src/lib.rs:571-584 | A slot command publishes the rows of its transaction only when it succeeded. |
| StoreDatabase.Database.CreateSlot | crates/persistence-sqlite/src/lib.rs:218-340 | Slot creation as specified. |
| StoreDatabase.Database.RequestSwitch | crates/persistence-sqlite/src/lib.rs:402-416 | A switch request marks an existing slot as pending and changes nothing else; MissingSlot otherwise. |
| StoreDatabase.Database.SwitchTo | crates/persistence-sqlite/src/lib.rs:494-521 | A selector names a slot by user id or number, the smallest one wins; MissingSlot when there is none. |
| StoreDatabase.Database.DeleteInactiveSlot | crates/persistence-sqlite/src/lib.rs:443-472 | Deletion with its three refusals, and with the rows that cascade. |
| StoreDatabase.Database.BeginLogin | crates/persistence-sqlite/src/lib.rs:523-565 | Login as specified, rolled back on NoActiveSlot and on constraint failures. |
| StoreDatabase.Database.EndSession | crates/persistence-sqlite/src/lib.rs:686-694 | Ends one session. |
| StoreDatabase.Serve | crates/persistence-sqlite/src/lib.rs:571-684 | Serving a list of events takes the database along the run of the specification, so all results on runs hold of the class. |
| SlotRuns.RunKeeps | crates/persistence-sqlite/src/lib.rs:1190-3245 | In every run of one slot (any commands, failing ones and logins included) the invariants of all features hold at the end and nothing recorded is lost. |
| SlotRuns.ReachableHealthy | crates/persistence-sqlite/src/lib.rs:218-340 | Every state a new slot can reach is healthy, for any catalog with ordered stages. |
| SlotRuns.RunConserves | crates/persistence-sqlite/src/lib.rs:2053-2153 | Over any run, client snapshots included, each transaction-owned balance is its start plus the net amounts of the accepted commands. |
| SlotRuns.KeyPaidOnce | crates/persistence-sqlite/src/lib.rs:1206-1218 | In any run each one-time reward, each single follower level of claims that name several included, is paid by at most one command and is on record from then on. |
| SlotRuns.AttendanceRewardNeedsDays | crates/persistence-sqlite/src/lib.rs:1427-1441 | The attendance achievement pays only when the number of distinct attended days reaches its threshold, whatever quantity is reported. |
| SlotRuns.QuestRewardNeedsQuantity | crates/persistence-sqlite/src/lib.rs:1248-1272 | A quest reward is told only for the active stage, for a condition that was unclaimed, with the stored quantity at its threshold; the last completed stage told to the client is the one before. |
| SlotTraces.RunEnergyBounded | crates/persistence-sqlite/src/lib.rs:3445-3467 | In every run of a slot the energy stays in 0..200, and what is left plus what was spent is at most the start plus forward seconds plus cookies. |
| SlotTraces.RunMovesEnergy | crates/persistence-sqlite/src/lib.rs:3445-3467 | Every run of a slot is a run of the energy machine, command by command. |
| SlotTraces.CommandMoves | crates/persistence-sqlite/src/lib.rs:1692-1701 | Each accepted command moves the energy exactly along its restore, spend and cookie steps. |
| SlotTraces.RunAttendance | crates/persistence-sqlite/src/lib.rs:2417-2472 | In every run of a new slot the attendance count is the number of distinct days added and the maximum the longest block of consecutive additions; it is the longest attended run if and only if such a run was added in order, and always when each day added is later than those before. |
| SlotTraces.RunVisits | crates/persistence-sqlite/src/lib.rs:2417-2472 | Only visits change the attendance: every run of a slot is a run of the attendance book. |
| SlotTraces.RunStampCoherent | crates/transport-http/src/gameplay.rs:231-245 | Within a slot, at one UTC offset and a clock that does not run back, equal master stamps mean the same active pass and month. |
| SlotTraces.RunHidesExactly | crates/transport-http/src/gameplay.rs:32-38 | Between any two moments of any run of a slot: exactly when the stamp hides a changed day or revision, whatever clock and offset do. |
| SlotTraces.RunTurns | crates/persistence-sqlite/src/lib.rs:549-557 | Only logins and season selections change the rotation: every run of a slot is a run of the rotation machine. |
| SlotCommandLaws.CommandKeeps | crates/persistence-sqlite/src/lib.rs:1190-3245 | Any accepted command with master-data arguments, everything else chosen by the client, keeps all invariants and loses nothing. |
| SlotCommandLaws.NewTablesHealthy | crates/persistence-sqlite/src/lib.rs:229-334 | The rows of a new slot satisfy all invariants. |
| SlotCommandLaws.SaveKeeps | crates/persistence-sqlite/src/lib.rs:2028-2415 | An arbitrary client snapshot breaks no invariant and takes nothing away. |
| SlotCommandLaws.QuestKeeps | crates/persistence-sqlite/src/lib.rs:1224-1291 | A quest claim keeps the slot healthy. |
| SlotCommandLaws.GameKeeps | crates/persistence-sqlite/src/lib.rs:1407-1475 | Claimed levels of an achievement stay 1, 2, .. without gaps. |
| SlotCommandLaws.StageKeeps | crates/persistence-sqlite/src/lib.rs:1665-1757 | Settling a stage keeps energy, stages, stars, goals and everything else in order. |
| SlotCommandLaws.StreamKeeps | crates/persistence-sqlite/src/lib.rs:1798-1864 | So does a stream of stages. |
| SlotCommandLaws.ChapterKeeps | crates/persistence-sqlite/src/lib.rs:1759-1795 | So does a chapter reward, which restores energy after its grants. |
| SlotCommandLaws.FillKeeps | crates/persistence-sqlite/src/lib.rs:3072-3130 | Filling a pass keeps the ledger sound after its payment. |
| SlotCommandLaws.PassKeeps | crates/persistence-sqlite/src/lib.rs:3133-3216 | Claiming a pass step keeps the ledger sound, its rewards and its ticket included. |
| SlotCommandLaws.BuyKeeps | crates/persistence-sqlite/src/lib.rs:2771-2858 | A purchase keeps balances non-negative and every invariant. |
| SlotCommandLaws.BuyContentKeeps | crates/persistence-sqlite/src/lib.rs:2860-2935 | Buying content keeps levels rising and balances non-negative. |
| SlotCommandLaws.ClaimPostKeeps | crates/persistence-sqlite/src/lib.rs:2712-2737 | Claiming mail keeps the slot healthy. |
| SlotCommandLaws.ProfileKeeps | crates/persistence-sqlite/src/lib.rs:1190-1221 | Claiming follower rewards keeps the slot healthy. |
| SlotCommandLaws.GiftKeeps | crates/persistence-sqlite/src/lib.rs:1041-1057 | Giving gifts keeps every gift count in the range its column allows, and the slot healthy. |
| SlotCommandLaws.SaveHoldingsSound | crates/persistence-sqlite/src/lib.rs:2053-2201 | The balances and content part of a snapshot takes nothing away and keeps the transaction-owned balances. |
| SlotCommandLaws.MergePassesSound | crates/persistence-sqlite/src/lib.rs:2322-2364 | The pass part of a snapshot keeps the ledger sound row by row and claims nothing. |
| SlotHealth.ProgressesTransitive | crates/persistence-sqlite/src/lib.rs:1190-3245 | Not losing anything composes, so it holds of runs. |
| SlotHealth.GrantAllSound | crates/persistence-sqlite/src/lib.rs:3699-3804 | A list of rewards takes nothing away, keeps balances non-negative and energy in range. |
| SlotHealth.PackageEffect | crates/persistence-sqlite/src/lib.rs:1965-2005 | After a package exactly its content is owned in addition, stored at level 1 at least, owned content keeps its area, and nothing else moves. |
| SlotHealth.PackageTwice | crates/persistence-sqlite/src/lib.rs:1965-2005 | Granting a package again changes nothing. |
| SlotMoney.CommandConserves | crates/persistence-sqlite/src/lib.rs:3699-3738 | Every command, whatever its arguments, moves each transaction-owned balance by exactly what it tells or credits minus its cost, or not at all when it fails. |
| SlotMoney.CommandPaysNew | crates/persistence-sqlite/src/lib.rs:1466-1473 | A one-time reward is paid only by the command that records it for the first time. |
| SlotMoney.CommandPaysKeys | crates/persistence-sqlite/src/lib.rs:1206-1218 | Whatever its arguments, a command pays exactly keys it asked for that had no record and have one afterwards, and pays one whenever it changes holdings or mail or tells of rewards. |
| SlotMoney.LevelsToldOnce | crates/persistence-sqlite/src/lib.rs:1206-1218 | The reply to a follower claim lists exactly the levels newly recorded by it, each once. |
| SlotMoney.RetriesTellRewardsExactly | crates/persistence-sqlite/src/lib.rs:586-589 | The reply kept for the retries of an accepted command tells of rewards if and only if the command claims encores and some item names owned music that is not cooling down. |
| SlotMoney.EncoresTaken | crates/persistence-sqlite/src/lib.rs:1128-1161 | Gifts are handed out if and only if such an item exists before the claim, whatever the items before it did. |
| SlotMoney.EncoreRepeatsGift | crates/persistence-sqlite/src/lib.rs:1181-1186 | A concrete one: an encore of the first music tells of seven pieces of candy, and so does the reply kept for retries. |
| SlotMoney.EncoreTellsItsCandy | crates/persistence-sqlite/src/lib.rs:1160-1180 | Encores tell as many pieces of candy as they credit, up to the largest 64-bit number. |
| SlotMoney.MailWithoutAmount | crates/persistence-sqlite/src/lib.rs:2499-2589 | Mail queued with an amount that is not a number, at any free post, tells its receiver of one piece of candy and credits none. |
| SlotMoney.BuyEarns | crates/persistence-sqlite/src/lib.rs:2784-2857 | A purchase pays its price once: balances grow by the told rewards minus the price, and not at all for a known transaction id. |
| SlotMoney.BuyContentEarns | crates/persistence-sqlite/src/lib.rs:2875-2934 | Buying content costs exactly the price of the next level, and nothing at the top level. |
| SlotMoney.FillEarns | crates/persistence-sqlite/src/lib.rs:3083-3090 | Filling a pass costs exactly its chocolate price. |
| SlotMoney.SaveEarns | crates/persistence-sqlite/src/lib.rs:2053-2153 | A client snapshot moves no transaction-owned balance. |
| SlotMoney.MailConserves | crates/persistence-sqlite/src/lib.rs:2712-2737 | A mail claim credits exactly the stored amount. |
| SlotMoney.GrantOnceConserves | crates/persistence-sqlite/src/lib.rs:2474-2497 | A currency grant is credited once for its transaction id. |
| SlotMoney.EncoreConserves | crates/persistence-sqlite/src/lib.rs:1160-1180 | Encores credit the saturated sum of their gifts. |
| SlotMoney.QuestPaysNew | crates/persistence-sqlite/src/lib.rs:1262-1272 | A quest condition pays only when it turns to claimed. |
| SlotMoney.ProfilePaysNew | crates/persistence-sqlite/src/lib.rs:1206-1218 | Follower levels pay only when their claim row is new. |
| SlotMoney.MailPaysNew | crates/persistence-sqlite/src/lib.rs:2718-2733 | A post pays only when it turns to claimed. |
| GuideChain.ClaimKeepsChain | crates/persistence-sqlite/src/lib.rs:1237-1290 | Stored stages are exactly 1..n, exactly those below n completed with all three conditions claimed; a claim keeps that or opens n+1, and earns only by turning a condition with a sufficient quantity to claimed. |
| GuideChain.SaveKeepsChain | crates/persistence-sqlite/src/lib.rs:2365-2408 | A client snapshot advances no stage, claims nothing and lowers no quantity. |
| GuideChain.InfiniteKeepsChain | crates/persistence-sqlite/src/lib.rs:1937-1963 | The infinite flag changes neither progress nor completion. |
| GuideChain.ChainCompleteId | crates/persistence-sqlite/src/lib.rs:3548-3553 | The client is told n - 1 as the last completed stage. |
| GuideChain.EarnsOnce | crates/persistence-sqlite/src/lib.rs:1262-1272 | Whatever is stored, a request earns only by turning its condition to claimed. |
| GuideChain.ClaimedCount | crates/persistence-sqlite/src/lib.rs:1273-1277 | Counting claimed rows tells whether all three conditions are claimed. |
| GuideChain.RecordAndMark | crates/persistence-sqlite/src/lib.rs:1252-1272 | Recording and marking changes one condition and keeps every claimed one at its threshold. |
| AttendanceBook.AttendKeepsValid | crates/persistence-sqlite/src/lib.rs:2424-2470 | Whatever the clock does, count, streak and maximum stay true of the attended days; a day is added exactly when asked for and free. |
| AttendanceBook.AttendKeepsExact | crates/persistence-sqlite/src/lib.rs:2441-2457 | A visit on a later day keeps the maximum equal to the longest attended run. |
| AttendanceBook.VisitsCounted | crates/persistence-sqlite/src/lib.rs:2417-2472 | After any visits the attended days are those added, the count their number. |
| AttendanceBook.IncreasingVisitsExact | crates/persistence-sqlite/src/lib.rs:2417-2472 | When each day added is later than all before, the stored maximum is the longest attended run; visits that add nothing may come in any order. |
| AttendanceBook.VisitKeepsMaxExactly | crates/persistence-sqlite/src/lib.rs:2441-2457 | With an exact maximum, adding a day keeps it exact if and only if the run the day joins, counted back and forward from it, is no longer than the maximum or the new streak. |
| AttendanceBook.MaximumIsLongestBlock | crates/persistence-sqlite/src/lib.rs:2417-2472 | In every book a slot can have, whatever the clock did, the streak is the last and the maximum the longest block of consecutive additions, and the maximum is the longest attended run if and only if such a run was added in order. |
| AttendanceBook.RollbackUnderReports | crates/persistence-sqlite/src/lib.rs:2441-2445 | Days 5, 3, 4: after a rollback the maximum says 2 although three days in a row were attended. |
| PassLedger.FillKeepsSound | crates/persistence-sqlite/src/lib.rs:3091-3120 | Filling adds the points and keeps: claimed goals stay reached, the stored step is at least every reached step, completed lanes own their ticket. |
| PassLedger.MergeKeepsSound | crates/persistence-sqlite/src/lib.rs:2322-2364 | Merging a snapshot row keeps the same, whatever the row says. |
| PassLedger.MergedPointsGrow | crates/persistence-sqlite/src/lib.rs:2334-2342 | A snapshot never takes points away and stays in range, saturation included. |
| PassLedger.ClaimKeepsSound | crates/persistence-sqlite/src/lib.rs:3147-3200 | A claim is inserted exactly when new, and hands out the ticket exactly when it completes a paid lane with a positive ticket. |
| PassLedger.CountTellsComplete | crates/persistence-sqlite/src/lib.rs:3189-3194 | Counting paid claims reaches the number of steps exactly when every distinct step of the lane is claimed. |
| PassLedger.BestStepCovers | crates/persistence-sqlite/src/lib.rs:3111-3116 | The inferred step is at least every reached step of the catalog. |
| PassLedger.MoreTickets | crates/persistence-sqlite/src/lib.rs:3218-3245 | Entitlements and tickets from elsewhere break nothing. |
| Ch3Stages.SettleKeepsPrefix | crates/persistence-sqlite/src/lib.rs:1703-1721 | Unlocked stages stay a prefix of the active order with all but the last completed; the prefix grows exactly when its last stage is cleared and another follows; stars never fall and claimed goals stay met. |
| Ch3Stages.ClaimKeepsGoals | crates/persistence-sqlite/src/lib.rs:1770-1784 | A chapter reward is claimed once and only with its star goal met. |
| Ch3Stages.StarSumGrows | crates/persistence-sqlite/src/lib.rs:1770-1774 | Better stars and more stages never lower the star sum of a chapter. |
| Ch3Stages.StarSumSplit | crates/persistence-sqlite/src/lib.rs:1770-1774 | The star sum does not depend on the order of the rows. |
| Ch3Stages.NewStagesPrefix | crates/persistence-sqlite/src/lib.rs:328-334 | A new slot holds the first stage of the order. |
| Ch3Stages.PrefixLength | crates/persistence-sqlite/src/lib.rs:1712-1719 | The unlocked prefix is as long as the table. |
| Ch3Energy.RestoreComposesExactly | crates/persistence-sqlite/src/lib.rs:3456-3457 | Restoring at t1 then t2 equals restoring at t2 if and only if the clock had not run back at t1, or t1 = t2, or the energy is full at t2 anyway. |
| Ch3Energy.RollbackEarnsTwice | crates/persistence-sqlite/src/lib.rs:3456-3457 | A clock that runs back and forward earns the same seconds twice. |
| Ch3Energy.FullTimeIsLeast | crates/transport-http/src/gameplay.rs:3296-3317 | Below the cap and within 32-bit range, restoring reaches the cap exactly from the published instant on. |
| Ch3Energy.EnergyAccounted | crates/persistence-sqlite/src/lib.rs:1692-1701 | Over any restore, spend and cookie steps energy stays in range and never exceeds start, forward seconds and grants minus spending. |
| SlotRewards.GrantEffect | crates/persistence-sqlite/src/lib.rs:3699-3804 | One reward credits exactly its worth, never takes content, levels or tickets away, and every currency reward is told. |
| SlotRewards.GrantAllEffect | crates/persistence-sqlite/src/lib.rs:3699-3804 | A list of rewards credits its total worth, and the told part of the list has the same worth. |
| SlotRewards.GrantAllEnergy | crates/persistence-sqlite/src/lib.rs:3720-3730 | Rewards move the energy exactly along their cookies. |
| SlotRewards.GrantAllNonNegative | crates/persistence-sqlite/src/lib.rs:3733-3736 | Granting keeps every balance non-negative. |
| SlotRewards.PayEffect | crates/persistence-sqlite/src/lib.rs:3650-3670 | A payment succeeds if and only if its amount is valid and covered, takes exactly that amount, and leaves no balance negative. |
| Mailbox.ClaimEffect | crates/persistence-sqlite/src/lib.rs:2712-2737 | Claiming turns exactly one unclaimed, undeleted post to claimed and credits exactly its stored amount. |
| Mailbox.ClaimOnce | crates/persistence-sqlite/src/lib.rs:2718-2721 | Claiming a post again fails with its own error, whatever happened in between. |
| Mailbox.AnnouncesWhatItCredits | crates/persistence-sqlite/src/lib.rs:3332-3411 | The currency told equals the currency credited, if and only if the row is no balance with a NULL amount (told 1, credited 0). |
| Mailbox.QueueGrows | crates/persistence-sqlite/src/lib.rs:2640-2659 | Queueing and deleting keep every post, its reward and its claimed mark. |
| Mailbox.NextPostFree | crates/persistence-sqlite/src/lib.rs:2579-2587 | A generated post id is always free, so generated mail never conflicts. |
| ClientSave.MergeAreasHarmless | crates/persistence-sqlite/src/lib.rs:2083-2153 | Area snapshots leave transaction-owned balances alone, never lower fans and leave nothing negative. |
| ClientSave.MergeCoreHarmless | crates/persistence-sqlite/src/lib.rs:2053-2066 | So does the core snapshot. |
| ClientSave.MarkedAreaIgnoresLegacy | crates/persistence-sqlite/src/lib.rs:2117-2130 | An area that ever sent a live balance never takes the legacy amount again. |
| ClientSave.MarksStay | crates/persistence-sqlite/src/lib.rs:2045-2050 | Marks of live areas stay for good. |
| ClientSave.MergeContentsKeeps | crates/persistence-sqlite/src/lib.rs:2154-2202 | Content snapshots take no ownership and lower no level. |
| ClientSave.MergeContentsAcquires | crates/persistence-sqlite/src/lib.rs:2159-2170 | A snapshot acquires content only by naming it with a positive id and level. |
| ClientSave.MergeCountersRise | crates/persistence-sqlite/src/lib.rs:2226-2274 | Snapshot counters never lower a stored one, and the attendance achievement takes only the attendance count. |
| SlotTransaction.Transaction.ApplyRewardGrants | crates/persistence-sqlite/src/lib.rs:1268-1270 | The reward loop grants the list in order and reports exactly the rewards that changed something. |
| SlotTransaction.Transaction.MergeUserSave | crates/persistence-sqlite/src/lib.rs:2028-2415 | The snapshot method, with its loops, leaves exactly the specified rows. |
| SlotTransaction.Transaction.MarkSavedAreas | crates/persistence-sqlite/src/lib.rs:2045-2050 | The loop that marks live areas, with its parse errors. |
| SlotTransaction.Transaction.MergeSavedAreas | crates/persistence-sqlite/src/lib.rs:2083-2153 | The loop over areas. |
| SlotTransaction.Transaction.MergeSavedContents | crates/persistence-sqlite/src/lib.rs:2154-2202 | The loop over content. |
| SlotTransaction.Transaction.MergeSavedMusics | crates/persistence-sqlite/src/lib.rs:2203-2225 | The loop over music states. |
| SlotTransaction.Transaction.MergeSavedAchievements | crates/persistence-sqlite/src/lib.rs:2226-2261 | The loop over achievements. |
| SlotTransaction.Transaction.MergeSavedMissions | crates/persistence-sqlite/src/lib.rs:2262-2274 | The loop over daily missions. |
| SlotTransaction.Transaction.MergeSavedPasses | crates/persistence-sqlite/src/lib.rs:2322-2364 | The loop over pass rows. |
| SlotTransaction.Transaction.MergeSavedQuests | crates/persistence-sqlite/src/lib.rs:2365-2408 | The guide part of a snapshot. |
| SlotTransaction.Transaction.ApplyRolls | crates/persistence-sqlite/src/lib.rs:1836-1852 | The nested reward loop of a stream. |
| SlotTransaction.Transaction.ActivatePasses | crates/persistence-sqlite/src/lib.rs:3218-3245 | The loop over activated seasons. |
| SlotTransaction.Transaction.GrantPackage | crates/persistence-sqlite/src/lib.rs:1965-2005 | The loop over the content of a package. |
| SlotTransaction.Transaction.GrantProfileLevels | crates/persistence-sqlite/src/lib.rs:1206-1218 | The loop over follower levels. |
| SlotTransaction.Transaction.CollectEncores | crates/persistence-sqlite/src/lib.rs:1128-1174 | The loop over encores. |
| SlotTransaction.Transaction.Run | crates/persistence-sqlite/src/lib.rs:571-584 | Any command: the rows and both replies are those of the specification, or its error. |
| SlotTransaction.LargestReached | crates/persistence-sqlite/src/lib.rs:3111-3116 | The scan for the largest reached step returns the specified maximum, for thresholds in any order. |
| SlotTransaction.SeasonSteps | crates/persistence-sqlite/src/lib.rs:2343-2348 | The filter keeps the steps of one season, in order. |
| SlotTransaction.TotalGift | crates/persistence-sqlite/src/lib.rs:1160-1160 | Saturating accumulation of non-negative gifts is the saturated sum. |
| ThriftCodec.DecodeExactly | crates/protocol/src/wire.rs:100-190 | The decoder accepts bytes with a result if and only if the bytes are an image of those well-formed fields under the Thrift binary layout. |
| ThriftCodec.RoundTripWithSuffix | crates/protocol/src/wire.rs:100-190 | Reading an encoding followed by any bytes yields exactly the fields and stops at the end of the encoding; the whole-buffer reader then accepts iff nothing follows. |
| ThriftCodec.EncodingsPrefixFree | crates/protocol/src/wire.rs:110-114 | Encodings of well-formed field lists are prefix free and injective. |
| ThriftCodec.AcceptedBytesReencode | crates/protocol/src/wire.rs:100-234 | Re-encoding accepted bytes gives the same length and bytes, except that a non-zero bool byte becomes 1, and decodes to the same fields. |
| ThriftCodec.SameDecodingSameBytes | crates/protocol/src/wire.rs:131-181 | Two inputs with the same decoding differ at most in the value of true bools. |
| ThriftCodec.ReadsValue | crates/protocol/src/wire.rs:131-181 | Reading at an image of a value yields that value and stops at its end. |
| ThriftCodec.ReadIsDenoted | crates/protocol/src/wire.rs:131-181 | Whatever is read lies there as an image of the result. |
| ThriftWire.FromBigEndianInverts | crates/protocol/src/wire.rs:265-284 | Big-endian reading inverts big-endian writing. |
| ThriftWire.BigEndianInverts | crates/protocol/src/wire.rs:265-284 | And the other way round. |
| ThriftCursor.Cursor.ReadStructFrom | crates/protocol/src/wire.rs:116-129 | The cursor method consumes and returns what the parse specification says; every read advances, which is its termination. |
| ThriftCursor.Cursor.ReadValue | crates/protocol/src/wire.rs:131-181 | So does the value reader, over all wire kinds. |
| ThriftCursor.Cursor.ReadMap | crates/protocol/src/wire.rs:154-166 | So does the map loop. |
| ThriftCursor.Cursor.ReadCollection | crates/protocol/src/wire.rs:167-180 | So does the loop over lists and sets. |
| ThriftCursor.Cursor.ReadSize | crates/protocol/src/wire.rs:252-258 | Sizes beyond 0..1,000,000 are refused. |
| ThriftCursor.ReadStruct | crates/protocol/src/wire.rs:100-108 | The reader decodes exactly as specified, trailing bytes refused. |
| ThriftCursor.Output.WriteStructTo | crates/protocol/src/wire.rs:183-191 | The writer appends exactly the canonical encoding. |
| ThriftCursor.Output.WriteValue | crates/protocol/src/wire.rs:193-234 | So does the value writer. |
| ThriftCursor.WriteStruct | crates/protocol/src/wire.rs:110-114 | The bytes returned are the encoding of the fields. |
| ProtocolEnvelope.DefaultIsDefault | crates/protocol/src/envelope.rs:359-406 | A default value that is produced is the default of its type: kinds as declared, every schema field in order. |
| ProtocolEnvelope.DefaultIsUnique | crates/protocol/src/envelope.rs:359-406 | A type has at most one default value. |
| ProtocolEnvelope.KindAgreesExactly | crates/protocol/src/envelope.rs:425-449 | Whenever a default exists so does a wire kind, and the two agree if and only if the type is no unclosed map. |
| ProtocolEnvelope.KindsCanDisagree | crates/protocol/src/envelope.rs:425-449 | The unclosed map type shows the disagreement. |
| ProtocolEnvelope.NeverAbsent | crates/protocol/src/envelope.rs:217-244 | Building a struct never reaches the expectation that a schema field is missing. |
| ProtocolEnvelope.OverridesFindTheirField | crates/protocol/src/envelope.rs:230-242 | Every override of a schema field finds its field in the default struct. |
| ProtocolEnvelope.OverridesReadBack | crates/protocol/src/envelope.rs:230-242 | With distinct ids each field holds its last override, else its default. |
| ProtocolEnvelope.ResponseReadsBack | crates/protocol/src/envelope.rs:266-357 | A success or error response with in-limit strings re-reads to exactly the fields built. |
| ProtocolEnvelope.DefaultResponseReadsBack | crates/protocol/src/envelope.rs:266-406 | A response with the default data of a schema re-reads to exactly its fields. |
| ProtocolEnvelope.BuildDefault | crates/protocol/src/envelope.rs:359-406 | The recursive generator with its depth limit returns the specified default or error. |
| ProtocolEnvelope.BuildFields | crates/protocol/src/envelope.rs:359-406 | Its loop over the fields of a struct. |
| ProtocolEnvelope.BuildStruct | crates/protocol/src/envelope.rs:217-244 | Overwriting fields in place gives the specified struct or error. |
| ProtocolEnvelope.Respond | crates/protocol/src/envelope.rs:266-357 | The response builder fills exactly the specified fields. |
| CivilDate.CivilExactly | crates/transport-http/src/gameplay.rs:5348-5361 | The conversion is the Gregorian one if and only if the shifted day is not negative or is the last day of an era; on every other day it is one day late. |
| CivilDate.CivilFromDaysIsGregorian | crates/transport-http/src/gameplay.rs:5348-5361 | From day -719468 up the result is the one valid date with that day number, casts included. |
| CivilDate.CivilFromDaysWalksCalendar | crates/transport-http/src/gameplay.rs:5348-5361 | Consecutive day numbers give consecutive dates. |
| CivilDate.StampFields | crates/transport-http/src/gameplay.rs:5332-5346 | The decimal fields of the stamp recover local date and time. |
| CivilDate.StampIncreases | crates/transport-http/src/gameplay.rs:5332-5346 | The stamp is strictly increasing in local seconds. |
| CivilDate.DayNumberOrdersDates | crates/transport-http/src/gameplay.rs:5348-5361 | Day numbers order valid dates. |
| CivilDate.NextDateNextNumber | crates/transport-http/src/gameplay.rs:5348-5361 | The next date has the next day number. |
| DecimalCeiling.ScaledRequirementText | crates/policy-memorial/src/lib.rs:181-213 | For every non-empty digit string the result is the canonical numeral of ceil(N/10); None exactly for other texts. |
| DecimalCeiling.Increment | crates/policy-memorial/src/lib.rs:197-209 | The in-place carry loop adds one, through any number of nines. |
| DecimalCeiling.PlusOne | crates/policy-memorial/src/lib.rs:196-211 | Adding one to a canonical numeral gives a canonical numeral, longer by a digit when needed. |
| DecimalCeiling.CanonicalUnique | crates/policy-memorial/src/lib.rs:181-213 | Canonical numerals of the same value are the same text. |
| PercentageText.RewritePercentage | crates/policy-memorial/src/lib.rs:95-118 | The scanner returns the specified rewriting. |
| PercentageText.RewriteAbsorbsExactly | crates/policy-memorial/src/lib.rs:95-118 | Rewriting with p then q equals rewriting with q for every q, if and only if p is not negative or the text holds no percentage. |
| PercentageText.NegativeLeavesSign | crates/policy-memorial/src/lib.rs:95-118 | A negative value leaves its sign behind: 5% becomes -1%, then --1%. |
| PercentageText.RewriteKeepsOutside | crates/policy-memorial/src/lib.rs:95-118 | For every value, negative ones included: the text is its parts with its percentages in between, and the rewritten text the same parts in order with the value in place of each percentage. |
| PercentageText.ScanOfRewrite | crates/policy-memorial/src/lib.rs:95-118 | Scanning a rewritten text finds the rewritten segments. |
| PercentageText.ScanCovers | crates/policy-memorial/src/lib.rs:95-118 | Scanning loses nothing. |
| PassRotation.SeasonInRange | crates/policy-memorial/src/lib.rs:252-255 | The active season is always one of 1..13. |
| PassRotation.EachSeasonOnce | crates/policy-memorial/src/lib.rs:252-255 | Any 13 consecutive local days visit each season exactly once. |
| PassRotation.ReanchorOnCurrent | crates/persistence-sqlite/src/lib.rs:3046-3060 | Re-anchoring on the current season changes the season of no day. |
| PassRotation.RevisionDatesAnchor | crates/persistence-sqlite/src/lib.rs:3061-3068 | Revisions never fall, and an anchor changes only with its revision. |
| PassRotation.StampCoherence | crates/transport-http/src/gameplay.rs:32-38 | At one offset and a non-decreasing clock, equal stamps mean the same local day and revision, hence the same pass and month. |
| PassRotation.HidesExactly | crates/transport-http/src/gameplay.rs:32-38 | Between any two moments of a slot equal stamps hide a changed day or revision if and only if the revisions gained are the seconds of the way east less the days gained, and day or offset differ; at one offset that is a clock moved back with 86400 re-selections per day, and with valid offsets at most one day is gained unnoticed. Otherwise equal stamps mean the same pass and month. |
| PassRotation.HidesHappens | crates/transport-http/src/gameplay.rs:32-38 | Wherever that count is positive some re-selections do hide a change, backward clocks at one offset included. |
| PassRotation.StampCollidesAcrossOffsets | crates/transport-http/src/gameplay.rs:32-38 | A concrete one: one minute east and sixty re-selections give the same stamp for another pass. |
| ShopOverlay.MasterCatalog.ApplyMemorialShopPolicy | crates/transport-http/src/lib.rs:406-592 | The in-place overlay leaves exactly the specified catalog and result, also when it fails part way. |
| ShopOverlay.MasterCatalog.PushItemRewards | crates/transport-http/src/lib.rs:550-585 | The inner loop pushes the rewards of one item until a row id overflows. |
| ShopOverlay.BuildShopRow | crates/transport-http/src/lib.rs:602-715 | The row builder inserts every column of the item. |
| ShopOverlayLaws.OverlayIdempotent | crates/transport-http/src/lib.rs:406-592 | With distinct items and reward groups, applying a successful overlay twice equals applying it once. |
| ShopOverlayLaws.OverlayKeepsSource | crates/transport-http/src/lib.rs:406-592 | Every source row survives and both tables end sorted. |
| ShopOverlayLaws.FailureLeavesRowsExactly | crates/transport-http/src/lib.rs:406-592 | The overlay fails leaving rows behind if and only if catalog and policy put it in the inserting branch and some row id of the policy does not fit. |
| ShopOverlayLaws.GroupsFitExactly | crates/transport-http/src/lib.rs:550-585 | No row id overflows if and only if the row ids of each item with rewards lie in the 64-bit range; groups of at most twelve digits with fewer than a million rewards do. |
| ShopOverlayLaws.FittingGroupsChangeNothing | crates/transport-http/src/lib.rs:406-592 | With such a policy, the embedded one included, every failure leaves the catalog as it was. |
| ShopOverlayLaws.OverflowErrorTells | crates/transport-http/src/lib.rs:406-592 | A failure leaves the catalog unchanged if and only if its error is no row-id overflow. |
| ShopOverlayLaws.OverflowLeavesRows | crates/transport-http/src/lib.rs:406-592 | A concrete overflow leaves rows behind. |
| StableSort.SortSorts | crates/transport-http/src/lib.rs:587-590 | The sort orders its input. |
| StableSort.SortKeep | crates/transport-http/src/lib.rs:587-590 | And is stable: rows that a predicate groups keep their order. |

## Left out

- Rounding of `f64` sums and products: amounts are exact reals. The fan gain and the growing content price, which are float computations, enter as open functions of their inputs; very large digit strings keep their exact value and only their overflow to infinity is modelled.
- SQLite itself (pragmas, WAL, backup): committed tables only. Constraint and type failures that commands can reach are the error `SqlConstraint`.
- Serialization of stored replies: a stored reply is kept as a value, so `InvalidReplay` does not occur.
- Tables without a hard invariant: avatar, title, nickname, device marker, current selections, area levels and viewers, skills, messengers, reviews, scores, drops, advertisement counters and levels, follower experience (a gift is taken away, what it does for its follower is not modelled), read marks. Commands on them are the command that changes nothing, or the one that fails with a given cause.
- The level of a follower profile: an argument of its claim, because its experience is not modelled.
- Master-data readers, HTTP routing, transport encoding, assets, the launcher and foreign calls.
- Scores and rolls of chapter three: stars, scores and reward lists are arguments.
- SHA-256: a digest is an arbitrary text of 64 characters without a colon.
- Overflow panics of plain `i64` additions on clocks and day numbers: integers are unbounded there, and the results on stamps state their range.
- Recursion depth of the codec: the model's recursion is bounded by the input, not by a stack.
- Master data beyond what the commands name: catalogs are arbitrary, with distinct pass steps, distinct stages and stage 1001 first.
