/**
 Whole runs of one slot: any commands, accepted or failing, mixed with logins, in any order.
 */
module SlotRuns {
  import opened Wrappers
  import opened SaveDomain
  import opened SlotRewards
  import opened ClientSave
  import opened SlotTables
  import opened SlotHealth
  import opened SlotCommandLaws
  import opened SlotMoney
  import G = GuideChain
  import A = AttendanceBook
  import R = PassRotation

  datatype SlotStep =
    | Command(call: SlotCall, now: int)
    | Login(clock: R.DeviceClock)

  /** A failing command leaves the tables as they are. */
  function TakeStep(rules: Rules, t: Tables, step: SlotStep): Tables {
    match step
    case Command(call, now) =>
      var o := Apply(rules, t, call, now);
      if o.Ok? then o.value.tables else t
    case Login(clock) => AnchorAtLogin(t, clock)
  }

  function RunSlot(rules: Rules, t: Tables, steps: seq<SlotStep>): Tables
    decreases |steps|
  {
    if steps == [] then t else RunSlot(rules, TakeStep(rules, t, steps[0]), steps[1..])
  }

  lemma {:induction false} RunAppend(rules: Rules, t: Tables, a: seq<SlotStep>, b: seq<SlotStep>)
    ensures RunSlot(rules, t, a + b) == RunSlot(rules, RunSlot(rules, t, a), b)
    decreases |a|
  {
    if a == [] {
      assert a + b == b;
    } else {
      RunAppend(rules, TakeStep(rules, t, a[0]), a[1..], b);
      assert (a + b)[1..] == a[1..] + b;
    }
  }

  /** The fixed arguments of every command come from the master data. */
  ghost predicate Issued(m: Master, steps: seq<SlotStep>) {
    forall i | 0 <= i < |steps| && steps[i].Command? :: IssuedBy(m, steps[i].call)
  }

  // ----- Invariants -----

  lemma StepKeeps(m: Master, rules: Rules, t: Tables, step: SlotStep)
    requires ValidMaster(m) && Healthy(m, t) && (step.Command? ==> IssuedBy(m, step.call))
    ensures Healthy(m, TakeStep(rules, t, step)) && Progresses(t, TakeStep(rules, t, step))
  {
    hide Apply, Healthy, Progresses, IssuedBy, ValidMaster;
    ProgressesSelf(t);
    match step {
      case Command(call, now) => CommandKeeps(m, rules, t, call, now);
      case Login(clock) => SelectKeeps(m, t, R.AnchorAtLogin(clock));
    }
  }

  /** In every run the invariants of all features hold at the end, and nothing recorded was lost. */
  lemma {:induction false} RunKeeps(m: Master, rules: Rules, t: Tables, steps: seq<SlotStep>)
    requires ValidMaster(m) && Healthy(m, t) && Issued(m, steps)
    ensures Healthy(m, RunSlot(rules, t, steps)) && Progresses(t, RunSlot(rules, t, steps))
    decreases |steps|
  {
    hide Healthy, Progresses, IssuedBy, ValidMaster, TakeStep;
    ProgressesSelf(t);
    if steps != [] {
      var next := TakeStep(rules, t, steps[0]);
      StepKeeps(m, rules, t, steps[0]);
      RunKeeps(m, rules, next, steps[1..]);
      ProgressesTransitive(t, next, RunSlot(rules, next, steps[1..]));
    }
  }

  /** So every state a new slot ever reaches is healthy. */
  lemma ReachableHealthy(m: Master, rules: Rules, achievementIds: set<int>, created: int, steps: seq<SlotStep>)
    requires ValidMaster(m) && Issued(m, steps)
    ensures Healthy(m, RunSlot(rules, NewTables(achievementIds, created), steps))
  {
    hide Healthy, Progresses, IssuedBy, ValidMaster, NewTables, RunSlot;
    NewTablesHealthy(m, achievementIds, created);
    RunKeeps(m, rules, NewTables(achievementIds, created), steps);
  }

  // ----- Conservation -----

  /** The net amounts of the accepted commands of a run. */
  function NetOver(rules: Rules, t: Tables, steps: seq<SlotStep>, kind: CurrencyKind): real
    decreases |steps|
  {
    if steps == [] then 0.0
    else
      var net := if steps[0].Command? && Apply(rules, t, steps[0].call, steps[0].now).Ok?
        then Net(rules, t, steps[0].call, Apply(rules, t, steps[0].call, steps[0].now).value.reply, kind) else 0.0;
      net + NetOver(rules, TakeStep(rules, t, steps[0]), steps[1..], kind)
  }

  /**
   Over any run, whatever snapshots clients send in it, candy and the other balances owned by
   transactions are what they were plus the sum of the net amounts of the accepted commands.
   */
  lemma {:induction false} RunConserves(rules: Rules, t: Tables, steps: seq<SlotStep>, kind: CurrencyKind)
    requires TransactionOwned(kind)
    ensures Balance(RunSlot(rules, t, steps).holdings.wallet, kind)
         == Balance(t.holdings.wallet, kind) + NetOver(rules, t, steps, kind)
    decreases |steps|
  {
    hide Apply, Balance, Net, AnchorAtLogin;
    if steps != [] {
      StepConserves(rules, t, steps[0], kind);
      RunConserves(rules, TakeStep(rules, t, steps[0]), steps[1..], kind);
    }
  }

  lemma StepConserves(rules: Rules, t: Tables, step: SlotStep, kind: CurrencyKind)
    requires TransactionOwned(kind)
    ensures Balance(TakeStep(rules, t, step).holdings.wallet, kind) == Balance(t.holdings.wallet, kind)
      + if step.Command? && Apply(rules, t, step.call, step.now).Ok?
        then Net(rules, t, step.call, Apply(rules, t, step.call, step.now).value.reply, kind) else 0.0
  {
    hide Apply, Balance, Net, TransactionOwned;
    if step.Command? {
      CommandConserves(rules, t, step.call, step.now);
    }
  }

  // ----- One-time rewards -----

  lemma RecordedStays(t: Tables, t': Tables, key: GrantKey)
    requires Progresses(t, t') && Recorded(t, key)
    ensures Recorded(t', key)
  {
  }

  /** The one-time rewards that step `i` of the run pays. */
  ghost function PaidAt(rules: Rules, t: Tables, steps: seq<SlotStep>, i: nat): set<GrantKey>
    requires i < |steps|
  {
    var before := RunSlot(rules, t, steps[..i]);
    if steps[i].Command? then PaidKeys(before, steps[i].call, Apply(rules, before, steps[i].call, steps[i].now)) else {}
  }

  lemma PaidIsRecorded(m: Master, rules: Rules, t: Tables, steps: seq<SlotStep>, i: nat, key: GrantKey)
    requires Issued(m, steps) && i < |steps| && key in PaidAt(rules, t, steps, i)
    ensures var before := RunSlot(rules, t, steps[..i]);
      !Recorded(before, key) && Recorded(TakeStep(rules, before, steps[i]), key)
  {
    hide Apply, Recorded, PaidKeys, RunSlot;
    var before := RunSlot(rules, t, steps[..i]);
    PaidLane(m, steps[i]);
    CommandPaysKeys(rules, before, steps[i].call, steps[i].now);
    PaidByAccepted(before, steps[i].call, Apply(rules, before, steps[i].call, steps[i].now), key);
  }

  lemma PaidByAccepted(t: Tables, call: SlotCall, o: Outcome, key: GrantKey)
    requires key in PaidKeys(t, call, o)
    ensures o.Ok?
  {
  }

  /**
   In any run each one-time reward, each single follower level included, is paid by at most one
   command, and it is on record from then on.
   */
  lemma KeyPaidOnce(m: Master, rules: Rules, t: Tables, steps: seq<SlotStep>, i: nat, j: nat, key: GrantKey)
    requires ValidMaster(m) && Healthy(m, t) && Issued(m, steps) && i < j < |steps|
    requires key in PaidAt(rules, t, steps, i)
    ensures key !in PaidAt(rules, t, steps, j) && Recorded(RunSlot(rules, t, steps[..j]), key)
  {
    hide Apply, Healthy, Progresses, ValidMaster, Recorded, PaidAt;
    var before, later := RunSlot(rules, t, steps[..i]), RunSlot(rules, t, steps[..j]);
    var after := TakeStep(rules, before, steps[i]);
    PaidIsRecorded(m, rules, t, steps, i, key);
    RunKeeps(m, rules, t, steps[..i]);
    var between := steps[i + 1..j];
    assert steps[..j] == steps[..i] + ([steps[i]] + between);
    RunAppend(rules, t, steps[..i], [steps[i]] + between);
    assert ([steps[i]] + between)[1..] == between;
    assert later == RunSlot(rules, after, between);
    StepKeeps(m, rules, before, steps[i]);
    RunKeeps(m, rules, after, between);
    RecordedStays(after, later, key);
    if key in PaidAt(rules, t, steps, j) {
      PaidIsRecorded(m, rules, t, steps, j, key);
    }
  }

  lemma PaidLane(m: Master, step: SlotStep)
    requires step.Command? && IssuedBy(m, step.call)
    ensures step.call.ClaimPass? ==> step.call.key.lane in {0, 1}
  {
  }

  // ----- What single rewards ask for -----

  /** The attendance achievement pays only when enough distinct days were attended. */
  lemma AttendanceRewardNeedsDays(m: Master, rules: Rules, t: Tables, level: int, quantity: Number, limit: Number,
                                  localDay: int, reward: Option<RewardGrant>, now: int)
    requires Healthy(m, t)
    requires ClaimGameReward(rules, t, Achievement, ATTENDANCE_ACHIEVEMENT, level, quantity, limit, localDay, reward, now).Ok?
    ensures limit.Finite? && limit.value <= |t.book.days| as real
  {
    BookOf(m, t);
    hide Healthy, GrantAll, LevelsClaimed, MissionsClaimed;
  }

  lemma BookOf(m: Master, t: Tables)
    requires Healthy(m, t)
    ensures A.ValidBook(t.book) && t.book.count == |t.book.days|
  {
  }

  /**
   A quest reward is told only for the active stage, for a condition that was not claimed before,
   and with the stored quantity at or above its threshold.
   */
  lemma QuestRewardNeedsQuantity(m: Master, rules: Rules, t: Tables, current: int, sub: int, value: Number,
                                 limits: (real, real, real), rewards: seq<RewardGrant>, nextId: Option<int>, now: int)
    requires ValidMaster(m) && Healthy(m, t)
    requires IssuedBy(m, AdvanceQuest(current, sub, value, limits, rewards, nextId))
    requires AdvanceFollowerQuest(rules, t, current, sub, value, limits, rewards, nextId, now).Ok?
    requires AdvanceFollowerQuest(rules, t, current, sub, value, limits, rewards, nextId, now).value.reply.questEarned != []
    ensures var t' := AdvanceFollowerQuest(rules, t, current, sub, value, limits, rewards, nextId, now).value.tables;
      && current == MaxInt(|t.guide.stages|, 1) && G.CompleteId(t.guide) == MaxInt(|t.guide.stages| - 1, 0)
      && !G.IsClaimed(t.guide, current, sub) && G.IsClaimed(t'.guide, current, sub)
      && t'.guide.conditions[(current, sub)].quantity >= LimitOf(limits, sub)
  {
    ChainOf(m, t);
    assert LimitOf(limits, sub) == G.ThresholdOf(m.quests, current, sub) && nextId == Some(current + 1);
    hide Healthy, ValidMaster, GrantAll, G.Claim, G.Chain, G.CompleteId;
    G.ClaimKeepsChain(t.guide, |t.guide.stages|, current, sub, value.value, m.quests);
    G.ChainCompleteId(t.guide, |t.guide.stages|, m.quests);
  }
}
