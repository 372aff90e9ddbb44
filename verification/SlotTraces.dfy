/**
 Projections of a slot's run on its energy, its attendance and its pass rotation: every run of the
 slot is a run of each of these smaller machines, so what holds over their runs holds for the slot.
 */
module SlotTraces {
  import opened Wrappers
  import opened SaveDomain
  import opened SlotRewards
  import opened ClientSave
  import opened Mailbox
  import opened SlotTables
  import opened SlotHealth
  import opened SlotCommandLaws
  import opened SlotMoney
  import opened SlotRuns
  import E = Ch3Energy
  import G = GuideChain
  import A = AttendanceBook
  import P = PassLedger
  import C = Ch3Stages
  import R = PassRotation

  // ----- Energy -----

  /** The rewards of the requested levels that are not claimed yet. */
  function NewItems(claims: set<(int, int)>, follower: int, requested: seq<ProfileItem>): seq<RewardGrant>
    decreases |requested|
  {
    if requested == [] then []
    else if (follower, requested[0].level) in claims then NewItems(claims, follower, requested[1..])
    else requested[0].rewards + NewItems(claims + {(follower, requested[0].level)}, follower, requested[1..])
  }

  /** How an accepted command moves the energy. */
  function EnergySteps(t: Tables, call: SlotCall, now: int): seq<E.EnergyStep> {
    match call
    case AdvanceQuest(current, sub, value, limits, rewards, nextId) =>
      if value.Finite? && G.Claim(t.guide, current, sub, value.value, LimitOf(limits, sub), nextId).earned
      then Cookies(rewards, now) else []
    case ClaimGame(_, _, _, _, _, _, reward) => Cookies(if reward.Some? then [reward.value] else [], now)
    case SettleStage(stage, _, star, _, cost, _, drops) =>
      [E.SpendAt(now, cost)] + Cookies(if C.Clears(stage, star) then drops else [], now)
    case SettleStream(_, count, costEach, _, rolls) =>
      [E.SpendAt(now, MaxInt(MinInt(costEach * count, I32_MAX), 0))] + Cookies(RollRewards(rolls), now)
    case ClaimChapter(_, _, _, rewards, _) => Cookies(rewards, now) + [E.RestoreAt(now)]
    case ClaimPass(key, required, rewards, paidSteps, ticket) =>
      var r := P.Claim(t.pass, key, required, paidSteps, ticket);
      if r.Ok? && r.value.inserted then Cookies(rewards, now) else []
    case PurchaseRewards(id, _, bought) => if id in t.purchases then [] else Cookies(bought, now)
    case ClaimProfile(follower, _, requested) => Cookies(NewItems(t.affectionClaims, follower, requested), now)
    case WatchAd(rewards) => Cookies(rewards, now)
    case ClaimEvent(_, reward) => Cookies([reward], now)
    case RestoreEnergy(_) => [E.RestoreAt(now)]
    case _ => []
  }

  lemma {:induction false} CookiesAppend(a: seq<RewardGrant>, b: seq<RewardGrant>, now: int)
    ensures Cookies(a + b, now) == Cookies(a, now) + Cookies(b, now)
    decreases |a|
  {
    if a == [] {
      assert a + b == b;
    } else {
      CookiesAppend(a[1..], b, now);
      assert (a + b)[1..] == a[1..] + b;
      var (x, y, z) := (CookieOf(a[0], now), Cookies(a[1..], now), Cookies(b, now));
      hide CookieOf, Cookies;
      assert x + (y + z) == (x + y) + z;
    }
  }

  lemma {:induction false} RollsEnergy(rules: Rules, h: Holdings, rolls: seq<Roll>, now: int)
    requires GrantRolls(rules, h, rolls, now).Ok?
    ensures E.Reaches(h.energy, GrantRolls(rules, h, rolls, now).value.0.energy, Cookies(RollRewards(rolls), now), ENERGY_CAP)
    decreases |rolls|
  {
    if rolls == [] {
    } else {
      hide GrantAll, E.Reaches, Cookies;
      var next := GrantAll(rules, h, rolls[0].rewards, now).value.0;
      var after := GrantRolls(rules, next, rolls[1..], now).value.0;
      GrantAllEnergy(rules, h, rolls[0].rewards, now, ENERGY_CAP);
      RollsEnergy(rules, next, rolls[1..], now);
      CookiesAppend(rolls[0].rewards, RollRewards(rolls[1..]), now);
      E.ReachesAppend(h.energy, next.energy, after.energy, Cookies(rolls[0].rewards, now),
                      Cookies(RollRewards(rolls[1..]), now), ENERGY_CAP);
    }
  }

  lemma {:induction false} LevelsEnergy(rules: Rules, h: Holdings, claims: set<(int, int)>, follower: int,
                                        profileLevel: int, requested: seq<ProfileItem>, now: int)
    requires GrantLevels(rules, h, claims, follower, profileLevel, requested, now).Ok?
    ensures E.Reaches(h.energy, GrantLevels(rules, h, claims, follower, profileLevel, requested, now).value.0.energy,
                      Cookies(NewItems(claims, follower, requested), now), ENERGY_CAP)
    decreases |requested|
  {
    if requested == [] {
    } else if (follower, requested[0].level) in claims {
      LevelsEnergy(rules, h, claims, follower, profileLevel, requested[1..], now);
    } else {
      hide GrantAll, E.Reaches, Cookies;
      var next := GrantAll(rules, h, requested[0].rewards, now).value.0;
      var claimed := claims + {(follower, requested[0].level)};
      var after := GrantLevels(rules, next, claimed, follower, profileLevel, requested[1..], now).value.0;
      GrantAllEnergy(rules, h, requested[0].rewards, now, ENERGY_CAP);
      LevelsEnergy(rules, next, claimed, follower, profileLevel, requested[1..], now);
      CookiesAppend(requested[0].rewards, NewItems(claimed, follower, requested[1..]), now);
      E.ReachesAppend(h.energy, next.energy, after.energy, Cookies(requested[0].rewards, now),
                      Cookies(NewItems(claimed, follower, requested[1..]), now), ENERGY_CAP);
    }
  }

  /** The energy after a command is what the energy steps lead to. */
  ghost predicate Moves(h: Holdings, o: Outcome, steps: seq<E.EnergyStep>) {
    o.Ok? ==> E.Reaches(h.energy, o.value.tables.holdings.energy, steps, ENERGY_CAP)
  }

  lemma OneStep(e: E.Energy, step: E.EnergyStep)
    requires E.Take(e, step, ENERGY_CAP).Ok?
    ensures E.Reaches(e, E.Take(e, step, ENERGY_CAP).value, [step], ENERGY_CAP)
  {
    assert [step][1..] == [];
  }

  lemma PayEnergyMoves(h: Holdings, now: int, cap: int, cost: nat)
    requires cap == ENERGY_CAP && PayEnergy(h, now, cap, cost).Ok?
    ensures E.Reaches(h.energy, PayEnergy(h, now, cap, cost).value.energy, [E.SpendAt(now, cost)], ENERGY_CAP)
  {
    hide E.Reaches;
    OneStep(h.energy, E.SpendAt(now, cost));
  }

  lemma StageMoves(rules: Rules, t: Tables, stage: C.StageDef, next: Option<C.StageDef>, star: int, score: int,
                   cost: nat, cap: int, drops: seq<RewardGrant>, now: int)
    requires cap == ENERGY_CAP
    ensures Moves(t.holdings, SettleCh3Stage(rules, t, stage, next, star, score, cost, cap, drops, now),
                  [E.SpendAt(now, cost)] + Cookies(if C.Clears(stage, star) then drops else [], now))
  {
    var o := SettleCh3Stage(rules, t, stage, next, star, score, cost, cap, drops, now);
    hide GrantAll, PayEnergy, C.Settle, E.Reaches, Cookies;
    if o.Ok? {
      var paid := PayEnergy(t.holdings, now, cap, cost).value;
      var given := if C.Clears(stage, star) then drops else [];
      PayEnergyMoves(t.holdings, now, cap, cost);
      GrantAllEnergy(rules, paid, given, now, ENERGY_CAP);
      E.ReachesAppend(t.holdings.energy, paid.energy, o.value.tables.holdings.energy,
                      [E.SpendAt(now, cost)], Cookies(given, now), ENERGY_CAP);
    }
  }

  lemma StreamMoves(rules: Rules, t: Tables, stageId: int, count: int, costEach: nat, cap: int, rolls: seq<Roll>, now: int)
    requires cap == ENERGY_CAP
    ensures Moves(t.holdings, SettleCh3Stream(rules, t, stageId, count, costEach, cap, rolls, now),
                  [E.SpendAt(now, MaxInt(MinInt(costEach * count, I32_MAX), 0))] + Cookies(RollRewards(rolls), now))
  {
    var o := SettleCh3Stream(rules, t, stageId, count, costEach, cap, rolls, now);
    hide GrantRolls, PayEnergy, E.Reaches, Cookies;
    if o.Ok? {
      var cost := MinInt(costEach * count, I32_MAX);
      var paid := PayEnergy(t.holdings, now, cap, cost).value;
      PayEnergyMoves(t.holdings, now, cap, cost);
      RollsEnergy(rules, paid, rolls, now);
      E.ReachesAppend(t.holdings.energy, paid.energy, o.value.tables.holdings.energy,
                      [E.SpendAt(now, cost)], Cookies(RollRewards(rolls), now), ENERGY_CAP);
    }
  }

  lemma ChapterMoves(rules: Rules, t: Tables, chapter: int, num: int, goal: int, rewards: seq<RewardGrant>, cap: int, now: int)
    requires cap == ENERGY_CAP
    ensures Moves(t.holdings, ClaimChapterReward(rules, t, chapter, num, goal, rewards, cap, now),
                  Cookies(rewards, now) + [E.RestoreAt(now)])
  {
    var o := ClaimChapterReward(rules, t, chapter, num, goal, rewards, cap, now);
    if o.Ok? {
      ChapterParts(rules, t, chapter, num, goal, rewards, cap, now);
      hide GrantAll, C.ClaimChapter, E.Reaches, Cookies, ClaimChapterReward;
      var granted := GrantAll(rules, t.holdings, rewards, now).value.0;
      GrantAllEnergy(rules, t.holdings, rewards, now, ENERGY_CAP);
      OneStep(granted.energy, E.RestoreAt(now));
      E.ReachesAppend(t.holdings.energy, granted.energy, o.value.tables.holdings.energy,
                      Cookies(rewards, now), [E.RestoreAt(now)], ENERGY_CAP);
    }
  }

  lemma GrantMoves(rules: Rules, h: Holdings, rewards: seq<RewardGrant>, now: int)
    ensures GrantAll(rules, h, rewards, now).Ok? ==>
      E.Reaches(h.energy, GrantAll(rules, h, rewards, now).value.0.energy, Cookies(rewards, now), ENERGY_CAP)
  {
    hide GrantAll, E.Reaches, Cookies;
    if GrantAll(rules, h, rewards, now).Ok? {
      GrantAllEnergy(rules, h, rewards, now, ENERGY_CAP);
    }
  }

  lemma QuestMoves(rules: Rules, t: Tables, current: int, sub: int, value: Number, limits: (real, real, real),
                   rewards: seq<RewardGrant>, nextId: Option<int>, now: int)
    ensures Moves(t.holdings, AdvanceFollowerQuest(rules, t, current, sub, value, limits, rewards, nextId, now),
                  EnergySteps(t, AdvanceQuest(current, sub, value, limits, rewards, nextId), now))
  {
    hide GrantAll, Cookies, G.Claim, G.CompleteId;
    GrantMoves(rules, t.holdings, rewards, now);
  }

  lemma GameMoves(rules: Rules, t: Tables, kind: GameKind, id: int, level: int, quantity: Number, limit: Number,
                  localDay: int, reward: Option<RewardGrant>, now: int)
    ensures Moves(t.holdings, ClaimGameReward(rules, t, kind, id, level, quantity, limit, localDay, reward, now),
                  Cookies(if reward.Some? then [reward.value] else [], now))
  {
    hide GrantAll, Cookies, E.Reaches, LevelsClaimed, MissionsClaimed, Reported;
    GrantMoves(rules, t.holdings, if reward.Some? then [reward.value] else [], now);
  }

  lemma PassMoves(rules: Rules, t: Tables, key: P.ClaimKey, required: int, rewards: seq<RewardGrant>,
                  paidSteps: int, ticket: int, now: int)
    ensures Moves(t.holdings, ClaimPassReward(rules, t, key, required, rewards, paidSteps, ticket, now),
                  EnergySteps(t, ClaimPass(key, required, rewards, paidSteps, ticket), now))
  {
    hide GrantAll, Cookies, P.Claim;
    GrantMoves(rules, t.holdings, rewards, now);
  }

  lemma BuyMoves(rules: Rules, t: Tables, id: string, payment: Option<(CurrencyKind, Number)>, bought: seq<RewardGrant>, now: int)
    ensures Moves(t.holdings, BuyRewards(rules, t, id, payment, bought, now),
                  if id in t.purchases then [] else Cookies(bought, now))
  {
    hide GrantAll, Cookies, Deduct;
    if id !in t.purchases && (payment.Some? ==> Pay(t.holdings, payment.value.0, payment.value.1).Ok?) {
      var paid := if payment.Some? then Pay(t.holdings, payment.value.0, payment.value.1).value else t.holdings;
      assert paid.energy == t.holdings.energy;
      GrantMoves(rules, paid, bought, now);
    }
  }

  lemma ProfileMoves(rules: Rules, t: Tables, follower: int, profileLevel: int, requested: seq<ProfileItem>, now: int)
    ensures Moves(t.holdings, ClaimProfileRewards(rules, t, follower, profileLevel, requested, now),
                  Cookies(NewItems(t.affectionClaims, follower, requested), now))
  {
    hide GrantLevels, Cookies, E.Reaches, NewItems;
    if GrantLevels(rules, t.holdings, t.affectionClaims, follower, profileLevel, requested, now).Ok? {
      LevelsEnergy(rules, t.holdings, t.affectionClaims, follower, profileLevel, requested, now);
    }
  }

  lemma RestoreMoves(t: Tables, cap: int, now: int)
    requires cap == ENERGY_CAP
    ensures Moves(t.holdings, RestoreCh3(t, cap, now), [E.RestoreAt(now)])
  {
    hide E.Reaches;
    OneStep(t.holdings.energy, E.RestoreAt(now));
  }

  lemma SaveKeepsEnergy(t: Tables, patch: Patch, multiplier: int, thresholds: seq<PassThreshold>)
    ensures Moves(t.holdings, MergeUserSave(t, patch, multiplier, thresholds), [])
  {
    if MergeUserSave(t, patch, multiplier, thresholds).Ok? {
      SaveParts(t, patch, multiplier, thresholds);
      var t' := MergeUserSave(t, patch, multiplier, thresholds).value.tables;
      hide MergeUserSave, SaveHoldings;
      SaveHoldingsSound(t.holdings, t'.flags, patch);
    }
  }

  lemma MailKeepsEnergy(rules: Rules, t: Tables, post: int, now: int)
    ensures Moves(t.holdings, ClaimPost(rules, t, post, now), [])
  {
    hide Mailbox.Claim;
    if ClaimPost(rules, t, post, now).Ok? {
      ClaimEffect(rules, t.holdings, t.mail, post, now);
    }
  }

  /** An accepted command moves the energy exactly along its energy steps. */
  lemma CommandMoves(m: Master, rules: Rules, t: Tables, call: SlotCall, now: int)
    requires IssuedBy(m, call)
    ensures Moves(t.holdings, Apply(rules, t, call, now), EnergySteps(t, call, now))
  {
    hide Moves, EnergySteps, Apply;
    if Trades(call) {
      TradeMoves(rules, t, call, now);
    } else {
      PlayMoves(m, rules, t, call, now);
    }
  }

  lemma TradeMoves(rules: Rules, t: Tables, call: SlotCall, now: int)
    requires Trades(call)
    ensures Moves(t.holdings, Apply(rules, t, call, now), EnergySteps(t, call, now))
  {
    hide ClaimPassReward, BuyRewards, ClaimProfileRewards, ClaimPost, WatchedAd, ClaimEventReward, Moves, Cookies, NewItems;
    hide FillPassPoints, BuyContent, GrantOnce, ClaimEncoreRewards, SendMail, ClaimSamSeckStep, ActivateSeasons, Delete;
    hide GrantPackageContents, GiveFollowerGift, P.Claim, MergeUserSave, AdvanceFollowerQuest, ClaimGameReward;
    hide SettleCh3Stage, SettleCh3Stream, ClaimChapterReward, RestoreCh3, AttendDay, MarkInfinite, SelectPassSeason;
    hide GrantAll, G.Claim, RollRewards;
    match call {
      case ClaimPass(key, required, rewards, paidSteps, ticket) =>
        PassMoves(rules, t, key, required, rewards, paidSteps, ticket, now);
      case PurchaseRewards(id, payment, bought) => BuyMoves(rules, t, id, payment, bought, now);
      case ClaimMail(post) => MailKeepsEnergy(rules, t, post, now);
      case ClaimProfile(follower, profileLevel, requested) =>
        ProfileMoves(rules, t, follower, profileLevel, requested, now);
      case WatchAd(rewards) => AdMoves(rules, t, rewards, now);
      case ClaimEvent(rowId, reward) => EventMoves(rules, t, rowId, reward, now);
      case _ => OthersKeepEnergy(rules, t, call, now);
    }
  }

  lemma PlayMoves(m: Master, rules: Rules, t: Tables, call: SlotCall, now: int)
    requires IssuedBy(m, call) && !Trades(call)
    ensures Moves(t.holdings, Apply(rules, t, call, now), EnergySteps(t, call, now))
  {
    hide MergeUserSave, AdvanceFollowerQuest, ClaimGameReward, SettleCh3Stage, SettleCh3Stream, ClaimChapterReward;
    hide RestoreCh3, AttendDay, MarkInfinite, SelectPassSeason, Moves, Cookies, RollRewards, P.Lists, StepsOf, G.Claim;
    match call {
      case UserSave(patch, multiplier, thresholds) => SaveKeepsEnergy(t, patch, multiplier, thresholds);
      case AdvanceQuest(current, sub, value, limits, rewards, nextId) =>
        QuestMoves(rules, t, current, sub, value, limits, rewards, nextId, now);
      case ClaimGame(kind, id, level, quantity, limit, localDay, reward) =>
        GameMoves(rules, t, kind, id, level, quantity, limit, localDay, reward, now);
      case SettleStage(stage, next, star, score, cost, cap, drops) =>
        StageMoves(rules, t, stage, next, star, score, cost, cap, drops, now);
      case SettleStream(stageId, count, costEach, cap, rolls) =>
        StreamMoves(rules, t, stageId, count, costEach, cap, rolls, now);
      case ClaimChapter(chapter, num, goal, rewards, cap) =>
        ChapterMoves(rules, t, chapter, num, goal, rewards, cap, now);
      case RestoreEnergy(cap) => RestoreMoves(t, cap, now);
      case _ => OthersKeepEnergy(rules, t, call, now);
    }
  }

  lemma AdMoves(rules: Rules, t: Tables, rewards: seq<RewardGrant>, now: int)
    ensures Moves(t.holdings, WatchedAd(rules, t, rewards, now), Cookies(rewards, now))
  {
    hide GrantAll, Cookies, E.Reaches;
    GrantMoves(rules, t.holdings, rewards, now);
  }

  lemma EventMoves(rules: Rules, t: Tables, rowId: int, reward: RewardGrant, now: int)
    ensures Moves(t.holdings, ClaimEventReward(rules, t, rowId, reward, now), Cookies([reward], now))
  {
    hide GrantAll, Cookies, E.Reaches;
    GrantMoves(rules, t.holdings, [reward], now);
  }

  lemma PackageMoves(t: Tables, contents: seq<(Content, int)>, musicIds: seq<int>)
    ensures Moves(t.holdings, GrantPackageContents(t, contents, musicIds), [])
  {
    hide AddPackage;
    PackageEffect(t.holdings, contents);
  }

  lemma GiftMoves(t: Tables, gift: int, used: int)
    ensures Moves(t.holdings, GiveFollowerGift(t, gift, used), [])
  {
  }

  lemma OthersKeepEnergy(rules: Rules, t: Tables, call: SlotCall, now: int)
    requires call.SetInfinite? || call.Attend? || call.FillPass? || call.ActivatePasses? || call.PurchaseContent?
      || call.QueueMail? || call.DeleteMail? || call.ClaimEncores? || call.ClaimSamSeck? || call.SelectSeason?
      || call.SetFlag? || call.GrantCurrency? || call.GrantPackage? || call.GiveGift? || call.Untracked? || call.Aborted?
    ensures Moves(t.holdings, Apply(rules, t, call, now), [])
  {
    hide FillPassPoints, BuyContent, GrantOnce, ClaimEncoreRewards, SendMail, ClaimSamSeckStep, AttendDay, MarkInfinite;
    hide ActivateSeasons, SelectPassSeason, GrantPackageContents, GiveFollowerGift, Delete, Moves;
    match call {
      case GrantPackage(contents, musicIds) => PackageMoves(t, contents, musicIds);
      case GiveGift(gift, used) => GiftMoves(t, gift, used);
      case FillPass(season, version, price, added, steps) => FillMoves(t, season, version, price, added, steps);
      case PurchaseContent(content, area, currency, basePrice, increment, maxLevel) =>
        BuyContentMoves(rules, t, content, area, currency, basePrice, increment, maxLevel);
      case _ => StillMoves(rules, t, call, now);
    }
  }

  lemma FillMoves(t: Tables, season: int, version: int, price: Number, added: int, steps: P.Steps)
    ensures Moves(t.holdings, FillPassPoints(t, season, version, price, added, steps), [])
  {
    hide P.Fill, Deduct;
  }

  lemma BuyContentMoves(rules: Rules, t: Tables, content: Content, area: int, currency: CurrencyKind,
                        basePrice: Number, increment: Number, maxLevel: int)
    ensures Moves(t.holdings, BuyContent(rules, t, content, area, currency, basePrice, increment, maxLevel), [])
  {
    hide NextPrice, Deduct;
  }

  lemma StillMoves(rules: Rules, t: Tables, call: SlotCall, now: int)
    requires call.SetInfinite? || call.Attend? || call.ActivatePasses? || call.QueueMail? || call.DeleteMail?
      || call.ClaimEncores? || call.ClaimSamSeck? || call.SelectSeason? || call.SetFlag? || call.GrantCurrency?
      || call.Untracked? || call.Aborted?
    ensures Moves(t.holdings, Apply(rules, t, call, now), [])
  {
    hide G.SetInfinite, G.CompleteId, P.Activate, Queue, QueueGrant, Delete, SamSeckEligible, NextPost, A.Attend, R.Rotate;
    hide TakeEncores, GiftTotal, MergeUserSave, GrantAll, Credit, ClaimPassReward, BuyRewards, BuyContent, ClaimGameReward;
  }

  function StepEnergy(rules: Rules, t: Tables, step: SlotStep): seq<E.EnergyStep> {
    if step.Command? && Apply(rules, t, step.call, step.now).Ok? then EnergySteps(t, step.call, step.now) else []
  }

  function EnergyTrace(rules: Rules, t: Tables, steps: seq<SlotStep>): seq<E.EnergyStep>
    decreases |steps|
  {
    if steps == [] then []
    else StepEnergy(rules, t, steps[0]) + EnergyTrace(rules, TakeStep(rules, t, steps[0]), steps[1..])
  }

  lemma StepMovesEnergy(m: Master, rules: Rules, t: Tables, step: SlotStep)
    requires step.Command? ==> IssuedBy(m, step.call)
    ensures E.Reaches(t.holdings.energy, TakeStep(rules, t, step).holdings.energy, StepEnergy(rules, t, step), ENERGY_CAP)
  {
    hide Apply, IssuedBy, EnergySteps, AnchorAtLogin;
    match step {
      case Command(call, now) => CommandMoves(m, rules, t, call, now);
      case Login(clock) => AnchorKeepsHoldings(t, clock);
    }
  }

  lemma {:induction false} RunMovesEnergy(m: Master, rules: Rules, t: Tables, steps: seq<SlotStep>)
    requires Issued(m, steps)
    ensures E.Reaches(t.holdings.energy, RunSlot(rules, t, steps).holdings.energy, EnergyTrace(rules, t, steps), ENERGY_CAP)
    decreases |steps|
  {
    hide Apply, IssuedBy, StepEnergy, TakeStep;
    if steps != [] {
      var next := TakeStep(rules, t, steps[0]);
      StepMovesEnergy(m, rules, t, steps[0]);
      RunMovesEnergy(m, rules, next, steps[1..]);
      hide E.Reaches;
      E.ReachesAppend(t.holdings.energy, next.holdings.energy, RunSlot(rules, t, steps).holdings.energy,
                      StepEnergy(rules, t, steps[0]), EnergyTrace(rules, next, steps[1..]), ENERGY_CAP);
    }
  }

  lemma AnchorKeepsHoldings(t: Tables, clock: R.DeviceClock)
    ensures AnchorAtLogin(t, clock).holdings == t.holdings && AnchorAtLogin(t, clock).book == t.book
  {
  }

  /**
   In every run the energy stays between zero and the cap, and what is left and was spent is at
   most what there was, the seconds that passed and the cookies that were granted.
   */
  lemma RunEnergyBounded(m: Master, rules: Rules, t: Tables, steps: seq<SlotStep>)
    requires Issued(m, steps) && E.ValidEnergy(t.holdings.energy, ENERGY_CAP)
    ensures var (e, e', trace) :=
        (t.holdings.energy, RunSlot(rules, t, steps).holdings.energy, EnergyTrace(rules, t, steps));
      && 0 <= e'.amount <= ENERGY_CAP
      && e'.amount + E.TotalSpent(trace) <= e.amount + E.ForwardSeconds(e.calculatedAt, trace) + E.TotalGranted(trace)
  {
    hide Apply, RunSlot, EnergyTrace, Issued, E.Reaches;
    RunMovesEnergy(m, rules, t, steps);
    E.EnergyAccounted(t.holdings.energy, RunSlot(rules, t, steps).holdings.energy, EnergyTrace(rules, t, steps), ENERGY_CAP);
  }

  // ----- Attendance -----

  function StepVisits(rules: Rules, t: Tables, step: SlotStep): seq<A.Visit> {
    if step.Command? && step.call.Attend? && AttendDay(t, step.call.visit).Ok? then [step.call.visit] else []
  }

  function VisitTrace(rules: Rules, t: Tables, steps: seq<SlotStep>): seq<A.Visit>
    decreases |steps|
  {
    if steps == [] then []
    else StepVisits(rules, t, steps[0]) + VisitTrace(rules, TakeStep(rules, t, steps[0]), steps[1..])
  }

  /** Commands other than a visit leave the attendance alone, even client snapshots. */
  lemma OthersKeepBook(rules: Rules, t: Tables, call: SlotCall, now: int)
    requires !call.Attend? && Apply(rules, t, call, now).Ok?
    ensures Apply(rules, t, call, now).value.tables.book == t.book
  {
    hide GrantAll, GrantLevels, GrantRolls, PayEnergy, Restored, Pay, Credit, C.Settle, C.ClaimChapter, C.Unlocked, C.Completed;
    hide G.SetInfinite, G.CompleteId, G.Claim, P.Activate, P.Fill, P.Claim, Queue, QueueGrant, Delete, SamSeckEligible, NextPost;
    hide TakeEncores, GiftTotal, NextPrice, AddPackage, Mailbox.Claim, SaveHoldings, MarkAreas, Reported, LevelsClaimed, MissionsClaimed;
    hide R.Rotate, G.Save, MergePasses, MergeMusics, MergeCounters;
  }

  lemma StepVisited(rules: Rules, t: Tables, step: SlotStep)
    ensures A.Reaches(t.book, TakeStep(rules, t, step).book, StepVisits(rules, t, step))
  {
    if step.Command? && step.call.Attend? {
      var visit := step.call.visit;
      hide A.Attend;
      assert [visit][1..] == [];
    } else if step.Command? {
      hide Apply;
      if Apply(rules, t, step.call, step.now).Ok? {
        OthersKeepBook(rules, t, step.call, step.now);
      }
    } else {
      AnchorKeepsHoldings(t, step.clock);
    }
  }

  lemma {:induction false} RunVisits(rules: Rules, t: Tables, steps: seq<SlotStep>)
    ensures A.Reaches(t.book, RunSlot(rules, t, steps).book, VisitTrace(rules, t, steps))
    decreases |steps|
  {
    hide StepVisits, TakeStep;
    if steps != [] {
      var next := TakeStep(rules, t, steps[0]);
      StepVisited(rules, t, steps[0]);
      RunVisits(rules, next, steps[1..]);
      hide A.Reaches;
      A.ReachesAppend(t.book, next.book, RunSlot(rules, t, steps).book,
                      StepVisits(rules, t, steps[0]), VisitTrace(rules, next, steps[1..]));
    }
  }

  /**
   In every run of a new slot the attendance count is the number of distinct days added and the stored
   maximum the longest block of consecutive additions; it is the longest attended run exactly when
   such a run was added in order, and always when each day added is later than those before.
   */
  lemma RunAttendance(rules: Rules, t: Tables, steps: seq<SlotStep>)
    requires t.book == A.NEW_BOOK
    ensures var (book, visits) := (RunSlot(rules, t, steps).book, VisitTrace(rules, t, steps));
      var adds := A.Additions({}, visits);
      && A.ValidBook(book) && book.days == A.AddedDays(visits) && book.count == |A.AddedDays(visits)|
      && A.Streak(adds, book.continuous) && A.LongestBlock(adds, book.maximum)
      && (A.MaxExact(book) <==>
          exists end, n :: A.LongestRun(book.days, end, n) && A.AddedInOrder(adds, end, n))
      && (A.Ascending(adds) ==> A.ExactBook(book))
  {
    hide RunSlot, VisitTrace, A.Reaches, A.ExactBook, A.Additions, A.Ascending, A.LongestBlock, A.Streak;
    var (book, visits) := (RunSlot(rules, t, steps).book, VisitTrace(rules, t, steps));
    RunVisits(rules, t, steps);
    A.NewBookExact();
    A.VisitsCounted(A.NEW_BOOK, book, visits);
    A.MaximumIsLongestBlock(book, visits);
    if A.Ascending(A.Additions({}, visits)) {
      A.IncreasingVisitsExact(A.NEW_BOOK, book, visits);
    }
  }

  // ----- Pass rotation -----

  function StepTurns(t: Tables, step: SlotStep): seq<R.RotationStep> {
    match step
    case Login(clock) => [R.AnchorAtLogin(clock)]
    case Command(SelectSeason(clock, season), _) =>
      if R.ValidSeason(season) then [R.SelectSeason(clock, season)] else []
    case _ => []
  }

  function TurnTrace(rules: Rules, t: Tables, steps: seq<SlotStep>): seq<R.RotationStep>
    decreases |steps|
  {
    if steps == [] then []
    else StepTurns(t, steps[0]) + TurnTrace(rules, TakeStep(rules, t, steps[0]), steps[1..])
  }

  lemma OthersKeepRotation(rules: Rules, t: Tables, call: SlotCall, now: int)
    requires !call.SelectSeason? && Apply(rules, t, call, now).Ok?
    ensures Apply(rules, t, call, now).value.tables.rotation == t.rotation
  {
    hide GrantAll, GrantLevels, GrantRolls, PayEnergy, Restored, Pay, Credit, C.Settle, C.ClaimChapter, C.Unlocked, C.Completed;
    hide G.SetInfinite, G.CompleteId, G.Claim, P.Activate, P.Fill, P.Claim, Queue, QueueGrant, Delete, SamSeckEligible, NextPost;
    hide TakeEncores, GiftTotal, NextPrice, AddPackage, Mailbox.Claim, SaveHoldings, MarkAreas, Reported, LevelsClaimed, MissionsClaimed;
    hide A.Attend, G.Save, MergePasses, MergeMusics, MergeCounters;
  }

  lemma OneTurn(rotation: R.Rotation, turn: R.RotationStep)
    requires R.Rotate(rotation, turn).Ok?
    ensures R.Reaches(rotation, R.Rotate(rotation, turn).value, [turn])
  {
    hide R.Rotate;
    assert [turn][1..] == [];
  }

  lemma SelectTurned(t: Tables, clock: R.DeviceClock, season: int)
    ensures SelectPassSeason(t, clock, season).Ok? <==> R.ValidSeason(season)
    ensures SelectPassSeason(t, clock, season).Ok? ==>
      && R.Rotate(t.rotation, R.SelectSeason(clock, season)).Ok?
      && SelectPassSeason(t, clock, season).value.tables.rotation
         == R.Rotate(t.rotation, R.SelectSeason(clock, season)).value
  {
  }

  lemma StepTurned(rules: Rules, t: Tables, step: SlotStep)
    ensures R.Reaches(t.rotation, TakeStep(rules, t, step).rotation, StepTurns(t, step))
  {
    match step {
      case Login(clock) =>
        AnchorTurns(t, clock);
        hide R.Rotate, Apply, AnchorAtLogin;
        OneTurn(t.rotation, R.AnchorAtLogin(clock));
      case Command(call, now) => CommandTurned(rules, t, call, now);
    }
  }

  lemma CommandTurned(rules: Rules, t: Tables, call: SlotCall, now: int)
    ensures R.Reaches(t.rotation, TakeStep(rules, t, Command(call, now)).rotation, StepTurns(t, Command(call, now)))
  {
    hide R.Rotate, SelectPassSeason, R.ValidSeason, MergeUserSave, AdvanceFollowerQuest, ClaimGameReward;
    if call.SelectSeason? {
      SelectTurned(t, call.clock, call.selected);
      if SelectPassSeason(t, call.clock, call.selected).Ok? {
        OneTurn(t.rotation, R.SelectSeason(call.clock, call.selected));
      }
    } else {
      hide Apply;
      if Apply(rules, t, call, now).Ok? {
        OthersKeepRotation(rules, t, call, now);
      }
    }
  }

  lemma AnchorTurns(t: Tables, clock: R.DeviceClock)
    ensures R.Rotate(t.rotation, R.AnchorAtLogin(clock)).Ok?
    ensures AnchorAtLogin(t, clock).rotation == R.Rotate(t.rotation, R.AnchorAtLogin(clock)).value
  {
  }

  lemma {:induction false} RunTurns(rules: Rules, t: Tables, steps: seq<SlotStep>)
    ensures R.Reaches(t.rotation, RunSlot(rules, t, steps).rotation, TurnTrace(rules, t, steps))
    decreases |steps|
  {
    hide StepTurns, TakeStep;
    if steps != [] {
      var next := TakeStep(rules, t, steps[0]);
      StepTurned(rules, t, steps[0]);
      RunTurns(rules, next, steps[1..]);
      hide R.Reaches;
      R.ReachesAppend(t.rotation, next.rotation, RunSlot(rules, t, steps).rotation,
                      StepTurns(t, steps[0]), TurnTrace(rules, next, steps[1..]));
    }
  }

  /**
   Two moments of a run of one slot, at one UTC offset and a clock that did not run back: when the
   cache stamps are equal, the active pass and the month the client was given are still right.
   */
  lemma RunStampCoherent(rules: Rules, t: Tables, steps: seq<SlotStep>, c1: R.DeviceClock, c2: R.DeviceClock)
    requires t.rotation.anchor.Some?
    requires c1.utcOffsetMinutes == c2.utcOffsetMinutes && c1.unixSeconds <= c2.unixSeconds
    requires R.Unsaturated(c1, t.rotation.revision) && R.Unsaturated(c2, RunSlot(rules, t, steps).rotation.revision)
    ensures var later := RunSlot(rules, t, steps).rotation;
      R.MasterUpdateTime(c1, t.rotation.revision) == R.MasterUpdateTime(c2, later.revision) ==>
      later.anchor.Some? && R.OverlayOf(c1, t.rotation) == R.OverlayOf(c2, later)
  {
    hide RunSlot, TurnTrace, R.Reaches, R.MasterUpdateTime, R.OverlayOf, R.Unsaturated, R.LocalEpochDay;
    RunTurns(rules, t, steps);
    R.StampCoherence(t.rotation, RunSlot(rules, t, steps).rotation, TurnTrace(rules, t, steps), c1, c2);
  }

  /** Any two moments of a run of one slot: exactly when the stamp hides a changed day or revision. */
  lemma RunHidesExactly(rules: Rules, t: Tables, steps: seq<SlotStep>, c1: R.DeviceClock, c2: R.DeviceClock)
    requires R.Unsaturated(c1, t.rotation.revision) && R.Unsaturated(c2, RunSlot(rules, t, steps).rotation.revision)
    ensures var later := RunSlot(rules, t, steps).rotation;
      && (R.Hides(t.rotation, c1, later, c2) <==>
          later.revision - t.rotation.revision == R.MinutesEast(c1, c2) * 60 - R.DaysAhead(c1, c2) * 86_400
          && (R.DaysAhead(c1, c2) != 0 || R.MinutesEast(c1, c2) != 0))
      && (R.Hides(t.rotation, c1, later, c2) && R.ValidOffset(c1) && R.ValidOffset(c2) ==> R.DaysAhead(c1, c2) <= 1)
  {
    hide RunSlot, TurnTrace, R.Reaches, R.Hides, R.Unsaturated, R.LocalEpochDay;
    RunTurns(rules, t, steps);
    R.HidesExactly(t.rotation, RunSlot(rules, t, steps).rotation, TurnTrace(rules, t, steps), c1, c2);
  }
}
