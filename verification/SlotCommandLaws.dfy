/**
 Command by command: every accepted command keeps the slot healthy and loses no progress.
 */
module SlotCommandLaws {
  import opened Wrappers
  import opened Text
  import opened SaveDomain
  import opened SlotRewards
  import opened ClientSave
  import opened Mailbox
  import opened SlotTables
  import opened SlotHealth
  import G = GuideChain
  import A = AttendanceBook
  import P = PassLedger
  import C = Ch3Stages
  import R = PassRotation

  // ----- One lemma for each command -----

  lemma QuestKeeps(m: Master, rules: Rules, t: Tables, current: int, sub: int, value: Number,
                   limits: (real, real, real), rewards: seq<RewardGrant>, nextId: Option<int>, now: int)
    requires ValidMaster(m) && Healthy(m, t)
    requires current in m.quests && limits == m.quests[current] && nextId == Some(Saturate64(current + 1))
    requires AdvanceFollowerQuest(rules, t, current, sub, value, limits, rewards, nextId, now).Ok?
    ensures var t' := AdvanceFollowerQuest(rules, t, current, sub, value, limits, rewards, nextId, now).value.tables;
      Healthy(m, t') && Progresses(t, t')
  {
    var t' := AdvanceFollowerQuest(rules, t, current, sub, value, limits, rewards, nextId, now).value.tables;
    assert LimitOf(limits, sub) == G.ThresholdOf(m.quests, current, sub) && nextId == Some(current + 1);
    hide G.Claim, G.Chain, G.Grows, GrantAll, G.CompleteId, Healthy, Progresses, SoundChange;
    var r := GuideStep(m, t, current, sub, value.value);
    var t1 := t.(guide := r.guide);
    if r.earned {
      GrantAllSound(rules, t.holdings, rewards, now);
      HoldingsChange(m, t1, t'.holdings);
      ProgressesTransitive(t, t1, t');
    }
  }

  lemma GuideStep(m: Master, t: Tables, current: int, sub: int, value: real) returns (r: G.Claimed)
    requires ValidMaster(m) && Healthy(m, t) && current in m.quests && 1 <= sub <= 3
    ensures r == G.Claim(t.guide, current, sub, value, G.ThresholdOf(m.quests, current, sub), Some(current + 1))
    ensures Healthy(m, t.(guide := r.guide)) && Progresses(t, t.(guide := r.guide))
  {
    hide G.Claim, G.Chain, G.Grows, Progresses;
    var n := |t.guide.stages|;
    r := G.Claim(t.guide, current, sub, value, G.ThresholdOf(m.quests, current, sub), Some(current + 1));
    G.ClaimKeepsChain(t.guide, n, current, sub, value, m.quests);
    GuideChange(m, t, r.guide, if r.next then MaxInt(n, 1) + 1 else MaxInt(n, 1));
  }

  /** Claiming the next level leaves no gap. */
  lemma NextLevel(claims: set<(int, int)>, id: int)
    requires LevelsInOrder(claims)
    ensures LevelsInOrder(claims + {(id, |LevelsClaimed(claims, id)| + 1)})
    ensures (id, |LevelsClaimed(claims, id)| + 1) !in claims
  {
    var n := |LevelsClaimed(claims, id)|;
    var more := claims + {(id, n + 1)};
    assert (id, n + 1) !in claims;
    assert LevelsClaimed(more, id) == LevelsClaimed(claims, id) + {(id, n + 1)};
    forall other | other != id ensures LevelsClaimed(more, other) == LevelsClaimed(claims, other) {
    }
  }

  lemma GameKeeps(m: Master, rules: Rules, t: Tables, kind: GameKind, id: int, level: int, quantity: Number,
                  limit: Number, localDay: int, reward: Option<RewardGrant>, now: int)
    requires Healthy(m, t)
    requires ClaimGameReward(rules, t, kind, id, level, quantity, limit, localDay, reward, now).Ok?
    ensures var t' := ClaimGameReward(rules, t, kind, id, level, quantity, limit, localDay, reward, now).value.tables;
      Healthy(m, t') && Progresses(t, t')
  {
    var t' := ClaimGameReward(rules, t, kind, id, level, quantity, limit, localDay, reward, now).value.tables;
    hide GrantAll, SoundChange, Progresses, Reported;
    InOrder(m, t);
    var rewards := if reward.Some? then [reward.value] else [];
    GrantAllSound(rules, t.holdings, rewards, now);
    NextLevel(t.achievementClaims, id);
    hide Healthy, LevelsInOrder, LevelsClaimed, MissionsClaimed;
    var t1 := t.(holdings := t'.holdings);
    HoldingsChange(m, t, t'.holdings);
    RestChange(m, t1, t');
    ProgressesTransitive(t, t1, t');
  }

  lemma InOrder(m: Master, t: Tables)
    requires Healthy(m, t)
    ensures LevelsInOrder(t.achievementClaims)
  {
  }

  lemma InfiniteKeeps(m: Master, t: Tables)
    requires Healthy(m, t)
    ensures var t' := MarkInfinite(t).value.tables; Healthy(m, t') && Progresses(t, t')
  {
    ChainOf(m, t);
    hide G.SetInfinite, G.Chain, G.Grows, Healthy, Progresses;
    var n := |t.guide.stages|;
    G.InfiniteKeepsChain(t.guide, n, m.quests);
    GuideChange(m, t, G.SetInfinite(t.guide), MaxInt(n, 1));
  }

  lemma ChainOf(m: Master, t: Tables)
    requires Healthy(m, t)
    ensures G.Chain(t.guide, |t.guide.stages|, m.quests)
  {
  }

  lemma AttendKeeps(m: Master, t: Tables, visit: A.Visit)
    requires Healthy(m, t) && AttendDay(t, visit).Ok?
    ensures var t' := AttendDay(t, visit).value.tables; Healthy(m, t') && Progresses(t, t')
  {
    var book := A.Attend(t.book, visit).value.0;
    A.AttendKeepsValid(t.book, visit);
    hide A.Attend, A.ValidBook;
    BookChange(m, t, book);
  }

  lemma PaySettles(m: Master, t: Tables, now: int, cap: int, cost: nat)
    requires Healthy(m, t) && cap == ENERGY_CAP && PayEnergy(t.holdings, now, cap, cost).Ok?
    ensures var t' := t.(holdings := PayEnergy(t.holdings, now, cap, cost).value);
      Healthy(m, t') && Progresses(t, t')
  {
    hide SoundChange, Healthy, Progresses;
    PayEnergySound(t.holdings, now, cap, cost);
    HoldingsChange(m, t, PayEnergy(t.holdings, now, cap, cost).value);
  }

  lemma SettleStep(m: Master, t: Tables, pos: nat, star: int, score: int)
    requires ValidMaster(m) && Healthy(m, t) && pos < |m.stages.order| && C.Unlocked(t.stages, m.stages.order[pos].id)
    requires C.Settle(t.stages, m.stages.order[pos], C.NextOf(m.stages.order, pos), star, score).Ok?
    ensures var t' := t.(stages := C.Settle(t.stages, m.stages.order[pos], C.NextOf(m.stages.order, pos), star, score).value);
      Healthy(m, t') && Progresses(t, t')
  {
    hide C.Settle, C.Prefix, C.GoalsMet, C.Grows, Progresses;
    var n := |t.stages.rows|;
    var stage := m.stages.order[pos];
    C.SettleKeepsPrefix(t.stages, m.stages, n, pos, star, score);
    StagesChange(m, t, C.Settle(t.stages, stage, C.NextOf(m.stages.order, pos), star, score).value,
                 if C.Clears(stage, star) && pos == n - 1 && n < |m.stages.order| then n + 1 else n);
  }

  lemma StageKeeps(m: Master, rules: Rules, t: Tables, stage: C.StageDef, next: Option<C.StageDef>, star: int, score: int,
                   cost: nat, cap: int, drops: seq<RewardGrant>, now: int)
    requires ValidMaster(m) && Healthy(m, t) && cap == ENERGY_CAP
    requires exists pos :: 0 <= pos < |m.stages.order| && stage == m.stages.order[pos] && next == C.NextOf(m.stages.order, pos)
    requires SettleCh3Stage(rules, t, stage, next, star, score, cost, cap, drops, now).Ok?
    ensures var t' := SettleCh3Stage(rules, t, stage, next, star, score, cost, cap, drops, now).value.tables;
      Healthy(m, t') && Progresses(t, t')
  {
    var t' := SettleCh3Stage(rules, t, stage, next, star, score, cost, cap, drops, now).value.tables;
    var pos :| 0 <= pos < |m.stages.order| && stage == m.stages.order[pos] && next == C.NextOf(m.stages.order, pos);
    hide ValidMaster, Healthy, Progresses, PayEnergy, C.Settle, GrantAll, C.NextOf;
    var t1 := t.(holdings := PayEnergy(t.holdings, now, cap, cost).value);
    var t2 := t1.(stages := t'.stages);
    PaySettles(m, t, now, cap, cost);
    SettleStep(m, t1, pos, star, score);
    GrantChange(m, rules, t2, if C.Clears(stage, star) then drops else [], now);
    ProgressesTransitive(t, t1, t2);
    ProgressesTransitive(t, t2, t');
  }

  lemma StreamKeeps(m: Master, rules: Rules, t: Tables, stageId: int, count: int, costEach: nat, cap: int,
                    rolls: seq<Roll>, now: int)
    requires Healthy(m, t) && cap == ENERGY_CAP && SettleCh3Stream(rules, t, stageId, count, costEach, cap, rolls, now).Ok?
    ensures var t' := SettleCh3Stream(rules, t, stageId, count, costEach, cap, rolls, now).value.tables;
      Healthy(m, t') && Progresses(t, t')
  {
    var t' := SettleCh3Stream(rules, t, stageId, count, costEach, cap, rolls, now).value.tables;
    hide Healthy, Progresses, PayEnergy, GrantRolls, SoundChange;
    var cost := MinInt(costEach * count, I32_MAX);
    var t1 := t.(holdings := PayEnergy(t.holdings, now, cap, cost).value);
    PaySettles(m, t, now, cap, cost);
    GrantRollsSound(rules, t1.holdings, rolls, now);
    HoldingsChange(m, t1, t'.holdings);
    ProgressesTransitive(t, t1, t');
  }

  lemma RestoreSound(h: Holdings, now: int, cap: int)
    requires cap == ENERGY_CAP && Restored(h.energy, now, cap).Ok?
    ensures SoundChange(h, h.(energy := Restored(h.energy, now, cap).value))
  {
  }

  lemma RestoreKeeps(m: Master, t: Tables, cap: int, now: int)
    requires Healthy(m, t) && cap == ENERGY_CAP && RestoreCh3(t, cap, now).Ok?
    ensures var t' := RestoreCh3(t, cap, now).value.tables; Healthy(m, t') && Progresses(t, t')
  {
    hide Healthy, Progresses, Restored, SoundChange;
    RestoreSound(t.holdings, now, cap);
    HoldingsChange(m, t, RestoreCh3(t, cap, now).value.tables.holdings);
  }

  lemma ClaimStep(m: Master, t: Tables, chapter: int, num: int, goal: int)
    requires ValidMaster(m) && Healthy(m, t) && (chapter, num) in m.stages.goals && goal == m.stages.goals[(chapter, num)]
    requires C.ClaimChapter(t.stages, chapter, num, goal).Ok?
    ensures var t' := t.(stages := C.ClaimChapter(t.stages, chapter, num, goal).value);
      Healthy(m, t') && Progresses(t, t')
  {
    hide C.ClaimChapter, C.Prefix, C.GoalsMet, C.Grows, Progresses;
    C.ClaimKeepsGoals(t.stages, m.stages.goals, chapter, num);
    StagesChange(m, t, C.ClaimChapter(t.stages, chapter, num, goal).value, |t.stages.rows|);
  }

  lemma ChapterParts(rules: Rules, t: Tables, chapter: int, num: int, goal: int, rewards: seq<RewardGrant>, cap: int, now: int)
    requires ClaimChapterReward(rules, t, chapter, num, goal, rewards, cap, now).Ok?
    ensures C.ClaimChapter(t.stages, chapter, num, goal).Ok? && GrantAll(rules, t.holdings, rewards, now).Ok?
    ensures var granted := GrantAll(rules, t.holdings, rewards, now).value.0;
      && Restored(granted.energy, now, cap).Ok?
      && ClaimChapterReward(rules, t, chapter, num, goal, rewards, cap, now).value.tables
         == t.(stages := C.ClaimChapter(t.stages, chapter, num, goal).value,
               holdings := granted.(energy := Restored(granted.energy, now, cap).value))
  {
    hide C.ClaimChapter, GrantAll, Restored;
  }

  lemma ChapterKeeps(m: Master, rules: Rules, t: Tables, chapter: int, num: int, goal: int, rewards: seq<RewardGrant>,
                     cap: int, now: int)
    requires ValidMaster(m) && Healthy(m, t)
    requires cap == ENERGY_CAP && (chapter, num) in m.stages.goals && goal == m.stages.goals[(chapter, num)]
    requires ClaimChapterReward(rules, t, chapter, num, goal, rewards, cap, now).Ok?
    ensures var t' := ClaimChapterReward(rules, t, chapter, num, goal, rewards, cap, now).value.tables;
      Healthy(m, t') && Progresses(t, t')
  {
    ChapterParts(rules, t, chapter, num, goal, rewards, cap, now);
    var t' := ClaimChapterReward(rules, t, chapter, num, goal, rewards, cap, now).value.tables;
    hide ValidMaster, Healthy, Progresses, C.ClaimChapter, GrantAll, Restored, SoundChange, ClaimChapterReward;
    var t1 := t.(stages := t'.stages);
    ClaimStep(m, t, chapter, num, goal);
    GrantChange(m, rules, t1, rewards, now);
    var t2 := t1.(holdings := GrantAll(rules, t.holdings, rewards, now).value.0);
    RestoreSound(t2.holdings, now, cap);
    HoldingsChange(m, t2, t'.holdings);
    ProgressesTransitive(t, t1, t2);
    ProgressesTransitive(t, t2, t');
  }

  lemma SoundPass(m: Master, t: Tables)
    requires Healthy(m, t)
    ensures P.Sound(t.pass, t.holdings.tickets, m.passes)
  {
  }

  lemma PaidChange(m: Master, t: Tables, kind: CurrencyKind, amount: Number)
    requires Healthy(m, t) && Pay(t.holdings, kind, amount).Ok?
    ensures var t' := t.(holdings := Pay(t.holdings, kind, amount).value); Healthy(m, t') && Progresses(t, t')
  {
    hide Healthy, Progresses, Pay, SoundChange;
    PaySound(t.holdings, kind, amount);
    HoldingsChange(m, t, Pay(t.holdings, kind, amount).value);
  }

  lemma FillKeeps(m: Master, t: Tables, season: int, version: int, price: Number, added: int, steps: P.Steps)
    requires Healthy(m, t) && P.Lists(steps, P.GoalsOf(m.passes, season))
    requires FillPassPoints(t, season, version, price, added, steps).Ok?
    ensures var t' := FillPassPoints(t, season, version, price, added, steps).value.tables;
      Healthy(m, t') && Progresses(t, t')
  {
    var t' := FillPassPoints(t, season, version, price, added, steps).value.tables;
    hide Healthy, Progresses, P.Fill, Pay, P.Sound, P.Grows, P.Lists, P.GoalsOf;
    var t1 := t.(holdings := t'.holdings);
    if t1 != t {
      PaidChange(m, t, Chocolate, price);
    } else {
      ProgressesSelf(t);
    }
    SoundPass(m, t1);
    P.FillKeepsSound(t1.pass, t1.holdings.tickets, m.passes, season, version, added, steps);
    PassChange(m, t1, t'.pass);
    ProgressesTransitive(t, t1, t');
  }

  /** The claim itself, before its rewards: the pass and the ticket it may earn. */
  lemma PassClaimStep(m: Master, t: Tables, key: P.ClaimKey, required: int, paidSteps: int, ticket: int)
    requires Healthy(m, t) && key.lane in {0, 1} && P.FromCatalog(m.passes, key, required, paidSteps, ticket)
    requires P.Claim(t.pass, key, required, paidSteps, ticket).Ok?
    ensures var r := P.Claim(t.pass, key, required, paidSteps, ticket).value;
      var h := t.holdings.(tickets := if r.ticketEarned then t.holdings.tickets + {ticket} else t.holdings.tickets);
      var t' := t.(holdings := h, pass := r.pass);
      Healthy(m, t') && Progresses(t, t')
  {
    hide Healthy, Progresses, P.Claim, P.Sound, P.Grows, P.FromCatalog, SoundChange;
    var r := P.Claim(t.pass, key, required, paidSteps, ticket).value;
    var h := t.holdings.(tickets := if r.ticketEarned then t.holdings.tickets + {ticket} else t.holdings.tickets);
    MoreTicketsSound(t.holdings, h);
    HoldingsChange(m, t, h);
    var t1 := t.(holdings := h);
    SoundPass(m, t);
    P.ClaimKeepsSound(t.pass, t.holdings.tickets, m.passes, key, required, paidSteps, ticket);
    PassChange(m, t1, r.pass);
    ProgressesTransitive(t, t1, t1.(pass := r.pass));
  }

  lemma MoreTicketsSound(h: Holdings, h': Holdings)
    requires h' == h.(tickets := h'.tickets) && h.tickets <= h'.tickets
    ensures SoundChange(h, h')
  {
  }

  lemma PassKeeps(m: Master, rules: Rules, t: Tables, key: P.ClaimKey, required: int, rewards: seq<RewardGrant>,
                  paidSteps: int, ticket: int, now: int)
    requires Healthy(m, t) && key.lane in {0, 1} && P.FromCatalog(m.passes, key, required, paidSteps, ticket)
    requires ClaimPassReward(rules, t, key, required, rewards, paidSteps, ticket, now).Ok?
    ensures var t' := ClaimPassReward(rules, t, key, required, rewards, paidSteps, ticket, now).value.tables;
      Healthy(m, t') && Progresses(t, t')
  {
    var t' := ClaimPassReward(rules, t, key, required, rewards, paidSteps, ticket, now).value.tables;
    hide Healthy, Progresses, P.Claim, GrantAll, P.FromCatalog;
    var r := P.Claim(t.pass, key, required, paidSteps, ticket).value;
    if r.inserted {
      GrantChange(m, rules, t, rewards, now);
      var t1 := t.(holdings := GrantAll(rules, t.holdings, rewards, now).value.0);
      PassClaimStep(m, t1, key, required, paidSteps, ticket);
      ProgressesTransitive(t, t1, t');
    } else {
      NotInsertedNoTicket(t.pass, key, required, paidSteps, ticket);
      PassClaimStep(m, t, key, required, paidSteps, ticket);
    }
  }

  lemma NotInsertedNoTicket(pass: P.Pass, key: P.ClaimKey, required: int, paidSteps: int, ticket: int)
    requires P.Claim(pass, key, required, paidSteps, ticket).Ok?
    requires !P.Claim(pass, key, required, paidSteps, ticket).value.inserted
    ensures !P.Claim(pass, key, required, paidSteps, ticket).value.ticketEarned
  {
  }

  lemma ActivateKeeps(m: Master, t: Tables, seasons: seq<int>)
    requires Healthy(m, t)
    ensures var t' := ActivateSeasons(t, seasons).value.tables; Healthy(m, t') && Progresses(t, t')
  {
    SoundPass(m, t);
    hide Healthy, Progresses, P.Sound, P.Grows, P.Activate;
    P.MoreTickets(t.pass, t.holdings.tickets, t.holdings.tickets, seasons, m.passes);
    PassChange(m, t, P.Activate(t.pass, seasons));
  }

  lemma BuyKeeps(m: Master, rules: Rules, t: Tables, purchaseId: string, payment: Option<(CurrencyKind, Number)>,
                 bought: seq<RewardGrant>, now: int)
    requires Healthy(m, t) && BuyRewards(rules, t, purchaseId, payment, bought, now).Ok?
    ensures var t' := BuyRewards(rules, t, purchaseId, payment, bought, now).value.tables;
      Healthy(m, t') && Progresses(t, t')
  {
    var t' := BuyRewards(rules, t, purchaseId, payment, bought, now).value.tables;
    InOrder(m, t);
    hide Healthy, Progresses, Pay, GrantAll, LevelsInOrder;
    ProgressesSelf(t);
    if purchaseId !in t.purchases {
      var h1 := if payment.Some? then Pay(t.holdings, payment.value.0, payment.value.1).value else t.holdings;
      var t1 := t.(holdings := h1);
      if payment.Some? {
        PaidChange(m, t, payment.value.0, payment.value.1);
      }
      GrantChange(m, rules, t1, bought, now);
      var t2 := t1.(holdings := t'.holdings);
      RestChange(m, t2, t');
      ProgressesTransitive(t, t1, t2);
      ProgressesTransitive(t, t2, t');
    }
  }

  lemma ContentSound(h: Holdings, content: Content, area: int, level: int)
    requires content in h.levels ==> h.levels[content] <= level
    ensures SoundChange(h, h.(owned := InsertNew(h.owned, content, area), levels := h.levels[content := level]))
  {
  }

  lemma BuyContentKeeps(m: Master, rules: Rules, t: Tables, content: Content, area: int, currency: CurrencyKind,
                        basePrice: Number, increment: Number, maxLevel: int)
    requires Healthy(m, t)
    requires FitsI64(maxLevel) && BuyContent(rules, t, content, area, currency, basePrice, increment, maxLevel).Ok?
    ensures var t' := BuyContent(rules, t, content, area, currency, basePrice, increment, maxLevel).value.tables;
      Healthy(m, t') && Progresses(t, t')
  {
    var t' := BuyContent(rules, t, content, area, currency, basePrice, increment, maxLevel).value.tables;
    hide Healthy, Progresses, SoundChange, NextPrice;
    ProgressesSelf(t);
    var level := LevelOf(t.holdings, content);
    if level < MaxInt(maxLevel, 1) {
      var price := NextPrice(rules, content, level, basePrice.value, increment.value);
      PaidChange(m, t, currency, price);
      var t1 := t.(holdings := Pay(t.holdings, currency, price).value);
      var next := MaxInt(Saturate64(level + 1), 1);
      assert t1.holdings.levels == t.holdings.levels;
      ContentSound(t1.holdings, content, area, next);
      HoldingsChange(m, t1, t'.holdings);
      ProgressesTransitive(t, t1, t');
    }
  }

  lemma CreditSound(h: Holdings, kind: CurrencyKind, amount: real)
    requires amount >= 0.0
    ensures SoundChange(h, h.(wallet := Credit(h.wallet, kind, amount)))
  {
  }

  lemma GrantOnceKeeps(m: Master, t: Tables, kind: CurrencyKind, amount: Number, transactionId: string)
    requires Healthy(m, t) && GrantOnce(t, kind, amount, transactionId).Ok?
    ensures var t' := GrantOnce(t, kind, amount, transactionId).value.tables; Healthy(m, t') && Progresses(t, t')
  {
    var t' := GrantOnce(t, kind, amount, transactionId).value.tables;
    InOrder(m, t);
    hide Healthy, Progresses, SoundChange, Credit, LevelsInOrder;
    ProgressesSelf(t);
    if transactionId !in t.rewardTransactions {
      var t1 := t.(holdings := t'.holdings);
      CreditSound(t.holdings, kind, amount.value);
      HoldingsChange(m, t, t'.holdings);
      RestChange(m, t1, t');
      ProgressesTransitive(t, t1, t');
    }
  }

  lemma ProfileKeeps(m: Master, rules: Rules, t: Tables, follower: int, profileLevel: int, requested: seq<ProfileItem>, now: int)
    requires Healthy(m, t) && ClaimProfileRewards(rules, t, follower, profileLevel, requested, now).Ok?
    ensures var t' := ClaimProfileRewards(rules, t, follower, profileLevel, requested, now).value.tables;
      Healthy(m, t') && Progresses(t, t')
  {
    var t' := ClaimProfileRewards(rules, t, follower, profileLevel, requested, now).value.tables;
    InOrder(m, t);
    hide Healthy, Progresses, SoundChange, GrantLevels, LevelsInOrder;
    GrantLevelsSound(rules, t.holdings, t.affectionClaims, follower, profileLevel, requested, now);
    var t1 := t.(holdings := t'.holdings);
    HoldingsChange(m, t, t'.holdings);
    RestChange(m, t1, t');
    ProgressesTransitive(t, t1, t');
  }

  lemma EncoreKeeps(m: Master, t: Tables, items: seq<EncoreItem>, now: int)
    requires Healthy(m, t)
    ensures var t' := ClaimEncoreRewards(t, items, now).value.tables; Healthy(m, t') && Progresses(t, t')
  {
    var t' := ClaimEncoreRewards(t, items, now).value.tables;
    InOrder(m, t);
    hide Healthy, Progresses, SoundChange, TakeEncores, GiftTotal, Credit, LevelsInOrder;
    ProgressesSelf(t);
    var gifts := TakeEncores(t.encores, t.holdings.owned, items, now).1;
    var candy := Saturate64(GiftTotal(gifts));
    var t1 := t.(holdings := t'.holdings);
    if candy > 0 {
      CreditSound(t.holdings, Candy, candy as real);
      HoldingsChange(m, t, t'.holdings);
    }
    RestChange(m, t1, t');
    ProgressesTransitive(t, t1, t');
  }

  lemma ClaimPostKeeps(m: Master, rules: Rules, t: Tables, post: int, now: int)
    requires Healthy(m, t) && ClaimPost(rules, t, post, now).Ok?
    ensures var t' := ClaimPost(rules, t, post, now).value.tables; Healthy(m, t') && Progresses(t, t')
  {
    var t' := ClaimPost(rules, t, post, now).value.tables;
    ClaimEffect(rules, t.holdings, t.mail, post, now);
    assert SoundChange(t.holdings, t'.holdings);
    hide Healthy, Progresses, SoundChange, Mailbox.Claim, Mailbox.Grows;
    var t1 := t.(holdings := t'.holdings);
    HoldingsChange(m, t, t'.holdings);
    MailChange(m, t1, t'.mail);
    ProgressesTransitive(t, t1, t');
  }

  lemma SendKeeps(m: Master, t: Tables, sent: Reward, atPost: Option<int>)
    requires Healthy(m, t) && SendMail(t, sent, atPost).Ok?
    ensures var t' := SendMail(t, sent, atPost).value.tables; Healthy(m, t') && Progresses(t, t')
  {
    hide Healthy, Progresses, Queue, Mailbox.Grows, NextPost;
    var post := atPost.GetOr(NextPost(t.mail));
    QueueGrows(t.holdings.owned, t.mail, post, sent, RewardGrant(0, 0, NaN), false);
    MailChange(m, t, Queue(t.holdings.owned, t.mail, post, sent).value.0);
  }

  lemma DeleteKeeps(m: Master, t: Tables, post: int, all: bool)
    requires Healthy(m, t)
    ensures var t' := t.(mail := Delete(t.mail, post, all)); Healthy(m, t') && Progresses(t, t')
  {
    hide Healthy, Progresses, Delete, Mailbox.Grows, Queue;
    QueueGrows(t.holdings.owned, t.mail, post, CurrencyReward(Candy, NaN), RewardGrant(0, 0, NaN), all);
    MailChange(m, t, Delete(t.mail, post, all));
  }

  lemma EventKeeps(m: Master, rules: Rules, t: Tables, rowId: int, reward: RewardGrant, now: int)
    requires Healthy(m, t) && ClaimEventReward(rules, t, rowId, reward, now).Ok?
    ensures var t' := ClaimEventReward(rules, t, rowId, reward, now).value.tables; Healthy(m, t') && Progresses(t, t')
  {
    var t' := ClaimEventReward(rules, t, rowId, reward, now).value.tables;
    InOrder(m, t);
    hide Healthy, Progresses, GrantAll, LevelsInOrder;
    var t1 := t.(holdings := t'.holdings);
    GrantChange(m, rules, t, [reward], now);
    RestChange(m, t1, t');
    ProgressesTransitive(t, t1, t');
  }

  lemma SamSeckKeeps(m: Master, t: Tables, eventId: int, post: int, reward: RewardGrant)
    requires Healthy(m, t) && ClaimSamSeckStep(t, eventId, post, reward).Ok?
    ensures var t' := ClaimSamSeckStep(t, eventId, post, reward).value.tables; Healthy(m, t') && Progresses(t, t')
  {
    var t' := ClaimSamSeckStep(t, eventId, post, reward).value.tables;
    InOrder(m, t);
    hide Healthy, Progresses, QueueGrant, Mailbox.Grows, LevelsInOrder, SamSeckEligible;
    QueueGrows(t.holdings.owned, t.mail, post, CurrencyReward(Candy, NaN), reward, false);
    ProgressesSelf(t);
    var t1 := t.(mail := t'.mail);
    MailChange(m, t, t'.mail);
    RestChange(m, t1, t');
    ProgressesTransitive(t, t1, t');
  }

  lemma SelectKeeps(m: Master, t: Tables, step: R.RotationStep)
    requires Healthy(m, t) && R.Rotate(t.rotation, step).Ok?
    ensures step.SelectSeason? ==>
      && SelectPassSeason(t, step.clock, step.season).Ok?
      && var t' := SelectPassSeason(t, step.clock, step.season).value.tables; Healthy(m, t') && Progresses(t, t')
    ensures step.AnchorAtLogin? ==>
      var t' := AnchorAtLogin(t, step.clock); Healthy(m, t') && Progresses(t, t')
  {
    hide Healthy, Progresses, R.Rotate;
    RotationChange(m, t, step);
  }

  lemma FlagKeeps(m: Master, t: Tables, flags: Flags)
    requires Healthy(m, t)
    ensures Healthy(m, t.(flags := flags)) && Progresses(t, t.(flags := flags))
  {
    InOrder(m, t);
    hide Healthy, Progresses, LevelsInOrder;
    RestChange(m, t, t.(flags := flags));
  }

  // ----- Client snapshots -----

  lemma SaveHoldingsSound(h: Holdings, flags: Flags, patch: Patch)
    requires SaveHoldings(h, flags, patch).Ok?
    ensures SoundChange(h, SaveHoldings(h, flags, patch).value)
    ensures Harmless(h.wallet, SaveHoldings(h, flags, patch).value.wallet)
    ensures SaveHoldings(h, flags, patch).value.energy == h.energy
  {
    hide MergeAreas, MergeCore, MergeContents;
    var core := MergeCore(h.wallet, flags, patch.core);
    MergeCoreHarmless(h.wallet, flags, patch.core);
    MergeAreasHarmless(core, flags, patch.areas);
    MergeContentsKeeps(h.(wallet := MergeAreas(core, flags, patch.areas).value), patch.contents);
  }

  lemma {:induction false} MergePassesSound(m: Master, pass: P.Pass, tickets: set<int>, saves: seq<P.SavedPass>,
                                            multiplier: int, thresholds: seq<PassThreshold>)
    requires P.Sound(pass, tickets, m.passes)
    requires forall season :: P.Lists(StepsOf(thresholds, season), P.GoalsOf(m.passes, season))
    ensures var after := MergePasses(pass, saves, multiplier, thresholds);
      P.Sound(after, tickets, m.passes) && P.Grows(pass, after) && after.claims == pass.claims && after.premium == pass.premium
    decreases |saves|
  {
    hide P.Sound, P.Lists, P.Merge, StepsOf;
    if saves == [] {
    } else {
      var next := P.Merge(pass, saves[0], multiplier, StepsOf(thresholds, saves[0].season));
      P.MergeKeepsSound(pass, tickets, m.passes, saves[0], multiplier, StepsOf(thresholds, saves[0].season));
      MergePassesSound(m, next, tickets, saves[1..], multiplier, thresholds);
      PassGrowsTransitive(pass, next, MergePasses(next, saves[1..], multiplier, thresholds));
    }
  }

  lemma SaveParts(t: Tables, patch: Patch, multiplier: int, thresholds: seq<PassThreshold>)
    requires MergeUserSave(t, patch, multiplier, thresholds).Ok?
    ensures MarkAreas(t.flags, patch.areas).Ok?
    ensures var t' := MergeUserSave(t, patch, multiplier, thresholds).value.tables;
      && SaveHoldings(t.holdings, t'.flags, patch).Ok? && t'.holdings == SaveHoldings(t.holdings, t'.flags, patch).value
      && t'.flags == MarkAreas(t.flags, patch.areas).value
      && t'.pass == MergePasses(t.pass, patch.passes, multiplier, thresholds)
      && t'.guide == G.Save(t.guide, patch.quests)
      && t' == t.(flags := t'.flags, holdings := t'.holdings, encores := t'.encores, achievements := t'.achievements,
                  missions := t'.missions, pass := t'.pass, guide := t'.guide)
  {
    hide MarkAreas, SaveHoldings, MergePasses, G.Save, MergeCounters, MergeMusics;
  }

  lemma SaveGuideStep(m: Master, t: Tables, quests: seq<G.SavedStage>)
    requires Healthy(m, t)
    ensures var t' := t.(guide := G.Save(t.guide, quests)); Healthy(m, t') && Progresses(t, t')
  {
    ChainOf(m, t);
    hide G.Save, G.Chain, G.Grows, Healthy, Progresses;
    var n := |t.guide.stages|;
    G.SaveKeepsChain(t.guide, n, quests, m.quests);
    GuideChange(m, t, G.Save(t.guide, quests), if quests == [] then n else MaxInt(n, 1));
  }

  lemma SaveKeeps(m: Master, t: Tables, patch: Patch, multiplier: int, thresholds: seq<PassThreshold>)
    requires Healthy(m, t) && MergeUserSave(t, patch, multiplier, thresholds).Ok?
    requires forall season :: P.Lists(StepsOf(thresholds, season), P.GoalsOf(m.passes, season))
    ensures var t' := MergeUserSave(t, patch, multiplier, thresholds).value.tables;
      Healthy(m, t') && Progresses(t, t')
  {
    SaveParts(t, patch, multiplier, thresholds);
    InOrder(m, t);
    SoundPass(m, t);
    var t' := MergeUserSave(t, patch, multiplier, thresholds).value.tables;
    hide MergeUserSave, MarkAreas, SaveHoldings, MergePasses, G.Save, Healthy, Progresses, SoundChange, Harmless;
    hide LevelsInOrder, P.Sound, P.Grows, P.Lists, StepsOf, P.GoalsOf;
    var t1 := t.(pass := t'.pass);
    MergePassesSound(m, t.pass, t.holdings.tickets, patch.passes, multiplier, thresholds);
    PassChange(m, t, t'.pass);
    var t2 := t1.(guide := t'.guide);
    SaveGuideStep(m, t1, patch.quests);
    var t3 := t2.(holdings := t'.holdings);
    SaveHoldingsSound(t.holdings, t'.flags, patch);
    HoldingsChange(m, t2, t'.holdings);
    RestChange(m, t3, t');
    ProgressesTransitive(t, t1, t2);
    ProgressesTransitive(t, t2, t3);
    ProgressesTransitive(t, t3, t');
  }

  // ----- Any command -----

  /** A command fails, or it leaves healthy tables that lost nothing. */
  ghost predicate Safe(m: Master, t: Tables, o: Outcome) {
    o.Ok? ==> Healthy(m, o.value.tables) && Progresses(t, o.value.tables)
  }

  /** Commands on mail, encores and events keep the slot healthy. */
  lemma CollectKeeps(m: Master, rules: Rules, t: Tables, call: SlotCall, now: int)
    requires Healthy(m, t) && Collects(call)
    ensures Safe(m, t, Apply(rules, t, call, now))
  {
    hide Healthy, Progresses, ClaimProfileRewards, ClaimEncoreRewards, ClaimPost, SendMail, Delete;
    hide ClaimEventReward, ClaimSamSeckStep;
    if Apply(rules, t, call, now).Err? {
      return;
    }
    match call {
      case ClaimMail(post) => ClaimPostKeeps(m, rules, t, post, now);
      case QueueMail(sent, atPost) => SendKeeps(m, t, sent, atPost);
      case DeleteMail(post, all) => DeleteKeeps(m, t, post, all);
      case ClaimEncores(items) => EncoreKeeps(m, t, items, now);
      case ClaimProfile(follower, profileLevel, requested) =>
        ProfileKeeps(m, rules, t, follower, profileLevel, requested, now);
      case ClaimEvent(rowId, reward) => EventKeeps(m, rules, t, rowId, reward, now);
      case ClaimSamSeck(eventId, post, reward) => SamSeckKeeps(m, t, eventId, post, reward);
      case _ =>
    }
  }

  /** Trades keep the slot healthy. */
  lemma TradeKeeps(m: Master, rules: Rules, t: Tables, call: SlotCall, now: int)
    requires ValidMaster(m) && Healthy(m, t) && IssuedBy(m, call) && Trades(call) && !Collects(call)
    ensures Safe(m, t, Apply(rules, t, call, now))
  {
    hide ValidMaster, Healthy, Progresses, FillPassPoints, ClaimPassReward, ActivateSeasons, BuyRewards, BuyContent;
    hide GrantOnce, WatchedAd, GrantPackageContents, GiveFollowerGift, P.Lists, P.FromCatalog, StepsOf;
    if Apply(rules, t, call, now).Err? {
      return;
    }
    match call {
      case FillPass(season, version, price, added, steps) => FillKeeps(m, t, season, version, price, added, steps);
      case ClaimPass(key, required, rewards, paidSteps, ticket) =>
        PassKeeps(m, rules, t, key, required, rewards, paidSteps, ticket, now);
      case ActivatePasses(seasons) => ActivateKeeps(m, t, seasons);
      case PurchaseRewards(purchaseId, payment, bought) => BuyKeeps(m, rules, t, purchaseId, payment, bought, now);
      case PurchaseContent(content, area, currency, basePrice, increment, maxLevel) =>
        BuyContentKeeps(m, rules, t, content, area, currency, basePrice, increment, maxLevel);
      case WatchAd(rewards) => AdKeeps(m, rules, t, rewards, now);
      case GrantCurrency(kind, amount, transactionId) => GrantOnceKeeps(m, t, kind, amount, transactionId);
      case GrantPackage(contents, musicIds) => PackageKeeps(m, t, contents, musicIds);
      case GiveGift(gift, used) => GiftKeeps(m, t, gift, used);
      case _ =>
    }
  }

  /** So do the other commands. */
  lemma PlayKeeps(m: Master, rules: Rules, t: Tables, call: SlotCall, now: int)
    requires ValidMaster(m) && Healthy(m, t) && IssuedBy(m, call) && !Trades(call)
    ensures Safe(m, t, Apply(rules, t, call, now))
  {
    hide ValidMaster, Healthy, Progresses, MergeUserSave, AdvanceFollowerQuest, MarkInfinite, AttendDay, ClaimGameReward;
    hide SettleCh3Stage, SettleCh3Stream, ClaimChapterReward, RestoreCh3, FillPassPoints, ClaimPassReward, ActivateSeasons;
    hide BuyRewards, BuyContent, GrantOnce, WatchedAd, ClaimProfileRewards, ClaimEncoreRewards, ClaimPost, SendMail, Delete;
    hide ClaimEventReward, ClaimSamSeckStep, GrantPackageContents, GiveFollowerGift, P.Lists, P.FromCatalog, StepsOf;
    if Apply(rules, t, call, now).Err? {
      return;
    }
    match call {
      case UserSave(patch, multiplier, thresholds) => SaveKeeps(m, t, patch, multiplier, thresholds);
      case AdvanceQuest(current, sub, value, limits, rewards, nextId) =>
        QuestKeeps(m, rules, t, current, sub, value, limits, rewards, nextId, now);
      case SetInfinite => InfiniteKeeps(m, t);
      case Attend(visit) => AttendKeeps(m, t, visit);
      case ClaimGame(kind, id, level, quantity, limit, localDay, reward) =>
        GameKeeps(m, rules, t, kind, id, level, quantity, limit, localDay, reward, now);
      case SettleStage(stage, next, star, score, cost, cap, drops) =>
        StageKeeps(m, rules, t, stage, next, star, score, cost, cap, drops, now);
      case SettleStream(stageId, count, costEach, cap, rolls) =>
        StreamKeeps(m, rules, t, stageId, count, costEach, cap, rolls, now);
      case ClaimChapter(chapter, num, goal, rewards, cap) =>
        ChapterKeeps(m, rules, t, chapter, num, goal, rewards, cap, now);
      case SelectSeason(clock, season) => SelectKeeps(m, t, R.SelectSeason(clock, season));
      case SetFlag(flag, value) => FlagKeeps(m, t, t.flags[flag := value]);
      case RestoreEnergy(cap) => RestoreKeeps(m, t, cap, now);
      case Untracked => ProgressesSelf(t);
      case Aborted(cause) =>
      case _ =>
    }
  }

  /**
   Any accepted command, with its fixed arguments from the master data and everything else chosen
   by the client, keeps all invariants and loses nothing.
   */
  lemma CommandKeeps(m: Master, rules: Rules, t: Tables, call: SlotCall, now: int)
    requires ValidMaster(m) && Healthy(m, t) && IssuedBy(m, call)
    ensures Safe(m, t, Apply(rules, t, call, now))
  {
    hide ValidMaster, Healthy, IssuedBy, Apply, Safe;
    if Collects(call) {
      CollectKeeps(m, rules, t, call, now);
    } else if Trades(call) {
      TradeKeeps(m, rules, t, call, now);
    } else {
      PlayKeeps(m, rules, t, call, now);
    }
  }

  lemma PackageKeeps(m: Master, t: Tables, contents: seq<(Content, int)>, musicIds: seq<int>)
    requires Healthy(m, t)
    ensures var t' := GrantPackageContents(t, contents, musicIds).value.tables; Healthy(m, t') && Progresses(t, t')
  {
    hide Healthy, Progresses, SoundChange, AddPackage;
    PackageSound(t.holdings, contents);
    HoldingsChange(m, t, AddPackage(t.holdings, contents));
  }

  lemma GiftKeeps(m: Master, t: Tables, gift: int, used: int)
    requires Healthy(m, t) && GiveFollowerGift(t, gift, used).Ok?
    ensures var t' := GiveFollowerGift(t, gift, used).value.tables; Healthy(m, t') && Progresses(t, t')
  {
    var t' := GiveFollowerGift(t, gift, used).value.tables;
    assert SoundChange(t.holdings, t'.holdings) by {
      hide NonNegative;
    }
    hide Healthy, Progresses, SoundChange;
    HoldingsChange(m, t, t'.holdings);
  }

  lemma AdKeeps(m: Master, rules: Rules, t: Tables, rewards: seq<RewardGrant>, now: int)
    requires Healthy(m, t) && WatchedAd(rules, t, rewards, now).Ok?
    ensures var t' := WatchedAd(rules, t, rewards, now).value.tables; Healthy(m, t') && Progresses(t, t')
  {
    hide Healthy, Progresses, GrantAll;
    GrantChange(m, rules, t, rewards, now);
  }

  lemma NewLevelsInOrder()
    ensures LevelsInOrder({})
  {
    forall id ensures LevelsClaimed({}, id) == {} {
    }
  }

  lemma NewChain(m: Master)
    ensures G.Chain(G.NEW_GUIDE, |G.NEW_GUIDE.stages|, m.quests)
  {
    assert |G.NEW_GUIDE.stages| == 0;
  }

  /** A new slot is healthy whatever the catalog. */
  lemma NewTablesHealthy(m: Master, achievementIds: set<int>, now: int)
    requires ValidMaster(m)
    ensures Healthy(m, NewTables(achievementIds, now))
  {
    A.NewBookExact();
    P.NewPassSound(m.passes);
    C.NewStagesPrefix(m.stages);
    C.PrefixLength(C.NEW_STAGES.rows, m.stages.order, 1);
    NewLevelsInOrder();
    NewChain(m);
    hide P.Sound, C.Prefix, C.GoalsMet, A.ValidBook, A.ExactBook, LevelsInOrder, G.Chain, ValidMaster;
  }
}
