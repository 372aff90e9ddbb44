/**
 Money and one-time rewards: every accepted command moves the balances owned by transactions by
 exactly what it tells the client it granted, less what it cost, and a one-time reward is paid only
 by the command that records it.
 */
module SlotMoney {
  import opened Wrappers
  import opened Text
  import opened SaveDomain
  import opened SlotRewards
  import opened ClientSave
  import opened Mailbox
  import opened SlotTables
  import G = GuideChain
  import P = PassLedger
  import C = Ch3Stages
  import A = AttendanceBook
  import R = PassRotation
  import H = SlotHealth

  // ----- Credits and costs -----

  function RollRewards(rolls: seq<Roll>): seq<RewardGrant> {
    if rolls == [] then [] else rolls[0].rewards + RollRewards(rolls[1..])
  }

  function ItemRewards(items: seq<ProfileItem>): seq<RewardGrant> {
    if items == [] then [] else items[0].rewards + ItemRewards(items[1..])
  }

  /** An encore gift is told as an amount of candy. */
  function GiftGrants(gifts: seq<(int, int)>): seq<RewardGrant> {
    if gifts == [] then []
    else [RewardGrant(1, CANDY_ID, Finite(gifts[0].1 as real))] + GiftGrants(gifts[1..])
  }

  const CANDY_ID := 2

  /** The rewards a reply tells the client about. */
  function Earned(reply: Reply): seq<RewardGrant> {
    match reply
    case QuestReply(_, _, _, earned) => earned
    case GameReply(_, earned) => earned
    case StageReply(_, _, earned) => earned
    case StreamReply(_, _, rolls) => RollRewards(rolls)
    case ChapterReply(_, earned) => earned
    case PassReply(_, _, earned) => earned
    case PurchaseReply(_, _, earned) => earned
    case MailReply(grant) => if grant.Some? then [grant.value] else []
    case EncoreReply(gifts, _) => GiftGrants(gifts)
    case ProfileReply(outcomes) => ItemRewards(outcomes)
    case AdReply(earned) => earned
    case EventReply(earned, _, _, _, _) => earned
    case _ => []
  }

  /** What an accepted command credits to a balance, read off its reply, the mail row or its argument. */
  function Credits(t: Tables, call: SlotCall, reply: Reply, kind: CurrencyKind): real {
    match call
    case ClaimMail(post) => if post in t.mail then Credited(t.mail[post].reward, kind) else 0.0
    case GrantCurrency(granted, amount, id) =>
      if id !in t.rewardTransactions && granted == kind && amount.Finite? then amount.value else 0.0
    case ClaimEncores(_) =>
      if kind == Candy && reply.EncoreReply? then MaxInt(Saturate64(GiftTotal(reply.gifts)), 0) as real else 0.0
    case _ => TotalWorth(Earned(reply), kind)
  }

  function PriceIn(payment: Option<(CurrencyKind, Number)>, kind: CurrencyKind): real {
    if payment.Some? && payment.value.0 == kind && payment.value.1.Finite? then payment.value.1.value else 0.0
  }

  /** What an accepted command costs; a purchase that is already recorded and content at its top level are free. */
  function Costs(rules: Rules, t: Tables, call: SlotCall, kind: CurrencyKind): real {
    match call
    case PurchaseRewards(id, payment, _) => if id in t.purchases then 0.0 else PriceIn(payment, kind)
    case PurchaseContent(content, _, currency, basePrice, increment, maxLevel) =>
      var level := LevelOf(t.holdings, content);
      if level >= MaxInt(maxLevel, 1) || !basePrice.Finite? || !increment.Finite? then 0.0
      else PriceIn(Some((currency, NextPrice(rules, content, level, basePrice.value, increment.value))), kind)
    case FillPass(_, _, price, _, _) => if kind == Chocolate && price.Finite? && price.value > 0.0 then price.value else 0.0
    case _ => 0.0
  }

  function Net(rules: Rules, t: Tables, call: SlotCall, reply: Reply, kind: CurrencyKind): real {
    Credits(t, call, reply, kind) - Costs(rules, t, call, kind)
  }

  /** The balances owned by transactions move by the net amount of the command, or not at all when it fails. */
  ghost predicate Conserves(rules: Rules, t: Tables, call: SlotCall, o: Outcome) {
    o.Ok? ==> forall kind | TransactionOwned(kind) ::
      Balance(o.value.tables.holdings.wallet, kind)
        == Balance(t.holdings.wallet, kind) + Net(rules, t, call, o.value.reply, kind)
  }

  lemma {:induction false} GrantRollsWorth(rules: Rules, h: Holdings, rolls: seq<Roll>, now: int)
    requires GrantRolls(rules, h, rolls, now).Ok?
    ensures var (after, told) := GrantRolls(rules, h, rolls, now).value;
      forall kind | kind != Fans ::
        Balance(after.wallet, kind) == Balance(h.wallet, kind) + TotalWorth(RollRewards(told), kind)
    decreases |rolls|
  {
    if rolls == [] {
    } else {
      hide GrantAll, Balance;
      var (next, told) := GrantAll(rules, h, rolls[0].rewards, now).value;
      var (after, rest) := GrantRolls(rules, next, rolls[1..], now).value;
      GrantAllEffect(rules, h, rolls[0].rewards, now);
      GrantRollsWorth(rules, next, rolls[1..], now);
      assert ([Roll(rolls[0].roll, told)] + rest)[1..] == rest;
      forall kind | kind != Fans
        ensures Balance(after.wallet, kind) == Balance(h.wallet, kind) + TotalWorth(told + RollRewards(rest), kind)
      {
        TotalWorthAppend(told, RollRewards(rest), kind);
      }
    }
  }

  lemma {:induction false} GrantLevelsWorth(rules: Rules, h: Holdings, claims: set<(int, int)>, follower: int,
                                            profileLevel: int, requested: seq<ProfileItem>, now: int)
    requires GrantLevels(rules, h, claims, follower, profileLevel, requested, now).Ok?
    ensures var (after, _, told) := GrantLevels(rules, h, claims, follower, profileLevel, requested, now).value;
      forall kind | kind != Fans ::
        Balance(after.wallet, kind) == Balance(h.wallet, kind) + TotalWorth(ItemRewards(told), kind)
    decreases |requested|
  {
    if requested == [] {
    } else if (follower, requested[0].level) in claims {
      GrantLevelsWorth(rules, h, claims, follower, profileLevel, requested[1..], now);
    } else {
      hide GrantAll, Balance;
      var (next, told) := GrantAll(rules, h, requested[0].rewards, now).value;
      var claimed := claims + {(follower, requested[0].level)};
      var (after, _, rest) := GrantLevels(rules, next, claimed, follower, profileLevel, requested[1..], now).value;
      GrantAllEffect(rules, h, requested[0].rewards, now);
      GrantLevelsWorth(rules, next, claimed, follower, profileLevel, requested[1..], now);
      assert ([ProfileItem(requested[0].level, told)] + rest)[1..] == rest;
      forall kind | kind != Fans
        ensures Balance(after.wallet, kind) == Balance(h.wallet, kind) + TotalWorth(told + ItemRewards(rest), kind)
      {
        TotalWorthAppend(told, ItemRewards(rest), kind);
      }
    }
  }

  lemma GrantConserves(rules: Rules, h: Holdings, rewards: seq<RewardGrant>, now: int)
    requires GrantAll(rules, h, rewards, now).Ok?
    ensures var (after, told) := GrantAll(rules, h, rewards, now).value;
      forall kind | TransactionOwned(kind) ::
        Balance(after.wallet, kind) == Balance(h.wallet, kind) + TotalWorth(told, kind)
  {
    hide GrantAll, Balance;
    GrantAllEffect(rules, h, rewards, now);
  }

  // ----- Command by command -----

  /** The balances owned by transactions grow by what the reply tells, less a cost. */
  ghost predicate Earns(t: Tables, o: Outcome, cost: CurrencyKind -> real) {
    o.Ok? ==> forall kind | TransactionOwned(kind) ::
      Balance(o.value.tables.holdings.wallet, kind)
        == Balance(t.holdings.wallet, kind) + TotalWorth(Earned(o.value.reply), kind) - cost(kind)
  }

  function Free(kind: CurrencyKind): real {
    0.0
  }

  lemma QuestEarns(rules: Rules, t: Tables, current: int, sub: int, value: Number, limits: (real, real, real),
                   rewards: seq<RewardGrant>, nextId: Option<int>, now: int)
    ensures Earns(t, AdvanceFollowerQuest(rules, t, current, sub, value, limits, rewards, nextId, now), Free)
  {
    hide GrantAll, G.Claim, G.CompleteId, Balance;
    if GrantAll(rules, t.holdings, rewards, now).Ok? {
      GrantConserves(rules, t.holdings, rewards, now);
    }
  }

  lemma GameEarns(rules: Rules, t: Tables, kind: GameKind, id: int, level: int, quantity: Number, limit: Number,
                  localDay: int, reward: Option<RewardGrant>, now: int)
    ensures Earns(t, ClaimGameReward(rules, t, kind, id, level, quantity, limit, localDay, reward, now), Free)
  {
    hide GrantAll, Balance, LevelsClaimed, MissionsClaimed, Reported;
    var rewards := if reward.Some? then [reward.value] else [];
    if GrantAll(rules, t.holdings, rewards, now).Ok? {
      GrantConserves(rules, t.holdings, rewards, now);
    }
  }

  lemma PayEnergyKeepsWallet(h: Holdings, now: int, cap: int, cost: nat)
    requires PayEnergy(h, now, cap, cost).Ok?
    ensures PayEnergy(h, now, cap, cost).value.wallet == h.wallet
  {
  }

  lemma StageEarns(rules: Rules, t: Tables, stage: C.StageDef, next: Option<C.StageDef>, star: int, score: int,
                   cost: nat, cap: int, drops: seq<RewardGrant>, now: int)
    ensures Earns(t, SettleCh3Stage(rules, t, stage, next, star, score, cost, cap, drops, now), Free)
  {
    if SettleCh3Stage(rules, t, stage, next, star, score, cost, cap, drops, now).Ok? {
      hide GrantAll, Balance, PayEnergy, C.Settle;
      PayEnergyKeepsWallet(t.holdings, now, cap, cost);
      GrantConserves(rules, PayEnergy(t.holdings, now, cap, cost).value, if C.Clears(stage, star) then drops else [], now);
    }
  }

  lemma StreamEarns(rules: Rules, t: Tables, stageId: int, count: int, costEach: nat, cap: int, rolls: seq<Roll>, now: int)
    ensures Earns(t, SettleCh3Stream(rules, t, stageId, count, costEach, cap, rolls, now), Free)
  {
    if SettleCh3Stream(rules, t, stageId, count, costEach, cap, rolls, now).Ok? {
      hide GrantRolls, Balance, PayEnergy;
      var cost := MinInt(costEach * count, I32_MAX);
      PayEnergyKeepsWallet(t.holdings, now, cap, cost);
      GrantRollsWorth(rules, PayEnergy(t.holdings, now, cap, cost).value, rolls, now);
    }
  }

  lemma ChapterEarns(rules: Rules, t: Tables, chapter: int, num: int, goal: int, rewards: seq<RewardGrant>, cap: int, now: int)
    ensures Earns(t, ClaimChapterReward(rules, t, chapter, num, goal, rewards, cap, now), Free)
  {
    hide GrantAll, Balance, C.ClaimChapter, Restored;
    if GrantAll(rules, t.holdings, rewards, now).Ok? {
      GrantConserves(rules, t.holdings, rewards, now);
    }
  }

  lemma PassEarns(rules: Rules, t: Tables, key: P.ClaimKey, required: int, rewards: seq<RewardGrant>,
                  paidSteps: int, ticket: int, now: int)
    ensures Earns(t, ClaimPassReward(rules, t, key, required, rewards, paidSteps, ticket, now), Free)
  {
    hide GrantAll, Balance, P.Claim;
    if GrantAll(rules, t.holdings, rewards, now).Ok? {
      GrantConserves(rules, t.holdings, rewards, now);
    }
  }

  lemma ProfileEarns(rules: Rules, t: Tables, follower: int, profileLevel: int, requested: seq<ProfileItem>, now: int)
    ensures Earns(t, ClaimProfileRewards(rules, t, follower, profileLevel, requested, now), Free)
  {
    hide GrantLevels, Balance;
    if GrantLevels(rules, t.holdings, t.affectionClaims, follower, profileLevel, requested, now).Ok? {
      GrantLevelsWorth(rules, t.holdings, t.affectionClaims, follower, profileLevel, requested, now);
    }
  }

  lemma AdEarns(rules: Rules, t: Tables, rewards: seq<RewardGrant>, now: int)
    ensures Earns(t, WatchedAd(rules, t, rewards, now), Free)
  {
    hide GrantAll, Balance;
    if GrantAll(rules, t.holdings, rewards, now).Ok? {
      GrantConserves(rules, t.holdings, rewards, now);
    }
  }

  lemma EventEarns(rules: Rules, t: Tables, rowId: int, reward: RewardGrant, now: int)
    ensures Earns(t, ClaimEventReward(rules, t, rowId, reward, now), Free)
  {
    hide GrantAll, Balance;
    if GrantAll(rules, t.holdings, [reward], now).Ok? {
      GrantConserves(rules, t.holdings, [reward], now);
    }
  }

  lemma BuyEarns(rules: Rules, t: Tables, id: string, payment: Option<(CurrencyKind, Number)>,
                 bought: seq<RewardGrant>, now: int)
    ensures Earns(t, BuyRewards(rules, t, id, payment, bought, now),
                  kind => Costs(rules, t, PurchaseRewards(id, payment, bought), kind))
  {
    if BuyRewards(rules, t, id, payment, bought, now).Ok? && id !in t.purchases {
      hide GrantAll, Balance, Pay;
      var paid := if payment.Some? then Pay(t.holdings, payment.value.0, payment.value.1).value else t.holdings;
      if payment.Some? {
        PayEffect(t.holdings, payment.value.0, payment.value.1);
      }
      GrantConserves(rules, paid, bought, now);
    }
  }

  lemma BuyContentEarns(rules: Rules, t: Tables, content: Content, area: int, currency: CurrencyKind,
                        basePrice: Number, increment: Number, maxLevel: int)
    ensures Earns(t, BuyContent(rules, t, content, area, currency, basePrice, increment, maxLevel),
                  kind => Costs(rules, t, PurchaseContent(content, area, currency, basePrice, increment, maxLevel), kind))
  {
    var level := LevelOf(t.holdings, content);
    hide Balance, Pay, NextPrice;
    if ValidAmount(basePrice) && ValidAmount(increment) {
      PayEffect(t.holdings, currency, NextPrice(rules, content, level, basePrice.value, increment.value));
    }
  }

  lemma FillEarns(rules: Rules, t: Tables, season: int, version: int, price: Number, added: int, steps: P.Steps)
    ensures Earns(t, FillPassPoints(t, season, version, price, added, steps),
                  kind => Costs(rules, t, FillPass(season, version, price, added, steps), kind))
  {
    hide Balance, Pay, P.Fill;
    PayEffect(t.holdings, Chocolate, price);
  }

  lemma SaveEarns(t: Tables, patch: Patch, multiplier: int, thresholds: seq<PassThreshold>)
    ensures Earns(t, MergeUserSave(t, patch, multiplier, thresholds), Free)
  {
    if MergeUserSave(t, patch, multiplier, thresholds).Ok? {
      hide MarkAreas, MergePasses, G.Save, MergeCounters, MergeMusics, MergeAreas, MergeCore, MergeContents, Balance;
      var flags := MarkAreas(t.flags, patch.areas).value;
      var core := MergeCore(t.holdings.wallet, flags, patch.core);
      MergeCoreHarmless(t.holdings.wallet, flags, patch.core);
      MergeAreasHarmless(core, flags, patch.areas);
      MergeContentsKeeps(t.holdings.(wallet := MergeAreas(core, flags, patch.areas).value), patch.contents);
    }
  }

  lemma StillEarns(t: Tables, o: Outcome)
    requires o.Ok? ==> o.value.tables.holdings.wallet == t.holdings.wallet && Earned(o.value.reply) == []
    ensures Earns(t, o, Free)
  {
    hide Balance;
  }

  lemma MailConserves(rules: Rules, t: Tables, post: int, now: int)
    ensures Conserves(rules, t, ClaimMail(post), ClaimPost(rules, t, post, now))
  {
    if ClaimPost(rules, t, post, now).Ok? {
      hide Mailbox.Claim, Balance, Credited;
      ClaimEffect(rules, t.holdings, t.mail, post, now);
    }
  }

  lemma GrantOnceConserves(rules: Rules, t: Tables, kind: CurrencyKind, amount: Number, id: string)
    ensures Conserves(rules, t, GrantCurrency(kind, amount, id), GrantOnce(t, kind, amount, id))
  {
    hide Balance, Earned, TotalWorth, LevelOf, NextPrice;
    var o := GrantOnce(t, kind, amount, id);
    if o.Ok? {
      forall k ensures Credits(t, GrantCurrency(kind, amount, id), o.value.reply, k)
        == if id !in t.rewardTransactions && kind == k then amount.value else 0.0
      {
      }
      forall k ensures Costs(rules, t, GrantCurrency(kind, amount, id), k) == 0.0 {
      }
      hide Credits, Costs;
    }
  }

  /** Encores tell as many pieces of candy as they credit, up to the largest `i64`. */
  lemma EncoreTellsItsCandy(t: Tables, items: seq<EncoreItem>, now: int, kind: CurrencyKind)
    ensures ClaimEncoreRewards(t, items, now).Ok?
    ensures var a := ClaimEncoreRewards(t, items, now).value;
      && TotalWorth(Earned(a.reply), kind) == (if kind == Candy then GiftTotal(a.reply.gifts) as real else 0.0)
      && Balance(a.tables.holdings.wallet, kind) == Balance(t.holdings.wallet, kind)
         + (if kind == Candy then MinInt(GiftTotal(a.reply.gifts), I64_MAX) as real else 0.0)
  {
    hide TakeEncores, GiftTotal, Balance, TotalWorth, GiftGrants;
    var gifts := TakeEncores(t.encores, t.holdings.owned, items, now).1;
    GiftsNatural(t.encores, t.holdings.owned, items, now);
    GiftsWorth(gifts, kind);
  }

  lemma {:induction false} GiftsNatural(encores: map<int, Encore>, owned: map<Content, int>, items: seq<EncoreItem>, now: int)
    ensures var gifts := TakeEncores(encores, owned, items, now).1;
      (forall i | 0 <= i < |gifts| :: gifts[i].1 >= 0) && GiftTotal(gifts) >= 0
    decreases |items|
  {
    if items != [] {
      var item := items[0];
      if !Encorable(encores, owned, item, now) {
        GiftsNatural(encores, owned, items[1..], now);
      } else {
        var taken := encores[item.music := Encore(false, item.readyAt)];
        GiftsNatural(taken, owned, items[1..], now);
        var rest := TakeEncores(taken, owned, items[1..], now).1;
        var one := (Saturate32(item.music), MaxInt(item.gift, 0));
        assert ([one] + rest)[1..] == rest;
      }
    }
  }

  lemma {:induction false} GiftsWorth(gifts: seq<(int, int)>, kind: CurrencyKind)
    requires forall i | 0 <= i < |gifts| :: gifts[i].1 >= 0
    ensures TotalWorth(GiftGrants(gifts), kind) == if kind == Candy then GiftTotal(gifts) as real else 0.0
  {
    if gifts != [] {
      GiftsWorth(gifts[1..], kind);
      var first := RewardGrant(1, CANDY_ID, Finite(gifts[0].1 as real));
      assert ([first] + GiftGrants(gifts[1..]))[1..] == GiftGrants(gifts[1..]);
    }
  }

  lemma EncoreConserves(rules: Rules, t: Tables, items: seq<EncoreItem>, now: int)
    ensures Conserves(rules, t, ClaimEncores(items), ClaimEncoreRewards(t, items, now))
  {
    hide Balance, TakeEncores, GiftTotal;
  }

  /** A command without a special rule for its credits conserves when it earns at its cost. */
  lemma FromEarns(rules: Rules, t: Tables, call: SlotCall, o: Outcome, cost: CurrencyKind -> real)
    requires !call.ClaimMail? && !call.GrantCurrency? && !call.ClaimEncores?
    requires Earns(t, o, cost) && forall kind :: cost(kind) == Costs(rules, t, call, kind)
    ensures Conserves(rules, t, call, o)
  {
    hide Balance, Costs, Earned, TotalWorth;
  }

  /** Any command conserves the balances owned by transactions, whatever its arguments. */
  lemma CommandConserves(rules: Rules, t: Tables, call: SlotCall, now: int)
    ensures Conserves(rules, t, call, Apply(rules, t, call, now))
  {
    hide MergeUserSave, AdvanceFollowerQuest, ClaimGameReward, SettleCh3Stage, SettleCh3Stream, ClaimChapterReward;
    hide FillPassPoints, ClaimPassReward, BuyRewards, BuyContent, GrantOnce, WatchedAd, ClaimProfileRewards;
    hide ClaimEncoreRewards, ClaimPost, ClaimEventReward, GrantPackageContents, GiveFollowerGift, Conserves, Earns, Balance;
    hide MarkInfinite, AttendDay, RestoreCh3, ActivateSeasons, SendMail, Delete, ClaimSamSeckStep, SelectPassSeason;
    match call {
      case ClaimMail(post) => MailConserves(rules, t, post, now);
      case GrantCurrency(kind, amount, id) => GrantOnceConserves(rules, t, kind, amount, id);
      case ClaimEncores(items) => EncoreConserves(rules, t, items, now);
      case PurchaseRewards(id, payment, bought) =>
        BuyEarns(rules, t, id, payment, bought, now);
        FromEarns(rules, t, call, Apply(rules, t, call, now), kind => Costs(rules, t, PurchaseRewards(id, payment, bought), kind));
      case PurchaseContent(content, area, currency, basePrice, increment, maxLevel) =>
        BuyContentEarns(rules, t, content, area, currency, basePrice, increment, maxLevel);
        FromEarns(rules, t, call, Apply(rules, t, call, now),
                  kind => Costs(rules, t, PurchaseContent(content, area, currency, basePrice, increment, maxLevel), kind));
      case FillPass(season, version, price, added, steps) =>
        FillEarns(rules, t, season, version, price, added, steps);
        FromEarns(rules, t, call, Apply(rules, t, call, now),
                  kind => Costs(rules, t, FillPass(season, version, price, added, steps), kind));
      case _ =>
        FreeEarns(rules, t, call, now);
        FromEarns(rules, t, call, Apply(rules, t, call, now), Free);
    }
  }

  lemma FreeEarns(rules: Rules, t: Tables, call: SlotCall, now: int)
    requires !call.ClaimMail? && !call.GrantCurrency? && !call.ClaimEncores?
    requires !call.PurchaseRewards? && !call.PurchaseContent? && !call.FillPass?
    ensures Earns(t, Apply(rules, t, call, now), Free)
  {
    hide MergeUserSave, AdvanceFollowerQuest, ClaimGameReward, SettleCh3Stage, SettleCh3Stream, ClaimChapterReward;
    hide FillPassPoints, ClaimPassReward, BuyRewards, BuyContent, GrantOnce, WatchedAd, ClaimProfileRewards;
    hide ClaimEncoreRewards, ClaimPost, ClaimEventReward, GrantPackageContents, GiveFollowerGift, Earns, Balance;
    hide MarkInfinite, AttendDay, RestoreCh3, ActivateSeasons, SendMail, Delete, ClaimSamSeckStep, SelectPassSeason;
    match call {
      case UserSave(patch, multiplier, thresholds) => SaveEarns(t, patch, multiplier, thresholds);
      case AdvanceQuest(current, sub, value, limits, rewards, nextId) =>
        QuestEarns(rules, t, current, sub, value, limits, rewards, nextId, now);
      case ClaimGame(kind, id, level, quantity, limit, localDay, reward) =>
        GameEarns(rules, t, kind, id, level, quantity, limit, localDay, reward, now);
      case SettleStage(stage, next, star, score, cost, cap, drops) =>
        StageEarns(rules, t, stage, next, star, score, cost, cap, drops, now);
      case SettleStream(stageId, count, costEach, cap, rolls) =>
        StreamEarns(rules, t, stageId, count, costEach, cap, rolls, now);
      case ClaimChapter(chapter, num, goal, rewards, cap) =>
        ChapterEarns(rules, t, chapter, num, goal, rewards, cap, now);
      case ClaimPass(key, required, rewards, paidSteps, ticket) =>
        PassEarns(rules, t, key, required, rewards, paidSteps, ticket, now);
      case ClaimProfile(follower, profileLevel, requested) =>
        ProfileEarns(rules, t, follower, profileLevel, requested, now);
      case WatchAd(rewards) => AdEarns(rules, t, rewards, now);
      case ClaimEvent(rowId, reward) => EventEarns(rules, t, rowId, reward, now);
      case _ => QuietEarns(rules, t, call, now);
    }
  }

  /** Commands that touch neither balances nor rewards. */
  lemma QuietEarns(rules: Rules, t: Tables, call: SlotCall, now: int)
    requires call.SetInfinite? || call.Attend? || call.ActivatePasses? || call.QueueMail? || call.DeleteMail?
      || call.ClaimSamSeck? || call.SelectSeason? || call.SetFlag? || call.RestoreEnergy? || call.GrantPackage?
      || call.GiveGift? || call.Untracked? || call.Aborted?
    ensures Earns(t, Apply(rules, t, call, now), Free)
  {
    hide MergeUserSave, AdvanceFollowerQuest, ClaimGameReward, SettleCh3Stage, SettleCh3Stream, ClaimChapterReward;
    hide FillPassPoints, ClaimPassReward, BuyRewards, BuyContent, GrantOnce, WatchedAd, ClaimProfileRewards;
    hide ClaimEncoreRewards, ClaimPost, ClaimEventReward, GrantPackageContents, GiveFollowerGift, Earns, Balance;
    hide MarkInfinite, AttendDay, RestoreCh3, ActivateSeasons, SendMail, Delete, ClaimSamSeckStep, SelectPassSeason;
    match call {
      case SetInfinite => InfiniteEarns(t);
      case Attend(visit) => AttendEarns(t, visit);
      case ActivatePasses(seasons) => ActivateEarns(t, seasons);
      case QueueMail(sent, atPost) => SendEarns(t, sent, atPost);
      case ClaimSamSeck(eventId, post, reward) => SamSeckEarns(t, eventId, post, reward);
      case SelectSeason(clock, season) => SelectEarns(t, clock, season);
      case RestoreEnergy(cap) => RestoreEarns(t, cap, now);
      case GrantPackage(contents, musicIds) => PackageEarns(t, contents, musicIds);
      case GiveGift(gift, used) => GiftEarns(t, gift, used);
      case DeleteMail(post, all) => StillEarns(t, Told(t.(mail := Delete(t.mail, post, all)), PostReply(post)));
      case SetFlag(flag, value) => StillEarns(t, Told(t.(flags := t.flags[flag := value]), FlagReply(value)));
      case Untracked => StillEarns(t, Told(t, Plain));
      case Aborted(cause) => StillEarns(t, Err(cause));
    }
  }

  lemma InfiniteEarns(t: Tables)
    ensures Earns(t, MarkInfinite(t), Free)
  {
    hide G.SetInfinite, G.CompleteId, Earns;
    StillEarns(t, MarkInfinite(t));
  }

  lemma AttendEarns(t: Tables, visit: A.Visit)
    ensures Earns(t, AttendDay(t, visit), Free)
  {
    hide A.Attend, Earns;
    StillEarns(t, AttendDay(t, visit));
  }

  lemma ActivateEarns(t: Tables, seasons: seq<int>)
    ensures Earns(t, ActivateSeasons(t, seasons), Free)
  {
    hide P.Activate, Earns;
    StillEarns(t, ActivateSeasons(t, seasons));
  }

  lemma SendEarns(t: Tables, sent: Reward, atPost: Option<int>)
    ensures Earns(t, SendMail(t, sent, atPost), Free)
  {
    hide Queue, NextPost, Earns;
    StillEarns(t, SendMail(t, sent, atPost));
  }

  lemma SamSeckEarns(t: Tables, eventId: int, post: int, reward: RewardGrant)
    ensures Earns(t, ClaimSamSeckStep(t, eventId, post, reward), Free)
  {
    hide QueueGrant, SamSeckEligible, Earns;
    StillEarns(t, ClaimSamSeckStep(t, eventId, post, reward));
  }

  lemma SelectEarns(t: Tables, clock: R.DeviceClock, season: int)
    ensures Earns(t, SelectPassSeason(t, clock, season), Free)
  {
    hide R.Rotate, Earns;
    StillEarns(t, SelectPassSeason(t, clock, season));
  }

  lemma RestoreEarns(t: Tables, cap: int, now: int)
    ensures Earns(t, RestoreCh3(t, cap, now), Free)
  {
    hide Restored, Earns;
    StillEarns(t, RestoreCh3(t, cap, now));
  }

  lemma PackageEarns(t: Tables, contents: seq<(Content, int)>, musicIds: seq<int>)
    ensures Earns(t, GrantPackageContents(t, contents, musicIds), Free)
  {
    hide AddPackage, Earns;
    H.PackageEffect(t.holdings, contents);
    StillEarns(t, GrantPackageContents(t, contents, musicIds));
  }

  lemma GiftEarns(t: Tables, gift: int, used: int)
    ensures Earns(t, GiveFollowerGift(t, gift, used), Free)
  {
    hide Earns;
    StillEarns(t, GiveFollowerGift(t, gift, used));
  }

  // ----- What retries are told -----

  /** The reply kept for retries tells of no rewards. */
  ghost predicate Quiet(o: Outcome) {
    o.Ok? ==> Earned(o.value.replay) == []
  }

  lemma CollectQuiet(rules: Rules, t: Tables, call: SlotCall, now: int)
    requires Collects(call) && !call.ClaimEncores?
    ensures Quiet(Apply(rules, t, call, now))
  {
    hide GrantAll, GrantLevels, TakeEncores, GiftTotal, Mailbox.Claim, Queue, QueueGrant, Delete, SamSeckEligible, NextPost;
    hide Credit, Balance;
  }

  lemma TradeQuiet(rules: Rules, t: Tables, call: SlotCall, now: int)
    requires Trades(call) && !Collects(call)
    ensures Quiet(Apply(rules, t, call, now))
  {
    hide GrantAll, Pay, P.Claim, P.Fill, P.Activate, NextPrice, Credit, Balance, AddPackage;
  }

  lemma PlayQuiet(rules: Rules, t: Tables, call: SlotCall, now: int)
    requires !Trades(call)
    ensures Quiet(Apply(rules, t, call, now))
  {
    hide GrantAll, GrantRolls, PayEnergy, Restored, C.Settle, C.ClaimChapter, G.Claim, G.SetInfinite, G.CompleteId, A.Attend;
    hide MarkAreas, SaveHoldings, MergePasses, G.Save, MergeCounters, MergeMusics, Reported, LevelsClaimed, MissionsClaimed;
    hide R.Rotate, C.Unlocked, C.Completed;
  }

  /** The item names owned music whose encore shows up or has no cooldown left. */
  predicate Encorable(encores: map<int, Encore>, owned: map<Content, int>, item: EncoreItem, now: int) {
    && Content(Music, item.music) in owned
    && !(item.music in encores && !encores[item.music].appears && encores[item.music].readyAt > now)
  }

  lemma {:induction false} EncoresTaken(encores: map<int, Encore>, owned: map<Content, int>, items: seq<EncoreItem>, now: int)
    ensures TakeEncores(encores, owned, items, now).1 != []
       <==> exists i :: 0 <= i < |items| && Encorable(encores, owned, items[i], now)
    decreases |items|
  {
    if items == [] {
    } else if Encorable(encores, owned, items[0], now) {
      assert exists i :: 0 <= i < |items| && Encorable(encores, owned, items[i], now);
    } else {
      var rest := items[1..];
      EncoresTaken(encores, owned, rest, now);
      hide Encorable, TakeEncores;
      if i :| 0 <= i < |rest| && Encorable(encores, owned, rest[i], now) {
        assert items[i + 1] == rest[i];
      }
      if i :| 0 <= i < |items| && Encorable(encores, owned, items[i], now) {
        assert i > 0 && rest[i - 1] == items[i];
      }
    }
  }

  /**
   The reply kept for the retries of an accepted command tells of rewards exactly when the command
   claims encores and some item names owned music that is not cooling down.
   */
  lemma RetriesTellRewardsExactly(rules: Rules, t: Tables, call: SlotCall, now: int)
    requires Apply(rules, t, call, now).Ok?
    ensures Earned(Apply(rules, t, call, now).value.replay) != []
       <==> (call.ClaimEncores?
             && exists i :: 0 <= i < |call.items| && Encorable(t.encores, t.holdings.owned, call.items[i], now))
  {
    if call.ClaimEncores? {
      EncoreReplays(t, call.items, now);
      EncoresTaken(t.encores, t.holdings.owned, call.items, now);
    } else {
      hide Apply, Earned;
      if Collects(call) {
        CollectQuiet(rules, t, call, now);
      } else if Trades(call) {
        TradeQuiet(rules, t, call, now);
      } else {
        PlayQuiet(rules, t, call, now);
      }
    }
  }

  lemma EncoreReplays(t: Tables, items: seq<EncoreItem>, now: int)
    ensures ClaimEncoreRewards(t, items, now).Ok?
    ensures Earned(ClaimEncoreRewards(t, items, now).value.replay)
         == GiftGrants(TakeEncores(t.encores, t.holdings.owned, items, now).1)
  {
    hide TakeEncores, GiftTotal, Credit;
  }

  /** A new slot that claims an encore of its first music: the kept reply tells of the seven pieces again. */
  lemma EncoreRepeatsGift(created: int, now: int)
    ensures var t := NewTables({}, created);
      var o := ClaimEncoreRewards(t, [EncoreItem(1, 7, 5000)], now);
      && o.Ok? && o.value.replay == EncoreReply([(1, 7)], [])
      && Earned(o.value.replay) == [RewardGrant(1, CANDY_ID, Finite(7.0))]
      && Candies(o.value.tables) == Candies(t) + 7.0
  {
    var t, items := NewTables({}, created), [EncoreItem(1, 7, 5000)];
    assert Content(Music, 1) in t.holdings.owned;
    assert items[1..] == [];
    var taken := TakeEncores(t.encores, t.holdings.owned, items, now);
    assert taken.1 == [(1, 7)] && taken.2 == [];
    assert taken.1[1..] == [];
    assert GiftTotal(taken.1) == 7;
  }

  // ----- Amounts that are no number -----

  /**
   Mail queued with an amount that is not a number tells its receiver of one unit of candy and
   credits nothing, at any free post of any slot.
   */
  lemma MailWithoutAmount(rules: Rules, t: Tables, post: int, now: int)
    requires post !in t.mail
    ensures SendMail(t, CurrencyReward(Candy, NaN), Some(post)).Ok?
    ensures var sent := SendMail(t, CurrencyReward(Candy, NaN), Some(post)).value.tables;
      var o := ClaimPost(rules, sent, post, now);
      && o.Ok? && o.value.reply == MailReply(Some(RewardGrant(1, CANDY_ID, Finite(1.0))))
      && Candies(o.value.tables) == Candies(sent) == Candies(t)
  {
    hide Deliverable;
    assert Deliverable(t.holdings.owned, t.mail, CurrencyReward(Candy, NaN)) by {
      DeliversCurrency(t.holdings.owned, t.mail, Candy, NaN);
    }
  }

  lemma DeliversCurrency(owned: map<Content, int>, mail: Mail, kind: CurrencyKind, amount: Number)
    ensures Deliverable(owned, mail, CurrencyReward(kind, amount))
  {
  }

  // ----- One-time rewards -----

  /** The records that say a one-time reward was given. */
  datatype GrantKey =
    | QuestKey(stage: int, sub: int)
    | LevelKey(achievement: int, level: int)
    | MissionKey(day: int, mission: int, level: int)
    | ChapterKey(chapter: int, num: int)
    | PassKey(claim: P.ClaimKey)
    | PurchaseKey(purchaseId: string)
    | TransactionKey(transactionId: string)
    | PostKey(post: int)
    | AffectionKey(follower: int, level: int)
    | EventKey(event: string, id: int)

  predicate Recorded(t: Tables, key: GrantKey) {
    match key
    case QuestKey(stage, sub) => G.IsClaimed(t.guide, stage, sub)
    case LevelKey(id, level) => (id, level) in t.achievementClaims
    case MissionKey(day, id, level) => (day, id, level) in t.missionClaims
    case ChapterKey(chapter, num) => (chapter, num) in t.stages.claims
    case PassKey(claim) => claim in t.pass.claims
    case PurchaseKey(id) => id in t.purchases
    case TransactionKey(id) => id in t.rewardTransactions
    case PostKey(post) => post in ClaimedPosts(t.mail)
    case AffectionKey(follower, level) => (follower, level) in t.affectionClaims
    case EventKey(event, id) => (event, id) in t.events
  }

  /** The one-time rewards a command asks for; the others may be repeated. */
  function KeysOf(call: SlotCall): set<GrantKey> {
    match call
    case AdvanceQuest(current, sub, _, _, _, _) => {QuestKey(current, sub)}
    case ClaimGame(Achievement, id, level, _, _, _, _) => {LevelKey(id, level)}
    case ClaimGame(DailyMission, id, level, _, _, day, _) => {MissionKey(day, id, level)}
    case ClaimChapter(chapter, num, _, _, _) => {ChapterKey(chapter, num)}
    case ClaimPass(key, _, _, _, _) => {PassKey(key)}
    case PurchaseRewards(id, _, _) => {PurchaseKey(id)}
    case GrantCurrency(_, _, id) => {TransactionKey(id)}
    case ClaimMail(post) => {PostKey(post)}
    case ClaimProfile(follower, _, requested) =>
      set i | 0 <= i < |requested| :: AffectionKey(follower, requested[i].level)
    case ClaimEvent(row, _) => {EventKey("daily_reward", row)}
    case ClaimSamSeck(event, _, _) => {EventKey("samseck", event)}
    case _ => {}
  }

  /** The command changed what the player holds or has waiting, or told the client of rewards. */
  ghost predicate Pays(t: Tables, o: Outcome) {
    o.Ok? && (o.value.tables.holdings != t.holdings || o.value.tables.mail.Keys != t.mail.Keys
              || Earned(o.value.reply) != [])
  }

  /** A reward of these keys is paid only along with recording one of them that was not recorded. */
  ghost predicate PaysNewOnly(t: Tables, keys: set<GrantKey>, o: Outcome) {
    Pays(t, o) ==> exists key :: key in keys && !Recorded(t, key) && Recorded(o.value.tables, key)
  }

  lemma {:induction false} LevelsPayNew(rules: Rules, h: Holdings, claims: set<(int, int)>, follower: int,
                                        profileLevel: int, requested: seq<ProfileItem>, now: int)
    requires GrantLevels(rules, h, claims, follower, profileLevel, requested, now).Ok?
    ensures var (after, claimed, told) := GrantLevels(rules, h, claims, follower, profileLevel, requested, now).value;
      && claims <= claimed
      && (after != h || told != [] ==>
            exists i :: 0 <= i < |requested| && (follower, requested[i].level) in claimed - claims)
    decreases |requested|
  {
    if requested == [] {
    } else {
      hide GrantAll;
      var level := requested[0].level;
      if (follower, level) in claims {
        LevelsPayNew(rules, h, claims, follower, profileLevel, requested[1..], now);
        var (after, claimed, told) := GrantLevels(rules, h, claims, follower, profileLevel, requested[1..], now).value;
        if after != h || told != [] {
          var i :| 0 <= i < |requested[1..]| && (follower, requested[1..][i].level) in claimed - claims;
          assert requested[i + 1] == requested[1..][i];
        }
      } else {
        var next := GrantAll(rules, h, requested[0].rewards, now).value.0;
        LevelsPayNew(rules, next, claims + {(follower, level)}, follower, profileLevel, requested[1..], now);
        assert (follower, requested[0].level) !in claims;
      }
    }
  }

  lemma ProfilePaysNew(rules: Rules, t: Tables, follower: int, profileLevel: int, requested: seq<ProfileItem>, now: int)
    ensures PaysNewOnly(t, KeysOf(ClaimProfile(follower, profileLevel, requested)),
                        ClaimProfileRewards(rules, t, follower, profileLevel, requested, now))
  {
    var o := ClaimProfileRewards(rules, t, follower, profileLevel, requested, now);
    hide GrantLevels;
    if Pays(t, o) {
      LevelsPayNew(rules, t.holdings, t.affectionClaims, follower, profileLevel, requested, now);
      var i :| 0 <= i < |requested| && (follower, requested[i].level) in o.value.tables.affectionClaims - t.affectionClaims;
      var key := AffectionKey(follower, requested[i].level);
      assert key in KeysOf(ClaimProfile(follower, profileLevel, requested));
      assert !Recorded(t, key) && Recorded(o.value.tables, key);
    }
  }

  lemma QuestPaysNew(rules: Rules, t: Tables, current: int, sub: int, value: Number, limits: (real, real, real),
                     rewards: seq<RewardGrant>, nextId: Option<int>, now: int)
    ensures PaysNewOnly(t, {QuestKey(current, sub)},
                        AdvanceFollowerQuest(rules, t, current, sub, value, limits, rewards, nextId, now))
  {
    var o := AdvanceFollowerQuest(rules, t, current, sub, value, limits, rewards, nextId, now);
    hide GrantAll, G.Claim, G.CompleteId, G.IsClaimed;
    if Pays(t, o) {
      G.EarnsOnce(t.guide, current, sub, value.value, LimitOf(limits, sub), nextId);
      assert !Recorded(t, QuestKey(current, sub)) && Recorded(o.value.tables, QuestKey(current, sub));
    }
  }

  lemma MailPaysNew(rules: Rules, t: Tables, post: int, now: int)
    ensures PaysNewOnly(t, {PostKey(post)}, ClaimPost(rules, t, post, now))
  {
    var o := ClaimPost(rules, t, post, now);
    hide Mailbox.Claim;
    if o.Ok? {
      ClaimEffect(rules, t.holdings, t.mail, post, now);
      assert !Recorded(t, PostKey(post)) && Recorded(o.value.tables, PostKey(post));
    }
  }

  lemma GamePaysNew(rules: Rules, t: Tables, call: SlotCall, now: int)
    requires call.ClaimGame?
    ensures PaysNewOnly(t, KeysOf(call), Apply(rules, t, call, now))
  {
    hide GrantAll, LevelsClaimed, MissionsClaimed, Reported;
    var o := Apply(rules, t, call, now);
    if o.Ok? {
      var key := if call.kind == Achievement then LevelKey(call.id, call.level) else MissionKey(call.localDay, call.id, call.level);
      assert key in KeysOf(call) && !Recorded(t, key) && Recorded(o.value.tables, key);
    }
  }

  lemma ChapterPaysNew(rules: Rules, t: Tables, chapter: int, num: int, goal: int, rewards: seq<RewardGrant>, cap: int, now: int)
    ensures PaysNewOnly(t, {ChapterKey(chapter, num)}, ClaimChapterReward(rules, t, chapter, num, goal, rewards, cap, now))
  {
    hide GrantAll, C.StarSum, Restored;
    var o := ClaimChapterReward(rules, t, chapter, num, goal, rewards, cap, now);
    if o.Ok? {
      var key := ChapterKey(chapter, num);
      assert !Recorded(t, key) && Recorded(o.value.tables, key);
    }
  }

  lemma PassPaysNew(rules: Rules, t: Tables, key: P.ClaimKey, required: int, rewards: seq<RewardGrant>,
                    paidSteps: int, ticket: int, now: int)
    requires key.lane in {0, 1}
    ensures PaysNewOnly(t, {PassKey(key)}, ClaimPassReward(rules, t, key, required, rewards, paidSteps, ticket, now))
  {
    hide GrantAll, P.PaidClaims, P.PointsOf;
    var o := ClaimPassReward(rules, t, key, required, rewards, paidSteps, ticket, now);
    if Pays(t, o) {
      assert !Recorded(t, PassKey(key)) && Recorded(o.value.tables, PassKey(key));
    }
  }

  lemma BuyPaysNew(rules: Rules, t: Tables, id: string, payment: Option<(CurrencyKind, Number)>,
                   bought: seq<RewardGrant>, now: int)
    ensures PaysNewOnly(t, {PurchaseKey(id)}, BuyRewards(rules, t, id, payment, bought, now))
  {
    hide GrantAll, Pay;
    var o := BuyRewards(rules, t, id, payment, bought, now);
    if Pays(t, o) {
      assert !Recorded(t, PurchaseKey(id)) && Recorded(o.value.tables, PurchaseKey(id));
    }
  }

  lemma GrantOncePaysNew(t: Tables, kind: CurrencyKind, amount: Number, id: string)
    ensures PaysNewOnly(t, {TransactionKey(id)}, GrantOnce(t, kind, amount, id))
  {
    hide Credit;
    var o := GrantOnce(t, kind, amount, id);
    if Pays(t, o) {
      assert !Recorded(t, TransactionKey(id)) && Recorded(o.value.tables, TransactionKey(id));
    }
  }

  lemma EventPaysNew(rules: Rules, t: Tables, row: int, reward: RewardGrant, now: int)
    ensures PaysNewOnly(t, {EventKey("daily_reward", row)}, ClaimEventReward(rules, t, row, reward, now))
  {
    hide GrantAll;
    var o := ClaimEventReward(rules, t, row, reward, now);
    if o.Ok? {
      var key := EventKey("daily_reward", row);
      assert !Recorded(t, key) && Recorded(o.value.tables, key);
    }
  }

  lemma SamSeckPaysNew(t: Tables, eventId: int, post: int, reward: RewardGrant)
    ensures PaysNewOnly(t, {EventKey("samseck", eventId)}, ClaimSamSeckStep(t, eventId, post, reward))
  {
    hide QueueGrant, SamSeckEligible;
    var o := ClaimSamSeckStep(t, eventId, post, reward);
    if Pays(t, o) {
      var key := EventKey("samseck", eventId);
      assert !Recorded(t, key) && Recorded(o.value.tables, key);
    }
  }

  /** Whatever its arguments, a command pays a one-time reward only by recording it for the first time. */
  lemma CommandPaysNew(rules: Rules, t: Tables, call: SlotCall, now: int)
    requires KeysOf(call) != {} && (call.ClaimPass? ==> call.key.lane in {0, 1})
    ensures PaysNewOnly(t, KeysOf(call), Apply(rules, t, call, now))
  {
    hide AdvanceFollowerQuest, ClaimProfileRewards, ClaimPost, ClaimGameReward, ClaimChapterReward, ClaimPassReward;
    hide BuyRewards, GrantOnce, ClaimEventReward, ClaimSamSeckStep, PaysNewOnly;
    match call {
      case AdvanceQuest(current, sub, value, limits, rewards, nextId) =>
        QuestPaysNew(rules, t, current, sub, value, limits, rewards, nextId, now);
      case ClaimGame(_, _, _, _, _, _, _) => GamePaysNew(rules, t, call, now);
      case ClaimChapter(chapter, num, goal, rewards, cap) => ChapterPaysNew(rules, t, chapter, num, goal, rewards, cap, now);
      case ClaimPass(key, required, rewards, paidSteps, ticket) =>
        PassPaysNew(rules, t, key, required, rewards, paidSteps, ticket, now);
      case PurchaseRewards(id, payment, bought) => BuyPaysNew(rules, t, id, payment, bought, now);
      case GrantCurrency(kind, amount, id) => GrantOncePaysNew(t, kind, amount, id);
      case ClaimMail(post) => MailPaysNew(rules, t, post, now);
      case ClaimProfile(follower, profileLevel, requested) =>
        ProfilePaysNew(rules, t, follower, profileLevel, requested, now);
      case ClaimEvent(row, reward) => EventPaysNew(rules, t, row, reward, now);
      case ClaimSamSeck(eventId, post, reward) => SamSeckPaysNew(t, eventId, post, reward);
      case _ =>
    }
  }

  // ----- Which keys a command pays -----

  function LevelsTold(follower: int, outcomes: seq<ProfileItem>): set<GrantKey> {
    set i | 0 <= i < |outcomes| :: AffectionKey(follower, outcomes[i].level)
  }

  /**
   The one-time rewards that an accepted command paid: of a claim of follower levels those the reply
   lists, of any other command the one it asks for, if it changed holdings or mail or told of rewards.
   */
  ghost function PaidKeys(t: Tables, call: SlotCall, o: Outcome): set<GrantKey> {
    if o.Err? then {}
    else if call.ClaimProfile? then
      if o.value.reply.ProfileReply? then LevelsTold(call.follower, o.value.reply.outcomes) else {}
    else if Pays(t, o) then KeysOf(call) else {}
  }

  /** The keys were asked for, had no record, and have one now. */
  ghost predicate NewKeys(t: Tables, call: SlotCall, o: Outcome, keys: set<GrantKey>) {
    o.Ok? ==> forall key | key in keys :: key in KeysOf(call) && !Recorded(t, key) && Recorded(o.value.tables, key)
  }

  predicate Asked(requested: seq<ProfileItem>, level: int) {
    exists j :: 0 <= j < |requested| && requested[j].level == level
  }

  /** The reply to a claim of follower levels lists exactly the levels recorded by it, each once. */
  lemma {:induction false} LevelsToldOnce(rules: Rules, h: Holdings, claims: set<(int, int)>, follower: int,
                                          profileLevel: int, requested: seq<ProfileItem>, now: int)
    requires GrantLevels(rules, h, claims, follower, profileLevel, requested, now).Ok?
    ensures var (after, claimed, told) := GrantLevels(rules, h, claims, follower, profileLevel, requested, now).value;
      && claims <= claimed
      && (forall i | 0 <= i < |told| :: (follower, told[i].level) in claimed - claims)
      && (forall c | c in claimed - claims :: exists i :: 0 <= i < |told| && c == (follower, told[i].level))
      && (forall i, j | 0 <= i < j < |told| :: told[i].level != told[j].level)
      && (forall i | 0 <= i < |told| :: Asked(requested, told[i].level))
      && (told == [] ==> after == h)
    decreases |requested|
  {
    if requested != [] {
      hide GrantAll;
      var level, rest := requested[0].level, requested[1..];
      if (follower, level) in claims {
        LevelsToldOnce(rules, h, claims, follower, profileLevel, rest, now);
        hide GrantLevels;
        LevelsAsked(requested, GrantLevels(rules, h, claims, follower, profileLevel, rest, now).value.2);
      } else {
        var (next, told) := GrantAll(rules, h, requested[0].rewards, now).value;
        var claims' := claims + {(follower, level)};
        LevelsToldOnce(rules, next, claims', follower, profileLevel, rest, now);
        var (_, claimed, later) := GrantLevels(rules, next, claims', follower, profileLevel, rest, now).value;
        LevelsAsked(requested, later);
        FirstToldOnce(follower, claims, claimed, ProfileItem(level, told), later);
        assert Asked(requested, requested[0].level);
      }
    }
  }

  lemma LevelsAsked(requested: seq<ProfileItem>, told: seq<ProfileItem>)
    requires requested != []
    requires forall i | 0 <= i < |told| :: Asked(requested[1..], told[i].level)
    ensures forall i | 0 <= i < |told| :: Asked(requested, told[i].level)
  {
    forall i | 0 <= i < |told| ensures Asked(requested, told[i].level) {
      var j :| 0 <= j < |requested[1..]| && requested[1..][j].level == told[i].level;
      assert requested[j + 1].level == told[i].level;
    }
  }

  lemma FirstToldOnce(follower: int, claims: set<(int, int)>, claimed: set<(int, int)>, first: ProfileItem,
                      later: seq<ProfileItem>)
    requires (follower, first.level) !in claims && claims + {(follower, first.level)} <= claimed
    requires forall i | 0 <= i < |later| :: (follower, later[i].level) in claimed - (claims + {(follower, first.level)})
    requires forall c | c in claimed - (claims + {(follower, first.level)}) ::
      exists i :: 0 <= i < |later| && c == (follower, later[i].level)
    requires forall i, j | 0 <= i < j < |later| :: later[i].level != later[j].level
    ensures var told := [first] + later;
      && (forall i | 0 <= i < |told| :: (follower, told[i].level) in claimed - claims)
      && (forall c | c in claimed - claims :: exists i :: 0 <= i < |told| && c == (follower, told[i].level))
      && (forall i, j | 0 <= i < j < |told| :: told[i].level != told[j].level)
  {
    var told := [first] + later;
    forall c | c in claimed - claims ensures exists i :: 0 <= i < |told| && c == (follower, told[i].level) {
      if c == (follower, first.level) {
        assert told[0] == first;
      } else {
        assert c in claimed - (claims + {(follower, first.level)});
        var i :| 0 <= i < |later| && c == (follower, later[i].level);
        assert told[i + 1] == later[i];
      }
    }
  }

  lemma ProfilePaysKeys(rules: Rules, t: Tables, follower: int, profileLevel: int, requested: seq<ProfileItem>, now: int)
    ensures var call, o := ClaimProfile(follower, profileLevel, requested),
                           ClaimProfileRewards(rules, t, follower, profileLevel, requested, now);
      && NewKeys(t, call, o, PaidKeys(t, call, o))
      && (Pays(t, o) ==> PaidKeys(t, call, o) != {})
      && (o.Ok? ==> o.value.reply.ProfileReply?
                    && forall i, j | 0 <= i < j < |o.value.reply.outcomes| ::
                         o.value.reply.outcomes[i].level != o.value.reply.outcomes[j].level)
  {
    hide GrantLevels;
    var call := ClaimProfile(follower, profileLevel, requested);
    var o := ClaimProfileRewards(rules, t, follower, profileLevel, requested, now);
    if o.Ok? {
      LevelsToldOnce(rules, t.holdings, t.affectionClaims, follower, profileLevel, requested, now);
      var told := o.value.reply.outcomes;
      forall key | key in PaidKeys(t, call, o)
        ensures key in KeysOf(call) && !Recorded(t, key) && Recorded(o.value.tables, key)
      {
        var i :| 0 <= i < |told| && key == AffectionKey(follower, told[i].level);
        assert Asked(requested, told[i].level);
        assert (follower, told[i].level) in o.value.tables.affectionClaims - t.affectionClaims;
      }
      if told != [] {
        assert AffectionKey(follower, told[0].level) in PaidKeys(t, call, o);
      }
    }
  }

  /**
   Whatever its arguments, a command pays exactly keys that it records for the first time, and it
   pays one if it asks for one and changes holdings or mail or tells of rewards.
   */
  lemma CommandPaysKeys(rules: Rules, t: Tables, call: SlotCall, now: int)
    requires call.ClaimPass? ==> call.key.lane in {0, 1}
    ensures NewKeys(t, call, Apply(rules, t, call, now), PaidKeys(t, call, Apply(rules, t, call, now)))
    ensures KeysOf(call) != {} && Pays(t, Apply(rules, t, call, now)) ==> PaidKeys(t, call, Apply(rules, t, call, now)) != {}
  {
    hide ClaimProfileRewards, Pays, Recorded;
    if call.ClaimProfile? {
      ProfilePaysKeys(rules, t, call.follower, call.profileLevel, call.requested, now);
    } else {
      hide Apply;
      if KeysOf(call) != {} {
        CommandPaysNew(rules, t, call, now);
        OneKey(call);
        if Pays(t, Apply(rules, t, call, now)) {
          PaysIsOk(t, Apply(rules, t, call, now));
        }
      }
    }
  }

  lemma PaysIsOk(t: Tables, o: Outcome)
    requires Pays(t, o)
    ensures o.Ok?
  {
  }

  lemma OneKey(call: SlotCall)
    requires KeysOf(call) != {} && !call.ClaimProfile?
    ensures |KeysOf(call)| == 1
    ensures forall a, b | a in KeysOf(call) && b in KeysOf(call) :: a == b
  {
  }
}
