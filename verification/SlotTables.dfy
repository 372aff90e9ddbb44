/**
 The gameplay tables of one slot and the transactions that change them: the commands of
 crates/persistence-sqlite/src/lib.rs, each as a function from tables to tables and a reply.
 A command that fails has no tables: the transaction is rolled back.
 */
module SlotTables {
  import opened Wrappers
  import opened SaveDomain
  import opened SlotRewards
  import opened ClientSave
  import opened Mailbox
  import E = Ch3Energy
  import G = GuideChain
  import A = AttendanceBook
  import P = PassLedger
  import C = Ch3Stages
  import R = PassRotation

  datatype Tables = Tables(
    holdings: Holdings,
    flags: Flags,
    encores: map<int, Encore>,
    achievements: map<int, real>,
    achievementClaims: set<(int, int)>,       // achievement, level
    missions: map<int, real>,
    missionClaims: set<(int, int, int)>,      // local day, mission, level
    book: A.Book,
    guide: G.Guide,
    pass: P.Pass,
    rotation: R.Rotation,
    stages: C.Stages,
    mail: Mail,
    purchases: set<string>,
    rewardTransactions: set<string>,
    events: set<(string, int)>,               // event type, data id
    affectionClaims: set<(int, int)>)         // follower, level

  /** The tables `create_slot_in_transaction` writes. */
  function NewTables(achievementIds: set<int>, now: int): Tables {
    var first := map kind | kind in {Character, Costume, Guitar, Music, Prop, Skill, Unit} :: Content(kind, 1) := 1;
    Tables(
      Holdings(EMPTY_WALLET, first, first, {}, map[], E.Energy(200, 200, now), None),
      map[], map[],
      map id | id in achievementIds :: 0.0, {},
      map[1 := 1.0, 2 := 1.0, 3 := 1.0, 4 := 1.0, 5 := 1.0, 6 := 1.0], {},
      A.NEW_BOOK, G.NEW_GUIDE, P.NEW_PASS, R.Rotation(None, 0), C.NEW_STAGES,
      map[], {}, {}, {}, {})
  }

  datatype Patch = Patch(core: Option<SavedCore>, areas: seq<SavedArea>, contents: seq<SavedContent>,
                         musics: seq<SavedMusic>, achievements: seq<SavedCounter>, missions: seq<SavedCounter>,
                         passes: seq<P.SavedPass>, quests: seq<G.SavedStage>)

  /** Thresholds of every pass, as the caller lists them: season, step, goal. */
  datatype PassThreshold = PassThreshold(season: int, step: int, goal: int)

  datatype GameKind = Achievement | DailyMission | OtherGame

  datatype EncoreItem = EncoreItem(music: int, gift: int, readyAt: int)

  datatype ProfileItem = ProfileItem(level: int, rewards: seq<RewardGrant>)

  datatype Roll = Roll(roll: int, rewards: seq<RewardGrant>)

  datatype SlotCall =
    | UserSave(patch: Patch, multiplier: int, thresholds: seq<PassThreshold>)
    | AdvanceQuest(current: int, sub: int, value: Number, limits: (real, real, real), questRewards: seq<RewardGrant>, nextId: Option<int>)
    | SetInfinite
    | Attend(visit: A.Visit)
    | ClaimGame(kind: GameKind, id: int, level: int, quantity: Number, limit: Number, localDay: int, reward: Option<RewardGrant>)
    | SettleStage(stage: C.StageDef, next: Option<C.StageDef>, star: int, score: int, cost: nat, cap: int, drops: seq<RewardGrant>)
    | SettleStream(stageId: int, count: int, costEach: nat, streamCap: int, rolls: seq<Roll>)
    | ClaimChapter(chapter: int, num: int, goal: int, chapterRewards: seq<RewardGrant>, chapterCap: int)
    | FillPass(season: int, version: int, price: Number, added: int, steps: P.Steps)
    | ClaimPass(key: P.ClaimKey, required: int, passRewards: seq<RewardGrant>, paidSteps: int, ticket: int)
    | ActivatePasses(seasons: seq<int>)
    | PurchaseRewards(purchaseId: string, payment: Option<(CurrencyKind, Number)>, bought: seq<RewardGrant>)
    | PurchaseContent(content: Content, area: int, currency: CurrencyKind, basePrice: Number, increment: Number, maxLevel: int)
    | ClaimMail(post: int)
    | QueueMail(sent: Reward, atPost: Option<int>)
    | DeleteMail(deletedPost: int, all: bool)
    | ClaimEncores(items: seq<EncoreItem>)
    | ClaimProfile(follower: int, profileLevel: int, requested: seq<ProfileItem>)
    | WatchAd(adRewards: seq<RewardGrant>)
    | ClaimEvent(rowId: int, eventReward: RewardGrant)
    | ClaimSamSeck(eventId: int, samPost: int, samReward: RewardGrant)
    | SelectSeason(clock: R.DeviceClock, selected: int)
    | SetFlag(flag: string, flagValue: int)
    | GrantCurrency(kindGranted: CurrencyKind, granted: Number, transactionId: string)
    | RestoreEnergy(energyCap: int)
    | GrantPackage(contents: seq<(Content, int)>, musicIds: seq<int>)   // content with its area
    | GiveGift(gift: int, used: int)
    | Untracked                       // commands on tables that are not modelled
    | Aborted(cause: StoreError)      // a command that fails on such tables

  datatype Reply =
    | Plain
    | FlagReply(value: int)
    | QuestReply(shown: int, completeId: int, next: bool, questEarned: seq<RewardGrant>)
    | StageShown(stage: int, completeId: int)
    | AttendReply(status: A.Status, count: int, maximum: int)
    | GameReply(nextLevel: int, gameEarned: seq<RewardGrant>)
    | StageReply(stageId: int, stageEnergy: E.Energy, stageEarned: seq<RewardGrant>)
    | StreamReply(streamId: int, streamEnergy: E.Energy, rollsEarned: seq<Roll>)
    | ChapterReply(chapterEnergy: E.Energy, chapterEarned: seq<RewardGrant>)
    | FillReply(season: int, points: int, version: int, chocolate: real, candy: real)
    | PassReply(key: P.ClaimKey, claimedAt: int, passEarned: seq<RewardGrant>)
    | PremiumReply(premium: set<int>)
    | PurchaseReply(chocolate: real, candy: real, purchased: seq<RewardGrant>)
    | ContentReply(chocolate: real, candy: real, content: Content, level: int)
    | MailReply(grant: Option<RewardGrant>)
    | PostReply(post: int)
    | EncoreReply(gifts: seq<(int, int)>, rejected: seq<int>)
    | ProfileReply(outcomes: seq<ProfileItem>)
    | AdReply(adEarned: seq<RewardGrant>)
    | EventReply(eventEarned: seq<RewardGrant>, chocolate: real, candy: real, likes: real, fans: real)
    | SamSeckReply(step: int)
    | FreshReply(isNew: bool)
    | EnergyReply(energy: E.Energy)
    | PackageReply(chocolate: real, candy: real, musicIds: seq<int>)
    | GiftReply(gift: int, remaining: int)
    | IdentityReply(usn: int, userId: string)

  /** What a transaction leaves: new tables, its reply, and the reply kept for retries. */
  datatype Applied = Applied(tables: Tables, reply: Reply, replay: Reply)

  type Outcome = Result<Applied, StoreError>

  /** A command whose retries get the same reply. */
  function Told(tables: Tables, reply: Reply): Outcome {
    Ok(Applied(tables, reply, reply))
  }

  function Chocolates(t: Tables): real {
    Balance(t.holdings.wallet, Chocolate)
  }

  function Candies(t: Tables): real {
    Balance(t.holdings.wallet, Candy)
  }

  // ----- Client snapshots -----

  function StepsOf(thresholds: seq<PassThreshold>, season: int): P.Steps
    decreases |thresholds|
  {
    if thresholds == [] then []
    else (if thresholds[0].season == season then [(thresholds[0].step, thresholds[0].goal)] else [])
         + StepsOf(thresholds[1..], season)
  }

  function MergePasses(pass: P.Pass, saves: seq<P.SavedPass>, multiplier: int, thresholds: seq<PassThreshold>): P.Pass
    decreases |saves|
  {
    if saves == [] then pass
    else MergePasses(P.Merge(pass, saves[0], multiplier, StepsOf(thresholds, saves[0].season)),
                     saves[1..], multiplier, thresholds)
  }

  function SaveHoldings(h: Holdings, flags: Flags, patch: Patch): Result<Holdings, StoreError> {
    var wallet :- MergeAreas(MergeCore(h.wallet, flags, patch.core), flags, patch.areas);
    Ok(MergeContents(h.(wallet := wallet), patch.contents))
  }

  function MergeUserSave(t: Tables, patch: Patch, multiplier: int, thresholds: seq<PassThreshold>): Outcome {
    var flags :- MarkAreas(t.flags, patch.areas);
    var holdings :- SaveHoldings(t.holdings, flags, patch);
    Told(t.(flags := flags,
            holdings := holdings,
            encores := MergeMusics(t.encores, holdings.owned, patch.musics),
            achievements := MergeCounters(t.achievements, patch.achievements, Some(t.book.count)),
            missions := MergeCounters(t.missions, patch.missions, None),
            pass := MergePasses(t.pass, patch.passes, multiplier, thresholds),
            guide := G.Save(t.guide, patch.quests)), Plain)
  }

  // ----- Guide quest, attendance, achievements -----

  function LimitOf(limits: (real, real, real), sub: int): real {
    if sub == 1 then limits.0 else if sub == 2 then limits.1 else limits.2
  }

  function AdvanceFollowerQuest(rules: Rules, t: Tables, current: int, sub: int, value: Number,
                                limits: (real, real, real), rewards: seq<RewardGrant>, nextId: Option<int>, now: int): Outcome
  {
    if !(1 <= sub <= 3) || !ValidAmount(value) then Err(InvalidAmount)
    else
      var r := G.Claim(t.guide, current, sub, value.value, LimitOf(limits, sub), nextId);
      var (holdings, told) :- if r.earned then GrantAll(rules, t.holdings, rewards, now) else Ok((t.holdings, []));
      var complete := G.CompleteId(r.guide);
      Ok(Applied(t.(guide := r.guide, holdings := holdings),
                 QuestReply(r.shown, complete, r.next, told), QuestReply(r.shown, complete, false, [])))
  }

  function MarkInfinite(t: Tables): Outcome {
    var guide := G.SetInfinite(t.guide);
    Told(t.(guide := guide), StageShown(MaxOr(t.guide.stages.Keys, 1), G.CompleteId(guide)))
  }

  function AttendDay(t: Tables, visit: A.Visit): Outcome {
    var (book, status) :- A.Attend(t.book, visit);
    Told(t.(book := book), AttendReply(status, book.count, book.maximum))
  }

  function LevelsClaimed(claims: set<(int, int)>, id: int): set<(int, int)> {
    set c | c in claims && c.0 == id
  }

  function MissionsClaimed(claims: set<(int, int, int)>, day: int, id: int): set<(int, int, int)> {
    set c | c in claims && c.0 == day && c.1 == id
  }

  /** The stored quantity after a claim request reported one; attendance counts for itself. */
  function Reported(counters: map<int, real>, id: int, quantity: real, attended: Option<int>): map<int, real> {
    counters[id := if attended.Some? && id == ATTENDANCE_ACHIEVEMENT then attended.value as real
                   else if id in counters then MaxReal(counters[id], quantity) else quantity]
  }

  function GrantOptional(rules: Rules, h: Holdings, reward: Option<RewardGrant>, now: int)
    : Result<(Holdings, seq<RewardGrant>), StoreError>
  {
    GrantAll(rules, h, if reward.Some? then [reward.value] else [], now)
  }

  function ClaimGameReward(rules: Rules, t: Tables, kind: GameKind, id: int, level: int, quantity: Number, limit: Number,
                           localDay: int, reward: Option<RewardGrant>, now: int): Outcome
  {
    if !ValidAmount(quantity) || !ValidAmount(limit) then Err(InvalidAmount)
    else
      match kind
      case Achievement =>
        var counters := Reported(t.achievements, id, quantity.value, Some(t.book.count));
        if counters[id] < limit.value then Err(Locked)
        else if level != Saturate32(|LevelsClaimed(t.achievementClaims, id)| + 1) then Err(AlreadyClaimed)
        else if (id, level) in t.achievementClaims then Err(AlreadyClaimed)
        else
          var (holdings, told) :- GrantOptional(rules, t.holdings, reward, now);
          Ok(Applied(t.(achievements := counters, achievementClaims := t.achievementClaims + {(id, level)}, holdings := holdings),
                     GameReply(Saturate32(level + 1), told), GameReply(Saturate32(level + 1), [])))
      case DailyMission =>
        var counters := Reported(t.missions, id, quantity.value, None);
        if counters[id] < limit.value then Err(Locked)
        else if level != Saturate32(|MissionsClaimed(t.missionClaims, localDay, id)| + 1) then Err(AlreadyClaimed)
        else if (localDay, id, level) in t.missionClaims then Err(AlreadyClaimed)
        else
          var (holdings, told) :- GrantOptional(rules, t.holdings, reward, now);
          Ok(Applied(t.(missions := counters, missionClaims := t.missionClaims + {(localDay, id, level)}, holdings := holdings),
                     GameReply(Saturate32(level + 1), told), GameReply(Saturate32(level + 1), [])))
      case OtherGame => Err(UnsupportedReward)
  }

  // ----- Chapter three -----

  /** `restore_ch3_energy`; the schema refuses negative energy and a negative cap. */
  function Restored(e: E.Energy, now: int, cap: int): Result<E.Energy, StoreError> {
    var after := E.Restore(e, now, cap);
    if after.amount < 0 || cap < 0 then Err(SqlConstraint) else Ok(after)
  }

  function PayEnergy(h: Holdings, now: int, cap: int, cost: nat): Result<Holdings, StoreError> {
    var restored :- Restored(h.energy, now, cap);
    if restored.amount < cost then Err(InsufficientEnergy)
    else Ok(h.(energy := restored.(amount := restored.amount - cost)))
  }

  function SettleCh3Stage(rules: Rules, t: Tables, stage: C.StageDef, next: Option<C.StageDef>, star: int, score: int,
                          cost: nat, cap: int, rewards: seq<RewardGrant>, now: int): Outcome
  {
    if !C.Unlocked(t.stages, stage.id) then Err(Locked)
    else
      var paid :- PayEnergy(t.holdings, now, cap, cost);
      var stages :- C.Settle(t.stages, stage, next, star, score);
      var (holdings, told) :- GrantAll(rules, paid, if C.Clears(stage, star) then rewards else [], now);
      Ok(Applied(t.(stages := stages, holdings := holdings),
                 StageReply(stage.id, paid.energy, told), StageReply(stage.id, paid.energy, [])))
  }

  function GrantRolls(rules: Rules, h: Holdings, rolls: seq<Roll>, now: int): Result<(Holdings, seq<Roll>), StoreError>
    decreases |rolls|
  {
    if rolls == [] then Ok((h, []))
    else
      var (next, told) :- GrantAll(rules, h, rolls[0].rewards, now);
      var (after, rest) :- GrantRolls(rules, next, rolls[1..], now);
      Ok((after, [Roll(rolls[0].roll, told)] + rest))
  }

  function SettleCh3Stream(rules: Rules, t: Tables, stageId: int, count: int, costEach: nat, cap: int,
                           rolls: seq<Roll>, now: int): Outcome
  {
    if !(1 <= count <= 5) then Err(InvalidStage)
    else if !C.Completed(t.stages, stageId) then Err(Locked)
    else
      var paid :- PayEnergy(t.holdings, now, cap, MinInt(costEach * count, I32_MAX));
      var (holdings, told) :- GrantRolls(rules, paid, rolls, now);
      Ok(Applied(t.(holdings := holdings), StreamReply(stageId, paid.energy, told), StreamReply(stageId, paid.energy, [])))
  }

  function ClaimChapterReward(rules: Rules, t: Tables, chapter: int, num: int, goal: int, rewards: seq<RewardGrant>,
                              cap: int, now: int): Outcome
  {
    var stages :- C.ClaimChapter(t.stages, chapter, num, goal);
    var (holdings, told) :- GrantAll(rules, t.holdings, rewards, now);
    var energy :- Restored(holdings.energy, now, cap);
    Ok(Applied(t.(stages := stages, holdings := holdings.(energy := energy)),
               ChapterReply(energy, told), ChapterReply(energy, [])))
  }

  function RestoreCh3(t: Tables, cap: int, now: int): Outcome {
    var energy :- Restored(t.holdings.energy, now, cap);
    Told(t.(holdings := t.holdings.(energy := energy)), EnergyReply(energy))
  }

  // ----- Passes -----

  function FillPassPoints(t: Tables, season: int, version: int, price: Number, added: int, steps: P.Steps): Outcome {
    var positive := price.PosInfinity? || (price.Finite? && price.value > 0.0);
    var holdings :- if positive then Pay(t.holdings, Chocolate, price) else Ok(t.holdings);
    var pass :- P.Fill(t.pass, season, version, added, steps);
    var after := t.(holdings := holdings, pass := pass);
    Told(after, FillReply(season, P.PointsOf(pass, season, version), version, Chocolates(after), Candies(after)))
  }

  function ClaimPassReward(rules: Rules, t: Tables, key: P.ClaimKey, required: int, rewards: seq<RewardGrant>,
                           paidSteps: int, ticket: int, now: int): Outcome
  {
    var r :- P.Claim(t.pass, key, required, paidSteps, ticket);
    var (granted, told) :- if r.inserted then GrantAll(rules, t.holdings, rewards, now) else Ok((t.holdings, []));
    var holdings := if r.ticketEarned then granted.(tickets := granted.tickets + {ticket}) else granted;
    Ok(Applied(t.(pass := r.pass, holdings := holdings), PassReply(key, now, told), PassReply(key, now, [])))
  }

  function ActivateSeasons(t: Tables, seasons: seq<int>): Outcome {
    var pass := P.Activate(t.pass, seasons);
    Told(t.(pass := pass), PremiumReply(pass.premium))
  }

  // ----- Purchases and grants -----

  function BuyRewards(rules: Rules, t: Tables, purchaseId: string, payment: Option<(CurrencyKind, Number)>,
                      rewards: seq<RewardGrant>, now: int): Outcome
  {
    if purchaseId in t.purchases then Told(t, PurchaseReply(Chocolates(t), Candies(t), []))
    else
      var paid :- if payment.Some? then Pay(t.holdings, payment.value.0, payment.value.1) else Ok(t.holdings);
      var (holdings, told) :- GrantAll(rules, paid, rewards, now);
      var after := t.(holdings := holdings, purchases := t.purchases + {purchaseId});
      Ok(Applied(after, PurchaseReply(Chocolates(after), Candies(after), told),
                 PurchaseReply(Chocolates(after), Candies(after), [])))
  }

  function LevelOf(h: Holdings, content: Content): int {
    if content in h.levels then h.levels[content] else 0
  }

  /** The price of the next level; growing prices come from the open price rule. */
  function NextPrice(rules: Rules, content: Content, level: int, basePrice: real, increment: real): Number {
    if increment > 0.0
    then rules.stepPrice(basePrice, increment, MaxInt(level + 1 - (if content.kind == Skill then 2 else 1), 0))
    else Finite(basePrice)
  }

  function BuyContent(rules: Rules, t: Tables, content: Content, area: int, currency: CurrencyKind,
                      basePrice: Number, increment: Number, maxLevel: int): Outcome
  {
    if !ValidAmount(basePrice) || !ValidAmount(increment) then Err(InvalidAmount)
    else
      var level := LevelOf(t.holdings, content);
      if level >= MaxInt(maxLevel, 1) then Told(t, ContentReply(Chocolates(t), Candies(t), content, level))
      else
        var paid :- Pay(t.holdings, currency, NextPrice(rules, content, level, basePrice.value, increment.value));
        var next := MaxInt(Saturate64(level + 1), 1);
        var after := t.(holdings := paid.(owned := InsertNew(paid.owned, content, area),
                                          levels := paid.levels[content := next]));
        Told(after, ContentReply(Chocolates(after), Candies(after), content, next))
  }

  function GrantOnce(t: Tables, kind: CurrencyKind, amount: Number, transactionId: string): Outcome {
    if !ValidAmount(amount) then Err(InvalidAmount)
    else if transactionId in t.rewardTransactions then Told(t, FreshReply(false))
    else Told(t.(rewardTransactions := t.rewardTransactions + {transactionId},
                 holdings := t.holdings.(wallet := Credit(t.holdings.wallet, kind, amount.value))), FreshReply(true))
  }

  function WatchedAd(rules: Rules, t: Tables, rewards: seq<RewardGrant>, now: int): Outcome {
    var (holdings, told) :- GrantAll(rules, t.holdings, rewards, now);
    Ok(Applied(t.(holdings := holdings), AdReply(told), AdReply([])))
  }

  /** Rewards of follower levels that were not claimed yet. */
  function GrantLevels(rules: Rules, h: Holdings, claims: set<(int, int)>, follower: int, profileLevel: int,
                       requested: seq<ProfileItem>, now: int)
    : Result<(Holdings, set<(int, int)>, seq<ProfileItem>), StoreError>
    decreases |requested|
  {
    if requested == [] then Ok((h, claims, []))
    else
      var level := requested[0].level;
      if level <= 0 || level > profileLevel then Err(Locked)
      else if (follower, level) in claims then GrantLevels(rules, h, claims, follower, profileLevel, requested[1..], now)
      else
        var (next, told) :- GrantAll(rules, h, requested[0].rewards, now);
        var (after, claimed, rest) :-
          GrantLevels(rules, next, claims + {(follower, level)}, follower, profileLevel, requested[1..], now);
        Ok((after, claimed, [ProfileItem(level, told)] + rest))
  }

  function ClaimProfileRewards(rules: Rules, t: Tables, follower: int, profileLevel: int,
                               requested: seq<ProfileItem>, now: int): Outcome
  {
    var (holdings, claims, told) :-
      GrantLevels(rules, t.holdings, t.affectionClaims, follower, profileLevel, requested, now);
    Ok(Applied(t.(holdings := holdings, affectionClaims := claims), ProfileReply(told), ProfileReply([])))
  }

  /** Encores of owned music that show up or whose cooldown is over. */
  function TakeEncores(encores: map<int, Encore>, owned: map<Content, int>, items: seq<EncoreItem>, now: int)
    : (map<int, Encore>, seq<(int, int)>, seq<int>)
    decreases |items|
  {
    if items == [] then (encores, [], [])
    else
      var item := items[0];
      var cooling := item.music in encores && !encores[item.music].appears && encores[item.music].readyAt > now;
      if Content(Music, item.music) !in owned || cooling then
        var (after, gifts, rejected) := TakeEncores(encores, owned, items[1..], now);
        (after, gifts, [Saturate32(item.music)] + rejected)
      else
        var (after, gifts, rejected) := TakeEncores(encores[item.music := Encore(false, item.readyAt)], owned, items[1..], now);
        (after, [(Saturate32(item.music), MaxInt(item.gift, 0))] + gifts, rejected)
  }

  function GiftTotal(gifts: seq<(int, int)>): int {
    if gifts == [] then 0 else gifts[0].1 + GiftTotal(gifts[1..])
  }

  /** The whole reply, gifts included, is kept for retries. */
  function ClaimEncoreRewards(t: Tables, items: seq<EncoreItem>, now: int): Outcome {
    var (encores, gifts, rejected) := TakeEncores(t.encores, t.holdings.owned, items, now);
    var candy := Saturate64(GiftTotal(gifts));
    var holdings := if candy > 0
      then t.holdings.(wallet := Credit(t.holdings.wallet, Candy, candy as real)) else t.holdings;
    Told(t.(encores := encores, holdings := holdings), EncoreReply(gifts, rejected))
  }

  // ----- Packages and gifts -----

  /** The content of a package is owned at level 1 at least; what is owned already keeps its area and level. */
  function AddPackage(h: Holdings, contents: seq<(Content, int)>): Holdings
    decreases |contents|
  {
    if contents == [] then h
    else
      var (content, area) := contents[0];
      AddPackage(h.(owned := InsertNew(h.owned, content, area),
                    levels := h.levels[content := MaxInt(LevelOf(h, content), 1)]), contents[1..])
  }

  function GrantPackageContents(t: Tables, contents: seq<(Content, int)>, musicIds: seq<int>): Outcome {
    var after := t.(holdings := AddPackage(t.holdings, contents));
    Told(after, PackageReply(Chocolates(after), Candies(after), musicIds))
  }

  function GiftsHeld(h: Holdings, gift: int): int {
    if gift in h.gifts then h.gifts[gift] else 0
  }

  /** `give_follower_gift`, without the experience the follower gains. */
  function GiveFollowerGift(t: Tables, gift: int, used: int): Outcome {
    var held := GiftsHeld(t.holdings, gift);
    if used <= 0 then Err(InvalidAmount)
    else if held < used then Err(InsufficientBalance)
    else Told(t.(holdings := t.holdings.(gifts := t.holdings.gifts[gift := held - used])), GiftReply(gift, held - used))
  }

  // ----- Mail and events -----

  function ClaimPost(rules: Rules, t: Tables, post: int, now: int): Outcome {
    var (holdings, mail, grant) :- Mailbox.Claim(rules, t.holdings, t.mail, post, now);
    Ok(Applied(t.(holdings := holdings, mail := mail), MailReply(Some(grant)), MailReply(None)))
  }

  /** `queue_mail` at a given post, or generated mail at the next free one. */
  function SendMail(t: Tables, reward: Reward, atPost: Option<int>): Outcome {
    var post := atPost.GetOr(NextPost(t.mail));
    var (mail, isNew) :- Queue(t.holdings.owned, t.mail, post, reward);
    if atPost.Some? then Told(t.(mail := mail), FreshReply(isNew))
    else if !isNew then Err(IdempotencyConflict)
    else Told(t.(mail := mail), PostReply(post))
  }

  function ClaimEventReward(rules: Rules, t: Tables, rowId: int, reward: RewardGrant, now: int): Outcome {
    if ("daily_reward", rowId) in t.events then Err(AlreadyClaimed)
    else
      var (holdings, told) :- GrantAll(rules, t.holdings, [reward], now);
      var after := t.(holdings := holdings, events := t.events + {("daily_reward", rowId)});
      var reply := EventReply(told, Chocolates(after), Candies(after),
                              Balance(holdings.wallet, Ch1Like), Balance(holdings.wallet, Fans));
      Ok(Applied(after, reply, reply.(eventEarned := [])))
  }

  predicate SamSeckEligible(h: Holdings, eventId: int) {
    if eventId == 1 then (if Content(Character, 1) in h.levels then h.levels[Content(Character, 1)] else 1) >= 200
    else if eventId == 2 then |OwnedOf(h.owned, Music)| >= 3
    else if eventId == 3 then |OwnedOf(h.owned, Follower)| >= 1
    else false
  }

  function ClaimSamSeckStep(t: Tables, eventId: int, post: int, reward: RewardGrant): Outcome {
    if !SamSeckEligible(t.holdings, eventId) then Err(Locked)
    else
      var key := ("samseck", eventId);
      var mail :- if key in t.events then Ok(t.mail) else QueueGrant(t.mail, post, reward);
      var events := t.events + {key};
      Told(t.(mail := mail, events := events), SamSeckReply(MaxOr(set e | e in events && e.0 == "samseck" :: e.1, 0)))
  }

  function SelectPassSeason(t: Tables, clock: R.DeviceClock, season: int): Outcome {
    match R.Rotate(t.rotation, R.SelectSeason(clock, season))
    case Err(_) => Err(UnsupportedReward)
    case Ok(rotation) => Told(t.(rotation := rotation), Plain)
  }

  /** `begin_login` anchors the pass rotation of a slot that has no anchor yet. */
  function AnchorAtLogin(t: Tables, clock: R.DeviceClock): Tables {
    t.(rotation := R.Rotate(t.rotation, R.AnchorAtLogin(clock)).value)
  }

  // ----- All commands -----

  function Apply(rules: Rules, t: Tables, call: SlotCall, now: int): Outcome {
    match call
    case UserSave(patch, multiplier, thresholds) => MergeUserSave(t, patch, multiplier, thresholds)
    case AdvanceQuest(current, sub, value, limits, rewards, nextId) =>
      AdvanceFollowerQuest(rules, t, current, sub, value, limits, rewards, nextId, now)
    case SetInfinite => MarkInfinite(t)
    case Attend(visit) => AttendDay(t, visit)
    case ClaimGame(kind, id, level, quantity, limit, localDay, reward) =>
      ClaimGameReward(rules, t, kind, id, level, quantity, limit, localDay, reward, now)
    case SettleStage(stage, next, star, score, cost, cap, drops) =>
      SettleCh3Stage(rules, t, stage, next, star, score, cost, cap, drops, now)
    case SettleStream(stageId, count, costEach, cap, rolls) =>
      SettleCh3Stream(rules, t, stageId, count, costEach, cap, rolls, now)
    case ClaimChapter(chapter, num, goal, rewards, cap) =>
      ClaimChapterReward(rules, t, chapter, num, goal, rewards, cap, now)
    case FillPass(season, version, price, added, steps) => FillPassPoints(t, season, version, price, added, steps)
    case ClaimPass(key, required, rewards, paidSteps, ticket) =>
      ClaimPassReward(rules, t, key, required, rewards, paidSteps, ticket, now)
    case ActivatePasses(seasons) => ActivateSeasons(t, seasons)
    case PurchaseRewards(purchaseId, payment, bought) => BuyRewards(rules, t, purchaseId, payment, bought, now)
    case PurchaseContent(content, area, currency, basePrice, increment, maxLevel) =>
      BuyContent(rules, t, content, area, currency, basePrice, increment, maxLevel)
    case ClaimMail(post) => ClaimPost(rules, t, post, now)
    case QueueMail(sent, atPost) => SendMail(t, sent, atPost)
    case DeleteMail(post, all) => Told(t.(mail := Delete(t.mail, post, all)), PostReply(post))
    case ClaimEncores(items) => ClaimEncoreRewards(t, items, now)
    case ClaimProfile(follower, profileLevel, requested) =>
      ClaimProfileRewards(rules, t, follower, profileLevel, requested, now)
    case WatchAd(rewards) => WatchedAd(rules, t, rewards, now)
    case ClaimEvent(rowId, reward) => ClaimEventReward(rules, t, rowId, reward, now)
    case ClaimSamSeck(eventId, post, reward) => ClaimSamSeckStep(t, eventId, post, reward)
    case SelectSeason(clock, season) => SelectPassSeason(t, clock, season)
    case SetFlag(flag, value) => Told(t.(flags := t.flags[flag := value]), FlagReply(value))
    case GrantCurrency(kind, amount, transactionId) => GrantOnce(t, kind, amount, transactionId)
    case RestoreEnergy(cap) => RestoreCh3(t, cap, now)
    case GrantPackage(contents, musicIds) => GrantPackageContents(t, contents, musicIds)
    case GiveGift(gift, used) => GiveFollowerGift(t, gift, used)
    case Untracked => Told(t, Plain)
    case Aborted(cause) => Err(cause)
  }

  /** Commands on mail, encores and one-time events. */
  predicate Collects(call: SlotCall) {
    || call.ClaimMail? || call.QueueMail? || call.DeleteMail? || call.ClaimEncores? || call.ClaimProfile?
    || call.ClaimEvent? || call.ClaimSamSeck?
  }

  /** Commands on passes, purchases, mail and one-time rewards. */
  predicate Trades(call: SlotCall) {
    || Collects(call) || call.FillPass? || call.ClaimPass? || call.ActivatePasses? || call.PurchaseRewards?
    || call.PurchaseContent? || call.WatchAd? || call.GrantCurrency? || call.GrantPackage? || call.GiveGift?
  }

  /** Arguments that are refused before the transaction begins. */
  function Refused(call: SlotCall): Option<StoreError> {
    match call
    case AdvanceQuest(_, sub, value, _, _, _) => if !(1 <= sub <= 3) || !ValidAmount(value) then Some(InvalidAmount) else None
    case SettleStream(_, count, _, _, _) => if !(1 <= count <= 5) then Some(InvalidStage) else None
    case GrantCurrency(_, amount, _) => if !ValidAmount(amount) then Some(InvalidAmount) else None
    case GiveGift(_, used) => if used <= 0 then Some(InvalidAmount) else None
    case _ => None
  }
}
