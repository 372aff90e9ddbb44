/**
 The transaction of one slot, in the source's own form: rows that the commands of
 crates/persistence-sqlite/src/lib.rs update in place, with loops over the lists they are given.
 Every method leaves the rows its specification function says; after an error the rows are
 worthless, because the transaction is rolled back.
 */
module SlotTransaction {
  import opened Wrappers
  import opened Text
  import opened SaveDomain
  import opened SlotRewards
  import opened ClientSave
  import opened Mailbox
  import opened SlotTables
  import E = Ch3Energy
  import G = GuideChain
  import A = AttendanceBook
  import P = PassLedger
  import C = Ch3Stages
  import R = PassRotation

  type Granted = Result<(Holdings, seq<RewardGrant>), StoreError>

  /** The result of a list of rewards when some were granted before it. */
  function Prepend(before: seq<RewardGrant>, rest: Granted): Granted {
    match rest
    case Ok((h, told)) => Ok((h, before + told))
    case Err(e) => Err(e)
  }

  lemma PrependNothing(rest: Granted)
    ensures Prepend([], rest) == rest
  {
    if rest.Ok? {
      assert [] + rest.value.1 == rest.value.1;
    }
  }

  /** Granting the first reward of a list moves it from the rest to what was granted before. */
  lemma PrependOne(rules: Rules, h: Holdings, rewards: seq<RewardGrant>, now: int, before: seq<RewardGrant>)
    requires rewards != [] && Grant(rules, h, rewards[0], now).Ok?
    ensures var (next, told) := Grant(rules, h, rewards[0], now).value;
      Prepend(before, GrantAll(rules, h, rewards, now))
        == Prepend(if told then before + [rewards[0]] else before, GrantAll(rules, next, rewards[1..], now))
  {
    hide Grant;
    var (next, told) := Grant(rules, h, rewards[0], now).value;
    var rest := GrantAll(rules, next, rewards[1..], now);
    if rest.Ok? && told {
      assert before + ([rewards[0]] + rest.value.1) == (before + [rewards[0]]) + rest.value.1;
    }
  }

  /** What a command answers: its reply, and the reply kept for retries. */
  type Answer = Result<(Reply, Reply), StoreError>

  /** The answer and the rows are those of the specified outcome. */
  ghost predicate Follows(o: Outcome, r: Answer, rows: Tables) {
    match o
    case Ok(a) => r == Ok((a.reply, a.replay)) && rows == a.tables
    case Err(e) => r == Err(e)
  }

  class Transaction {
    var holdings: Holdings
    var flags: Flags
    var encores: map<int, Encore>
    var achievements: map<int, real>
    var achievementClaims: set<(int, int)>
    var missions: map<int, real>
    var missionClaims: set<(int, int, int)>
    var book: A.Book
    var guide: G.Guide
    var pass: P.Pass
    var rotation: R.Rotation
    var stages: C.Stages
    var mail: Mail
    var purchases: set<string>
    var rewardTransactions: set<string>
    var events: set<(string, int)>
    var affectionClaims: set<(int, int)>

    function Rows(): Tables
      reads this
    {
      Tables(holdings, flags, encores, achievements, achievementClaims, missions, missionClaims, book, guide, pass,
             rotation, stages, mail, purchases, rewardTransactions, events, affectionClaims)
    }

    constructor (t: Tables)
      ensures Rows() == t
    {
      holdings, flags, encores, achievements := t.holdings, t.flags, t.encores, t.achievements;
      achievementClaims, missions, missionClaims, book := t.achievementClaims, t.missions, t.missionClaims, t.book;
      guide, pass, rotation, stages, mail := t.guide, t.pass, t.rotation, t.stages, t.mail;
      purchases, rewardTransactions, events := t.purchases, t.rewardTransactions, t.events;
      affectionClaims := t.affectionClaims;
    }

    // ----- Rewards and payments -----

    method AddToBalance(kind: CurrencyKind, amount: real)
      modifies `holdings
      ensures holdings == old(holdings).(wallet := Credit(old(holdings.wallet), kind, amount))
    {
      holdings := holdings.(wallet := SetBalance(holdings.wallet, kind, Balance(holdings.wallet, kind) + amount));
    }

    method DeductCurrency(kind: CurrencyKind, amount: Number) returns (r: Result<(), StoreError>)
      modifies `holdings
      ensures match Pay(old(holdings), kind, amount)
        case Ok(after) => r == Ok(()) && holdings == after
        case Err(e) => r == Err(e)
    {
      if !ValidAmount(amount) {
        return Err(InvalidAmount);
      }
      if amount.value == 0.0 {
        return Ok(());
      }
      var held := Balance(holdings.wallet, kind);
      if held < amount.value {
        return Err(InsufficientBalance);
      }
      holdings := holdings.(wallet := SetBalance(holdings.wallet, kind, held - amount.value));
      return Ok(());
    }

    /** `apply_reward_grant`. */
    method ApplyRewardGrant(rules: Rules, reward: RewardGrant, now: int) returns (r: Result<bool, StoreError>)
      modifies `holdings
      ensures match Grant(rules, old(holdings), reward, now)
        case Ok((after, told)) => r == Ok(told) && holdings == after
        case Err(e) => r == Err(e)
    {
      if !ValidAmount(reward.amount) {
        return Err(InvalidAmount);
      }
      var amount := reward.amount.value;
      if reward.rewardType == 1 {
        if reward.rewardId == 8 || reward.rewardId == 9 {
          var gain := rules.fanGain(OwnedOf(holdings.owned, Costume), reward.rewardId - 7, amount);
          if gain.Err? {
            return Err(gain.error);
          }
          if reward.rewardId == 8 {
            AddToBalance(Fans, gain.value as real);
          }
          return Ok(true);
        }
        if reward.rewardId == 11 {
          var e := holdings.energy;
          var cookies := RoundCount(amount);
          holdings := holdings.(energy := E.Energy(if e.cap <= e.amount + cookies then e.cap else e.amount + cookies, e.cap, now));
          return Ok(true);
        }
        var kind := CurrencyOf(reward.rewardId);
        if kind.None? {
          return Err(UnsupportedReward);
        }
        AddToBalance(kind.value, amount);
        return Ok(true);
      }
      if reward.rewardType == 6 && reward.rewardId == 2 {
        var start := if holdings.feverEnd.Some? && holdings.feverEnd.value > now then holdings.feverEnd.value else now;
        var seconds := RoundCount(amount);
        holdings := holdings.(feverEnd := Some(Saturate64(start + if seconds < 1 then 1 else seconds)));
        InsertContent(Content(Buff, 2), 0);
        return Ok(true);
      }
      if reward.rewardType == 10 {
        var isNew := reward.rewardId !in holdings.tickets;
        holdings := holdings.(tickets := holdings.tickets + {reward.rewardId});
        return Ok(isNew);
      }
      if reward.rewardType == 11 {
        var stored := if reward.rewardId in holdings.gifts then holdings.gifts[reward.rewardId] else 0;
        var total := stored + RoundCount(amount);
        if total > I64_MAX {
          return Err(SqlConstraint);
        }
        holdings := holdings.(gifts := holdings.gifts[reward.rewardId := total]);
        return Ok(true);
      }
      var content := ContentOfType(reward.rewardType);
      if content.None? {
        return Err(UnsupportedReward);
      }
      if Content(content.value, reward.rewardId) in holdings.owned {
        return Ok(false);
      }
      InsertContent(Content(content.value, reward.rewardId), 0);
      return Ok(true);
    }

    /** The two `INSERT OR IGNORE` statements that make the player own content at level 1. */
    method InsertContent(content: Content, area: int)
      modifies `holdings
      ensures holdings == Acquire(old(holdings), content, area)
    {
      if content !in holdings.owned {
        holdings := holdings.(owned := holdings.owned[content := area]);
      }
      if content !in holdings.levels {
        holdings := holdings.(levels := holdings.levels[content := 1]);
      }
    }

    /** The loop every command runs over its rewards. */
    method ApplyRewardGrants(rules: Rules, rewards: seq<RewardGrant>, now: int)
      returns (r: Result<seq<RewardGrant>, StoreError>)
      modifies `holdings
      ensures match GrantAll(rules, old(holdings), rewards, now)
        case Ok((after, told)) => r == Ok(told) && holdings == after
        case Err(e) => r == Err(e)
    {
      hide Grant, GrantAll;
      var applied := [];
      PrependNothing(GrantAll(rules, holdings, rewards, now));
      var i := 0;
      while i < |rewards|
        invariant i <= |rewards|
        invariant GrantAll(rules, old(holdings), rewards, now) == Prepend(applied, GrantAll(rules, holdings, rewards[i..], now))
      {
        ghost var before := holdings;
        var told := ApplyRewardGrant(rules, rewards[i], now);
        assert rewards[i..][1..] == rewards[i + 1..];
        if told.Err? {
          FirstFails(rules, before, rewards[i..], now);
          return Err(told.error);
        }
        PrependOne(rules, before, rewards[i..], now, applied);
        if told.value {
          applied := applied + [rewards[i]];
        }
        i := i + 1;
      }
      NothingToGrant(rules, holdings, now);
      assert rewards[i..] == [] && applied + [] == applied;
      return Ok(applied);
    }

    // ----- Client snapshots -----

    method MarkSavedAreas(areas: seq<SavedArea>) returns (r: Result<(), StoreError>)
      modifies `flags
      ensures match MarkAreas(old(flags), areas)
        case Ok(after) => r == Ok(()) && flags == after
        case Err(e) => r == Err(e)
    {
      hide ParseGp;
      var i := 0;
      assert areas[0..] == areas;
      while i < |areas|
        invariant i <= |areas|
        invariant MarkAreas(old(flags), areas) == MarkAreas(flags, areas[i..])
      {
        var area := areas[i];
        assert areas[i..][1..] == areas[i + 1..];
        if area.area == 1 || area.area == 2 {
          var gp := ParseGp(area.gp1);
          if gp.Err? {
            return Err(gp.error);
          }
          if gp.value.Some? && FlagOf(area.area) !in flags {
            flags := flags[FlagOf(area.area) := 1];
          }
        }
        i := i + 1;
      }
      return Ok(());
    }

    method SetAmount(kind: CurrencyKind, amount: real)
      modifies `holdings
      ensures holdings == old(holdings).(wallet := SetBalance(old(holdings.wallet), kind, amount))
    {
      holdings := holdings.(wallet := SetBalance(holdings.wallet, kind, amount));
    }

    method RaiseSavedFans(fans: Option<int>)
      modifies `holdings
      ensures holdings == old(holdings).(wallet := RaiseFans(old(holdings.wallet), fans))
    {
      if fans.Some? && fans.value >= 0 {
        var held := Balance(holdings.wallet, Fans);
        SetAmount(Fans, if held >= fans.value as real then held else fans.value as real);
      }
    }

    method MergeSavedCore(core: Option<SavedCore>)
      modifies `holdings
      ensures holdings == old(holdings).(wallet := MergeCore(old(holdings.wallet), flags, core))
    {
      if core.Some? {
        if GP1_AREA1 !in flags && core.value.ch1Like.Some? && ValidAmount(core.value.ch1Like.value) {
          SetAmount(Ch1Like, core.value.ch1Like.value.value);
        }
        RaiseSavedFans(core.value.fans);
      }
    }

    method MergeSavedArea(area: SavedArea) returns (r: Result<(), StoreError>)
      modifies `holdings
      ensures match MergeArea(old(holdings.wallet), flags, area)
        case Ok(wallet) => r == Ok(()) && holdings == old(holdings).(wallet := wallet)
        case Err(e) => r == Err(e)
    {
      hide ParseGp;
      if area.area != 1 && area.area != 2 {
        return Ok(());
      }
      var live := ParseGp(area.gp1);
      if live.Err? {
        return Err(live.error);
      }
      var kind := if area.area == 2 then Ch2Like else Ch1Like;
      if live.value.Some? {
        SetAmount(kind, live.value.value);
      } else if FlagOf(area.area) !in flags && area.like.Some? && ValidAmount(area.like.value) {
        SetAmount(kind, area.like.value.value);
      }
      if area.area == 2 {
        var note := ParseGp(area.gp2);
        if note.Err? {
          return Err(note.error);
        }
        if note.value.Some? {
          SetAmount(Ch2Note, note.value.value);
        }
      }
      RaiseSavedFans(area.fans);
      return Ok(());
    }

    method MergeSavedAreas(areas: seq<SavedArea>) returns (r: Result<(), StoreError>)
      modifies `holdings
      ensures match MergeAreas(old(holdings.wallet), flags, areas)
        case Ok(wallet) => r == Ok(()) && holdings == old(holdings).(wallet := wallet)
        case Err(e) => r == Err(e)
    {
      hide MergeArea;
      var i := 0;
      assert areas[0..] == areas;
      while i < |areas|
        invariant i <= |areas|
        invariant holdings == old(holdings).(wallet := holdings.wallet)
        invariant MergeAreas(old(holdings.wallet), flags, areas) == MergeAreas(holdings.wallet, flags, areas[i..])
      {
        assert areas[i..][1..] == areas[i + 1..];
        var merged := MergeSavedArea(areas[i]);
        if merged.Err? {
          return merged;
        }
        i := i + 1;
      }
      return Ok(());
    }

    method MergeSavedContents(contents: seq<SavedContent>)
      modifies `holdings
      ensures holdings == MergeContents(old(holdings), contents)
    {
      var i := 0;
      assert contents[0..] == contents;
      while i < |contents|
        invariant i <= |contents|
        invariant MergeContents(old(holdings), contents) == MergeContents(holdings, contents[i..])
      {
        var saved := contents[i];
        assert contents[i..][1..] == contents[i + 1..];
        var levelled := saved.level.Some? && saved.level.value > 0;
        if saved.content.id > 0 && (levelled || saved.content in holdings.owned) {
          if saved.content !in holdings.owned {
            holdings := holdings.(owned := holdings.owned[saved.content := saved.area]);
          }
          if levelled {
            var level := saved.level.value;
            if saved.content in holdings.levels && holdings.levels[saved.content] > level {
              level := holdings.levels[saved.content];
            }
            holdings := holdings.(levels := holdings.levels[saved.content := level]);
          }
        }
        i := i + 1;
      }
    }

    method MergeSavedMusics(musics: seq<SavedMusic>)
      modifies `encores
      ensures encores == MergeMusics(old(encores), holdings.owned, musics)
    {
      var i := 0;
      assert musics[0..] == musics;
      while i < |musics|
        invariant i <= |musics|
        invariant MergeMusics(old(encores), holdings.owned, musics) == MergeMusics(encores, holdings.owned, musics[i..])
      {
        var saved := musics[i];
        assert musics[i..][1..] == musics[i + 1..];
        if saved.id > 0 && Content(Music, saved.id) in holdings.owned {
          var readyAt := if saved.id in encores then encores[saved.id].readyAt else 0;
          encores := encores[saved.id := Encore(saved.appears, readyAt)];
        }
        i := i + 1;
      }
    }

    method MergeSavedAchievements(saves: seq<SavedCounter>)
      modifies `achievements
      ensures achievements == MergeCounters(old(achievements), saves, Some(book.count))
    {
      var i := 0;
      assert saves[0..] == saves;
      while i < |saves|
        invariant i <= |saves|
        invariant MergeCounters(old(achievements), saves, Some(book.count))
               == MergeCounters(achievements, saves[i..], Some(book.count))
      {
        var saved := saves[i];
        assert saves[i..][1..] == saves[i + 1..];
        if saved.id > 0 && ValidAmount(saved.quantity) {
          if saved.id == ATTENDANCE_ACHIEVEMENT {
            achievements := achievements[saved.id := book.count as real];
          } else if saved.id !in achievements || achievements[saved.id] < saved.quantity.value {
            achievements := achievements[saved.id := saved.quantity.value];
          } else {
            assert achievements == achievements[saved.id := achievements[saved.id]];
          }
        }
        i := i + 1;
      }
    }

    method MergeSavedMissions(saves: seq<SavedCounter>)
      modifies `missions
      ensures missions == MergeCounters(old(missions), saves, None)
    {
      var i := 0;
      assert saves[0..] == saves;
      while i < |saves|
        invariant i <= |saves|
        invariant MergeCounters(old(missions), saves, None) == MergeCounters(missions, saves[i..], None)
      {
        var saved := saves[i];
        assert saves[i..][1..] == saves[i + 1..];
        if saved.id > 0 && ValidAmount(saved.quantity) {
          if saved.id !in missions || missions[saved.id] < saved.quantity.value {
            missions := missions[saved.id := saved.quantity.value];
          } else {
            assert missions == missions[saved.id := missions[saved.id]];
          }
        }
        i := i + 1;
      }
    }

    method MergeSavedPasses(saves: seq<P.SavedPass>, multiplier: int, thresholds: seq<PassThreshold>)
      modifies `pass
      ensures pass == MergePasses(old(pass), saves, multiplier, thresholds)
    {
      hide P.BestStep, StepsOf;
      var i := 0;
      assert saves[0..] == saves;
      while i < |saves|
        invariant i <= |saves|
        invariant MergePasses(old(pass), saves, multiplier, thresholds) == MergePasses(pass, saves[i..], multiplier, thresholds)
      {
        var saved := saves[i];
        assert saves[i..][1..] == saves[i + 1..];
        if 1 <= saved.season <= P.SEASONS && saved.points >= 0 && saved.version >= 0 {
          var k := (saved.season, saved.version);
          var stored := if k in pass.progress then pass.progress[k] else P.Progress(0, 0);
          var points := stored.points;
          if saved.points > points {
            points := Saturate64(points + Saturate64(Saturate64(saved.points - points)
                                                     * if multiplier < 1 then 1 else multiplier));
          }
          var steps := SeasonSteps(thresholds, saved.season);
          var inferred := LargestReached(steps, points);
          pass := pass.(progress := pass.progress[k := P.Progress(points, MaxInt(MaxInt(stored.step, saved.step), inferred))]);
        }
        i := i + 1;
      }
    }

    /** The counters of an unclaimed condition only rise. */
    method RaiseCondition(stage: int, sub: int, value: Number)
      modifies `guide
      ensures guide == G.Raise(old(guide), stage, sub, value)
    {
      var k := (stage, sub);
      if ValidAmount(value) && k in guide.conditions && !guide.conditions[k].claimed {
        var quantity := guide.conditions[k].quantity;
        if quantity < value.value {
          quantity := value.value;
        }
        guide := guide.(conditions := guide.conditions[k := guide.conditions[k].(quantity := quantity)]);
      }
    }

    method MergeSavedQuests(saves: seq<G.SavedStage>)
      modifies `guide
      ensures guide == G.Save(old(guide), saves)
    {
      if saves == [] {
        return;
      }
      hide G.RaiseEach, G.ActiveStage;
      var current := G.ActiveStage(guide);
      if current !in guide.stages {
        guide := guide.(stages := guide.stages[current := G.Stage(false, false)]);
      }
      InsertCondition(current, 1);
      InsertCondition(current, 2);
      InsertCondition(current, 3);
      if !guide.stages[current].completed {
        RaiseSavedConditions(current, saves);
      }
    }

    method InsertCondition(stage: int, sub: int)
      modifies `guide
      ensures guide == G.EnsureCondition(old(guide), stage, sub)
    {
      if (stage, sub) !in guide.conditions {
        guide := guide.(conditions := guide.conditions[(stage, sub) := G.Condition(0.0, false)]);
      }
    }

    method RaiseSavedConditions(stage: int, saves: seq<G.SavedStage>)
      modifies `guide
      ensures guide == G.RaiseEach(old(guide), stage, saves)
    {
      hide G.Raise;
      var i := 0;
      assert saves[0..] == saves;
      while i < |saves|
        invariant i <= |saves|
        invariant G.RaiseEach(old(guide), stage, saves) == G.RaiseEach(guide, stage, saves[i..])
      {
        assert saves[i..][1..] == saves[i + 1..];
        if saves[i].current == stage {
          RaiseCondition(stage, 1, saves[i].values.0);
          RaiseCondition(stage, 2, saves[i].values.1);
          RaiseCondition(stage, 3, saves[i].values.2);
        }
        i := i + 1;
      }
    }

    /** Balances and content of a snapshot. */
    method MergeSavedHoldings(patch: Patch) returns (r: Result<(), StoreError>)
      modifies `holdings
      ensures match SaveHoldings(old(holdings), flags, patch)
        case Ok(after) => r == Ok(()) && holdings == after
        case Err(e) => r == Err(e)
    {
      hide MergeAreas, MergeCore, MergeContents;
      MergeSavedCore(patch.core);
      r := MergeSavedAreas(patch.areas);
      if r.Ok? {
        MergeSavedContents(patch.contents);
      }
    }

    /** Progress of a snapshot. */
    method MergeSavedProgress(patch: Patch, multiplier: int, thresholds: seq<PassThreshold>)
      modifies `encores, `achievements, `missions, `pass, `guide
      ensures encores == MergeMusics(old(encores), holdings.owned, patch.musics)
      ensures achievements == MergeCounters(old(achievements), patch.achievements, Some(book.count))
      ensures missions == MergeCounters(old(missions), patch.missions, None)
      ensures pass == MergePasses(old(pass), patch.passes, multiplier, thresholds)
      ensures guide == G.Save(old(guide), patch.quests)
    {
      hide MergeMusics, MergeCounters, MergePasses, G.Save;
      MergeSavedMusics(patch.musics);
      MergeSavedAchievements(patch.achievements);
      MergeSavedMissions(patch.missions);
      MergeSavedPasses(patch.passes, multiplier, thresholds);
      MergeSavedQuests(patch.quests);
    }

    /** Marks, balances and content of a snapshot; then its progress. */
    method MergeParts(patch: Patch, multiplier: int, thresholds: seq<PassThreshold>) returns (r: Result<(), StoreError>)
      modifies `flags, `holdings, `encores, `achievements, `missions, `pass, `guide
      ensures var marked := MarkAreas(old(flags), patch.areas);
        && (marked.Err? ==> r == Err(marked.error))
        && (marked.Ok? ==>
              var merged := SaveHoldings(old(holdings), marked.value, patch);
              && (merged.Err? ==> r == Err(merged.error))
              && (merged.Ok? ==> r == Ok(()) && flags == marked.value && holdings == merged.value))
      ensures r.Ok? ==>
        && encores == MergeMusics(old(encores), holdings.owned, patch.musics)
        && achievements == MergeCounters(old(achievements), patch.achievements, Some(book.count))
        && missions == MergeCounters(old(missions), patch.missions, None)
        && pass == MergePasses(old(pass), patch.passes, multiplier, thresholds)
        && guide == G.Save(old(guide), patch.quests)
    {
      hide MarkAreas, SaveHoldings, MergeMusics, MergeCounters, MergePasses, G.Save;
      r := MarkSavedAreas(patch.areas);
      if r.Ok? {
        r := MergeSavedHoldings(patch);
        if r.Ok? {
          MergeSavedProgress(patch, multiplier, thresholds);
        }
      }
    }

    /** `merge_user_save`. */
    method MergeUserSave(patch: Patch, multiplier: int, thresholds: seq<PassThreshold>) returns (r: Answer)
      modifies `flags, `holdings, `encores, `achievements, `missions, `pass, `guide
      ensures Follows(SlotTables.MergeUserSave(old(Rows()), patch, multiplier, thresholds), r, Rows())
    {
      hide SlotTables.MergeUserSave, MarkAreas, SaveHoldings, MergeMusics, MergeCounters, MergePasses, G.Save;
      SaveOutcome(Rows(), patch, multiplier, thresholds);
      var merged := MergeParts(patch, multiplier, thresholds);
      r := if merged.Ok? then Ok((Plain, Plain)) else Err(merged.error);
    }

    // ----- Guide quest, attendance, achievements -----

    method OpenStage(stage: int)
      modifies `guide
      ensures guide == G.EnsureStage(old(guide), stage)
    {
      if stage !in guide.stages {
        guide := guide.(stages := guide.stages[stage := G.Stage(false, false)]);
      }
    }

    /** Stores the larger quantity, and marks the condition claimed when it reaches its threshold. */
    method ClaimCondition(stage: int, sub: int, value: real, limit: real) returns (earned: bool)
      modifies `guide
      ensures (guide, earned) == G.Mark(G.Record(old(guide), stage, sub, value), stage, sub, limit)
    {
      var k := (stage, sub);
      if k !in guide.conditions {
        guide := guide.(conditions := guide.conditions[k := G.Condition(value, false)]);
      } else {
        var quantity := guide.conditions[k].quantity;
        if quantity < value {
          quantity := value;
        }
        guide := guide.(conditions := guide.conditions[k := guide.conditions[k].(quantity := quantity)]);
      }
      earned := guide.conditions[k].quantity >= limit && !guide.conditions[k].claimed;
      if earned {
        guide := guide.(conditions := guide.conditions[k := guide.conditions[k].(claimed := true)]);
      }
    }

    /** Completes a stage with three claimed conditions and opens the next one. */
    method FinishStage(stage: int, nextId: Option<int>, ghost earned: bool) returns (next: bool, shown: int)
      modifies `guide
      ensures G.Claimed(guide, earned, next, shown) == G.Finish(old(guide), stage, nextId, earned)
    {
      hide G.ClaimedIn;
      next, shown := |G.ClaimedIn(guide, stage)| == 3, stage;
      if next {
        if stage in guide.stages {
          guide := guide.(stages := guide.stages[stage := guide.stages[stage].(completed := true)]);
        }
        if nextId.Some? {
          OpenStage(nextId.value);
          shown := nextId.value;
        }
      }
    }

    /** `advance_follower_quest`. */
    method AdvanceFollowerQuest(rules: Rules, current: int, sub: int, value: Number, limits: (real, real, real),
                                rewards: seq<RewardGrant>, nextId: Option<int>, now: int) returns (r: Answer)
      modifies `guide, `holdings
      ensures Follows(SlotTables.AdvanceFollowerQuest(rules, old(Rows()), current, sub, value, limits, rewards, nextId, now),
                      r, Rows())
    {
      hide GrantAll, G.CompleteId, G.ActiveStage, G.Finish, G.Mark, G.Record, G.EnsureStage;
      if !(1 <= sub <= 3) || !ValidAmount(value) {
        return Err(InvalidAmount);
      }
      var active := G.ActiveStage(guide);
      OpenStage(active);
      if current != active {
        var told := QuestReply(active, G.CompleteId(guide), false, []);
        return Ok((told, told));
      }
      var earned := ClaimCondition(current, sub, value.value, LimitOf(limits, sub));
      var applied := [];
      if earned {
        var granted := ApplyRewardGrants(rules, rewards, now);
        if granted.Err? {
          FinishKeepsEarned(guide, current, nextId, earned);
          return Err(granted.error);
        }
        applied := granted.value;
      }
      var next, shown := FinishStage(current, nextId, earned);
      var complete := G.CompleteId(guide);
      return Ok((QuestReply(shown, complete, next, applied), QuestReply(shown, complete, false, [])));
    }

    /** `set_follower_quest_infinite`. */
    method SetFollowerQuestInfinite() returns (r: Answer)
      modifies `guide
      ensures Follows(MarkInfinite(old(Rows())), r, Rows())
    {
      hide G.CompleteId;
      var stage := MaxOr(guide.stages.Keys, 1);
      if stage in guide.stages {
        guide := guide.(stages := guide.stages[stage := guide.stages[stage].(infinite := true)]);
      } else {
        guide := guide.(stages := guide.stages[stage := G.Stage(false, true)]);
      }
      var told := StageShown(stage, G.CompleteId(guide));
      return Ok((told, told));
    }

    /** `attendance`. */
    method Attendance(visit: A.Visit) returns (r: Answer)
      modifies `book
      ensures Follows(AttendDay(old(Rows()), visit), r, Rows())
    {
      var status := if visit.day in book.days then A.Taken else A.Free;
      if visit.add && visit.day !in book.days {
        var streak := 1;
        if book.last == Some(visit.day - 1) {
          streak := Saturate32(book.continuous + 1);
        }
        book := A.Book(book.days + {visit.day}, book.count + 1, streak,
                       if book.maximum >= streak then book.maximum else streak, Some(visit.day));
        status := A.Added;
        if book.count > I32_MAX {
          return Err(SqlConstraint);
        }
      }
      var told := AttendReply(status, book.count, book.maximum);
      return Ok((told, told));
    }

    method GrantOptionalReward(rules: Rules, reward: Option<RewardGrant>, now: int) returns (r: Result<seq<RewardGrant>, StoreError>)
      modifies `holdings
      ensures match GrantOptional(rules, old(holdings), reward, now)
        case Ok((after, told)) => r == Ok(told) && holdings == after
        case Err(e) => r == Err(e)
    {
      hide GrantAll;
      var rewards := [];
      if reward.Some? {
        rewards := [reward.value];
      }
      r := ApplyRewardGrants(rules, rewards, now);
    }

    method ReportAchievement(id: int, quantity: real) returns (stored: real)
      modifies `achievements
      ensures achievements == Reported(old(achievements), id, quantity, Some(book.count))
      ensures id in achievements && stored == achievements[id]
    {
      stored := quantity;
      if id == ATTENDANCE_ACHIEVEMENT {
        stored := book.count as real;
      } else if id in achievements && achievements[id] >= stored {
        stored := achievements[id];
      }
      achievements := achievements[id := stored];
    }

    method ReportMission(id: int, quantity: real) returns (stored: real)
      modifies `missions
      ensures missions == Reported(old(missions), id, quantity, None)
      ensures id in missions && stored == missions[id]
    {
      stored := quantity;
      if id in missions && missions[id] >= stored {
        stored := missions[id];
      }
      missions := missions[id := stored];
    }

    /** `claim_game_reward` for achievements; the quantity of the attendance one is the stored count. */
    method ClaimAchievement(rules: Rules, id: int, level: int, quantity: Number, limit: Number, localDay: int,
                            reward: Option<RewardGrant>, now: int) returns (r: Answer)
      modifies `achievements, `achievementClaims, `holdings
      ensures Follows(SlotTables.ClaimGameReward(rules, old(Rows()), Achievement, id, level, quantity, limit, localDay, reward, now),
                      r, Rows())
    {
      hide GrantOptional, LevelsClaimed, MissionsClaimed, Reported, Saturate32, ClaimGameReward;
      AchievementOutcome(rules, Rows(), id, level, quantity, limit, localDay, reward, now);
      if !ValidAmount(quantity) || !ValidAmount(limit) {
        return Err(InvalidAmount);
      }
      var stored := ReportAchievement(id, quantity.value);
      if stored < limit.value {
        return Err(Locked);
      }
      if level != Saturate32(|LevelsClaimed(achievementClaims, id)| + 1) || (id, level) in achievementClaims {
        return Err(AlreadyClaimed);
      }
      achievementClaims := achievementClaims + {(id, level)};
      var granted := GrantOptionalReward(rules, reward, now);
      if granted.Err? {
        return Err(granted.error);
      }
      return Ok((GameReply(Saturate32(level + 1), granted.value), GameReply(Saturate32(level + 1), [])));
    }

    /** `claim_game_reward` for daily missions. */
    method ClaimMission(rules: Rules, id: int, level: int, quantity: Number, limit: Number, localDay: int,
                        reward: Option<RewardGrant>, now: int) returns (r: Answer)
      modifies `missions, `missionClaims, `holdings
      ensures Follows(SlotTables.ClaimGameReward(rules, old(Rows()), DailyMission, id, level, quantity, limit, localDay, reward, now),
                      r, Rows())
    {
      hide GrantOptional, LevelsClaimed, MissionsClaimed, Reported, Saturate32, ClaimGameReward;
      MissionOutcome(rules, Rows(), id, level, quantity, limit, localDay, reward, now);
      if !ValidAmount(quantity) || !ValidAmount(limit) {
        return Err(InvalidAmount);
      }
      var stored := ReportMission(id, quantity.value);
      if stored < limit.value {
        return Err(Locked);
      }
      if level != Saturate32(|MissionsClaimed(missionClaims, localDay, id)| + 1) || (localDay, id, level) in missionClaims {
        return Err(AlreadyClaimed);
      }
      missionClaims := missionClaims + {(localDay, id, level)};
      var granted := GrantOptionalReward(rules, reward, now);
      if granted.Err? {
        return Err(granted.error);
      }
      return Ok((GameReply(Saturate32(level + 1), granted.value), GameReply(Saturate32(level + 1), [])));
    }

    // ----- Chapter three -----

    /** `restore_ch3_energy`: one point a second, up to the cap. */
    method RestoreCh3Energy(now: int, cap: int) returns (r: Result<(), StoreError>)
      modifies `holdings
      ensures match Restored(old(holdings.energy), now, cap)
        case Ok(after) => r == Ok(()) && holdings == old(holdings).(energy := after)
        case Err(e) => r == Err(e)
    {
      var seconds := Saturate64(now - holdings.energy.calculatedAt);
      if seconds < 0 {
        seconds := 0;
      } else if seconds > I32_MAX {
        seconds := I32_MAX;
      }
      var amount := Saturate32(holdings.energy.amount + seconds);
      if amount > cap {
        amount := cap;
      }
      if amount < 0 || cap < 0 {
        return Err(SqlConstraint);
      }
      holdings := holdings.(energy := E.Energy(amount, cap, now));
      return Ok(());
    }

    method SpendEnergy(now: int, cap: int, cost: nat) returns (r: Result<E.Energy, StoreError>)
      modifies `holdings
      ensures match PayEnergy(old(holdings), now, cap, cost)
        case Ok(after) => r == Ok(after.energy) && holdings == after
        case Err(e) => r == Err(e)
    {
      hide Restored;
      var restored := RestoreCh3Energy(now, cap);
      if restored.Err? {
        return Err(restored.error);
      }
      if holdings.energy.amount < cost {
        return Err(InsufficientEnergy);
      }
      holdings := holdings.(energy := holdings.energy.(amount := holdings.energy.amount - cost));
      return Ok(holdings.energy);
    }

    /** The rows of a cleared stage and of the one it opens. */
    method RecordStage(stage: C.StageDef, next: Option<C.StageDef>, star: int, score: int) returns (r: Result<(), StoreError>)
      requires C.Unlocked(stages, stage.id)
      modifies `stages
      ensures match C.Settle(old(stages), stage, next, star, score)
        case Ok(after) => r == Ok(()) && stages == after
        case Err(e) => r == Err(e)
    {
      if !C.Clears(stage, star) {
        return Ok(());
      }
      var row := stages.rows[stage.id];
      var best := if row.star >= star then row.star else star;
      if best < 0 || best > 3 {
        return Err(SqlConstraint);
      }
      row := C.StageRow(row.chapter, true, best, if row.score >= score then row.score else score, row.unlocked);
      stages := stages.(rows := stages.rows[stage.id := row]);
      if next.Some? && next.value.id !in stages.rows {
        stages := stages.(rows := stages.rows[next.value.id := C.StageRow(next.value.chapter, false, 0, 0, true)]);
      }
      return Ok(());
    }

    /** `settle_ch3_stage`. */
    method SettleCh3Stage(rules: Rules, stage: C.StageDef, next: Option<C.StageDef>, star: int, score: int,
                          cost: nat, cap: int, drops: seq<RewardGrant>, now: int) returns (r: Answer)
      modifies `stages, `holdings
      ensures Follows(SlotTables.SettleCh3Stage(rules, old(Rows()), stage, next, star, score, cost, cap, drops, now), r, Rows())
    {
      hide GrantAll, PayEnergy, C.Settle;
      if !C.Unlocked(stages, stage.id) {
        return Err(Locked);
      }
      var paid := SpendEnergy(now, cap, cost);
      if paid.Err? {
        return Err(paid.error);
      }
      var recorded := RecordStage(stage, next, star, score);
      if recorded.Err? {
        return Err(recorded.error);
      }
      var earned := [];
      if C.Clears(stage, star) {
        earned := drops;
      }
      var granted := ApplyRewardGrants(rules, earned, now);
      if granted.Err? {
        return Err(granted.error);
      }
      return Ok((StageReply(stage.id, paid.value, granted.value), StageReply(stage.id, paid.value, [])));
    }

    /** The outer loop of a stream: one list of rewards for every repetition. */
    method ApplyRolls(rules: Rules, rolls: seq<Roll>, now: int) returns (r: Result<seq<Roll>, StoreError>)
      modifies `holdings
      ensures match GrantRolls(rules, old(holdings), rolls, now)
        case Ok((after, told)) => r == Ok(told) && holdings == after
        case Err(e) => r == Err(e)
    {
      hide GrantAll, GrantRolls;
      var applied: seq<Roll> := [];
      var i := 0;
      assert rolls[0..] == rolls;
      RollsPrependNothing(GrantRolls(rules, holdings, rolls, now));
      while i < |rolls|
        invariant i <= |rolls|
        invariant GrantRolls(rules, old(holdings), rolls, now)
               == PrependRolls(applied, GrantRolls(rules, holdings, rolls[i..], now))
      {
        ghost var before := holdings;
        assert rolls[i..][1..] == rolls[i + 1..];
        var granted := ApplyRewardGrants(rules, rolls[i].rewards, now);
        if granted.Err? {
          RollFails(rules, before, rolls[i..], now);
          return Err(granted.error);
        }
        RollsPrependOne(rules, before, rolls[i..], now, applied);
        applied := applied + [Roll(rolls[i].roll, granted.value)];
        i := i + 1;
      }
      NoRolls(rules, holdings, now);
      assert rolls[i..] == [] && applied + [] == applied;
      return Ok(applied);
    }

    /** `settle_ch3_stream`. */
    method SettleCh3Stream(rules: Rules, stageId: int, count: int, costEach: nat, cap: int, rolls: seq<Roll>, now: int)
      returns (r: Answer)
      modifies `holdings
      ensures Follows(SlotTables.SettleCh3Stream(rules, old(Rows()), stageId, count, costEach, cap, rolls, now), r, Rows())
    {
      hide GrantRolls, PayEnergy;
      if !(1 <= count <= 5) {
        return Err(InvalidStage);
      }
      if !C.Completed(stages, stageId) {
        return Err(Locked);
      }
      var paid := SpendEnergy(now, cap, MinInt(costEach * count, I32_MAX));
      if paid.Err? {
        return Err(paid.error);
      }
      var applied := ApplyRolls(rules, rolls, now);
      if applied.Err? {
        return Err(applied.error);
      }
      return Ok((StreamReply(stageId, paid.value, applied.value), StreamReply(stageId, paid.value, [])));
    }

    /** `claim_ch3_chapter_reward`. */
    method ClaimCh3ChapterReward(rules: Rules, chapter: int, num: int, goal: int, rewards: seq<RewardGrant>, cap: int, now: int)
      returns (r: Answer)
      modifies `stages, `holdings
      ensures Follows(ClaimChapterReward(rules, old(Rows()), chapter, num, goal, rewards, cap, now), r, Rows())
    {
      hide GrantAll, Restored, C.StarSum;
      if C.StarSum(stages.rows, chapter) < goal {
        return Err(Locked);
      }
      if (chapter, num) in stages.claims {
        return Err(AlreadyClaimed);
      }
      stages := stages.(claims := stages.claims + {(chapter, num)});
      var granted := ApplyRewardGrants(rules, rewards, now);
      if granted.Err? {
        return Err(granted.error);
      }
      var restored := RestoreCh3Energy(now, cap);
      if restored.Err? {
        return Err(restored.error);
      }
      return Ok((ChapterReply(holdings.energy, granted.value), ChapterReply(holdings.energy, [])));
    }

    /** `ch3_snapshot_at`. */
    method Ch3SnapshotAt(cap: int, now: int) returns (r: Answer)
      modifies `holdings
      ensures Follows(RestoreCh3(old(Rows()), cap, now), r, Rows())
    {
      hide Restored;
      var restored := RestoreCh3Energy(now, cap);
      if restored.Err? {
        return Err(restored.error);
      }
      return Ok((EnergyReply(holdings.energy), EnergyReply(holdings.energy)));
    }

    // ----- Passes -----

    method AddPassPoints(season: int, version: int, added: int, steps: P.Steps) returns (r: Result<int, StoreError>)
      modifies `pass
      ensures match P.Fill(old(pass), season, version, added, steps)
        case Ok(after) => r == Ok(P.PointsOf(after, season, version)) && pass == after
        case Err(e) => r == Err(e)
    {
      hide P.BestStep;
      var k := (season, version);
      var stored := if k in pass.progress then pass.progress[k] else P.Progress(0, 0);
      var points := stored.points + if added > 0 then added else 0;
      if !(1 <= season <= P.SEASONS) || points > I64_MAX {
        return Err(SqlConstraint);
      }
      var step := LargestReached(steps, points);
      pass := pass.(progress := pass.progress[k := P.Progress(points, if stored.step >= step then stored.step else step)]);
      return Ok(points);
    }

    /** `fill_pass`. */
    method FillPass(season: int, version: int, price: Number, added: int, steps: P.Steps) returns (r: Answer)
      modifies `pass, `holdings
      ensures Follows(FillPassPoints(old(Rows()), season, version, price, added, steps), r, Rows())
    {
      hide P.Fill, Pay, Balance;
      if price.PosInfinity? || (price.Finite? && price.value > 0.0) {
        var paid := DeductCurrency(Chocolate, price);
        if paid.Err? {
          return Err(paid.error);
        }
      }
      var points := AddPassPoints(season, version, added, steps);
      if points.Err? {
        return Err(points.error);
      }
      var chocolate, candy := Balances();
      var told := FillReply(season, points.value, version, chocolate, candy);
      return Ok((told, told));
    }

    /** The row of a claim: whether it is new, and whether it earns the ticket of its pass. */
    method InsertPassClaim(key: P.ClaimKey, required: int, paidSteps: int, ticket: int)
      returns (r: Result<(bool, bool), StoreError>)
      modifies `pass
      ensures match P.Claim(old(pass), key, required, paidSteps, ticket)
        case Ok(c) => r == Ok((c.inserted, c.ticketEarned)) && pass == c.pass
        case Err(e) => r == Err(e)
    {
      hide P.PaidClaims;
      var points := if (key.season, key.version) in pass.progress then pass.progress[(key.season, key.version)].points else 0;
      if points < required {
        return Err(InsufficientBalance);
      }
      if key.lane == 1 && key.season !in pass.premium {
        return Err(InsufficientBalance);
      }
      if key in pass.claims || (key.lane != 0 && key.lane != 1) {
        return Ok((false, false));
      }
      pass := pass.(claims := pass.claims + {key});
      var earned := false;
      if key.lane == 1 && ticket > 0 {
        earned := |P.PaidClaims(pass, key.season, key.version)| >= paidSteps;
      }
      return Ok((true, earned));
    }

    /** `claim_pass_reward`. */
    method ClaimPassReward(rules: Rules, key: P.ClaimKey, required: int, rewards: seq<RewardGrant>,
                           paidSteps: int, ticket: int, now: int) returns (r: Answer)
      modifies `pass, `holdings
      ensures Follows(SlotTables.ClaimPassReward(rules, old(Rows()), key, required, rewards, paidSteps, ticket, now), r, Rows())
    {
      hide GrantAll, P.Claim;
      var claimed := InsertPassClaim(key, required, paidSteps, ticket);
      if claimed.Err? {
        return Err(claimed.error);
      }
      var granted := [];
      if claimed.value.0 {
        var applied := ApplyRewardGrants(rules, rewards, now);
        if applied.Err? {
          return Err(applied.error);
        }
        granted := applied.value;
      }
      if claimed.value.1 {
        holdings := holdings.(tickets := holdings.tickets + {ticket});
      }
      return Ok((PassReply(key, now, granted), PassReply(key, now, [])));
    }

    /** `activate_passes`. */
    method ActivatePasses(seasons: seq<int>) returns (r: Answer)
      modifies `pass
      ensures Follows(ActivateSeasons(old(Rows()), seasons), r, Rows())
    {
      var i := 0;
      while i < |seasons|
        invariant i <= |seasons|
        invariant pass == old(pass).(premium := pass.premium)
        invariant pass.premium == old(pass.premium) + set j | 0 <= j < i && P.IsSeason(seasons[j]) :: seasons[j]
      {
        if 1 <= seasons[i] <= P.SEASONS {
          pass := pass.(premium := pass.premium + {seasons[i]});
        }
        i := i + 1;
      }
      return Ok((PremiumReply(pass.premium), PremiumReply(pass.premium)));
    }

    // ----- Purchases and grants -----

    method Balances() returns (chocolate: real, candy: real)
      ensures chocolate == Chocolates(Rows()) && candy == Candies(Rows())
    {
      return Balance(holdings.wallet, Chocolate), Balance(holdings.wallet, Candy);
    }

    /** `purchase_rewards`. */
    method PurchaseRewards(rules: Rules, purchaseId: string, payment: Option<(CurrencyKind, Number)>,
                           bought: seq<RewardGrant>, now: int) returns (r: Answer)
      modifies `purchases, `holdings
      ensures Follows(BuyRewards(rules, old(Rows()), purchaseId, payment, bought, now), r, Rows())
    {
      hide GrantAll, Pay, Balance;
      if purchaseId in purchases {
        var chocolate, candy := Balances();
        var told := PurchaseReply(chocolate, candy, []);
        return Ok((told, told));
      }
      if payment.Some? {
        var paid := DeductCurrency(payment.value.0, payment.value.1);
        if paid.Err? {
          return Err(paid.error);
        }
      }
      var granted := ApplyRewardGrants(rules, bought, now);
      if granted.Err? {
        return Err(granted.error);
      }
      purchases := purchases + {purchaseId};
      var chocolate, candy := Balances();
      return Ok((PurchaseReply(chocolate, candy, granted.value), PurchaseReply(chocolate, candy, [])));
    }

    /** The price of the next level, read in the same transaction as the level. */
    method PriceOfNext(rules: Rules, content: Content, level: int, basePrice: real, increment: real) returns (price: Number)
      ensures price == NextPrice(rules, content, level, basePrice, increment)
    {
      price := Finite(basePrice);
      if increment > 0.0 {
        var first := if content.kind == Skill then 2 else 1;
        price := rules.stepPrice(basePrice, increment, if level + 1 - first > 0 then level + 1 - first else 0);
      }
    }

    method StoreLevel(content: Content, area: int, level: int)
      modifies `holdings
      ensures holdings == old(holdings).(owned := InsertNew(old(holdings.owned), content, area),
                                         levels := old(holdings.levels)[content := level])
    {
      if content !in holdings.owned {
        holdings := holdings.(owned := holdings.owned[content := area]);
      }
      holdings := holdings.(levels := holdings.levels[content := level]);
    }

    /** `purchase_content`. */
    method PurchaseContent(rules: Rules, content: Content, area: int, currency: CurrencyKind, basePrice: Number,
                           increment: Number, maxLevel: int) returns (r: Answer)
      modifies `holdings
      ensures Follows(BuyContent(rules, old(Rows()), content, area, currency, basePrice, increment, maxLevel), r, Rows())
    {
      hide Pay, Balance, NextPrice, InsertNew;
      if !ValidAmount(basePrice) || !ValidAmount(increment) {
        return Err(InvalidAmount);
      }
      var level := LevelOf(holdings, content);
      if level >= MaxInt(maxLevel, 1) {
        var chocolate, candy := Balances();
        var told := ContentReply(chocolate, candy, content, level);
        return Ok((told, told));
      }
      var price := PriceOfNext(rules, content, level, basePrice.value, increment.value);
      var paid := DeductCurrency(currency, price);
      if paid.Err? {
        return Err(paid.error);
      }
      var next := MaxInt(Saturate64(level + 1), 1);
      StoreLevel(content, area, next);
      var chocolate, candy := Balances();
      var told := ContentReply(chocolate, candy, content, next);
      return Ok((told, told));
    }

    /** `grant_currency`. */
    method GrantCurrency(kind: CurrencyKind, amount: Number, transactionId: string) returns (r: Answer)
      modifies `rewardTransactions, `holdings
      ensures Follows(GrantOnce(old(Rows()), kind, amount, transactionId), r, Rows())
    {
      hide Balance;
      if !ValidAmount(amount) {
        return Err(InvalidAmount);
      }
      var inserted := transactionId !in rewardTransactions;
      if inserted {
        rewardTransactions := rewardTransactions + {transactionId};
        AddToBalance(kind, amount.value);
      }
      return Ok((FreshReply(inserted), FreshReply(inserted)));
    }

    /** `grant_ad_reward`. */
    method GrantAdReward(rules: Rules, rewards: seq<RewardGrant>, now: int) returns (r: Answer)
      modifies `holdings
      ensures Follows(WatchedAd(rules, old(Rows()), rewards, now), r, Rows())
    {
      hide GrantAll;
      var granted := ApplyRewardGrants(rules, rewards, now);
      if granted.Err? {
        return Err(granted.error);
      }
      return Ok((AdReply(granted.value), AdReply([])));
    }

    /** The loop of `claim_follower_profile_rewards`. */
    method GrantProfileLevels(rules: Rules, follower: int, profileLevel: int, requested: seq<ProfileItem>, now: int)
      returns (r: Result<seq<ProfileItem>, StoreError>)
      modifies `affectionClaims, `holdings
      ensures match GrantLevels(rules, old(holdings), old(affectionClaims), follower, profileLevel, requested, now)
        case Ok((after, claims, told)) => r == Ok(told) && holdings == after && affectionClaims == claims
        case Err(e) => r == Err(e)
    {
      hide GrantAll, GrantLevels;
      var outcomes: seq<ProfileItem> := [];
      var i := 0;
      assert requested[0..] == requested;
      LevelsPrependNothing(GrantLevels(rules, holdings, affectionClaims, follower, profileLevel, requested, now));
      while i < |requested|
        invariant i <= |requested|
        invariant GrantLevels(rules, old(holdings), old(affectionClaims), follower, profileLevel, requested, now)
               == PrependLevels(outcomes, GrantLevels(rules, holdings, affectionClaims, follower, profileLevel, requested[i..], now))
      {
        ghost var (h, claims) := (holdings, affectionClaims);
        assert requested[i..][1..] == requested[i + 1..];
        LevelsStep(rules, h, claims, follower, profileLevel, requested[i..], now, outcomes);
        var level := requested[i].level;
        if level <= 0 || level > profileLevel {
          return Err(Locked);
        }
        if (follower, level) !in affectionClaims {
          affectionClaims := affectionClaims + {(follower, level)};
          var granted := ApplyRewardGrants(rules, requested[i].rewards, now);
          if granted.Err? {
            return Err(granted.error);
          }
          outcomes := outcomes + [ProfileItem(level, granted.value)];
        }
        i := i + 1;
      }
      NoLevels(rules, holdings, affectionClaims, follower, profileLevel, now);
      assert requested[i..] == [] && outcomes + [] == outcomes;
      return Ok(outcomes);
    }

    /** `claim_follower_profile_rewards`. */
    method ClaimFollowerProfileRewards(rules: Rules, follower: int, profileLevel: int, requested: seq<ProfileItem>, now: int)
      returns (r: Answer)
      modifies `affectionClaims, `holdings
      ensures Follows(ClaimProfileRewards(rules, old(Rows()), follower, profileLevel, requested, now), r, Rows())
    {
      hide GrantLevels;
      var granted := GrantProfileLevels(rules, follower, profileLevel, requested, now);
      if granted.Err? {
        return Err(granted.error);
      }
      return Ok((ProfileReply(granted.value), ProfileReply([])));
    }

    /** The loop of `claim_music_encore_rewards`. */
    method CollectEncores(items: seq<EncoreItem>, now: int) returns (gifts: seq<(int, int)>, rejected: seq<int>)
      modifies `encores
      ensures (encores, gifts, rejected) == TakeEncores(old(encores), holdings.owned, items, now)
      ensures forall i | 0 <= i < |gifts| :: gifts[i].1 >= 0
    {
      hide TakeEncores;
      gifts, rejected := [], [];
      var i := 0;
      assert items[0..] == items;
      EncoresPrependNothing(TakeEncores(encores, holdings.owned, items, now));
      while i < |items|
        invariant i <= |items|
        invariant TakeEncores(old(encores), holdings.owned, items, now)
               == PrependEncores(gifts, rejected, TakeEncores(encores, holdings.owned, items[i..], now))
        invariant forall j | 0 <= j < |gifts| :: gifts[j].1 >= 0
      {
        var item := items[i];
        assert items[i..][1..] == items[i + 1..];
        EncoresStep(encores, holdings.owned, items[i..], now, gifts, rejected);
        if Content(Music, item.music) !in holdings.owned
           || (item.music in encores && !encores[item.music].appears && encores[item.music].readyAt > now) {
          rejected := rejected + [Saturate32(item.music)];
        } else {
          encores := encores[item.music := Encore(false, item.readyAt)];
          gifts := gifts + [(Saturate32(item.music), MaxInt(item.gift, 0))];
        }
        i := i + 1;
      }
      NoEncores(encores, holdings.owned, now);
      assert items[i..] == [] && gifts + [] == gifts && rejected + [] == rejected;
    }

    /** `claim_music_encore_rewards`. */
    method ClaimMusicEncoreRewards(items: seq<EncoreItem>, now: int) returns (r: Answer)
      modifies `encores, `holdings
      ensures Follows(ClaimEncoreRewards(old(Rows()), items, now), r, Rows())
    {
      hide TakeEncores, GiftTotal, Balance;
      var gifts, rejected := CollectEncores(items, now);
      var candy := TotalGift(gifts);
      if candy > 0 {
        AddToBalance(Candy, candy as real);
      }
      return Ok((EncoreReply(gifts, rejected), EncoreReply(gifts, rejected)));
    }

    // ----- Mail, events and the rest -----

    /** `apply_stored_reward`. */
    method ApplyStoredReward(rules: Rules, stored: StoredReward, now: int) returns (r: Result<(), StoreError>)
      modifies `holdings
      ensures match ApplyStored(rules, old(holdings), stored, now)
        case Ok(after) => r == Ok(()) && holdings == after
        case Err(e) => r == Err(e)
    {
      hide Grant, Announced;
      match stored.kind {
        case CurrencyRow(kind) =>
          if kind == Fans {
            var grant := Announced(stored);
            if grant.Err? {
              return Err(grant.error);
            }
            var granted := ApplyRewardGrant(rules, grant.value, now);
            return if granted.Ok? then Ok(()) else Err(granted.error);
          }
          var amount := stored.amount.GetOr(Finite(0.0));
          if !ValidAmount(amount) {
            return Err(InvalidAmount);
          }
          AddToBalance(kind, amount.value);
          return Ok(());
        case ContentRow(content) =>
          if stored.rewardId.None? {
            return Err(UnsupportedReward);
          }
          if content == Gift {
            var gift := stored.rewardId.value;
            var total := (if gift in holdings.gifts then holdings.gifts[gift] else 0) + GiftCount(stored.amount);
            if total > I64_MAX {
              return Err(SqlConstraint);
            }
            holdings := holdings.(gifts := holdings.gifts[gift := total]);
          } else {
            InsertContent(Content(content, stored.rewardId.value), stored.area);
          }
          return Ok(());
      }
    }

    /** `claim_mail_rpc`. */
    method ClaimMail(rules: Rules, post: int, now: int) returns (r: Answer)
      modifies `mail, `holdings
      ensures Follows(ClaimPost(rules, old(Rows()), post, now), r, Rows())
    {
      hide ApplyStored, Announced;
      if post !in mail || mail[post].deleted {
        return Err(MissingMail(post));
      }
      if mail[post].claimed {
        return Err(MailAlreadyClaimed(post));
      }
      var grant := Announced(mail[post].reward);
      if grant.Err? {
        return Err(grant.error);
      }
      var applied := ApplyStoredReward(rules, mail[post].reward, now);
      if applied.Err? {
        return Err(applied.error);
      }
      mail := mail[post := mail[post].(claimed := true)];
      return Ok((MailReply(Some(grant.value)), MailReply(None)));
    }

    /** `queue_mail` and `insert_generated_mail_in_transaction`. */
    method QueueMail(sent: Reward, atPost: Option<int>) returns (r: Answer)
      modifies `mail
      ensures Follows(SendMail(old(Rows()), sent, atPost), r, Rows())
    {
      hide Deliverable, NextPost, StoredOf;
      if !Deliverable(holdings.owned, mail, sent) {
        return Err(AlreadyOwned);
      }
      var post := if atPost.Some? then atPost.value else NextPost(mail);
      var inserted := post !in mail;
      if inserted {
        mail := mail[post := MailRow(StoredOf(sent), false, false)];
      }
      if atPost.Some? {
        return Ok((FreshReply(inserted), FreshReply(inserted)));
      }
      if !inserted {
        return Err(IdempotencyConflict);
      }
      return Ok((PostReply(post), PostReply(post)));
    }

    /** `claim_event_reward`. */
    method ClaimEventReward(rules: Rules, rowId: int, reward: RewardGrant, now: int) returns (r: Answer)
      modifies `events, `holdings
      ensures Follows(SlotTables.ClaimEventReward(rules, old(Rows()), rowId, reward, now), r, Rows())
    {
      hide GrantAll, Balance;
      if ("daily_reward", rowId) in events {
        return Err(AlreadyClaimed);
      }
      events := events + {("daily_reward", rowId)};
      var granted := ApplyRewardGrants(rules, [reward], now);
      if granted.Err? {
        return Err(granted.error);
      }
      var chocolate, candy := Balances();
      var told := EventReply(granted.value, chocolate, candy, Balance(holdings.wallet, Ch1Like), Balance(holdings.wallet, Fans));
      return Ok((told, told.(eventEarned := [])));
    }

    /** `claim_sam_seck`. */
    method ClaimSamSeck(eventId: int, post: int, reward: RewardGrant) returns (r: Answer)
      modifies `events, `mail
      ensures Follows(ClaimSamSeckStep(old(Rows()), eventId, post, reward), r, Rows())
    {
      hide SamSeckEligible, QueueGrant;
      if !SamSeckEligible(holdings, eventId) {
        return Err(Locked);
      }
      if ("samseck", eventId) !in events {
        events := events + {("samseck", eventId)};
        var queued := QueueGrant(mail, post, reward);
        if queued.Err? {
          return Err(queued.error);
        }
        mail := queued.value;
      } else {
        assert events == events + {("samseck", eventId)};
      }
      var told := SamSeckReply(MaxOr(set e | e in events && e.0 == "samseck" :: e.1, 0));
      return Ok((told, told));
    }

    /** `select_pass_season_in_transaction`. */
    method SelectPassSeason(clock: R.DeviceClock, season: int) returns (r: Answer)
      modifies `rotation
      ensures Follows(SlotTables.SelectPassSeason(old(Rows()), clock, season), r, Rows())
    {
      if !(1 <= season <= R.PASS_SEASONS) {
        return Err(UnsupportedReward);
      }
      rotation := R.Rotation(Some(R.Anchor(R.LocalEpochDay(clock), season)), rotation.revision + 1);
      return Ok((Plain, Plain));
    }

    /** The anchor a login inserts when there is none. */
    method AnchorRotation(clock: R.DeviceClock)
      modifies `rotation
      ensures Rows() == AnchorAtLogin(old(Rows()), clock)
    {
      if rotation.anchor.None? {
        var day := R.LocalEpochDay(clock);
        rotation := rotation.(anchor := Some(R.Anchor(day, day % R.PASS_SEASONS + 1)));
      }
    }

    // ----- Packages and gifts -----

    /** `grant_package_contents`: two statements for each content, in the order of the package. */
    method GrantPackage(contents: seq<(Content, int)>, musicIds: seq<int>) returns (r: Answer)
      modifies `holdings
      ensures Follows(GrantPackageContents(old(Rows()), contents, musicIds), r, Rows())
    {
      var i := 0;
      while i < |contents|
        invariant i <= |contents|
        invariant AddPackage(holdings, contents[i..]) == AddPackage(old(holdings), contents)
      {
        var (content, area) := contents[i];
        assert contents[i..][0] == contents[i] && contents[i..][1..] == contents[i + 1..];
        StoreLevel(content, area, MaxInt(LevelOf(holdings, content), 1));
        i := i + 1;
      }
      assert contents[i..] == [];
      var chocolate, candy := Balances();
      return Ok((PackageReply(chocolate, candy, musicIds), PackageReply(chocolate, candy, musicIds)));
    }

    /** `give_follower_gift`. */
    method GiveGift(gift: int, used: int) returns (r: Answer)
      modifies `holdings
      ensures Follows(GiveFollowerGift(old(Rows()), gift, used), r, Rows())
    {
      if used <= 0 {
        return Err(InvalidAmount);
      }
      var held := if gift in holdings.gifts then holdings.gifts[gift] else 0;
      if held < used {
        return Err(InsufficientBalance);
      }
      holdings := holdings.(gifts := holdings.gifts[gift := held - used]);
      return Ok((GiftReply(gift, held - used), GiftReply(gift, held - used)));
    }

    // ----- Any command -----

    method RunMail(rules: Rules, call: SlotCall, now: int) returns (r: Answer)
      requires call.ClaimMail? || call.QueueMail? || call.DeleteMail?
      modifies this
      ensures Follows(Apply(rules, old(Rows()), call, now), r, Rows())
    {
      hide SlotTables.MergeUserSave, SlotTables.AdvanceFollowerQuest, MarkInfinite, AttendDay, ClaimGameReward;
      hide SlotTables.SettleCh3Stage, SlotTables.SettleCh3Stream, ClaimChapterReward, RestoreCh3, FillPassPoints;
      hide SlotTables.ClaimPassReward, ActivateSeasons, BuyRewards, BuyContent, GrantOnce, WatchedAd, ClaimProfileRewards;
      hide ClaimEncoreRewards, ClaimPost, SendMail, Delete, SlotTables.ClaimEventReward, ClaimSamSeckStep;
      hide SlotTables.SelectPassSeason, GrantPackageContents, GiveFollowerGift, Follows, Told;
      match call {
        case ClaimMail(post) => r := ClaimMail(rules, post, now);
        case QueueMail(sent, atPost) => r := QueueMail(sent, atPost);
        case DeleteMail(post, all) => r := DeleteMail(post, all);
      }
    }

    method RunCollect(rules: Rules, call: SlotCall, now: int) returns (r: Answer)
      requires Collects(call) && !call.ClaimMail? && !call.QueueMail? && !call.DeleteMail?
      modifies this
      ensures Follows(Apply(rules, old(Rows()), call, now), r, Rows())
    {
      hide SlotTables.MergeUserSave, SlotTables.AdvanceFollowerQuest, MarkInfinite, AttendDay, ClaimGameReward;
      hide SlotTables.SettleCh3Stage, SlotTables.SettleCh3Stream, ClaimChapterReward, RestoreCh3, FillPassPoints;
      hide SlotTables.ClaimPassReward, ActivateSeasons, BuyRewards, BuyContent, GrantOnce, WatchedAd, ClaimProfileRewards;
      hide ClaimEncoreRewards, ClaimPost, SendMail, Delete, SlotTables.ClaimEventReward, ClaimSamSeckStep;
      hide SlotTables.SelectPassSeason, GrantPackageContents, GiveFollowerGift, Follows, Told;
      match call {
        case ClaimEncores(items) => r := ClaimMusicEncoreRewards(items, now);
        case ClaimProfile(follower, profileLevel, requested) =>
          r := ClaimFollowerProfileRewards(rules, follower, profileLevel, requested, now);
        case ClaimEvent(rowId, reward) => r := ClaimEventReward(rules, rowId, reward, now);
        case ClaimSamSeck(eventId, post, reward) => r := ClaimSamSeck(eventId, post, reward);
      }
    }

    method RunPass(rules: Rules, call: SlotCall, now: int) returns (r: Answer)
      requires call.FillPass? || call.ClaimPass? || call.ActivatePasses?
      modifies this
      ensures Follows(Apply(rules, old(Rows()), call, now), r, Rows())
    {
      hide SlotTables.MergeUserSave, SlotTables.AdvanceFollowerQuest, MarkInfinite, AttendDay, ClaimGameReward;
      hide SlotTables.SettleCh3Stage, SlotTables.SettleCh3Stream, ClaimChapterReward, RestoreCh3, FillPassPoints;
      hide SlotTables.ClaimPassReward, ActivateSeasons, BuyRewards, BuyContent, GrantOnce, WatchedAd, ClaimProfileRewards;
      hide ClaimEncoreRewards, ClaimPost, SendMail, Delete, SlotTables.ClaimEventReward, ClaimSamSeckStep;
      hide SlotTables.SelectPassSeason, GrantPackageContents, GiveFollowerGift, Follows, Told;
      match call {
        case FillPass(season, version, price, added, steps) => r := FillPass(season, version, price, added, steps);
        case ClaimPass(key, required, rewards, paidSteps, ticket) =>
          r := ClaimPassReward(rules, key, required, rewards, paidSteps, ticket, now);
        case ActivatePasses(seasons) => r := ActivatePasses(seasons);
      }
    }

    method RunTrade(rules: Rules, call: SlotCall, now: int) returns (r: Answer)
      requires Trades(call) && !Collects(call) && !call.FillPass? && !call.ClaimPass? && !call.ActivatePasses?
      modifies this
      ensures Follows(Apply(rules, old(Rows()), call, now), r, Rows())
    {
      hide SlotTables.MergeUserSave, SlotTables.AdvanceFollowerQuest, MarkInfinite, AttendDay, ClaimGameReward;
      hide SlotTables.SettleCh3Stage, SlotTables.SettleCh3Stream, ClaimChapterReward, RestoreCh3, FillPassPoints;
      hide SlotTables.ClaimPassReward, ActivateSeasons, BuyRewards, BuyContent, GrantOnce, WatchedAd, ClaimProfileRewards;
      hide ClaimEncoreRewards, ClaimPost, SendMail, Delete, SlotTables.ClaimEventReward, ClaimSamSeckStep;
      hide SlotTables.SelectPassSeason, GrantPackageContents, GiveFollowerGift, Follows, Told;
      match call {
        case PurchaseRewards(purchaseId, payment, bought) => r := PurchaseRewards(rules, purchaseId, payment, bought, now);
        case PurchaseContent(content, area, currency, basePrice, increment, maxLevel) =>
          r := PurchaseContent(rules, content, area, currency, basePrice, increment, maxLevel);
        case WatchAd(rewards) => r := GrantAdReward(rules, rewards, now);
        case GrantCurrency(kind, amount, transactionId) => r := GrantCurrency(kind, amount, transactionId);
        case GrantPackage(contents, musicIds) => r := GrantPackage(contents, musicIds);
        case GiveGift(gift, used) => r := GiveGift(gift, used);
      }
    }

    method RunPlay(rules: Rules, call: SlotCall, now: int) returns (r: Answer)
      requires !Trades(call)
      modifies this
      ensures Follows(Apply(rules, old(Rows()), call, now), r, Rows())
    {
      hide SlotTables.MergeUserSave, SlotTables.AdvanceFollowerQuest, MarkInfinite, AttendDay, ClaimGameReward;
      hide SlotTables.SettleCh3Stage, SlotTables.SettleCh3Stream, ClaimChapterReward, RestoreCh3, FillPassPoints;
      hide SlotTables.ClaimPassReward, ActivateSeasons, BuyRewards, BuyContent, GrantOnce, WatchedAd, ClaimProfileRewards;
      hide ClaimEncoreRewards, ClaimPost, SendMail, Delete, SlotTables.ClaimEventReward, ClaimSamSeckStep;
      hide SlotTables.SelectPassSeason, GrantPackageContents, GiveFollowerGift, Follows, Told;
      match call {
        case UserSave(patch, multiplier, thresholds) => r := MergeUserSave(patch, multiplier, thresholds);
        case AdvanceQuest(current, sub, value, limits, rewards, nextId) =>
          r := AdvanceFollowerQuest(rules, current, sub, value, limits, rewards, nextId, now);
        case SetInfinite => r := SetFollowerQuestInfinite();
        case Attend(visit) => r := Attendance(visit);
        case ClaimGame(kind, id, level, quantity, limit, localDay, reward) =>
          r := ClaimGame(rules, kind, id, level, quantity, limit, localDay, reward, now);
        case SettleStage(stage, next, star, score, cost, cap, drops) =>
          r := SettleCh3Stage(rules, stage, next, star, score, cost, cap, drops, now);
        case SettleStream(stageId, count, costEach, cap, rolls) =>
          r := SettleCh3Stream(rules, stageId, count, costEach, cap, rolls, now);
        case ClaimChapter(chapter, num, goal, rewards, cap) =>
          r := ClaimCh3ChapterReward(rules, chapter, num, goal, rewards, cap, now);
        case SelectSeason(clock, season) => r := SelectPassSeason(clock, season);
        case SetFlag(flag, value) => r := SetOneTimeFlag(flag, value);
        case RestoreEnergy(cap) => r := Ch3SnapshotAt(cap, now);
        case Untracked => r := ChangeNothing();
        case Aborted(cause) => r := Fail(cause);
      }
    }

    method Run(rules: Rules, call: SlotCall, now: int) returns (r: Answer)
      modifies this
      ensures Follows(Apply(rules, old(Rows()), call, now), r, Rows())
    {
      hide Apply, Follows;
      if call.ClaimMail? || call.QueueMail? || call.DeleteMail? {
        r := RunMail(rules, call, now);
      } else if Collects(call) {
        r := RunCollect(rules, call, now);
      } else if call.FillPass? || call.ClaimPass? || call.ActivatePasses? {
        r := RunPass(rules, call, now);
      } else if Trades(call) {
        r := RunTrade(rules, call, now);
      } else {
        r := RunPlay(rules, call, now);
      }
    }

    method ChangeNothing() returns (r: Answer)
      ensures Follows(Told(Rows(), Plain), r, Rows())
    {
      return Ok((Plain, Plain));
    }

    method Fail(cause: StoreError) returns (r: Answer)
      ensures Follows(Err(cause), r, Rows())
    {
      return Err(cause);
    }

    /** `set_one_time_flag`. */
    method SetOneTimeFlag(flag: string, value: int) returns (r: Answer)
      modifies `flags
      ensures Follows(Told(old(Rows()).(flags := old(flags)[flag := value]), FlagReply(value)), r, Rows())
    {
      flags := flags[flag := value];
      return Ok((FlagReply(value), FlagReply(value)));
    }

    /** `delete_mail`. */
    method DeleteMail(post: int, all: bool) returns (r: Answer)
      modifies `mail
      ensures Follows(Told(old(Rows()).(mail := Delete(old(mail), post, all)), PostReply(post)), r, Rows())
    {
      mail := map p | p in mail :: if mail[p].claimed && (all || p == post) then mail[p].(deleted := true) else mail[p];
      return Ok((PostReply(post), PostReply(post)));
    }

    /** `claim_game_reward`. */
    method ClaimGame(rules: Rules, kind: GameKind, id: int, level: int, quantity: Number, limit: Number, localDay: int,
                     reward: Option<RewardGrant>, now: int) returns (r: Answer)
      modifies `achievements, `achievementClaims, `missions, `missionClaims, `holdings
      ensures Follows(ClaimGameReward(rules, old(Rows()), kind, id, level, quantity, limit, localDay, reward, now), r, Rows())
    {
      hide GrantOptional, LevelsClaimed, MissionsClaimed, Reported;
      match kind {
        case Achievement => r := ClaimAchievement(rules, id, level, quantity, limit, localDay, reward, now);
        case DailyMission => r := ClaimMission(rules, id, level, quantity, limit, localDay, reward, now);
        case OtherGame =>
          r := Err(if ValidAmount(quantity) && ValidAmount(limit) then UnsupportedReward else InvalidAmount);
      }
    }
  }

  /** The claim of an achievement level: too low a count, a wrong or claimed level, or a reward. */
  lemma AchievementOutcome(rules: Rules, t: Tables, id: int, level: int, quantity: Number, limit: Number, localDay: int,
                           reward: Option<RewardGrant>, now: int)
    ensures ClaimGameReward(rules, t, Achievement, id, level, quantity, limit, localDay, reward, now)
         == if !ValidAmount(quantity) || !ValidAmount(limit) then Err(InvalidAmount)
            else
              var counters := Reported(t.achievements, id, quantity.value, Some(t.book.count));
              if counters[id] < limit.value then Err(Locked)
              else if level != Saturate32(|LevelsClaimed(t.achievementClaims, id)| + 1) || (id, level) in t.achievementClaims
              then Err(AlreadyClaimed)
              else
                match GrantOptional(rules, t.holdings, reward, now)
                case Err(e) => Err(e)
                case Ok((holdings, told)) =>
                  Ok(Applied(t.(achievements := counters, achievementClaims := t.achievementClaims + {(id, level)},
                                holdings := holdings),
                             GameReply(Saturate32(level + 1), told), GameReply(Saturate32(level + 1), [])))
  {
    hide GrantOptional, LevelsClaimed, MissionsClaimed, Saturate32;
  }

  /** The claim of a daily mission level. */
  lemma MissionOutcome(rules: Rules, t: Tables, id: int, level: int, quantity: Number, limit: Number, localDay: int,
                       reward: Option<RewardGrant>, now: int)
    ensures ClaimGameReward(rules, t, DailyMission, id, level, quantity, limit, localDay, reward, now)
         == if !ValidAmount(quantity) || !ValidAmount(limit) then Err(InvalidAmount)
            else
              var counters := Reported(t.missions, id, quantity.value, None);
              if counters[id] < limit.value then Err(Locked)
              else if level != Saturate32(|MissionsClaimed(t.missionClaims, localDay, id)| + 1)
                || (localDay, id, level) in t.missionClaims
              then Err(AlreadyClaimed)
              else
                match GrantOptional(rules, t.holdings, reward, now)
                case Err(e) => Err(e)
                case Ok((holdings, told)) =>
                  Ok(Applied(t.(missions := counters, missionClaims := t.missionClaims + {(localDay, id, level)},
                                holdings := holdings),
                             GameReply(Saturate32(level + 1), told), GameReply(Saturate32(level + 1), [])))
  {
    hide GrantOptional, LevelsClaimed, MissionsClaimed, Saturate32;
  }

  /** A snapshot in parts: marks, then balances and content, then progress. */
  lemma SaveOutcome(t: Tables, patch: Patch, multiplier: int, thresholds: seq<PassThreshold>)
    ensures var marked := MarkAreas(t.flags, patch.areas);
      var o := SlotTables.MergeUserSave(t, patch, multiplier, thresholds);
      && (marked.Err? ==> o == Err(marked.error))
      && (marked.Ok? ==>
            var merged := SaveHoldings(t.holdings, marked.value, patch);
            && (merged.Err? ==> o == Err(merged.error))
            && (merged.Ok? ==>
                  o == Ok(Applied(Tables(merged.value, marked.value, MergeMusics(t.encores, merged.value.owned, patch.musics),
                                         MergeCounters(t.achievements, patch.achievements, Some(t.book.count)),
                                         t.achievementClaims, MergeCounters(t.missions, patch.missions, None),
                                         t.missionClaims, t.book, G.Save(t.guide, patch.quests),
                                         MergePasses(t.pass, patch.passes, multiplier, thresholds), t.rotation, t.stages,
                                         t.mail, t.purchases, t.rewardTransactions, t.events, t.affectionClaims),
                                  Plain, Plain))))
  {
    hide MarkAreas, SaveHoldings, MergeMusics, MergeCounters, MergePasses, G.Save;
  }

  lemma FinishKeepsEarned(g: G.Guide, stage: int, nextId: Option<int>, earned: bool)
    ensures G.Finish(g, stage, nextId, earned).earned == earned
  {
  }

  type GrantedRolls = Result<(Holdings, seq<Roll>), StoreError>

  function PrependRolls(before: seq<Roll>, rest: GrantedRolls): GrantedRolls {
    match rest
    case Ok((h, told)) => Ok((h, before + told))
    case Err(e) => Err(e)
  }

  lemma RollsPrependNothing(rest: GrantedRolls)
    ensures PrependRolls([], rest) == rest
  {
    if rest.Ok? {
      assert [] + rest.value.1 == rest.value.1;
    }
  }

  lemma RollsPrependOne(rules: Rules, h: Holdings, rolls: seq<Roll>, now: int, before: seq<Roll>)
    requires rolls != [] && GrantAll(rules, h, rolls[0].rewards, now).Ok?
    ensures var (next, told) := GrantAll(rules, h, rolls[0].rewards, now).value;
      PrependRolls(before, GrantRolls(rules, h, rolls, now))
        == PrependRolls(before + [Roll(rolls[0].roll, told)], GrantRolls(rules, next, rolls[1..], now))
  {
    hide GrantAll;
    var (next, told) := GrantAll(rules, h, rolls[0].rewards, now).value;
    var rest := GrantRolls(rules, next, rolls[1..], now);
    if rest.Ok? {
      var one := [Roll(rolls[0].roll, told)];
      assert before + (one + rest.value.1) == (before + one) + rest.value.1;
    }
  }

  lemma RollFails(rules: Rules, h: Holdings, rolls: seq<Roll>, now: int)
    requires rolls != [] && GrantAll(rules, h, rolls[0].rewards, now).Err?
    ensures GrantRolls(rules, h, rolls, now) == Err(GrantAll(rules, h, rolls[0].rewards, now).error)
  {
    hide GrantAll;
  }

  lemma NoRolls(rules: Rules, h: Holdings, now: int)
    ensures GrantRolls(rules, h, [], now) == Ok((h, []))
  {
  }

  type GrantedLevels = Result<(Holdings, set<(int, int)>, seq<ProfileItem>), StoreError>

  function PrependLevels(before: seq<ProfileItem>, rest: GrantedLevels): GrantedLevels {
    match rest
    case Ok((h, claims, told)) => Ok((h, claims, before + told))
    case Err(e) => Err(e)
  }

  lemma LevelsPrependNothing(rest: GrantedLevels)
    ensures PrependLevels([], rest) == rest
  {
    if rest.Ok? {
      assert [] + rest.value.2 == rest.value.2;
    }
  }

  lemma NoLevels(rules: Rules, h: Holdings, claims: set<(int, int)>, follower: int, profileLevel: int, now: int)
    ensures GrantLevels(rules, h, claims, follower, profileLevel, [], now) == Ok((h, claims, []))
  {
  }

  lemma LevelsStep(rules: Rules, h: Holdings, claims: set<(int, int)>, follower: int, profileLevel: int,
                   requested: seq<ProfileItem>, now: int, before: seq<ProfileItem>)
    requires requested != []
    ensures var level := requested[0].level;
      var all := GrantLevels(rules, h, claims, follower, profileLevel, requested, now);
      if level <= 0 || level > profileLevel then all == Err(Locked)
      else if (follower, level) in claims then all == GrantLevels(rules, h, claims, follower, profileLevel, requested[1..], now)
      else
        var granted := GrantAll(rules, h, requested[0].rewards, now);
        if granted.Err? then all == Err(granted.error)
        else
          PrependLevels(before, all)
            == PrependLevels(before + [ProfileItem(level, granted.value.1)],
                             GrantLevels(rules, granted.value.0, claims + {(follower, level)}, follower, profileLevel,
                                         requested[1..], now))
  {
    hide GrantAll;
    var level := requested[0].level;
    var granted := GrantAll(rules, h, requested[0].rewards, now);
    if granted.Ok? && !(level <= 0 || level > profileLevel) && (follower, level) !in claims {
      var rest := GrantLevels(rules, granted.value.0, claims + {(follower, level)}, follower, profileLevel, requested[1..], now);
      if rest.Ok? {
        var one := [ProfileItem(level, granted.value.1)];
        assert before + (one + rest.value.2) == (before + one) + rest.value.2;
      }
    }
  }

  type Encored = (map<int, Encore>, seq<(int, int)>, seq<int>)

  function PrependEncores(gifts: seq<(int, int)>, rejected: seq<int>, rest: Encored): Encored {
    (rest.0, gifts + rest.1, rejected + rest.2)
  }

  lemma EncoresPrependNothing(rest: Encored)
    ensures PrependEncores([], [], rest) == rest
  {
    assert [] + rest.1 == rest.1 && [] + rest.2 == rest.2;
  }

  lemma NoEncores(encores: map<int, Encore>, owned: map<Content, int>, now: int)
    ensures TakeEncores(encores, owned, [], now) == (encores, [], [])
  {
  }

  lemma EncoresStep(encores: map<int, Encore>, owned: map<Content, int>, items: seq<EncoreItem>, now: int,
                    gifts: seq<(int, int)>, rejected: seq<int>)
    requires items != []
    ensures var item := items[0];
      var cooling := item.music in encores && !encores[item.music].appears && encores[item.music].readyAt > now;
      PrependEncores(gifts, rejected, TakeEncores(encores, owned, items, now))
        == if Content(Music, item.music) !in owned || cooling
           then PrependEncores(gifts, rejected + [Saturate32(item.music)], TakeEncores(encores, owned, items[1..], now))
           else PrependEncores(gifts + [(Saturate32(item.music), MaxInt(item.gift, 0))], rejected,
                               TakeEncores(encores[item.music := Encore(false, item.readyAt)], owned, items[1..], now))
  {
    var item := items[0];
    var cooling := item.music in encores && !encores[item.music].appears && encores[item.music].readyAt > now;
    if Content(Music, item.music) !in owned || cooling {
      var rest := TakeEncores(encores, owned, items[1..], now);
      var one := [Saturate32(item.music)];
      assert rejected + (one + rest.2) == (rejected + one) + rest.2;
    } else {
      var rest := TakeEncores(encores[item.music := Encore(false, item.readyAt)], owned, items[1..], now);
      var one := [(Saturate32(item.music), MaxInt(item.gift, 0))];
      assert gifts + (one + rest.1) == (gifts + one) + rest.1;
    }
  }

  lemma {:induction false} GiftTotalAppend(gifts: seq<(int, int)>, one: (int, int))
    ensures GiftTotal(gifts + [one]) == GiftTotal(gifts) + one.1
    decreases |gifts|
  {
    if gifts == [] {
      assert [] + [one] == [one] && [one][1..] == [];
    } else {
      GiftTotalAppend(gifts[1..], one);
      assert (gifts + [one])[1..] == gifts[1..] + [one];
    }
  }

  /** `total_candy.saturating_add(..)` over gifts that are not negative. */
  method TotalGift(gifts: seq<(int, int)>) returns (total: int)
    requires forall i | 0 <= i < |gifts| :: gifts[i].1 >= 0
    ensures total == Saturate64(GiftTotal(gifts))
  {
    total := 0;
    var i := 0;
    while i < |gifts|
      invariant i <= |gifts|
      invariant GiftTotal(gifts[..i]) >= 0 && total == Saturate64(GiftTotal(gifts[..i]))
    {
      GiftTotalAppend(gifts[..i], gifts[i]);
      assert gifts[..i + 1] == gifts[..i] + [gifts[i]];
      total := Saturate64(total + gifts[i].1);
      i := i + 1;
    }
    assert gifts[..i] == gifts;
  }

  lemma FirstFails(rules: Rules, h: Holdings, rewards: seq<RewardGrant>, now: int)
    requires rewards != [] && Grant(rules, h, rewards[0], now).Err?
    ensures GrantAll(rules, h, rewards, now) == Err(Grant(rules, h, rewards[0], now).error)
  {
    hide Grant;
  }

  lemma NothingToGrant(rules: Rules, h: Holdings, now: int)
    ensures GrantAll(rules, h, [], now) == Ok((h, []))
  {
  }

  // ----- Thresholds -----

  /** The steps of one season, in order. */
  method SeasonSteps(thresholds: seq<PassThreshold>, season: int) returns (steps: P.Steps)
    ensures steps == StepsOf(thresholds, season)
  {
    steps := [];
    var i := 0;
    assert thresholds[0..] == thresholds && [] + StepsOf(thresholds, season) == StepsOf(thresholds, season);
    while i < |thresholds|
      invariant i <= |thresholds|
      invariant steps + StepsOf(thresholds[i..], season) == StepsOf(thresholds, season)
    {
      assert thresholds[i..][1..] == thresholds[i + 1..];
      if thresholds[i].season == season {
        var one := (thresholds[i].step, thresholds[i].goal);
        assert steps + ([one] + StepsOf(thresholds[i + 1..], season)) == (steps + [one]) + StepsOf(thresholds[i + 1..], season);
        steps := steps + [one];
      } else {
        assert [] + StepsOf(thresholds[i + 1..], season) == StepsOf(thresholds[i + 1..], season);
      }
      i := i + 1;
    }
    assert thresholds[i..] == [] && steps + [] == steps;
  }

  /** The largest step whose goal the points reach, 0 when there is none. */
  method LargestReached(steps: P.Steps, points: int) returns (best: int)
    ensures best == P.BestStep(steps, points)
  {
    var largest: Option<int> := None;
    var i := 0;
    while i < |steps|
      invariant i <= |steps|
      invariant largest.None? ==> forall j | 0 <= j < i :: steps[j].1 > points
      invariant largest.Some? ==>
        && (exists j | 0 <= j < i :: steps[j].1 <= points && steps[j].0 == largest.value)
        && (forall j | 0 <= j < i && steps[j].1 <= points :: steps[j].0 <= largest.value)
    {
      if steps[i].1 <= points && (largest.None? || largest.value < steps[i].0) {
        largest := Some(steps[i].0);
      }
      i := i + 1;
    }
    best := largest.GetOr(0);
    ghost var reached := P.ReachedSteps(steps, points);
    if largest.Some? {
      assert largest.value in reached;
      assert MaxOf(reached) == largest.value;
    } else {
      assert reached == {};
    }
  }
}
