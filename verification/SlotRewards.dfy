/**
 What a reward can change in a slot, and how rewards are granted and paid for:
 `apply_reward_grant`, `grant_fan_reward` and `deduct_currency` in crates/persistence-sqlite/src/lib.rs.
 */
module SlotRewards {
  import opened Wrappers
  import opened Text
  import opened SaveDomain
  import E = Ch3Energy

  /**
   Balances, owned content with its area, content levels, tickets, gifts, energy, and the instant
   the fever buff ends.
   */
  datatype Holdings = Holdings(wallet: Wallet, owned: map<Content, int>, levels: map<Content, int>,
                               tickets: set<int>, gifts: map<int, int>, energy: E.Energy, feverEnd: Option<int>)

  /**
   The two float computations of the store, left open: fans gained from the owned costumes, an
   area and a multiplier; and the price of a content level from price, increment and step.
   */
  datatype Rules = Rules(fanGain: (set<int>, int, real) -> Result<nat, StoreError>,
                         stepPrice: (real, real, int) -> Number)

  function OwnedOf(owned: map<Content, int>, kind: ContentKind): set<int> {
    set c | c in owned && c.kind == kind :: c.id
  }

  /** The balance a consumable id credits literally; fans (8, 9) and cookies (11) are no such id. */
  function CurrencyOf(rewardId: int): Option<CurrencyKind> {
    match rewardId
    case 1 => Some(Chocolate)
    case 2 => Some(Candy)
    case 3 => Some(Ch1Like)
    case 4 => Some(Ch1Like)
    case 5 => Some(Ch2Note)
    case 6 => Some(Ch2Like)
    case 7 => Some(Ch2Like)
    case 10 => Some(Ch2Note)
    case _ => None
  }

  function ContentOfType(rewardType: int): Option<ContentKind> {
    match rewardType
    case 2 => Some(Music)
    case 3 => Some(Costume)
    case 4 => Some(Prop)
    case 5 => Some(Follower)
    case 6 => Some(Buff)
    case 7 => Some(Unit)
    case 8 => Some(Skill)
    case 9 => Some(Guitar)
    case _ => None
  }

  /** `INSERT OR IGNORE`. */
  function InsertNew<K, V>(m: map<K, V>, k: K, v: V): map<K, V> {
    if k in m then m else m[k := v]
  }

  function AddGift(h: Holdings, gift: int, count: nat): Result<Holdings, StoreError> {
    var total := (if gift in h.gifts then h.gifts[gift] else 0) + count;
    if total > I64_MAX then Err(SqlConstraint) else Ok(h.(gifts := h.gifts[gift := total]))
  }

  /** A fever reward counts seconds, at least one, and extends a fever that still runs. */
  function Fever(h: Holdings, amount: real, now: int): Holdings {
    var seconds := MaxInt(RoundCount(amount), 1);
    h.(feverEnd := Some(Saturate64(MaxInt(h.feverEnd.GetOr(now), now) + seconds)),
       owned := InsertNew(h.owned, Content(Buff, 2), 0),
       levels := InsertNew(h.levels, Content(Buff, 2), 1))
  }

  /** New content starts at level 1 unless a level is already stored. */
  function Acquire(h: Holdings, content: Content, area: int): Holdings {
    h.(owned := InsertNew(h.owned, content, area), levels := InsertNew(h.levels, content, 1))
  }

  /** One reward; the flag tells whether it changed anything the client must be told. */
  function Grant(rules: Rules, h: Holdings, reward: RewardGrant, now: int): Result<(Holdings, bool), StoreError> {
    if !ValidAmount(reward.amount) then Err(InvalidAmount)
    else
      var amount := reward.amount.value;
      if reward.rewardType == 1 then
        if reward.rewardId in {8, 9} then
          var gain :- rules.fanGain(OwnedOf(h.owned, Costume), reward.rewardId - 7, amount);
          Ok((if reward.rewardId == 8 then h.(wallet := Credit(h.wallet, Fans, gain as real)) else h, true))
        else if reward.rewardId == 11 then Ok((h.(energy := E.Eat(h.energy, now, RoundCount(amount))), true))
        else
          match CurrencyOf(reward.rewardId)
          case None => Err(UnsupportedReward)
          case Some(kind) => Ok((h.(wallet := Credit(h.wallet, kind, amount)), true))
      else if reward.rewardType == 6 && reward.rewardId == 2 then Ok((Fever(h, amount, now), true))
      else if reward.rewardType == 10 then
        Ok((h.(tickets := h.tickets + {reward.rewardId}), reward.rewardId !in h.tickets))
      else if reward.rewardType == 11 then
        var after :- AddGift(h, reward.rewardId, RoundCount(amount));
        Ok((after, true))
      else
        match ContentOfType(reward.rewardType)
        case None => Err(UnsupportedReward)
        case Some(kind) =>
          var content := Content(kind, reward.rewardId);
          if content in h.owned then Ok((h, false)) else Ok((Acquire(h, content, 0), true))
  }

  /** The rewards of a list in order; the result names those that changed something. */
  function GrantAll(rules: Rules, h: Holdings, rewards: seq<RewardGrant>, now: int)
    : Result<(Holdings, seq<RewardGrant>), StoreError>
    decreases |rewards|
  {
    if rewards == [] then Ok((h, []))
    else
      var (next, told) :- Grant(rules, h, rewards[0], now);
      var (after, rest) :- GrantAll(rules, next, rewards[1..], now);
      Ok((after, if told then [rewards[0]] + rest else rest))
  }

  function Pay(h: Holdings, kind: CurrencyKind, amount: Number): Result<Holdings, StoreError> {
    var wallet :- Deduct(h.wallet, kind, amount);
    Ok(h.(wallet := wallet))
  }

  // ----- What granting keeps -----

  /** What one reward adds to a balance other than fans. */
  function Worth(reward: RewardGrant, kind: CurrencyKind): real {
    if ValidAmount(reward.amount) && reward.rewardType == 1 && CurrencyOf(reward.rewardId) == Some(kind)
    then reward.amount.value else 0.0
  }

  function TotalWorth(rewards: seq<RewardGrant>, kind: CurrencyKind): real {
    if rewards == [] then 0.0 else Worth(rewards[0], kind) + TotalWorth(rewards[1..], kind)
  }

  lemma {:induction false} TotalWorthAppend(a: seq<RewardGrant>, b: seq<RewardGrant>, kind: CurrencyKind)
    ensures TotalWorth(a + b, kind) == TotalWorth(a, kind) + TotalWorth(b, kind)
    decreases |a|
  {
    if a == [] {
      assert a + b == b;
    } else {
      TotalWorthAppend(a[1..], b, kind);
      assert (a + b)[1..] == a[1..] + b;
    }
  }

  lemma {:induction false} TotalWorthNatural(rewards: seq<RewardGrant>, kind: CurrencyKind)
    ensures TotalWorth(rewards, kind) >= 0.0
    decreases |rewards|
  {
    if rewards != [] {
      TotalWorthNatural(rewards[1..], kind);
    }
  }

  /** Ownership, levels and tickets are never taken away. */
  ghost predicate Keeps(h: Holdings, h': Holdings) {
    && (forall c | c in h.owned :: c in h'.owned && h'.owned[c] == h.owned[c])
    && (forall c | c in h.levels :: c in h'.levels && h.levels[c] <= h'.levels[c])
    && h.tickets <= h'.tickets
  }

  /** `CHECK(quantity>=0)` of the gifts, and the range of their column. */
  predicate GiftsInRange(h: Holdings) {
    forall g | g in h.gifts :: 0 <= h.gifts[g] <= I64_MAX
  }

  lemma KeepsTransitive(a: Holdings, b: Holdings, c: Holdings)
    requires Keeps(a, b) && Keeps(b, c)
    ensures Keeps(a, c)
  {
  }

  /** A cookie, as a step of the energy. */
  function CookieOf(reward: RewardGrant, now: int): seq<E.EnergyStep> {
    if reward.rewardType == 1 && reward.rewardId == 11 && ValidAmount(reward.amount)
    then [E.EatAt(now, RoundCount(reward.amount.value))] else []
  }

  function Cookies(rewards: seq<RewardGrant>, now: int): seq<E.EnergyStep> {
    if rewards == [] then [] else CookieOf(rewards[0], now) + Cookies(rewards[1..], now)
  }

  /** One reward credits exactly its worth, keeps balances non-negative and takes nothing away. */
  lemma GrantEffect(rules: Rules, h: Holdings, reward: RewardGrant, now: int)
    requires Grant(rules, h, reward, now).Ok?
    ensures var (after, told) := Grant(rules, h, reward, now).value;
      && (forall kind | kind != Fans :: Balance(after.wallet, kind) == Balance(h.wallet, kind) + Worth(reward, kind))
      && Balance(h.wallet, Fans) <= Balance(after.wallet, Fans)
      && (reward.rewardType == 1 ==> told)
      && Keeps(h, after) && (GiftsInRange(h) ==> GiftsInRange(after))
  {
  }

  lemma GrantEnergy(rules: Rules, h: Holdings, reward: RewardGrant, now: int, cap: int)
    requires Grant(rules, h, reward, now).Ok?
    ensures E.Reaches(h.energy, Grant(rules, h, reward, now).value.0.energy, CookieOf(reward, now), cap)
  {
    var after := Grant(rules, h, reward, now).value.0;
    var steps := CookieOf(reward, now);
    assert E.Reaches(after.energy, after.energy, [], cap);
    if steps != [] {
      assert steps[0] == E.EatAt(now, RoundCount(reward.amount.value)) && steps[1..] == [];
    }
  }

  /**
   A list of rewards credits each balance but fans with the total worth of the list, and the
   rewards the client is told about carry that same worth.
   */
  lemma {:induction false} GrantAllEffect(rules: Rules, h: Holdings, rewards: seq<RewardGrant>, now: int)
    requires GrantAll(rules, h, rewards, now).Ok?
    ensures var (after, told) := GrantAll(rules, h, rewards, now).value;
      && (forall kind | kind != Fans ::
            Balance(after.wallet, kind) == Balance(h.wallet, kind) + TotalWorth(rewards, kind))
      && (forall kind | kind != Fans :: TotalWorth(told, kind) == TotalWorth(rewards, kind))
      && Balance(h.wallet, Fans) <= Balance(after.wallet, Fans)
      && Keeps(h, after) && (GiftsInRange(h) ==> GiftsInRange(after))
    decreases |rewards|
  {
    if rewards == [] {
    } else {
      var (next, told) := Grant(rules, h, rewards[0], now).value;
      var (after, rest) := GrantAll(rules, next, rewards[1..], now).value;
      GrantEffect(rules, h, rewards[0], now);
      GrantAllEffect(rules, next, rewards[1..], now);
      hide Grant, Keeps, Balance, GiftsInRange;
      KeepsTransitive(h, next, after);
      if told {
        assert ([rewards[0]] + rest)[1..] == rest;
      }
    }
  }

  lemma {:induction false} GrantAllEnergy(rules: Rules, h: Holdings, rewards: seq<RewardGrant>, now: int, cap: int)
    requires GrantAll(rules, h, rewards, now).Ok?
    ensures E.Reaches(h.energy, GrantAll(rules, h, rewards, now).value.0.energy, Cookies(rewards, now), cap)
    decreases |rewards|
  {
    if rewards == [] {
    } else {
      var next := Grant(rules, h, rewards[0], now).value.0;
      var after := GrantAll(rules, next, rewards[1..], now).value.0;
      GrantEnergy(rules, h, rewards[0], now, cap);
      GrantAllEnergy(rules, next, rewards[1..], now, cap);
      hide Grant, E.Reaches;
      E.ReachesAppend(h.energy, next.energy, after.energy, CookieOf(rewards[0], now), Cookies(rewards[1..], now), cap);
    }
  }

  /** Non-negative balances stay non-negative. */
  lemma GrantAllNonNegative(rules: Rules, h: Holdings, rewards: seq<RewardGrant>, now: int)
    requires GrantAll(rules, h, rewards, now).Ok? && NonNegative(h.wallet)
    ensures NonNegative(GrantAll(rules, h, rewards, now).value.0.wallet)
  {
    GrantAllEffect(rules, h, rewards, now);
    hide GrantAll, Balance;
    var after := GrantAll(rules, h, rewards, now).value.0;
    forall kind ensures Balance(after.wallet, kind) >= 0.0 {
      TotalWorthNatural(rewards, kind);
      assert Balance(h.wallet, kind) >= 0.0;
    }
  }

  /** Paying takes exactly the amount, only when it is there, and changes no other balance. */
  lemma PayEffect(h: Holdings, kind: CurrencyKind, amount: Number)
    ensures Pay(h, kind, amount).Ok? <==> ValidAmount(amount) && (amount.value == 0.0 || amount.value <= Balance(h.wallet, kind))
    ensures Pay(h, kind, amount).Ok? ==>
      var after := Pay(h, kind, amount).value;
      && after == h.(wallet := after.wallet)
      && (forall k :: Balance(after.wallet, k) == Balance(h.wallet, k) - if k == kind then amount.value else 0.0)
      && (NonNegative(h.wallet) ==> NonNegative(after.wallet))
  {
  }
}
