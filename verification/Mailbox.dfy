/**
 The mailbox of a slot: queueing, claiming and deleting mail, and the stored form of its rewards
 (`queue_mail`, `queue_reward_mail_tx`, `claim_mail_rpc`, `delete_mail`, `stored_reward_grant`,
 `apply_stored_reward` in crates/persistence-sqlite/src/lib.rs).
 */
module Mailbox {
  import opened Wrappers
  import opened SaveDomain
  import opened SlotRewards

  /** `reward_kind` of a mail row: the key of a currency or of a kind of content. */
  datatype RowKind = CurrencyRow(currency: CurrencyKind) | ContentRow(content: ContentKind)

  /** A row of `mail_rewards`; an amount that is not a number is stored as NULL. */
  datatype StoredReward = StoredReward(kind: RowKind, rewardId: Option<int>, amount: Option<Number>, area: int)

  datatype MailRow = MailRow(reward: StoredReward, claimed: bool, deleted: bool)

  type Mail = map<int, MailRow>

  /** What a sender asks for. */
  datatype Reward =
    | CurrencyReward(currency: CurrencyKind, amount: Number)
    | ContentReward(content: ContentKind, area: int, id: int)

  function Nullable(amount: Number): Option<Number> {
    if amount.NaN? then None else Some(amount)
  }

  // ----- Queueing -----

  /** Content is mailed only when the player neither owns it nor has it waiting in the mail. */
  predicate Deliverable(owned: map<Content, int>, mail: Mail, reward: Reward) {
    reward.ContentReward? ==>
      && !(Content(reward.content, reward.id) in owned && owned[Content(reward.content, reward.id)] in {0, reward.area})
      && forall p | p in mail ::
           !(!mail[p].claimed && !mail[p].deleted && mail[p].reward.kind == ContentRow(reward.content)
             && mail[p].reward.rewardId == Some(reward.id) && mail[p].reward.area in {0, reward.area})
  }

  function StoredOf(reward: Reward): StoredReward {
    match reward
    case CurrencyReward(currency, amount) => StoredReward(CurrencyRow(currency), None, Nullable(amount), 0)
    case ContentReward(content, area, id) => StoredReward(ContentRow(content), Some(id), None, area)
  }

  /** `queue_mail`; the flag tells whether the post is new. */
  function Queue(owned: map<Content, int>, mail: Mail, post: int, reward: Reward): Result<(Mail, bool), StoreError> {
    if !Deliverable(owned, mail, reward) then Err(AlreadyOwned)
    else Ok((InsertNew(mail, post, MailRow(StoredOf(reward), false, false)), post !in mail))
  }

  /** The post id a generated mail gets. */
  function NextPost(mail: Mail): int {
    MaxOr(mail.Keys, 0) + 1
  }

  /** The currency and area of a consumable id of the shared consume table. */
  function ConsumeOf(id: int): Option<(Option<CurrencyKind>, int)> {
    match id
    case 8 => Some((Some(Fans), 1))
    case 9 => Some((Some(Fans), 2))
    case 11 => Some((None, 3))
    case _ =>
      match CurrencyOf(id)
      case None => None
      case Some(kind) => Some((Some(kind), if id <= 2 then 0 else if id <= 4 then 1 else 2))
  }

  function StoredOfGrant(reward: RewardGrant): Result<StoredReward, StoreError> {
    if reward.rewardType == 1 then
      match ConsumeOf(reward.rewardId)
      case None => Err(UnsupportedReward)
      case Some((None, _)) => Err(UnsupportedReward)
      case Some((Some(kind), area)) =>
        Ok(StoredReward(CurrencyRow(kind), Some(reward.rewardId), Nullable(reward.amount), area))
    else
      var content := if reward.rewardType == 11 then Some(Gift) else ContentOfType(reward.rewardType);
      match content
      case None => Err(UnsupportedReward)
      case Some(kind) => Ok(StoredReward(ContentRow(kind), Some(reward.rewardId), Nullable(reward.amount), 0))
  }

  /** `queue_reward_mail_tx`: a post that exists already is left as it is. */
  function QueueGrant(mail: Mail, post: int, reward: RewardGrant): Result<Mail, StoreError> {
    if post in mail then Ok(mail)
    else
      var stored :- StoredOfGrant(reward);
      Ok(mail[post := MailRow(stored, false, false)])
  }

  // ----- Claiming -----

  function TypeOfContent(content: ContentKind): Option<int> {
    match content
    case Music => Some(2)
    case Costume => Some(3)
    case Prop => Some(4)
    case Follower => Some(5)
    case Buff => Some(6)
    case Unit => Some(7)
    case Skill => Some(8)
    case Guitar => Some(9)
    case Gift => Some(11)
    case Character => None
  }

  /** The consumable id told for a currency row that has none. */
  function LegacyId(kind: CurrencyKind): Option<int> {
    match kind
    case Chocolate => Some(1)
    case Candy => Some(2)
    case Ch1Like => Some(4)
    case Ch2Note => Some(5)
    case Ch2Like => Some(6)
    case Fans => Some(8)
    case _ => None
  }

  /** The grant the client is told about. */
  function Announced(stored: StoredReward): Result<RewardGrant, StoreError> {
    var amount := stored.amount.GetOr(Finite(1.0));
    match stored.kind
    case CurrencyRow(kind) =>
      if LegacyId(kind).None? then Err(UnsupportedReward)
      else if stored.rewardId.None? then Ok(RewardGrant(1, LegacyId(kind).value, amount))
      else if ConsumeOf(stored.rewardId.value).Some? && ConsumeOf(stored.rewardId.value).value.0 == Some(kind)
      then Ok(RewardGrant(1, stored.rewardId.value, amount))
      else Err(UnsupportedReward)
    case ContentRow(content) =>
      match TypeOfContent(content)
      case None => Err(UnsupportedReward)
      case Some(t) => Ok(RewardGrant(t, MaxInt(0, MinInt(stored.rewardId.GetOr(0), I32_MAX)), amount))
  }

  function GiftCount(amount: Option<Number>): nat {
    match amount
    case None => 1
    case Some(Finite(value)) => RoundCount(value)
    case Some(PosInfinity) => RoundCount(I64_LIMIT)
    case Some(_) => 0
  }

  const I64_LIMIT := 9_223_372_036_854_775_807.0

  /** Gives the player what the row says; currency rows credit their amount, 0 when it is NULL. */
  function ApplyStored(rules: Rules, h: Holdings, stored: StoredReward, now: int): Result<Holdings, StoreError> {
    match stored.kind
    case CurrencyRow(kind) =>
      if kind == Fans then
        var grant :- Announced(stored);
        var granted :- Grant(rules, h, grant, now);
        Ok(granted.0)
      else
        var amount := stored.amount.GetOr(Finite(0.0));
        if !ValidAmount(amount) then Err(InvalidAmount)
        else Ok(h.(wallet := Credit(h.wallet, kind, amount.value)))
    case ContentRow(content) =>
      if stored.rewardId.None? then Err(UnsupportedReward)
      else if content == Gift then AddGift(h, stored.rewardId.value, GiftCount(stored.amount))
      else Ok(Acquire(h, Content(content, stored.rewardId.value), stored.area))
  }

  function Claim(rules: Rules, h: Holdings, mail: Mail, post: int, now: int)
    : Result<(Holdings, Mail, RewardGrant), StoreError>
  {
    if post !in mail || mail[post].deleted then Err(MissingMail(post))
    else if mail[post].claimed then Err(MailAlreadyClaimed(post))
    else
      var grant :- Announced(mail[post].reward);
      var after :- ApplyStored(rules, h, mail[post].reward, now);
      Ok((after, mail[post := mail[post].(claimed := true)], grant))
  }

  /** Only claimed mail can be deleted; `all` deletes every claimed one. */
  function Delete(mail: Mail, post: int, all: bool): Mail {
    map p | p in mail :: if mail[p].claimed && (all || p == post) then mail[p].(deleted := true) else mail[p]
  }

  // ----- What mail promises -----

  /** What claiming a row adds to a balance other than fans. */
  function Credited(stored: StoredReward, kind: CurrencyKind): real {
    if stored.kind == CurrencyRow(kind) && stored.amount.Some? && stored.amount.value.Finite?
    then stored.amount.value.value else 0.0
  }

  /** Posts that were claimed, deleted or not. */
  function ClaimedPosts(mail: Mail): set<int> {
    set p | p in mail && mail[p].claimed
  }

  /** Posts stay with their rewards, and claimed ones stay claimed. */
  ghost predicate Grows(mail: Mail, mail': Mail) {
    forall p | p in mail ::
      && p in mail' && mail'[p].reward == mail[p].reward
      && (mail[p].claimed ==> mail'[p].claimed) && (mail[p].deleted ==> mail'[p].deleted)
  }

  /** A claim pays what the row holds, takes nothing away, and turns exactly this post to claimed. */
  lemma ClaimEffect(rules: Rules, h: Holdings, mail: Mail, post: int, now: int)
    requires Claim(rules, h, mail, post, now).Ok?
    ensures var (after, mail', _) := Claim(rules, h, mail, post, now).value;
      && post in mail && !mail[post].claimed && !mail[post].deleted
      && ClaimedPosts(mail') == ClaimedPosts(mail) + {post} && Grows(mail, mail')
      && (forall kind | kind != Fans ::
            Balance(after.wallet, kind) == Balance(h.wallet, kind) + Credited(mail[post].reward, kind))
      && (NonNegative(h.wallet) ==> NonNegative(after.wallet))
      && Keeps(h, after) && after.energy == h.energy && (GiftsInRange(h) ==> GiftsInRange(after))
  {
    var (after, mail', _) := Claim(rules, h, mail, post, now).value;
    assert forall p :: p in ClaimedPosts(mail') <==> p in ClaimedPosts(mail) + {post};
    hide ClaimedPosts;
    ApplyStoredEffect(rules, h, mail[post].reward, now);
    hide ApplyStored, Announced;
  }

  lemma ApplyStoredEffect(rules: Rules, h: Holdings, stored: StoredReward, now: int)
    requires ApplyStored(rules, h, stored, now).Ok? && Announced(stored).Ok?
    ensures var after := ApplyStored(rules, h, stored, now).value;
      && (forall kind | kind != Fans :: Balance(after.wallet, kind) == Balance(h.wallet, kind) + Credited(stored, kind))
      && (NonNegative(h.wallet) ==> NonNegative(after.wallet))
      && Keeps(h, after) && after.energy == h.energy && (GiftsInRange(h) ==> GiftsInRange(after))
  {
    if stored.kind == CurrencyRow(Fans) {
      var grant := Announced(stored).value;
      GrantEffect(rules, h, grant, now);
      assert grant.rewardType == 1 && grant.rewardId in {8, 9};
    }
  }

  /** The currency told is the currency credited, exactly when the row is no balance with a NULL amount. */
  lemma AnnouncesWhatItCredits(rules: Rules, h: Holdings, stored: StoredReward, now: int)
    requires Announced(stored).Ok? && ApplyStored(rules, h, stored, now).Ok?
    ensures (forall kind | kind != Fans :: Worth(Announced(stored).value, kind) == Credited(stored, kind))
       <==> !(stored.kind.CurrencyRow? && stored.kind.currency != Fans && stored.amount.None?)
  {
    var grant := Announced(stored).value;
    if stored.kind.CurrencyRow? && stored.kind.currency != Fans {
      assert grant.rewardType == 1 && CurrencyOf(grant.rewardId) == Some(stored.kind.currency);
      if stored.amount.None? {
        assert Worth(grant, stored.kind.currency) == 1.0;
      }
    } else if stored.kind.CurrencyRow? {
      assert CurrencyOf(grant.rewardId) == None;
    }
  }

  /** A post can be claimed at most once: claiming it again fails with its own error. */
  lemma ClaimOnce(rules: Rules, h: Holdings, mail: Mail, post: int, now: int, h2: Holdings, mail2: Mail, later: int)
    requires Claim(rules, h, mail, post, now).Ok? && Grows(Claim(rules, h, mail, post, now).value.1, mail2)
    ensures Claim(rules, h2, mail2, post, later)
         == Err(if mail2[post].deleted then MissingMail(post) else MailAlreadyClaimed(post))
  {
  }

  lemma QueueGrows(owned: map<Content, int>, mail: Mail, post: int, reward: Reward, grant: RewardGrant, all: bool)
    ensures Queue(owned, mail, post, reward).Ok? ==>
      var (mail', _) := Queue(owned, mail, post, reward).value;
      Grows(mail, mail') && ClaimedPosts(mail') == ClaimedPosts(mail)
    ensures QueueGrant(mail, post, grant).Ok? ==>
      Grows(mail, QueueGrant(mail, post, grant).value)
      && ClaimedPosts(QueueGrant(mail, post, grant).value) == ClaimedPosts(mail)
    ensures Grows(mail, Delete(mail, post, all)) && ClaimedPosts(Delete(mail, post, all)) == ClaimedPosts(mail)
  {
    hide StoredOf, StoredOfGrant;
  }

  /** A generated post id is free, so a generated mail is always new. */
  lemma NextPostFree(mail: Mail)
    ensures NextPost(mail) !in mail
  {
    if mail.Keys != {} {
      assert forall p | p in mail.Keys :: p <= MaxOf(mail.Keys);
    }
  }
}
