/**
 What every command keeps: the invariants of each feature hold after any accepted command whose
 fixed arguments come from the master catalog, and recorded progress is never lost.
 */
module SlotHealth {
  import opened Wrappers
  import opened Text
  import opened SaveDomain
  import opened SlotRewards
  import opened Mailbox
  import opened SlotTables
  import E = Ch3Energy
  import G = GuideChain
  import A = AttendanceBook
  import P = PassLedger
  import C = Ch3Stages
  import R = PassRotation

  const ENERGY_CAP := 200

  /** Guide thresholds, passes and chapter-three stages of the master data. */
  datatype Master = Master(quests: G.Thresholds, passes: P.Catalog, stages: C.Catalog)

  ghost predicate ValidMaster(m: Master) {
    C.WellFormed(m.stages) && forall id | id in m.quests :: FitsI64(id) && id < I64_MAX
  }

  /** The arguments the request handlers take from the master data, not from the client. */
  ghost predicate IssuedBy(m: Master, call: SlotCall) {
    match call
    case UserSave(_, _, thresholds) => forall season :: P.Lists(StepsOf(thresholds, season), P.GoalsOf(m.passes, season))
    case AdvanceQuest(current, _, _, limits, _, nextId) =>
      current in m.quests && limits == m.quests[current] && nextId == Some(Saturate64(current + 1))
    case SettleStage(stage, next, _, _, _, cap, _) =>
      cap == ENERGY_CAP
      && exists pos :: 0 <= pos < |m.stages.order| && stage == m.stages.order[pos] && next == C.NextOf(m.stages.order, pos)
    case SettleStream(_, _, _, cap, _) => cap == ENERGY_CAP
    case ClaimChapter(chapter, num, goal, _, cap) =>
      cap == ENERGY_CAP && (chapter, num) in m.stages.goals && goal == m.stages.goals[(chapter, num)]
    case FillPass(season, _, _, _, steps) => P.Lists(steps, P.GoalsOf(m.passes, season))
    case ClaimPass(key, required, _, paidSteps, ticket) =>
      key.lane in {0, 1} && P.FromCatalog(m.passes, key, required, paidSteps, ticket)
    case PurchaseContent(_, _, _, _, _, maxLevel) => FitsI64(maxLevel)
    case RestoreEnergy(cap) => cap == ENERGY_CAP
    case _ => true
  }

  /** Claimed levels of every achievement are 1, 2, .. without gaps. */
  ghost predicate LevelsInOrder(claims: set<(int, int)>) {
    forall id, level :: (id, level) in claims <==> 1 <= level <= |LevelsClaimed(claims, id)|
  }

  /** The invariants of all features together. */
  ghost predicate Healthy(m: Master, t: Tables) {
    && NonNegative(t.holdings.wallet)
    && GiftsInRange(t.holdings)
    && E.ValidEnergy(t.holdings.energy, ENERGY_CAP)
    && G.Chain(t.guide, |t.guide.stages|, m.quests)
    && A.ValidBook(t.book)
    && P.Sound(t.pass, t.holdings.tickets, m.passes)
    && R.ValidRotation(t.rotation)
    && C.Prefix(t.stages.rows, m.stages.order, |t.stages.rows|)
    && C.GoalsMet(t.stages, m.stages.goals)
    && LevelsInOrder(t.achievementClaims)
  }

  /** Nothing that was reached, owned or claimed is ever lost. */
  ghost predicate Progresses(t: Tables, t': Tables) {
    && Keeps(t.holdings, t'.holdings)
    && G.Grows(t.guide, t'.guide)
    && P.Grows(t.pass, t'.pass)
    && C.Grows(t.stages, t'.stages)
    && Mailbox.Grows(t.mail, t'.mail)
    && t.book.days <= t'.book.days
    && t.rotation.revision <= t'.rotation.revision
    && t.achievementClaims <= t'.achievementClaims
    && t.missionClaims <= t'.missionClaims
    && t.purchases <= t'.purchases
    && t.rewardTransactions <= t'.rewardTransactions
    && t.events <= t'.events
    && t.affectionClaims <= t'.affectionClaims
  }

  lemma ProgressesSelf(t: Tables)
    ensures Progresses(t, t)
    ensures Keeps(t.holdings, t.holdings) && G.Grows(t.guide, t.guide) && P.Grows(t.pass, t.pass)
    ensures C.Grows(t.stages, t.stages) && Mailbox.Grows(t.mail, t.mail)
  {
  }

  lemma ProgressesTransitive(a: Tables, b: Tables, c: Tables)
    requires Progresses(a, b) && Progresses(b, c)
    ensures Progresses(a, c)
  {
    KeepsTransitive(a.holdings, b.holdings, c.holdings);
    G.GrowsTransitive(a.guide, b.guide, c.guide);
    PassGrowsTransitive(a.pass, b.pass, c.pass);
    StagesGrowTransitive(a.stages, b.stages, c.stages);
    MailGrowsTransitive(a.mail, b.mail, c.mail);
    hide Keeps, G.Grows, P.Grows, C.Grows, Mailbox.Grows;
  }

  lemma PassGrowsTransitive(a: P.Pass, b: P.Pass, c: P.Pass)
    requires P.Grows(a, b) && P.Grows(b, c)
    ensures P.Grows(a, c)
  {
  }

  lemma StagesGrowTransitive(a: C.Stages, b: C.Stages, c: C.Stages)
    requires C.Grows(a, b) && C.Grows(b, c)
    ensures C.Grows(a, c)
  {
  }

  lemma MailGrowsTransitive(a: Mail, b: Mail, c: Mail)
    requires Mailbox.Grows(a, b) && Mailbox.Grows(b, c)
    ensures Mailbox.Grows(a, c)
  {
  }

  // ----- Holdings -----

  /** A change of holdings that every command may make. */
  ghost predicate SoundChange(h: Holdings, h': Holdings) {
    && Keeps(h, h')
    && (NonNegative(h.wallet) ==> NonNegative(h'.wallet))
    && (GiftsInRange(h) ==> GiftsInRange(h'))
    && (E.ValidEnergy(h.energy, ENERGY_CAP) ==> E.ValidEnergy(h'.energy, ENERGY_CAP))
  }

  lemma {:induction false} SoundChangeTransitive(a: Holdings, b: Holdings, c: Holdings)
    requires SoundChange(a, b) && SoundChange(b, c)
    ensures SoundChange(a, c)
  {
    hide NonNegative, GiftsInRange;
  }

  lemma {:induction false} StepsKeepValid(e: E.Energy, e': E.Energy, steps: seq<E.EnergyStep>)
    requires E.Reaches(e, e', steps, ENERGY_CAP) && E.ValidEnergy(e, ENERGY_CAP)
    ensures E.ValidEnergy(e', ENERGY_CAP)
  {
    E.EnergyAccounted(e, e', steps, ENERGY_CAP);
  }

  lemma GrantAllSound(rules: Rules, h: Holdings, rewards: seq<RewardGrant>, now: int)
    requires GrantAll(rules, h, rewards, now).Ok?
    ensures SoundChange(h, GrantAll(rules, h, rewards, now).value.0)
  {
    hide GrantAll, Keeps, NonNegative, GiftsInRange;
    GrantAllEffect(rules, h, rewards, now);
    GrantAllEnergy(rules, h, rewards, now, ENERGY_CAP);
    var after := GrantAll(rules, h, rewards, now).value.0;
    if NonNegative(h.wallet) {
      GrantAllNonNegative(rules, h, rewards, now);
    }
    if E.ValidEnergy(h.energy, ENERGY_CAP) {
      StepsKeepValid(h.energy, after.energy, Cookies(rewards, now));
    }
  }

  lemma PaySound(h: Holdings, kind: CurrencyKind, amount: Number)
    requires Pay(h, kind, amount).Ok?
    ensures SoundChange(h, Pay(h, kind, amount).value)
  {
    PayEffect(h, kind, amount);
  }

  lemma PayEnergySound(h: Holdings, now: int, cap: int, cost: nat)
    requires PayEnergy(h, now, cap, cost).Ok? && cap == ENERGY_CAP
    ensures SoundChange(h, PayEnergy(h, now, cap, cost).value)
    ensures PayEnergy(h, now, cap, cost).value == h.(energy := PayEnergy(h, now, cap, cost).value.energy)
  {
  }

  lemma {:induction false} GrantRollsSound(rules: Rules, h: Holdings, rolls: seq<Roll>, now: int)
    requires GrantRolls(rules, h, rolls, now).Ok?
    ensures SoundChange(h, GrantRolls(rules, h, rolls, now).value.0)
    decreases |rolls|
  {
    if rolls == [] {
    } else {
      hide GrantAll;
      var next := GrantAll(rules, h, rolls[0].rewards, now).value.0;
      GrantAllSound(rules, h, rolls[0].rewards, now);
      GrantRollsSound(rules, next, rolls[1..], now);
      hide SoundChange;
      SoundChangeTransitive(h, next, GrantRolls(rules, next, rolls[1..], now).value.0);
    }
  }

  lemma {:induction false} GrantLevelsSound(rules: Rules, h: Holdings, claims: set<(int, int)>, follower: int,
                                            profileLevel: int, requested: seq<ProfileItem>, now: int)
    requires GrantLevels(rules, h, claims, follower, profileLevel, requested, now).Ok?
    ensures var r := GrantLevels(rules, h, claims, follower, profileLevel, requested, now).value;
      SoundChange(h, r.0) && claims <= r.1
    decreases |requested|
  {
    if requested == [] {
    } else if (follower, requested[0].level) in claims {
      GrantLevelsSound(rules, h, claims, follower, profileLevel, requested[1..], now);
    } else {
      hide GrantAll;
      var next := GrantAll(rules, h, requested[0].rewards, now).value.0;
      var claimed := claims + {(follower, requested[0].level)};
      GrantAllSound(rules, h, requested[0].rewards, now);
      GrantLevelsSound(rules, next, claimed, follower, profileLevel, requested[1..], now);
      hide SoundChange;
      SoundChangeTransitive(h, next, GrantLevels(rules, next, claimed, follower, profileLevel, requested[1..], now).value.0);
    }
  }

  predicate Contains(contents: seq<(Content, int)>, c: Content) {
    exists i :: 0 <= i < |contents| && contents[i].0 == c
  }

  /**
   After a package exactly its content is owned in addition, at the area it had or is given first, and
   stored at level 1 at least; no balance, ticket or gift moves.
   */
  lemma {:induction false} PackageEffect(h: Holdings, contents: seq<(Content, int)>)
    ensures var after := AddPackage(h, contents);
      && after == h.(owned := after.owned, levels := after.levels)
      && (forall c :: c in after.owned <==> c in h.owned || Contains(contents, c))
      && (forall c | c in h.owned :: after.owned[c] == h.owned[c])
      && (forall c :: LevelOf(after, c) == if Contains(contents, c) then MaxInt(LevelOf(h, c), 1) else LevelOf(h, c))
      && (forall c :: c in after.levels <==> c in h.levels || Contains(contents, c))
    decreases |contents|
  {
    if contents != [] {
      var (content, area) := contents[0];
      var next := h.(owned := InsertNew(h.owned, content, area), levels := h.levels[content := MaxInt(LevelOf(h, content), 1)]);
      PackageEffect(next, contents[1..]);
      hide AddPackage;
      forall c ensures Contains(contents, c) <==> c == content || Contains(contents[1..], c) {
        ContainsCons(contents, c);
      }
      hide Contains;
    }
  }

  lemma ContainsCons(contents: seq<(Content, int)>, c: Content)
    requires contents != []
    ensures Contains(contents, c) <==> c == contents[0].0 || Contains(contents[1..], c)
  {
    if Contains(contents[1..], c) {
      var i :| 0 <= i < |contents[1..]| && contents[1..][i].0 == c;
      assert contents[i + 1].0 == c;
    }
    if Contains(contents, c) && c != contents[0].0 {
      var i :| 0 <= i < |contents| && contents[i].0 == c;
      assert contents[1..][i - 1].0 == c;
    }
  }

  /** Granting a package again changes nothing. */
  lemma PackageTwice(h: Holdings, contents: seq<(Content, int)>)
    ensures AddPackage(AddPackage(h, contents), contents) == AddPackage(h, contents)
  {
    hide AddPackage, Contains;
    var once := AddPackage(h, contents);
    var twice := AddPackage(once, contents);
    PackageEffect(h, contents);
    PackageEffect(once, contents);
    assert twice.owned == once.owned;
    assert twice.levels == once.levels by {
      forall c | c in once.levels ensures twice.levels[c] == once.levels[c] {
        assert LevelOf(twice, c) == LevelOf(once, c);
      }
    }
  }

  lemma PackageSound(h: Holdings, contents: seq<(Content, int)>)
    ensures SoundChange(h, AddPackage(h, contents))
  {
    hide AddPackage, Contains, NonNegative;
    PackageEffect(h, contents);
    var after := AddPackage(h, contents);
    forall c | c in h.levels ensures c in after.levels && h.levels[c] <= after.levels[c] {
      assert LevelOf(h, c) <= LevelOf(after, c);
    }
  }

  /** Healthy needs of the holdings only what a sound change keeps; more tickets break no pass. */
  lemma HoldingsChange(m: Master, t: Tables, h: Holdings)
    requires Healthy(m, t) && SoundChange(t.holdings, h)
    ensures Healthy(m, t.(holdings := h)) && Progresses(t, t.(holdings := h))
  {
    hide G.Chain, A.ValidBook, P.Sound, C.Prefix, C.GoalsMet, LevelsInOrder, NonNegative, GiftsInRange, R.ValidRotation;
    ProgressesSelf(t);
    P.MoreTickets(t.pass, t.holdings.tickets, h.tickets, [], m.passes);
  }

  // ----- Changes of one feature -----

  lemma GuideChange(m: Master, t: Tables, guide: G.Guide, n: nat)
    requires Healthy(m, t) && G.Chain(guide, n, m.quests) && G.Grows(t.guide, guide)
    ensures Healthy(m, t.(guide := guide)) && Progresses(t, t.(guide := guide))
  {
    G.ChainLength(guide, n, m.quests);
    ProgressesSelf(t);
    hide G.Chain, A.ValidBook, P.Sound, C.Prefix, C.GoalsMet, LevelsInOrder, NonNegative, GiftsInRange, R.ValidRotation;
    hide Keeps, G.Grows, P.Grows, C.Grows, Mailbox.Grows;
  }

  lemma PassChange(m: Master, t: Tables, pass: P.Pass)
    requires Healthy(m, t) && P.Sound(pass, t.holdings.tickets, m.passes) && P.Grows(t.pass, pass)
    ensures Healthy(m, t.(pass := pass)) && Progresses(t, t.(pass := pass))
  {
    ProgressesSelf(t);
    hide G.Chain, A.ValidBook, P.Sound, C.Prefix, C.GoalsMet, LevelsInOrder, NonNegative, GiftsInRange, R.ValidRotation;
    hide Keeps, G.Grows, P.Grows, C.Grows, Mailbox.Grows;
  }

  lemma StagesChange(m: Master, t: Tables, stages: C.Stages, n: nat)
    requires ValidMaster(m) && Healthy(m, t)
    requires C.Prefix(stages.rows, m.stages.order, n) && C.GoalsMet(stages, m.stages.goals) && C.Grows(t.stages, stages)
    ensures Healthy(m, t.(stages := stages)) && Progresses(t, t.(stages := stages))
  {
    C.PrefixLength(stages.rows, m.stages.order, n);
    ProgressesSelf(t);
    hide G.Chain, A.ValidBook, P.Sound, C.Prefix, C.GoalsMet, LevelsInOrder, NonNegative, GiftsInRange, R.ValidRotation;
    hide Keeps, G.Grows, P.Grows, C.Grows, Mailbox.Grows;
  }

  lemma BookChange(m: Master, t: Tables, book: A.Book)
    requires Healthy(m, t) && A.ValidBook(book) && t.book.days <= book.days
    ensures Healthy(m, t.(book := book)) && Progresses(t, t.(book := book))
  {
    ProgressesSelf(t);
    hide G.Chain, A.ValidBook, P.Sound, C.Prefix, C.GoalsMet, LevelsInOrder, NonNegative, GiftsInRange, R.ValidRotation;
    hide Keeps, G.Grows, P.Grows, C.Grows, Mailbox.Grows;
  }

  lemma RotationChange(m: Master, t: Tables, step: R.RotationStep)
    requires Healthy(m, t) && R.Rotate(t.rotation, step).Ok?
    ensures var rotation := R.Rotate(t.rotation, step).value;
      Healthy(m, t.(rotation := rotation)) && Progresses(t, t.(rotation := rotation))
  {
    R.RotateKeepsValid(t.rotation, step);
    ProgressesSelf(t);
    hide G.Chain, A.ValidBook, P.Sound, C.Prefix, C.GoalsMet, LevelsInOrder, NonNegative, GiftsInRange, R.ValidRotation;
    hide Keeps, G.Grows, P.Grows, C.Grows, Mailbox.Grows;
  }

  lemma MailChange(m: Master, t: Tables, mail: Mail)
    requires Healthy(m, t) && Mailbox.Grows(t.mail, mail)
    ensures Healthy(m, t.(mail := mail)) && Progresses(t, t.(mail := mail))
  {
    ProgressesSelf(t);
    hide G.Chain, A.ValidBook, P.Sound, C.Prefix, C.GoalsMet, LevelsInOrder, NonNegative, GiftsInRange, R.ValidRotation;
    hide Keeps, G.Grows, P.Grows, C.Grows, Mailbox.Grows;
  }

  /** Flags, encores and counters carry no invariant; claims of every kind only grow. */
  lemma RestChange(m: Master, t: Tables, t': Tables)
    requires Healthy(m, t)
    requires t' == Tables(t.holdings, t'.flags, t'.encores, t'.achievements, t'.achievementClaims, t'.missions,
                          t'.missionClaims, t.book, t.guide, t.pass, t.rotation, t.stages, t.mail,
                          t'.purchases, t'.rewardTransactions, t'.events, t'.affectionClaims)
    requires LevelsInOrder(t'.achievementClaims) && t.achievementClaims <= t'.achievementClaims
    requires t.missionClaims <= t'.missionClaims && t.purchases <= t'.purchases
    requires t.rewardTransactions <= t'.rewardTransactions && t.events <= t'.events
    requires t.affectionClaims <= t'.affectionClaims
    ensures Healthy(m, t') && Progresses(t, t')
  {
    ProgressesSelf(t);
    hide G.Chain, A.ValidBook, P.Sound, C.Prefix, C.GoalsMet, LevelsInOrder, NonNegative, GiftsInRange, R.ValidRotation;
    hide Keeps, G.Grows, P.Grows, C.Grows, Mailbox.Grows;
  }

  lemma GrantChange(m: Master, rules: Rules, t: Tables, rewards: seq<RewardGrant>, now: int)
    requires Healthy(m, t) && GrantAll(rules, t.holdings, rewards, now).Ok?
    ensures var t' := t.(holdings := GrantAll(rules, t.holdings, rewards, now).value.0);
      Healthy(m, t') && Progresses(t, t')
  {
    hide GrantAll, SoundChange, Healthy, Progresses;
    GrantAllSound(rules, t.holdings, rewards, now);
    HoldingsChange(m, t, GrantAll(rules, t.holdings, rewards, now).value.0);
  }
}
