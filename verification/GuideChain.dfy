/**
 The guide quest chain of a slot: `advance_follower_quest`, `set_follower_quest_infinite` and the
 follower-quest part of `merge_user_save` in crates/persistence-sqlite/src/lib.rs.
 */
module GuideChain {
  import opened Wrappers
  import opened SaveDomain

  datatype Stage = Stage(completed: bool, infinite: bool)

  datatype Condition = Condition(quantity: real, claimed: bool)

  /** Rows of `follower_quests` by stage and of `quest_conditions` by stage and condition. */
  datatype Guide = Guide(stages: map<int, Stage>, conditions: map<(int, int), Condition>)

  const NEW_GUIDE := Guide(map[], map[])

  /** The stage the store works on: the largest one present, at least 1. */
  function ActiveStage(g: Guide): int {
    MaxInt(MaxOr(g.stages.Keys, 1), 1)
  }

  /** `INSERT OR IGNORE INTO follower_quests`. */
  function EnsureStage(g: Guide, stage: int): Guide {
    if stage in g.stages then g else g.(stages := g.stages[stage := Stage(false, false)])
  }

  function CompletedStages(g: Guide): set<int> {
    set s | s in g.stages && g.stages[s].completed
  }

  /** `completed_guide_stage`: what the client is told as `complete_id`. */
  function CompleteId(g: Guide): int {
    MaxOr(CompletedStages(g), 0)
  }

  /** Conditions claimed in a stage, as `COUNT(*) .. WHERE claimed=1` counts them. */
  function ClaimedIn(g: Guide, stage: int): set<(int, int)> {
    set k | k in g.conditions && k.0 == stage && g.conditions[k].claimed
  }

  /** Result of one claim request: the chain, whether a reward was earned, and what is reported. */
  datatype Claimed = Claimed(guide: Guide, earned: bool, next: bool, shown: int)

  /** Stores `value` for a condition when it is the larger one. */
  function Record(g: Guide, stage: int, sub: int, value: real): Guide {
    var k := (stage, sub);
    g.(conditions := g.conditions[k :=
      if k in g.conditions then g.conditions[k].(quantity := MaxReal(g.conditions[k].quantity, value))
      else Condition(value, false)])
  }

  /** Marks a recorded condition claimed when its quantity reaches `threshold` and it is not claimed yet. */
  function Mark(g: Guide, stage: int, sub: int, threshold: real): (Guide, bool) {
    var k := (stage, sub);
    if k in g.conditions && g.conditions[k].quantity >= threshold && !g.conditions[k].claimed then
      (g.(conditions := g.conditions[k := g.conditions[k].(claimed := true)]), true)
    else (g, false)
  }

  /** Completes a stage whose three conditions are claimed, and opens the next. */
  function Finish(g: Guide, stage: int, nextId: Option<int>, earned: bool): Claimed {
    if |ClaimedIn(g, stage)| != 3 then Claimed(g, earned, false, stage)
    else
      var completed := if stage in g.stages
        then g.(stages := g.stages[stage := g.stages[stage].(completed := true)]) else g;
      if nextId.None? then Claimed(completed, earned, true, stage)
      else Claimed(EnsureStage(completed, nextId.value), earned, true, nextId.value)
  }

  /** The transaction of `advance_follower_quest`; a request for another stage only reports. */
  function Claim(g: Guide, current: int, sub: int, value: real, threshold: real, nextId: Option<int>): Claimed {
    var active := ActiveStage(g);
    var ready := EnsureStage(g, active);
    if current != active then Claimed(ready, false, false, active)
    else
      var (marked, earned) := Mark(Record(ready, current, sub, value), current, sub, threshold);
      Finish(marked, current, nextId, earned)
  }

  function SetInfinite(g: Guide): Guide {
    var stage := MaxOr(g.stages.Keys, 1);
    var completed := stage in g.stages && g.stages[stage].completed;
    g.(stages := g.stages[stage := Stage(completed, true)])
  }

  // ----- Client snapshots -----

  /** One stage of a client snapshot: its three counters. */
  datatype SavedStage = SavedStage(current: int, values: (Number, Number, Number))

  function ValueAt(saved: SavedStage, sub: int): Number {
    if sub == 1 then saved.values.0 else if sub == 2 then saved.values.1 else saved.values.2
  }

  function EnsureCondition(g: Guide, stage: int, sub: int): Guide {
    if (stage, sub) in g.conditions then g
    else g.(conditions := g.conditions[(stage, sub) := Condition(0.0, false)])
  }

  /** `UPDATE quest_conditions SET quantity=MAX(..) .. WHERE .. claimed=0`. */
  function Raise(g: Guide, stage: int, sub: int, value: Number): Guide {
    var k := (stage, sub);
    if !ValidAmount(value) || k !in g.conditions || g.conditions[k].claimed then g
    else g.(conditions :=
      g.conditions[k := g.conditions[k].(quantity := MaxReal(g.conditions[k].quantity, value.value))])
  }

  function RaiseAll(g: Guide, stage: int, saved: SavedStage): Guide {
    Raise(Raise(Raise(g, stage, 1, ValueAt(saved, 1)), stage, 2, ValueAt(saved, 2)), stage, 3, ValueAt(saved, 3))
  }

  function RaiseEach(g: Guide, stage: int, saves: seq<SavedStage>): Guide
    decreases |saves|
  {
    if saves == [] then g
    else RaiseEach(if saves[0].current == stage then RaiseAll(g, stage, saves[0]) else g, stage, saves[1..])
  }

  function Save(g: Guide, saves: seq<SavedStage>): Guide {
    if saves == [] then g
    else
      var current := ActiveStage(g);
      var ready := EnsureCondition(EnsureCondition(EnsureCondition(
        EnsureStage(g, current), current, 1), current, 2), current, 3);
      if ready.stages[current].completed then ready else RaiseEach(ready, current, saves)
  }

  // ----- The chain invariant -----

  /** The thresholds of every stage, from the master catalog. */
  type Thresholds = map<int, (real, real, real)>

  function ThresholdOf(thresholds: Thresholds, stage: int, sub: int): real
    requires stage in thresholds
  {
    if sub == 1 then thresholds[stage].0 else if sub == 2 then thresholds[stage].1 else thresholds[stage].2
  }

  predicate IsClaimed(g: Guide, stage: int, sub: int) {
    (stage, sub) in g.conditions && g.conditions[(stage, sub)].claimed
  }

  /**
   The stages are exactly 1..n; exactly those below n are completed, with all three conditions
   claimed; the last is not; and a claimed condition holds at least its threshold.
   */
  ghost predicate Chain(g: Guide, n: nat, thresholds: Thresholds) {
    && StagesThrough(g.stages, n)
    && (forall s | 1 <= s < n :: IsClaimed(g, s, 1) && IsClaimed(g, s, 2) && IsClaimed(g, s, 3))
    && !(IsClaimed(g, n, 1) && IsClaimed(g, n, 2) && IsClaimed(g, n, 3))
    && ConditionsMet(g, n, thresholds)
  }

  /** The stages are 1..n, and those below n are the completed ones. */
  ghost predicate StagesThrough(stages: map<int, Stage>, n: nat) {
    && (forall s :: s in stages <==> 1 <= s <= n)
    && (forall s | 1 <= s <= n :: stages[s].completed <==> s < n)
  }

  /** Conditions belong to the stages up to n, and a claimed one holds at least its threshold. */
  ghost predicate ConditionsMet(g: Guide, n: nat, thresholds: Thresholds) {
    && (forall k | k in g.conditions :: 1 <= k.0 <= n && 1 <= k.1 <= 3)
    && (forall k | k in g.conditions && g.conditions[k].claimed ::
          k.0 in thresholds && g.conditions[k].quantity >= ThresholdOf(thresholds, k.0, k.1))
  }

  /** Nothing recorded is lost: stages stay, completed stays, quantities grow, claims stay. */
  ghost predicate Grows(g: Guide, g': Guide) {
    && (forall s | s in g.stages :: s in g'.stages && (g.stages[s].completed ==> g'.stages[s].completed))
    && (forall k | k in g.conditions ::
          && k in g'.conditions && g.conditions[k].quantity <= g'.conditions[k].quantity
          && (g.conditions[k].claimed ==> g'.conditions[k].claimed))
  }

  lemma ChainActive(g: Guide, n: nat, thresholds: Thresholds)
    requires Chain(g, n, thresholds)
    ensures ActiveStage(g) == MaxInt(n, 1) && MaxOr(g.stages.Keys, 1) == MaxInt(n, 1)
    ensures n == 0 ==> g == NEW_GUIDE
  {
    if n >= 1 {
      assert n in g.stages.Keys;
      assert MaxOf(g.stages.Keys) in g.stages.Keys;
    } else {
      assert forall s :: s !in g.stages;
      assert forall k :: k !in g.conditions;
      assert g.stages == map[] && g.conditions == map[];
    }
  }

  function UpTo(n: nat): (s: set<int>)
    ensures |s| == n && forall i :: i in s <==> 1 <= i <= n
  {
    if n == 0 then {} else UpTo(n - 1) + {n}
  }

  /** The chain is as long as its table. */
  lemma ChainLength(g: Guide, n: nat, thresholds: Thresholds)
    requires Chain(g, n, thresholds)
    ensures |g.stages| == n
  {
    assert g.stages.Keys == UpTo(n);
  }

  /** The client is told n - 1 as the last completed stage (0 when nothing is stored). */
  lemma ChainCompleteId(g: Guide, n: nat, thresholds: Thresholds)
    requires Chain(g, n, thresholds)
    ensures CompleteId(g) == MaxInt(n - 1, 0)
  {
    var completed := CompletedStages(g);
    if n >= 2 {
      assert n - 1 in completed;
      assert MaxOf(completed) in completed;
    } else {
      assert forall s :: s !in completed;
    }
  }

  lemma ClaimedCount(g: Guide, stage: int)
    requires forall k | k in g.conditions && k.0 == stage :: 1 <= k.1 <= 3
    ensures |ClaimedIn(g, stage)| == 3 <==> IsClaimed(g, stage, 1) && IsClaimed(g, stage, 2) && IsClaimed(g, stage, 3)
  {
    var all := {(stage, 1), (stage, 2), (stage, 3)};
    var claimed := ClaimedIn(g, stage);
    assert |all| == 3;
    assert claimed <= all;
    if IsClaimed(g, stage, 1) && IsClaimed(g, stage, 2) && IsClaimed(g, stage, 3) {
      assert all <= claimed;
      assert all == claimed;
    } else {
      var missing :| missing in all && missing !in claimed;
      assert claimed <= all - {missing};
      SubsetCount(claimed, all - {missing});
    }
  }

  /** The stage after opening it: 1 in an empty chain, otherwise what is there. */
  lemma EnsureActive(g: Guide, n: nat, thresholds: Thresholds)
    requires Chain(g, n, thresholds)
    ensures Chain(EnsureStage(g, MaxInt(n, 1)), MaxInt(n, 1), thresholds) && Grows(g, EnsureStage(g, MaxInt(n, 1)))
  {
    ChainActive(g, n, thresholds);
  }

  lemma RecordAndMark(g: Guide, n: nat, sub: int, value: real, thresholds: Thresholds)
    requires Chain(g, n, thresholds) && n >= 1 && n in thresholds && 1 <= sub <= 3
    ensures var (marked, earned) := Mark(Record(g, n, sub, value), n, sub, ThresholdOf(thresholds, n, sub));
      && marked.stages == g.stages && Grows(g, marked)
      && ConditionsMet(marked, n, thresholds)
      && (forall s, c | s != n || c != sub :: IsClaimed(marked, s, c) <==> IsClaimed(g, s, c))
      && (earned ==> !IsClaimed(g, n, sub) && IsClaimed(marked, n, sub))
      && (!earned ==> (IsClaimed(marked, n, sub) <==> IsClaimed(g, n, sub)))
  {
  }

  /**
   A claim keeps the chain: it stays on its stage, or completes it and opens the next one. The
   reward is earned only by the request that turns the condition from unclaimed to claimed, and
   then the stored quantity is at least the threshold.
   */
  lemma ClaimKeepsChain(g: Guide, n: nat, current: int, sub: int, value: real, thresholds: Thresholds)
    requires Chain(g, n, thresholds) && 1 <= sub <= 3 && current in thresholds
    ensures var r := Claim(g, current, sub, value, ThresholdOf(thresholds, current, sub), Some(current + 1));
      && Chain(r.guide, if r.next then MaxInt(n, 1) + 1 else MaxInt(n, 1), thresholds)
      && Grows(g, r.guide)
      && (r.earned ==>
            && current == MaxInt(n, 1) && !IsClaimed(g, current, sub) && IsClaimed(r.guide, current, sub)
            && r.guide.conditions[(current, sub)].quantity >= ThresholdOf(thresholds, current, sub))
  {
    hide Chain, Grows, Record, Mark, Finish, EnsureStage;
    var active := MaxInt(n, 1);
    ChainActive(g, n, thresholds);
    EnsureActive(g, n, thresholds);
    var ready := EnsureStage(g, active);
    if current == active {
      var threshold := ThresholdOf(thresholds, current, sub);
      RecordAndMark(ready, active, sub, value, thresholds);
      var (marked, earned) := Mark(Record(ready, active, sub, value), active, sub, threshold);
      FinishKeepsChain(ready, marked, active, sub, earned, thresholds);
      SameClaims(g, n, active, thresholds);
      GrowsTransitive(g, ready, marked);
      GrowsTransitive(g, marked, Finish(marked, active, Some(active + 1), earned).guide);
    }
  }

  /** Whatever is stored, a request earns a reward only by turning its condition to claimed. */
  lemma EarnsOnce(g: Guide, current: int, sub: int, value: real, threshold: real, nextId: Option<int>)
    requires Claim(g, current, sub, value, threshold, nextId).earned
    ensures !IsClaimed(g, current, sub)
    ensures IsClaimed(Claim(g, current, sub, value, threshold, nextId).guide, current, sub)
  {
    hide ActiveStage, ClaimedIn;
  }

  lemma SameClaims(g: Guide, n: nat, active: int, thresholds: Thresholds)
    requires Chain(g, n, thresholds) && active == MaxInt(n, 1)
    ensures EnsureStage(g, active).conditions == g.conditions
  {
  }

  lemma GrowsTransitive(a: Guide, b: Guide, c: Guide)
    requires Grows(a, b) && Grows(b, c)
    ensures Grows(a, c)
  {
  }

  lemma FinishKeepsChain(ready: Guide, marked: Guide, n: nat, sub: int, earned: bool, thresholds: Thresholds)
    requires Chain(ready, n, thresholds) && n >= 1 && 1 <= sub <= 3
    requires marked.stages == ready.stages && ConditionsMet(marked, n, thresholds)
    requires forall s, c | s != n || c != sub :: IsClaimed(marked, s, c) <==> IsClaimed(ready, s, c)
    ensures var r := Finish(marked, n, Some(n + 1), earned);
      && Chain(r.guide, if r.next then n + 1 else n, thresholds) && Grows(marked, r.guide)
      && r.earned == earned && r.guide.conditions == marked.conditions
  {
    ClaimedCount(marked, n);
    hide ConditionsMet, ClaimedIn, Chain, Grows;
    var r := Finish(marked, n, Some(n + 1), earned);
    if r.next {
      Opens(ready, marked, n, sub, thresholds);
    } else {
      Stays(ready, marked, n, sub, thresholds);
    }
  }

  lemma Stays(ready: Guide, marked: Guide, n: nat, sub: int, thresholds: Thresholds)
    requires Chain(ready, n, thresholds) && n >= 1
    requires marked.stages == ready.stages && ConditionsMet(marked, n, thresholds)
    requires forall s, c | s != n || c != sub :: IsClaimed(marked, s, c) <==> IsClaimed(ready, s, c)
    requires !(IsClaimed(marked, n, 1) && IsClaimed(marked, n, 2) && IsClaimed(marked, n, 3))
    ensures Chain(marked, n, thresholds) && Grows(marked, marked)
  {
    hide ConditionsMet, IsClaimed;
  }

  lemma Opens(ready: Guide, marked: Guide, n: nat, sub: int, thresholds: Thresholds)
    requires Chain(ready, n, thresholds) && n >= 1
    requires marked.stages == ready.stages && ConditionsMet(marked, n, thresholds)
    requires forall s, c | s != n || c != sub :: IsClaimed(marked, s, c) <==> IsClaimed(ready, s, c)
    requires IsClaimed(marked, n, 1) && IsClaimed(marked, n, 2) && IsClaimed(marked, n, 3)
    ensures var completed := marked.(stages := marked.stages[n := marked.stages[n].(completed := true)]);
      Chain(EnsureStage(completed, n + 1), n + 1, thresholds) && Grows(marked, EnsureStage(completed, n + 1))
  {
    OpensNext(marked, n, thresholds);
    var completed := marked.(stages := marked.stages[n := marked.stages[n].(completed := true)]);
    var next := EnsureStage(completed, n + 1);
    assert next == Guide(next.stages, marked.conditions);
    StagesOpen(marked.stages, n);
    assert Grows(marked, next);
    SameConditions(marked, next);
    hide ConditionsMet, IsClaimed, StagesThrough, Grows, EnsureStage;
    forall s | 1 <= s < n + 1 ensures IsClaimed(next, s, 1) && IsClaimed(next, s, 2) && IsClaimed(next, s, 3) {
      if s < n {
        assert IsClaimed(ready, s, 1) && IsClaimed(ready, s, 2) && IsClaimed(ready, s, 3);
      }
    }
  }

  lemma SameConditions(a: Guide, b: Guide)
    requires a.conditions == b.conditions
    ensures forall s, c :: IsClaimed(a, s, c) <==> IsClaimed(b, s, c)
  {
  }

  lemma StagesOpen(stages: map<int, Stage>, n: nat)
    requires StagesThrough(stages, n) && n >= 1
    ensures n + 1 !in stages
    ensures StagesThrough(stages[n := stages[n].(completed := true)][n + 1 := Stage(false, false)], n + 1)
  {
  }

  /** Nothing is recorded beyond the last stage, so opening the next one claims nothing there. */
  lemma OpensNext(g: Guide, n: nat, thresholds: Thresholds)
    requires ConditionsMet(g, n, thresholds)
    ensures forall stages :: ConditionsMet(Guide(stages, g.conditions), n + 1, thresholds)
    ensures forall stages :: !IsClaimed(Guide(stages, g.conditions), n + 1, 1)
  {
  }

  /** The infinite flag touches neither progress nor completion. */
  lemma InfiniteKeepsChain(g: Guide, n: nat, thresholds: Thresholds)
    requires Chain(g, n, thresholds)
    ensures Chain(SetInfinite(g), MaxInt(n, 1), thresholds) && Grows(g, SetInfinite(g))
    ensures SetInfinite(g).conditions == g.conditions
  {
    ChainActive(g, n, thresholds);
    assert forall s, c :: IsClaimed(SetInfinite(g), s, c) <==> IsClaimed(g, s, c);
  }

  /** Raising a counter of an unclaimed condition claims nothing and completes nothing. */
  lemma RaiseKeepsChain(g: Guide, n: nat, sub: int, value: Number, thresholds: Thresholds)
    requires Chain(g, n, thresholds)
    ensures Chain(Raise(g, n, sub, value), n, thresholds) && Grows(g, Raise(g, n, sub, value))
    ensures forall s, c :: IsClaimed(Raise(g, n, sub, value), s, c) <==> IsClaimed(g, s, c)
  {
    assert forall s, c :: IsClaimed(Raise(g, n, sub, value), s, c) <==> IsClaimed(g, s, c);
  }

  lemma {:induction false} RaiseEachKeepsChain(g: Guide, n: nat, saves: seq<SavedStage>, thresholds: Thresholds)
    requires Chain(g, n, thresholds)
    ensures Chain(RaiseEach(g, n, saves), n, thresholds) && Grows(g, RaiseEach(g, n, saves))
    ensures forall s, c :: IsClaimed(RaiseEach(g, n, saves), s, c) <==> IsClaimed(g, s, c)
    decreases |saves|
  {
    if saves == [] {
    } else {
      var g1 := if saves[0].current == n then RaiseAll(g, n, saves[0]) else g;
      if saves[0].current == n {
        var a := Raise(g, n, 1, ValueAt(saves[0], 1));
        var b := Raise(a, n, 2, ValueAt(saves[0], 2));
        RaiseKeepsChain(g, n, 1, ValueAt(saves[0], 1), thresholds);
        RaiseKeepsChain(a, n, 2, ValueAt(saves[0], 2), thresholds);
        RaiseKeepsChain(b, n, 3, ValueAt(saves[0], 3), thresholds);
        hide Raise, Chain;
        GrowsTransitive(g, a, b);
        GrowsTransitive(g, b, g1);
      }
      RaiseEachKeepsChain(g1, n, saves[1..], thresholds);
      GrowsTransitive(g, g1, RaiseEach(g, n, saves));
    }
  }

  lemma EnsureConditionKeepsChain(g: Guide, n: nat, sub: int, thresholds: Thresholds)
    requires Chain(g, n, thresholds) && n >= 1 && 1 <= sub <= 3
    ensures Chain(EnsureCondition(g, n, sub), n, thresholds) && Grows(g, EnsureCondition(g, n, sub))
    ensures forall s, c :: IsClaimed(EnsureCondition(g, n, sub), s, c) <==> IsClaimed(g, s, c)
  {
    assert forall s, c :: IsClaimed(EnsureCondition(g, n, sub), s, c) <==> IsClaimed(g, s, c);
  }

  /** A client snapshot, whatever it says, advances no stage and claims nothing. */
  lemma SaveKeepsChain(g: Guide, n: nat, saves: seq<SavedStage>, thresholds: Thresholds)
    requires Chain(g, n, thresholds)
    ensures Chain(Save(g, saves), if saves == [] then n else MaxInt(n, 1), thresholds)
    ensures Grows(g, Save(g, saves))
    ensures forall s, c :: IsClaimed(Save(g, saves), s, c) <==> IsClaimed(g, s, c)
  {
    if saves != [] {
      var active := MaxInt(n, 1);
      ChainActive(g, n, thresholds);
      EnsureActive(g, n, thresholds);
      SameClaims(g, n, active, thresholds);
      var a := EnsureStage(g, active);
      var b := EnsureCondition(a, active, 1);
      var c := EnsureCondition(b, active, 2);
      var d := EnsureCondition(c, active, 3);
      EnsureConditionKeepsChain(a, active, 1, thresholds);
      EnsureConditionKeepsChain(b, active, 2, thresholds);
      EnsureConditionKeepsChain(c, active, 3, thresholds);
      RaiseEachKeepsChain(d, active, saves, thresholds);
      hide EnsureStage, EnsureCondition, RaiseEach;
      GrowsTransitive(g, a, b);
      GrowsTransitive(g, b, c);
      GrowsTransitive(g, c, d);
      GrowsTransitive(g, d, RaiseEach(d, active, saves));
    }
  }
}
