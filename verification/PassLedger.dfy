/**
 Season passes of a slot: progress, claims and entitlements (`fill_pass`, `claim_pass_reward`,
 `activate_passes` and the pass part of `merge_user_save` in crates/persistence-sqlite/src/lib.rs).
 */
module PassLedger {
  import opened Wrappers
  import opened Text
  import opened SaveDomain

  datatype Progress = Progress(points: int, step: int)

  datatype ClaimKey = ClaimKey(season: int, version: int, lane: int, step: int)

  /** Rows of `pass_progress` by season and version, of `pass_claims`, and the premium seasons. */
  datatype Pass = Pass(progress: map<(int, int), Progress>, claims: set<ClaimKey>, premium: set<int>)

  /** Steps of one pass with the points each asks for, as a list of the master catalog. */
  type Steps = seq<(int, int)>

  const SEASONS := 13

  predicate IsSeason(season: int) {
    1 <= season <= SEASONS
  }

  function PointsOf(p: Pass, season: int, version: int): int {
    if (season, version) in p.progress then p.progress[(season, version)].points else 0
  }

  function ReachedSteps(steps: Steps, points: int): set<int> {
    set i | 0 <= i < |steps| && steps[i].1 <= points :: steps[i].0
  }

  /** The largest step whose goal is reached, 0 when there is none. */
  function BestStep(steps: Steps, points: int): int {
    MaxOr(ReachedSteps(steps, points), 0)
  }

  /** `fill_pass` after its payment; the schema refuses seasons beyond 1..13 and sums beyond `i64`. */
  function Fill(p: Pass, season: int, version: int, added: int, steps: Steps): Result<Pass, StoreError> {
    var k := (season, version);
    var points := PointsOf(p, season, version) + MaxInt(added, 0);
    if !IsSeason(season) || points > I64_MAX then Err(SqlConstraint)
    else
      var stored := if k in p.progress then p.progress[k].step else 0;
      Ok(p.(progress := p.progress[k := Progress(points, MaxInt(stored, BestStep(steps, points)))]))
  }

  /** One row of a client snapshot. */
  datatype SavedPass = SavedPass(season: int, points: int, step: int, version: int)

  /** A snapshot adds the difference to what is stored, multiplied, and never takes points away. */
  function MergedPoints(current: int, reported: int, multiplier: int): int {
    if reported > current
    then Saturate64(current + Saturate64(Saturate64(reported - current) * MaxInt(multiplier, 1)))
    else current
  }

  function Merge(p: Pass, saved: SavedPass, multiplier: int, steps: Steps): Pass {
    if !IsSeason(saved.season) || saved.points < 0 || saved.version < 0 then p
    else
      var k := (saved.season, saved.version);
      var points := MergedPoints(PointsOf(p, saved.season, saved.version), saved.points, multiplier);
      var stored := if k in p.progress then p.progress[k].step else 0;
      p.(progress := p.progress[k := Progress(points, MaxInt(MaxInt(stored, saved.step), BestStep(steps, points)))])
  }

  function PaidClaims(p: Pass, season: int, version: int): set<ClaimKey> {
    set k | k in p.claims && k.season == season && k.version == version && k.lane == 1
  }

  /** Outcome of a claim: whether the row is new, and whether it completes the paid lane. */
  datatype Claimed = Claimed(pass: Pass, inserted: bool, ticketEarned: bool)

  function Claim(p: Pass, key: ClaimKey, required: int, paidSteps: int, ticket: int): Result<Claimed, StoreError> {
    if PointsOf(p, key.season, key.version) < required then Err(InsufficientBalance)
    else if key.lane == 1 && key.season !in p.premium then Err(InsufficientBalance)
    else if key in p.claims || key.lane !in {0, 1} then Ok(Claimed(p, false, false))
    else
      var after := p.(claims := p.claims + {key});
      var complete := |PaidClaims(after, key.season, key.version)| >= paidSteps;
      Ok(Claimed(after, true, key.lane == 1 && ticket > 0 && complete))
  }

  function Activate(p: Pass, seasons: seq<int>): Pass {
    p.(premium := p.premium + set i | 0 <= i < |seasons| && IsSeason(seasons[i]) :: seasons[i])
  }

  // ----- The ledger against the catalog -----

  /** A pass of the catalog: its ticket and the goal of each step. */
  datatype PassDef = PassDef(ticket: int, goals: map<int, int>)

  type Catalog = map<int, PassDef>

  function GoalsOf(catalog: Catalog, season: int): map<int, int> {
    if season in catalog then catalog[season].goals else map[]
  }

  /** The list a caller passes names exactly the steps of the pass, with their goals. */
  ghost predicate Lists(steps: Steps, goals: map<int, int>) {
    && (forall i | 0 <= i < |steps| :: steps[i].0 in goals && goals[steps[i].0] == steps[i].1)
    && (forall step | step in goals :: exists i :: 0 <= i < |steps| && steps[i].0 == step)
  }

  /** All steps of the paid lane of one version of a pass are claimed. */
  ghost predicate LaneComplete(p: Pass, season: int, version: int, goals: map<int, int>) {
    goals != map[] && forall step | step in goals :: ClaimKey(season, version, 1, step) in p.claims
  }

  /** Claimed steps are steps of the catalog, in one of two lanes, and stay paid for by points. */
  ghost predicate ClaimsPaid(p: Pass, catalog: Catalog) {
    forall k | k in p.claims ::
      && k.lane in {0, 1} && k.step in GoalsOf(catalog, k.season)
      && GoalsOf(catalog, k.season)[k.step] <= PointsOf(p, k.season, k.version)
  }

  /** The stored step is at least every step whose goal the points reach; points are in range. */
  ghost predicate StepsReached(p: Pass, catalog: Catalog) {
    forall k | k in p.progress ::
      && 0 <= p.progress[k].points <= I64_MAX
      && forall step | step in GoalsOf(catalog, k.0) ::
           GoalsOf(catalog, k.0)[step] <= p.progress[k].points ==> step <= p.progress[k].step
  }

  /** Whoever claimed a whole paid lane owns its ticket. */
  ghost predicate TicketsOwned(p: Pass, tickets: set<int>, catalog: Catalog) {
    forall season, version | season in catalog && catalog[season].ticket > 0
      && LaneComplete(p, season, version, catalog[season].goals) :: catalog[season].ticket in tickets
  }

  ghost predicate Sound(p: Pass, tickets: set<int>, catalog: Catalog) {
    ClaimsPaid(p, catalog) && StepsReached(p, catalog) && TicketsOwned(p, tickets, catalog)
  }

  /** Points, steps, claims and entitlements only grow. */
  ghost predicate Grows(p: Pass, p': Pass) {
    && (forall k | k in p.progress ::
          k in p'.progress && p.progress[k].points <= p'.progress[k].points && p.progress[k].step <= p'.progress[k].step)
    && p.claims <= p'.claims && p.premium <= p'.premium
  }

  lemma BestStepCovers(steps: Steps, goals: map<int, int>, points: int)
    requires Lists(steps, goals)
    ensures forall step | step in goals && goals[step] <= points :: step <= BestStep(steps, points)
  {
    forall step | step in goals && goals[step] <= points ensures step <= BestStep(steps, points) {
      var i :| 0 <= i < |steps| && steps[i].0 == step;
      assert steps[i].0 in ReachedSteps(steps, points);
    }
  }

  /** What storing better numbers in one progress row keeps. */
  lemma ImproveKeepsSound(p: Pass, tickets: set<int>, catalog: Catalog, season: int, version: int, better: Progress)
    requires Sound(p, tickets, catalog)
    requires var k := (season, version);
      PointsOf(p, season, version) <= better.points && 0 <= better.points <= I64_MAX
      && (k in p.progress ==> p.progress[k].step <= better.step)
    requires forall step | step in GoalsOf(catalog, season) && GoalsOf(catalog, season)[step] <= better.points ::
      step <= better.step
    ensures var after := p.(progress := p.progress[(season, version) := better]);
      Sound(after, tickets, catalog) && Grows(p, after)
  {
    hide LaneComplete;
    var after := p.(progress := p.progress[(season, version) := better]);
    assert forall s, v :: PointsOf(p, s, v) <= PointsOf(after, s, v);
    SameLanes(p, after);
  }

  lemma SameLanes(p: Pass, p': Pass)
    requires p.claims == p'.claims
    ensures forall s, v, goals :: LaneComplete(p, s, v, goals) <==> LaneComplete(p', s, v, goals)
  {
  }

  /** Filling a pass keeps the ledger and adds the points. */
  lemma FillKeepsSound(p: Pass, tickets: set<int>, catalog: Catalog, season: int, version: int, added: int, steps: Steps)
    requires Sound(p, tickets, catalog) && Lists(steps, GoalsOf(catalog, season))
    requires Fill(p, season, version, added, steps).Ok?
    ensures var after := Fill(p, season, version, added, steps).value;
      && Sound(after, tickets, catalog) && Grows(p, after) && after.claims == p.claims
      && PointsOf(after, season, version) == PointsOf(p, season, version) + MaxInt(added, 0)
  {
    var after := Fill(p, season, version, added, steps).value;
    BestStepCovers(steps, GoalsOf(catalog, season), PointsOf(after, season, version));
    hide Sound, Lists, Grows, BestStep;
    PointsNatural(p, tickets, catalog, season, version);
    ImproveKeepsSound(p, tickets, catalog, season, version, after.progress[(season, version)]);
  }

  lemma PointsNatural(p: Pass, tickets: set<int>, catalog: Catalog, season: int, version: int)
    requires Sound(p, tickets, catalog)
    ensures 0 <= PointsOf(p, season, version) <= I64_MAX
  {
  }

  lemma MergedPointsGrow(current: int, reported: int, multiplier: int)
    requires 0 <= current <= I64_MAX
    ensures current <= MergedPoints(current, reported, multiplier) <= I64_MAX
    ensures reported <= I64_MAX ==> reported <= MergedPoints(current, reported, multiplier)
  {
    var m := MaxInt(multiplier, 1);
    if current < reported {
      var d := Saturate64(reported - current);
      assert d * m >= d by {
        assert d * m == d + d * (m - 1);
        assert d * (m - 1) >= 0;
      }
    }
  }

  /** Whatever a snapshot says, merging it takes no points and breaks no claim. */
  lemma MergeKeepsSound(p: Pass, tickets: set<int>, catalog: Catalog, saved: SavedPass, multiplier: int, steps: Steps)
    requires Sound(p, tickets, catalog) && Lists(steps, GoalsOf(catalog, saved.season))
    ensures var after := Merge(p, saved, multiplier, steps);
      Sound(after, tickets, catalog) && Grows(p, after) && after.claims == p.claims && after.premium == p.premium
  {
    var after := Merge(p, saved, multiplier, steps);
    var k := (saved.season, saved.version);
    if IsSeason(saved.season) && saved.points >= 0 && saved.version >= 0 {
      BestStepCovers(steps, GoalsOf(catalog, saved.season), PointsOf(after, saved.season, saved.version));
      PointsNatural(p, tickets, catalog, saved.season, saved.version);
      MergedPointsGrow(PointsOf(p, saved.season, saved.version), saved.points, multiplier);
      hide Sound, Lists, Grows, BestStep, MergedPoints;
      ImproveKeepsSound(p, tickets, catalog, saved.season, saved.version, after.progress[k]);
    }
  }

  // ----- Counting the paid lane -----

  lemma {:induction false} ImageCount(season: int, version: int, steps: set<int>)
    ensures |set step | step in steps :: ClaimKey(season, version, 1, step)| == |steps|
    decreases |steps|
  {
    var keys := set step | step in steps :: ClaimKey(season, version, 1, step);
    if steps != {} {
      var step := Pick(steps);
      var fewer := set s | s in steps - {step} :: ClaimKey(season, version, 1, s);
      assert keys == fewer + {ClaimKey(season, version, 1, step)};
      ImageCount(season, version, steps - {step});
    } else {
      assert keys == {};
    }
  }

  /** Counting the claimed steps tells whether the paid lane is complete. */
  lemma CountTellsComplete(p: Pass, catalog: Catalog, season: int, version: int)
    requires ClaimsPaid(p, catalog) && season in catalog && catalog[season].goals != map[]
    ensures |PaidClaims(p, season, version)| >= |catalog[season].goals|
       <==> LaneComplete(p, season, version, catalog[season].goals)
  {
    var goals := catalog[season].goals;
    var all := set step | step in goals.Keys :: ClaimKey(season, version, 1, step);
    var paid := PaidClaims(p, season, version);
    ImageCount(season, version, goals.Keys);
    assert paid <= all;
    SubsetCount(paid, all);
    if LaneComplete(p, season, version, goals) {
      assert all <= paid;
      assert paid == all;
    } else {
      var step :| step in goals && ClaimKey(season, version, 1, step) !in p.claims;
      assert ClaimKey(season, version, 1, step) in all;
    }
  }

  /** The arguments a claim is issued with come from the catalog. */
  ghost predicate FromCatalog(catalog: Catalog, key: ClaimKey, required: int, paidSteps: int, ticket: int) {
    && key.season in catalog && key.step in catalog[key.season].goals
    && required == catalog[key.season].goals[key.step]
    && paidSteps == |catalog[key.season].goals|
    && ticket == catalog[key.season].ticket
  }

  /**
   A claim keeps the ledger sound; it is inserted exactly when it is new, and the ticket is handed
   out exactly by the claim that completes a paid lane with a positive ticket.
   */
  lemma ClaimKeepsSound(p: Pass, tickets: set<int>, catalog: Catalog, key: ClaimKey,
                        required: int, paidSteps: int, ticket: int)
    requires Sound(p, tickets, catalog) && FromCatalog(catalog, key, required, paidSteps, ticket)
    requires key.lane in {0, 1} && Claim(p, key, required, paidSteps, ticket).Ok?
    ensures var r := Claim(p, key, required, paidSteps, ticket).value;
      && (r.inserted <==> key !in p.claims) && key in r.pass.claims
      && Sound(r.pass, if r.ticketEarned then tickets + {ticket} else tickets, catalog) && Grows(p, r.pass)
      && (r.ticketEarned <==> (r.inserted && key.lane == 1 && ticket > 0
                               && LaneComplete(r.pass, key.season, key.version, catalog[key.season].goals)))
  {
    var r := Claim(p, key, required, paidSteps, ticket).value;
    if r.inserted {
      assert ClaimsPaid(r.pass, catalog);
      CountTellsComplete(r.pass, catalog, key.season, key.version);
      OtherLanes(p, r.pass, key);
      hide LaneComplete, ClaimsPaid, PaidClaims, GoalsOf;
      assert StepsReached(r.pass, catalog);
      var owned := if r.ticketEarned then tickets + {ticket} else tickets;
      forall season, version | season in catalog && catalog[season].ticket > 0
        && LaneComplete(r.pass, season, version, catalog[season].goals)
        ensures catalog[season].ticket in owned
      {
        if !(season == key.season && version == key.version && key.lane == 1) {
          assert LaneComplete(p, season, version, catalog[season].goals);
        }
      }
    }
  }

  /** A new claim completes at most its own lane. */
  lemma OtherLanes(p: Pass, p': Pass, key: ClaimKey)
    requires p'.claims == p.claims + {key}
    ensures forall season, version, goals ::
      LaneComplete(p', season, version, goals) && !(season == key.season && version == key.version && key.lane == 1)
      ==> LaneComplete(p, season, version, goals)
  {
  }

  /** More tickets and more entitlements break nothing. */
  lemma MoreTickets(p: Pass, tickets: set<int>, more: set<int>, seasons: seq<int>, catalog: Catalog)
    requires Sound(p, tickets, catalog) && tickets <= more
    ensures Sound(p, more, catalog) && Sound(Activate(p, seasons), more, catalog) && Grows(p, Activate(p, seasons))
  {
    var after := Activate(p, seasons);
    SameLanes(p, after);
    hide LaneComplete;
    assert forall s, v :: PointsOf(p, s, v) == PointsOf(after, s, v);
  }

  const NEW_PASS := Pass(map[], {}, set season | 1 <= season <= SEASONS)

  lemma NewPassSound(catalog: Catalog)
    ensures Sound(NEW_PASS, {}, catalog)
  {
    forall season, version | season in catalog
      ensures !LaneComplete(NEW_PASS, season, version, catalog[season].goals)
    {
      if catalog[season].goals.Keys != {} {
        var step := Pick(catalog[season].goals.Keys);
        assert ClaimKey(season, version, 1, step) !in NEW_PASS.claims;
      }
    }
  }
}
