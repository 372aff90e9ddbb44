/**
 The daily rotation of the thirteen passes and the cache stamp that tells a client to reload its
 master tables: `pass_season` of crates/policy-memorial/src/lib.rs, `master_update_time` of
 crates/transport-http/src/gameplay.rs, and the anchor a slot keeps in the store.
 */
module PassRotation {
  import opened Wrappers
  import opened Text
  import CivilDate

  const PASS_SEASONS := 13
  const MASTER_OVERLAY_GENERATION := 11

  datatype DeviceClock = DeviceClock(unixSeconds: int, utcOffsetMinutes: int)

  function LocalEpochDay(clock: DeviceClock): int {
    (clock.unixSeconds + clock.utcOffsetMinutes * 60) / 86_400
  }

  function Saturate(x: int): int {
    if x > I64_MAX then I64_MAX else if x < -I64_MAX - 1 then -I64_MAX - 1 else x
  }

  datatype Anchor = Anchor(localDay: int, season: int)

  predicate ValidSeason(season: int) {
    1 <= season <= PASS_SEASONS
  }

  function PassSeason(clock: DeviceClock, anchor: Anchor): int {
    var elapsed := Saturate(LocalEpochDay(clock) - anchor.localDay);
    (anchor.season - 1 + elapsed) % PASS_SEASONS + 1
  }

  function MasterUpdateTime(clock: DeviceClock, revision: int): int {
    var localMidnightUtc := Saturate(LocalEpochDay(clock) * 86_400) - clock.utcOffsetMinutes * 60;
    Saturate(Saturate(localMidnightUtc + MASTER_OVERLAY_GENERATION) + revision)
  }

  // ----- What a slot stores -----

  /** `pass_anchors` and the 'master-data' row of `state_revisions` of one slot. */
  datatype Rotation = Rotation(anchor: Option<Anchor>, revision: nat)

  datatype RotationStep =
    | AnchorAtLogin(clock: DeviceClock)
    | SelectSeason(clock: DeviceClock, season: int)

  /** `begin_login` anchors a slot that has no anchor; selecting a season re-anchors and counts a revision. */
  function Rotate(rotation: Rotation, step: RotationStep): Result<Rotation, ()> {
    match step
    case AnchorAtLogin(clock) =>
      var day := LocalEpochDay(clock);
      Ok(if rotation.anchor.Some? then rotation
         else rotation.(anchor := Some(Anchor(day, day % PASS_SEASONS + 1))))
    case SelectSeason(clock, season) =>
      if !ValidSeason(season) then Err(())
      else Ok(Rotation(Some(Anchor(LocalEpochDay(clock), season)), rotation.revision + 1))
  }

  predicate ValidRotation(rotation: Rotation) {
    rotation.anchor.Some? ==> ValidSeason(rotation.anchor.value.season)
  }

  lemma RotateKeepsValid(rotation: Rotation, step: RotationStep)
    requires ValidRotation(rotation) && Rotate(rotation, step).Ok?
    ensures ValidRotation(Rotate(rotation, step).value)
  {
  }

  /** `later` is reached from `earlier` by accepted steps. */
  ghost predicate Reaches(earlier: Rotation, later: Rotation, steps: seq<RotationStep>)
    decreases |steps|
  {
    if steps == [] then earlier == later
    else Rotate(earlier, steps[0]).Ok? && Reaches(Rotate(earlier, steps[0]).value, later, steps[1..])
  }

  lemma {:induction false} ReachesAppend(a: Rotation, b: Rotation, c: Rotation, s: seq<RotationStep>, t: seq<RotationStep>)
    requires Reaches(a, b, s) && Reaches(b, c, t)
    ensures Reaches(a, c, s + t)
    decreases |s|
  {
    if s == [] {
      assert s + t == t;
    } else {
      ReachesAppend(Rotate(a, s[0]).value, b, c, s[1..], t);
      assert (s + t)[1..] == s[1..] + t;
    }
  }

  /** Revisions never fall, and an anchored slot whose revision stands still keeps its anchor. */
  lemma {:induction false} RevisionDatesAnchor(earlier: Rotation, later: Rotation, steps: seq<RotationStep>)
    requires Reaches(earlier, later, steps)
    ensures earlier.revision <= later.revision
    ensures earlier.anchor.Some? && earlier.revision == later.revision ==> later == earlier
    decreases |steps|
  {
    if steps != [] {
      RevisionDatesAnchor(Rotate(earlier, steps[0]).value, later, steps[1..]);
    }
  }

  // ----- The rotation -----

  predicate InRange(clock: DeviceClock, anchor: Anchor) {
    -I64_MAX <= LocalEpochDay(clock) - anchor.localDay <= I64_MAX
  }

  lemma SeasonInRange(clock: DeviceClock, anchor: Anchor)
    ensures ValidSeason(PassSeason(clock, anchor))
  {
  }

  /** The season that is active `k` days after `clock`. */
  function SeasonAfter(clock: DeviceClock, anchor: Anchor, k: int): int {
    PassSeason(clock.(unixSeconds := clock.unixSeconds + k * 86_400), anchor)
  }

  lemma SeasonAfterDays(clock: DeviceClock, anchor: Anchor, k: int)
    requires 0 <= k < PASS_SEASONS
    requires -I64_MAX <= LocalEpochDay(clock) - anchor.localDay <= I64_MAX - PASS_SEASONS
    ensures SeasonAfter(clock, anchor, k)
         == (anchor.season - 1 + LocalEpochDay(clock) - anchor.localDay + k) % PASS_SEASONS + 1
  {
    var local := clock.unixSeconds + clock.utcOffsetMinutes * 60;
    assert (local + k * 86_400) / 86_400 == local / 86_400 + k;
  }

  lemma DayForResidue(x: int, residue: int) returns (k: int)
    requires 0 <= residue < PASS_SEASONS
    ensures 0 <= k < PASS_SEASONS && (x + k) % PASS_SEASONS == residue
  {
    k := (residue - x) % PASS_SEASONS;
  }

  lemma ResiduesDiffer(x: int, j: int, k: int)
    requires 0 <= j < PASS_SEASONS && 0 <= k < PASS_SEASONS && (x + j) % PASS_SEASONS == (x + k) % PASS_SEASONS
    ensures j == k
  {
  }

  /** In any thirteen consecutive local days from `clock` on, each season is active on exactly one. */
  lemma EachSeasonOnce(clock: DeviceClock, anchor: Anchor, season: int)
    requires ValidSeason(season)
    requires -I64_MAX <= LocalEpochDay(clock) - anchor.localDay <= I64_MAX - PASS_SEASONS
    ensures exists k | 0 <= k < PASS_SEASONS :: SeasonAfter(clock, anchor, k) == season
    ensures forall j, k | 0 <= j < PASS_SEASONS && 0 <= k < PASS_SEASONS
      && SeasonAfter(clock, anchor, j) == season && SeasonAfter(clock, anchor, k) == season :: j == k
  {
    hide SeasonAfter, LocalEpochDay;
    var x := anchor.season - 1 + LocalEpochDay(clock) - anchor.localDay;
    var day := DayForResidue(x, season - 1);
    SeasonAfterDays(clock, anchor, day);
    forall j, k | 0 <= j < PASS_SEASONS && 0 <= k < PASS_SEASONS
      && SeasonAfter(clock, anchor, j) == season && SeasonAfter(clock, anchor, k) == season
      ensures j == k
    {
      SeasonAfterDays(clock, anchor, j);
      SeasonAfterDays(clock, anchor, k);
      ResiduesDiffer(x, j, k);
    }
  }

  lemma ResidueShifts(first: int, rest: int)
    ensures (first % PASS_SEASONS + rest) % PASS_SEASONS == (first + rest) % PASS_SEASONS
  {
    var q := first / PASS_SEASONS;
    assert first % PASS_SEASONS + rest == first + rest - PASS_SEASONS * q;
  }

  /** Anchoring again on the season that is active today changes the season of no day. */
  lemma ReanchorOnCurrent(now: DeviceClock, other: DeviceClock, anchor: Anchor)
    requires InRange(now, anchor) && InRange(other, anchor)
    requires InRange(other, Anchor(LocalEpochDay(now), PassSeason(now, anchor)))
    ensures PassSeason(other, Anchor(LocalEpochDay(now), PassSeason(now, anchor))) == PassSeason(other, anchor)
  {
    hide LocalEpochDay;
    ResidueShifts(anchor.season - 1 + (LocalEpochDay(now) - anchor.localDay), LocalEpochDay(other) - LocalEpochDay(now));
  }

  // ----- The cache stamp -----

  /** No step of the stamp's arithmetic reaches the ends of `i64`. */
  predicate Unsaturated(clock: DeviceClock, revision: int) {
    var midnight := LocalEpochDay(clock) * 86_400 - clock.utcOffsetMinutes * 60;
    && -I64_MAX <= LocalEpochDay(clock) * 86_400 <= I64_MAX
    && -I64_MAX <= midnight <= I64_MAX
    && midnight + MASTER_OVERLAY_GENERATION + revision <= I64_MAX
  }

  /** What the master tables are tailored to: the active pass and the local month. */
  datatype Overlay = Overlay(season: int, month: int)

  function OverlayOf(clock: DeviceClock, rotation: Rotation): Overlay
    requires rotation.anchor.Some?
  {
    Overlay(PassSeason(clock, rotation.anchor.value), CivilDate.CivilFromDays(LocalEpochDay(clock)).month)
  }

  /**
   Within a slot, at one UTC offset and a clock that does not run back, equal stamps mean that
   neither the local day nor the revision moved, so the overlay is the same.
   */
  lemma StampCoherence(earlier: Rotation, later: Rotation, steps: seq<RotationStep>, c1: DeviceClock, c2: DeviceClock)
    requires earlier.anchor.Some? && Reaches(earlier, later, steps)
    requires c1.utcOffsetMinutes == c2.utcOffsetMinutes && c1.unixSeconds <= c2.unixSeconds
    requires Unsaturated(c1, earlier.revision) && Unsaturated(c2, later.revision)
    ensures MasterUpdateTime(c1, earlier.revision) == MasterUpdateTime(c2, later.revision)
       <==> LocalEpochDay(c1) == LocalEpochDay(c2) && earlier.revision == later.revision
    ensures MasterUpdateTime(c1, earlier.revision) == MasterUpdateTime(c2, later.revision)
        ==> later.anchor.Some? && OverlayOf(c1, earlier) == OverlayOf(c2, later)
  {
    RevisionDatesAnchor(earlier, later, steps);
    assert LocalEpochDay(c1) <= LocalEpochDay(c2);
  }

  function DaysAhead(c1: DeviceClock, c2: DeviceClock): int {
    LocalEpochDay(c2) - LocalEpochDay(c1)
  }

  function MinutesEast(c1: DeviceClock, c2: DeviceClock): int {
    c2.utcOffsetMinutes - c1.utcOffsetMinutes
  }

  /** `DeviceClock::new` accepts offsets of at most fourteen hours. */
  predicate ValidOffset(clock: DeviceClock) {
    -840 <= clock.utcOffsetMinutes <= 840
  }

  /** Two stamps are equal exactly when the days and revisions gained make up for the way east. */
  lemma StampsEqualExactly(c1: DeviceClock, r1: nat, c2: DeviceClock, r2: nat)
    requires Unsaturated(c1, r1) && Unsaturated(c2, r2)
    ensures MasterUpdateTime(c1, r1) == MasterUpdateTime(c2, r2)
       <==> DaysAhead(c1, c2) * 86_400 + (r2 - r1) == MinutesEast(c1, c2) * 60
  {
  }

  /** The client keeps its tables although the local day or the revision of the slot has changed. */
  predicate Hides(earlier: Rotation, c1: DeviceClock, later: Rotation, c2: DeviceClock) {
    && MasterUpdateTime(c1, earlier.revision) == MasterUpdateTime(c2, later.revision)
    && (LocalEpochDay(c1) != LocalEpochDay(c2) || earlier.revision != later.revision)
  }

  /**
   Between any two moments of a slot, the clock and the offset being whatever the device says: equal
   stamps hide a change exactly when the revisions gained are the seconds of the way east less the
   days gained, and the day or the offset is another. At one offset that takes a clock moved back
   `k` days and `k` times 86400 re-selections; the day can be gained by one at most.
   */
  lemma HidesExactly(earlier: Rotation, later: Rotation, steps: seq<RotationStep>, c1: DeviceClock, c2: DeviceClock)
    requires Reaches(earlier, later, steps)
    requires Unsaturated(c1, earlier.revision) && Unsaturated(c2, later.revision)
    ensures Hides(earlier, c1, later, c2)
       <==> (later.revision - earlier.revision == MinutesEast(c1, c2) * 60 - DaysAhead(c1, c2) * 86_400
             && (DaysAhead(c1, c2) != 0 || MinutesEast(c1, c2) != 0))
    ensures c1.utcOffsetMinutes == c2.utcOffsetMinutes ==>
      (Hides(earlier, c1, later, c2) <==>
       DaysAhead(c1, c2) < 0 && later.revision == earlier.revision - DaysAhead(c1, c2) * 86_400)
    ensures Hides(earlier, c1, later, c2) && ValidOffset(c1) && ValidOffset(c2) ==>
      DaysAhead(c1, c2) <= 1 && (DaysAhead(c1, c2) == 1 ==> MinutesEast(c1, c2) >= 1440)
    ensures MasterUpdateTime(c1, earlier.revision) == MasterUpdateTime(c2, later.revision)
         && !Hides(earlier, c1, later, c2) && earlier.anchor.Some?
        ==> later.anchor.Some? && OverlayOf(c1, earlier) == OverlayOf(c2, later)
  {
    RevisionDatesAnchor(earlier, later, steps);
    StampsEqualExactly(c1, earlier.revision, c2, later.revision);
    hide MasterUpdateTime, LocalEpochDay, Unsaturated, Reaches;
  }

  function SelectTimes(n: nat, clock: DeviceClock, season: int): (steps: seq<RotationStep>)
    ensures |steps| == n
  {
    if n == 0 then [] else [SelectSeason(clock, season)] + SelectTimes(n - 1, clock, season)
  }

  lemma {:induction false} SelectsCount(n: nat, clock: DeviceClock, season: int, from: Rotation)
    requires ValidSeason(season) && n > 0
    ensures Reaches(from, Rotation(Some(Anchor(LocalEpochDay(clock), season)), from.revision + n),
                    SelectTimes(n, clock, season))
  {
    var steps := SelectTimes(n, clock, season);
    var next := Rotate(from, steps[0]).value;
    assert steps[1..] == SelectTimes(n - 1, clock, season);
    if n > 1 {
      SelectsCount(n - 1, clock, season, next);
    } else {
      assert Reaches(next, next, []);
    }
  }

  /** Whenever the way east exceeds the days gained, enough re-selections make a slot hide its change. */
  lemma HidesHappens(from: Rotation, c1: DeviceClock, c2: DeviceClock, season: int)
    requires ValidSeason(season) && MinutesEast(c1, c2) * 60 - DaysAhead(c1, c2) * 86_400 > 0
    requires Unsaturated(c1, from.revision)
    requires Unsaturated(c2, from.revision + MinutesEast(c1, c2) * 60 - DaysAhead(c1, c2) * 86_400)
    ensures exists later, steps :: Reaches(from, later, steps) && Hides(from, c1, later, c2)
  {
    hide Reaches, SelectTimes, Unsaturated, LocalEpochDay, MasterUpdateTime;
    var n: nat := MinutesEast(c1, c2) * 60 - DaysAhead(c1, c2) * 86_400;
    SelectsCount(n, c2, season, from);
    var later := Rotation(Some(Anchor(LocalEpochDay(c2), season)), from.revision + n);
    assert Reaches(from, later, SelectTimes(n, c2, season));
    StampsEqualExactly(c1, from.revision, c2, later.revision);
    assert Hides(from, c1, later, c2);
  }

  /**
   It happens: moving one minute east while re-selecting sixty times gives the same stamp for a
   different active pass.
   */
  lemma StampCollidesAcrossOffsets()
    ensures var c1, c2 := DeviceClock(0, 0), DeviceClock(0, 1);
      var first := Rotation(Some(Anchor(0, 1)), 0);
      exists later, steps :: Reaches(first, later, steps) && later.anchor.Some?
        && Hides(first, c1, later, c2) && OverlayOf(c1, first) != OverlayOf(c2, later)
  {
    hide Reaches, SelectTimes, CivilDate.CivilFromDays;
    var c1, c2 := DeviceClock(0, 0), DeviceClock(0, 1);
    var first, later := Rotation(Some(Anchor(0, 1)), 0), Rotation(Some(Anchor(0, 2)), 60);
    assert LocalEpochDay(c1) == 0 && LocalEpochDay(c2) == 0;
    SelectsCount(60, c2, 2, first);
    assert Reaches(first, later, SelectTimes(60, c2, 2));
    assert OverlayOf(c1, first).season == 1 && OverlayOf(c2, later).season == 2;
  }
}
