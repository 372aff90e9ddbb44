/**
 Chapter-three energy: restored one point a second up to a cap, spent by stages, granted by
 cookies (`restore_ch3_energy` and its callers in crates/persistence-sqlite/src/lib.rs).
 */
module Ch3Energy {
  import opened Wrappers
  import opened Text
  import opened SaveDomain

  datatype Energy = Energy(amount: int, cap: int, calculatedAt: int)

  /** Seconds the clock moved forward since the stored instant, as far as `i32` reaches. */
  function Elapsed(e: Energy, now: int): int {
    MinInt(MaxInt(Saturate64(now - e.calculatedAt), 0), I32_MAX)
  }

  function Restore(e: Energy, now: int, cap: int): Energy {
    Energy(MinInt(Saturate32(e.amount + Elapsed(e, now)), cap), cap, now)
  }

  /** A stage or a stream of stages: restore, then pay. */
  function Spend(e: Energy, now: int, cap: int, cost: int): Result<Energy, StoreError> {
    var restored := Restore(e, now, cap);
    if restored.amount < cost then Err(InsufficientEnergy)
    else Ok(restored.(amount := restored.amount - cost))
  }

  /** A cookie adds up to the stored cap and moves the instant without restoring first. */
  function Eat(e: Energy, now: int, grant: int): Energy {
    Energy(MinInt(e.cap, e.amount + grant), e.cap, now)
  }

  predicate ValidEnergy(e: Energy, cap: int) {
    e.cap == cap && 0 <= e.amount <= cap
  }

  // ----- Restoring in two steps -----

  /**
   Restoring at t1 and then at t2 is the same as restoring at t2, exactly when the clock had not
   run back at t1, or the two instants coincide, or the energy is full at t2 anyway.
   */
  lemma RestoreComposesExactly(e: Energy, t1: int, t2: int, cap: int)
    requires 0 <= e.amount <= I32_MAX && 0 <= cap <= I32_MAX && t1 <= t2
    ensures Restore(Restore(e, t1, cap), t2, cap) == Restore(e, t2, cap)
       <==> t1 >= e.calculatedAt || t1 == t2 || e.amount + MaxInt(0, t2 - e.calculatedAt) >= cap
  {
  }

  /** A clock that runs back and forward again earns the same seconds twice. */
  lemma RollbackEarnsTwice()
    ensures var e := Energy(0, 200, 100);
      Restore(Restore(e, 50, 200), 100, 200).amount == 50 && Restore(e, 100, 200).amount == 0
  {
  }

  // ----- The published deadline -----

  /** `ch3_energy_wire_value`: the Unix second at which the client shows full energy. */
  function FullTime(e: Energy): int {
    Saturate32(Saturate64(e.calculatedAt + MaxInt(Saturate32(e.cap - e.amount), 1)))
  }

  /** Below the cap, the published instant is the first at which restoring reaches the cap. */
  lemma FullTimeIsLeast(e: Energy, t: int)
    requires 0 <= e.amount < e.cap <= I32_MAX
    requires -I32_MAX <= e.calculatedAt && e.calculatedAt + e.cap <= I32_MAX
    ensures Restore(e, t, e.cap).amount == e.cap <==> t >= FullTime(e)
  {
  }

  // ----- Accounting over runs -----

  datatype EnergyStep =
    | RestoreAt(now: int)
    | SpendAt(now: int, cost: nat)
    | EatAt(now: int, grant: nat)

  function Take(e: Energy, step: EnergyStep, cap: int): Result<Energy, StoreError> {
    match step
    case RestoreAt(now) => Ok(Restore(e, now, cap))
    case SpendAt(now, cost) => Spend(e, now, cap, cost)
    case EatAt(now, grant) => Ok(Eat(e, now, grant))
  }

  function Spent(step: EnergyStep): nat {
    if step.SpendAt? then step.cost else 0
  }

  function Granted(step: EnergyStep): nat {
    if step.EatAt? then step.grant else 0
  }

  /** `later` is reached from `earlier` by accepted steps. */
  ghost predicate Reaches(earlier: Energy, later: Energy, steps: seq<EnergyStep>, cap: int)
    decreases |steps|
  {
    if steps == [] then earlier == later
    else Take(earlier, steps[0], cap).Ok? && Reaches(Take(earlier, steps[0], cap).value, later, steps[1..], cap)
  }

  /** Seconds by which the clock moved forward along a run; moves backward count nothing. */
  function ForwardSeconds(from: int, steps: seq<EnergyStep>): nat
    decreases |steps|
  {
    if steps == [] then 0
    else MaxInt(0, steps[0].now - from) + ForwardSeconds(steps[0].now, steps[1..])
  }

  function TotalSpent(steps: seq<EnergyStep>): nat {
    if steps == [] then 0 else Spent(steps[0]) + TotalSpent(steps[1..])
  }

  function TotalGranted(steps: seq<EnergyStep>): nat {
    if steps == [] then 0 else Granted(steps[0]) + TotalGranted(steps[1..])
  }

  /**
   At a fixed cap every run keeps the energy between zero and the cap, and what is held and was
   spent never exceeds what was held at first, the seconds that passed and the grants.
   */
  lemma {:induction false} EnergyAccounted(earlier: Energy, later: Energy, steps: seq<EnergyStep>, cap: int)
    requires 0 <= cap <= I32_MAX && ValidEnergy(earlier, cap) && Reaches(earlier, later, steps, cap)
    ensures ValidEnergy(later, cap)
    ensures later.amount + TotalSpent(steps)
         <= earlier.amount + ForwardSeconds(earlier.calculatedAt, steps) + TotalGranted(steps)
    decreases |steps|
  {
    if steps != [] {
      var next := Take(earlier, steps[0], cap).value;
      EnergyAccounted(next, later, steps[1..], cap);
    }
  }

  lemma {:induction false} ReachesAppend(a: Energy, b: Energy, c: Energy, s: seq<EnergyStep>, t: seq<EnergyStep>, cap: int)
    requires Reaches(a, b, s, cap) && Reaches(b, c, t, cap)
    ensures Reaches(a, c, s + t, cap)
    decreases |s|
  {
    if s == [] {
      assert s + t == t;
    } else {
      ReachesAppend(Take(a, s[0], cap).value, b, c, s[1..], t, cap);
      assert (s + t)[1..] == s[1..] + t;
    }
  }
}
