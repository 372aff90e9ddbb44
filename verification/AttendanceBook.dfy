/**
 Attendance of a slot: `attendance` in crates/persistence-sqlite/src/lib.rs over the tables
 `attendance_days` and `attendance_state`.
 */
module AttendanceBook {
  import opened Wrappers
  import opened SaveDomain

  datatype Book = Book(days: set<int>, count: int, continuous: int, maximum: int, last: Option<int>)

  const NEW_BOOK := Book({}, 0, 0, 0, None)

  /** `status` of the reply: the day is free, already taken, or was added by this request. */
  datatype Status = Free | Taken | Added

  datatype Visit = Visit(day: int, add: bool)

  /** The counters are read back as `i32`, so a count beyond that range fails the request. */
  function Attend(b: Book, visit: Visit): Result<(Book, Status), StoreError> {
    if visit.day in b.days then Ok((b, Taken))
    else if !visit.add then Ok((b, Free))
    else
      var streak := if b.last == Some(visit.day - 1) then Saturate32(b.continuous + 1) else 1;
      if b.count + 1 > I32_MAX then Err(SqlConstraint)
      else Ok((Book(b.days + {visit.day}, b.count + 1, streak, MaxInt(b.maximum, streak), Some(visit.day)), Added))
  }

  // ----- What every visit keeps -----

  /** The `n` days that end at `end` were all attended. */
  ghost predicate Run(days: set<int>, end: int, n: int) {
    forall d | end - n < d <= end :: d in days
  }

  /** Some `n` consecutive days were all attended. */
  ghost predicate HasRun(days: set<int>, n: int) {
    exists end :: Run(days, end, n)
  }

  ghost predicate ValidBook(b: Book) {
    && b.count == |b.days| <= I32_MAX
    && (b.last.None? <==> b.days == {})
    && 0 <= b.continuous <= b.maximum
    && (b.last.Some? ==> b.continuous >= 1 && Run(b.days, b.last.value, b.continuous))
    && HasRun(b.days, b.maximum)
  }

  /** No attended run is longer than the stored maximum. */
  ghost predicate MaxExact(b: Book) {
    forall end, n | Run(b.days, end, n) :: n <= b.maximum
  }

  /** The maximum is exact, the last streak cannot be extended back, and no day is after the last one. */
  ghost predicate ExactBook(b: Book) {
    && MaxExact(b)
    && (b.last.Some? ==>
          && b.last.value - b.continuous !in b.days
          && forall d | d in b.days :: d <= b.last.value)
  }

  lemma {:induction false} RunFits(days: set<int>, end: int, n: nat)
    requires Run(days, end, n)
    ensures n <= |days|
    decreases n
  {
    if n > 0 {
      assert end in days;
      RunFits(days - {end}, end - 1, n - 1);
    }
  }

  /** Whatever the clock does, a visit keeps the counters true of the attended days. */
  lemma AttendKeepsValid(b: Book, visit: Visit)
    requires ValidBook(b) && Attend(b, visit).Ok?
    ensures var (after, status) := Attend(b, visit).value;
      && ValidBook(after)
      && (status == Added <==> visit.add && visit.day !in b.days)
      && after.days == (if status == Added then b.days + {visit.day} else b.days)
  {
    var (after, status) := Attend(b, visit).value;
    if status == Added {
      var end :| Run(b.days, end, b.maximum);
      assert Run(after.days, end, b.maximum);
      if b.last.Some? {
        RunFits(b.days, b.last.value, b.continuous);
      }
      assert Run(after.days, visit.day, after.continuous);
    }
  }

  /** A visit on a later day than all before keeps the maximum exact. */
  lemma AttendKeepsExact(b: Book, visit: Visit)
    requires ValidBook(b) && ExactBook(b) && Attend(b, visit).Ok?
    requires visit.add && visit.day !in b.days ==> forall d | d in b.days :: d < visit.day
    ensures ExactBook(Attend(b, visit).value.0)
  {
    var (after, status) := Attend(b, visit).value;
    if status == Added {
      if b.last.Some? {
        assert b.last.value in b.days;
        RunFits(b.days, b.last.value, b.continuous);
      }
      assert visit.day - after.continuous !in after.days;
      forall end, n | Run(after.days, end, n) ensures n <= after.maximum {
        if !(end - n < visit.day <= end) {
          forall d | end - n < d <= end ensures d in b.days {
            assert d in after.days;
          }
          assert Run(b.days, end, n);
        } else {
          assert end in after.days;
          assert end == visit.day;
        }
      }
    }
  }

  // ----- Runs of visits -----

  ghost predicate Reaches(earlier: Book, later: Book, visits: seq<Visit>)
    decreases |visits|
  {
    if visits == [] then earlier == later
    else Attend(earlier, visits[0]).Ok? && Reaches(Attend(earlier, visits[0]).value.0, later, visits[1..])
  }

  lemma {:induction false} ReachesAppend(a: Book, b: Book, c: Book, s: seq<Visit>, t: seq<Visit>)
    requires Reaches(a, b, s) && Reaches(b, c, t)
    ensures Reaches(a, c, s + t)
    decreases |s|
  {
    if s == [] {
      assert s + t == t;
    } else {
      ReachesAppend(Attend(a, s[0]).value.0, b, c, s[1..], t);
      assert (s + t)[1..] == s[1..] + t;
    }
  }

  function AddedDays(visits: seq<Visit>): set<int> {
    if visits == [] then {} else (if visits[0].add then {visits[0].day} else {}) + AddedDays(visits[1..])
  }

  lemma AttendTells(b: Book, visit: Visit)
    requires Attend(b, visit).Ok?
    ensures Attend(b, visit).value.0.days == b.days + if visit.add then {visit.day} else {}
  {
  }

  /** After any visits, the clock running back and forth, the days and their counters are those added. */
  lemma {:induction false} VisitsCounted(earlier: Book, later: Book, visits: seq<Visit>)
    requires ValidBook(earlier) && Reaches(earlier, later, visits)
    ensures ValidBook(later) && later.days == earlier.days + AddedDays(visits)
    decreases |visits|
  {
    if visits != [] {
      hide ValidBook, Attend;
      AttendKeepsValid(earlier, visits[0]);
      AttendTells(earlier, visits[0]);
      VisitsCounted(Attend(earlier, visits[0]).value.0, later, visits[1..]);
    }
  }

  /** The days that visits add to `days`, in the order in which they are added. */
  function Additions(days: set<int>, visits: seq<Visit>): seq<int>
    decreases |visits|
  {
    if visits == [] then []
    else if visits[0].add && visits[0].day !in days then
      [visits[0].day] + Additions(days + {visits[0].day}, visits[1..])
    else Additions(days, visits[1..])
  }

  predicate Ascending(days: seq<int>) {
    forall i, j | 0 <= i < j < |days| :: days[i] < days[j]
  }

  lemma AscendingTail(first: int, rest: seq<int>)
    requires Ascending([first] + rest)
    ensures Ascending(rest) && forall a | a in rest :: first < a
  {
    var all := [first] + rest;
    forall i, j | 0 <= i < j < |rest| ensures rest[i] < rest[j] {
      assert all[i + 1] < all[j + 1];
    }
    forall a | a in rest ensures first < a {
      var k :| 0 <= k < |rest| && rest[k] == a;
      assert all[0] < all[k + 1];
    }
  }

  lemma AdditionsStep(b: Book, visits: seq<Visit>)
    requires visits != [] && Attend(b, visits[0]).Ok?
    ensures Additions(b.days, visits)
         == (if visits[0].add && visits[0].day !in b.days then [visits[0].day] else [])
            + Additions(Attend(b, visits[0]).value.0.days, visits[1..])
  {
    AttendTells(b, visits[0]);
    hide Attend;
    if !(visits[0].add && visits[0].day !in b.days) {
      assert Attend(b, visits[0]).value.0.days == b.days;
    }
  }

  /** When days are added in order, the stored maximum is the length of the longest attended run. */
  lemma {:induction false} IncreasingVisitsExact(earlier: Book, later: Book, visits: seq<Visit>)
    requires ValidBook(earlier) && ExactBook(earlier) && Reaches(earlier, later, visits)
    requires Ascending(Additions(earlier.days, visits))
    requires forall d, a | d in earlier.days && a in Additions(earlier.days, visits) :: d < a
    ensures ValidBook(later) && ExactBook(later)
    decreases |visits|
  {
    if visits != [] {
      var next := Attend(earlier, visits[0]).value.0;
      var adds, rest := Additions(earlier.days, visits), Additions(next.days, visits[1..]);
      AttendTells(earlier, visits[0]);
      AdditionsStep(earlier, visits);
      AttendKeepsValid(earlier, visits[0]);
      assert visits[0].add && visits[0].day !in earlier.days ==> visits[0].day in adds;
      AttendKeepsExact(earlier, visits[0]);
      hide ValidBook, ExactBook, Attend, Additions;
      if visits[0].add && visits[0].day !in earlier.days {
        AscendingTail(visits[0].day, rest);
      }
      assert forall a | a in rest :: a in adds;
      IncreasingVisitsExact(next, later, visits[1..]);
    }
  }

  lemma NewBookExact()
    ensures ValidBook(NEW_BOOK) && ExactBook(NEW_BOOK)
  {
    assert Run(NEW_BOOK.days, 0, 0);
    forall end: int, n: int ensures n > 0 ==> !Run(NEW_BOOK.days, end, n) {
      assert end !in NEW_BOOK.days;
    }
  }

  // ----- When the maximum falls short -----

  /** Length of the attended run that ends at `end`. */
  ghost function BackRun(days: set<int>, end: int): nat
    decreases |days|
  {
    if end !in days then 0 else 1 + BackRun(days - {end}, end - 1)
  }

  /** Length of the attended run that begins at `start`. */
  ghost function ForwardRun(days: set<int>, start: int): nat
    decreases |days|
  {
    if start !in days then 0 else 1 + ForwardRun(days - {start}, start + 1)
  }

  /** A run less its first or last day, among the days less that day. */
  lemma RunWithout(days: set<int>, day: int, end: int, n: nat)
    requires day in days && n > 0 && (day == end || day == end - n + 1)
    ensures Run(days, end, n) <==> Run(days - {day}, if day == end then end - 1 else end, n - 1)
  {
    var rest, last := days - {day}, if day == end then end - 1 else end;
    if Run(rest, last, n - 1) {
      forall d | end - n < d <= end ensures d in days {
        assert d == day || d in rest;
      }
    }
  }

  lemma {:induction false} BackRunIsLongest(days: set<int>, end: int, n: nat)
    ensures Run(days, end, n) <==> n <= BackRun(days, end)
    decreases |days|
  {
    if end in days && n > 0 {
      BackRunIsLongest(days - {end}, end - 1, n - 1);
      RunWithout(days, end, end, n);
    } else if n > 0 {
      assert !Run(days, end, n);
    }
  }

  lemma {:induction false} ForwardRunIsLongest(days: set<int>, start: int, n: nat)
    ensures Run(days, start + n - 1, n) <==> n <= ForwardRun(days, start)
    decreases |days|
  {
    if start in days && n > 0 {
      ForwardRunIsLongest(days - {start}, start + 1, n - 1);
      RunWithout(days, start, start + n - 1, n);
    } else if n > 0 {
      assert !Run(days, start + n - 1, n);
    }
  }

  /**
   Adding a day to a book with an exact maximum keeps it exact exactly when the run that the day
   joins, the days just before and just after it included, is no longer than the maximum or the streak.
   */
  lemma VisitKeepsMaxExactly(b: Book, visit: Visit)
    requires ValidBook(b) && MaxExact(b) && Attend(b, visit).Ok? && visit.add && visit.day !in b.days
    ensures var after := Attend(b, visit).value.0;
      MaxExact(after)
      <==> BackRun(b.days, visit.day - 1) + 1 + ForwardRun(b.days, visit.day + 1)
           <= MaxInt(b.maximum, after.continuous)
  {
    hide BackRun, ForwardRun;
    var day, after := visit.day, Attend(b, visit).value.0;
    var back, ahead := BackRun(b.days, day - 1), ForwardRun(b.days, day + 1);
    BackRunIsLongest(b.days, day - 1, back);
    ForwardRunIsLongest(b.days, day + 1, ahead);
    assert Run(after.days, day + ahead, back + 1 + ahead) by {
      forall d | day + ahead - (back + 1 + ahead) < d <= day + ahead ensures d in after.days {
      }
    }
    if back + 1 + ahead <= after.maximum {
      forall end, n | Run(after.days, end, n) ensures n <= after.maximum {
        if !(end - n < day <= end) {
          assert Run(b.days, end, n) by {
            forall d | end - n < d <= end ensures d in b.days {
              assert d in after.days;
            }
          }
        } else {
          var before, beyond: nat := day - 1 - (end - n), end - day;
          forall d | end - n < d <= end && d != day ensures d in b.days {
            assert d in after.days;
          }
          assert Run(b.days, day - 1, before);
          assert Run(b.days, day + 1 + beyond - 1, beyond);
          BackRunIsLongest(b.days, day - 1, before);
          ForwardRunIsLongest(b.days, day + 1, beyond);
        }
      }
    }
  }

  /** `n` days were added one after the other from position `i` on, each the day after the one before. */
  predicate Block(adds: seq<int>, i: int, n: int) {
    && 0 <= i <= i + n <= |adds|
    && forall k | i < k < i + n :: adds[k] == adds[k - 1] + 1
  }

  /** The last `n` additions are the longest block at the end. */
  predicate Streak(adds: seq<int>, n: int) {
    && (adds == [] ==> n == 0) && (adds != [] ==> n >= 1)
    && Block(adds, |adds| - n, n)
    && (n < |adds| ==> !Block(adds, |adds| - n - 1, n + 1))
  }

  ghost predicate LongestBlock(adds: seq<int>, n: int) {
    && (exists i :: Block(adds, i, n))
    && forall i, m | Block(adds, i, m) :: m <= n
  }

  /** The counters of a book are those of the days added so far, read off the order of the additions. */
  ghost predicate Tells(b: Book, adds: seq<int>) {
    && b.days == (set d | d in adds) && b.count == |adds| <= I32_MAX
    && b.last == (if adds == [] then None else Some(adds[|adds| - 1]))
    && Streak(adds, b.continuous) && LongestBlock(adds, b.maximum)
  }

  lemma BlockGrows(adds: seq<int>, day: int, i: int, n: int)
    requires i + n <= |adds|
    ensures Block(adds + [day], i, n) <==> Block(adds, i, n)
  {
    assert forall k | 0 <= k < |adds| :: (adds + [day])[k] == adds[k];
  }

  lemma BlockAtEnd(adds: seq<int>, day: int, n: int)
    requires 1 <= n <= |adds|
    ensures Block(adds + [day], |adds| - n, n + 1) <==> Block(adds, |adds| - n, n) && day == adds[|adds| - 1] + 1
  {
    var grown := adds + [day];
    assert forall k | 0 <= k < |adds| :: grown[k] == adds[k];
    if Block(grown, |adds| - n, n + 1) {
      assert grown[|adds|] == grown[|adds| - 1] + 1;
    }
  }

  lemma {:induction false} BlockShrinks(adds: seq<int>, i: int, n: int, j: int)
    requires Block(adds, i, n) && i <= j <= i + n
    ensures Block(adds, j, i + n - j)
  {
  }

  lemma StreakGrows(adds: seq<int>, day: int, n: int)
    requires Streak(adds, n)
    ensures Streak(adds + [day], if adds != [] && day == adds[|adds| - 1] + 1 then n + 1 else 1)
  {
    if adds != [] {
      BlockAtEnd(adds, day, n);
      BlockAtEnd(adds, day, 1);
      if n < |adds| {
        BlockAtEnd(adds, day, n + 1);
      }
    }
  }

  lemma LongestGrows(adds: seq<int>, day: int, streak: int, longest: int)
    requires LongestBlock(adds, longest) && Streak(adds + [day], streak)
    ensures LongestBlock(adds + [day], MaxInt(longest, streak))
  {
    var grown, m := adds + [day], |adds|;
    var i :| Block(adds, i, longest);
    BlockGrows(adds, day, i, longest);
    assert Block(grown, if longest >= streak then i else m + 1 - streak, MaxInt(longest, streak));
    forall j, n | Block(grown, j, n) ensures n <= MaxInt(longest, streak) {
      if j + n <= m {
        BlockGrows(adds, day, j, n);
      } else if n > streak {
        BlockShrinks(grown, j, n, m - streak);
      }
    }
  }

  lemma VisitTells(b: Book, visit: Visit, adds: seq<int>)
    requires Tells(b, adds) && Attend(b, visit).Ok?
    ensures var more := if visit.add && visit.day !in b.days then [visit.day] else [];
      Tells(Attend(b, visit).value.0, adds + more)
  {
    hide Streak, LongestBlock;
    if visit.add && visit.day !in b.days {
      assert (set d | d in adds + [visit.day]) == (set d | d in adds) + {visit.day};
      StreakGrows(adds, visit.day, b.continuous);
      StreakFits(adds, b.continuous);
      LongestGrows(adds, visit.day, Attend(b, visit).value.0.continuous, b.maximum);
    } else {
      assert adds + [] == adds;
    }
  }

  lemma StreakFits(adds: seq<int>, n: int)
    requires Streak(adds, n)
    ensures 0 <= n <= |adds|
  {
  }

  lemma {:induction false} VisitsTell(earlier: Book, later: Book, visits: seq<Visit>, adds: seq<int>)
    requires Tells(earlier, adds) && Reaches(earlier, later, visits)
    ensures Tells(later, adds + Additions(earlier.days, visits))
    decreases |visits|
  {
    hide Tells, Attend;
    if visits == [] {
      assert adds + [] == adds;
    } else {
      var more := if visits[0].add && visits[0].day !in earlier.days then [visits[0].day] else [];
      var next := Attend(earlier, visits[0]).value.0;
      AdditionsStep(earlier, visits);
      hide Additions;
      VisitTells(earlier, visits[0], adds);
      VisitsTell(next, later, visits[1..], adds + more);
      assert (adds + more) + Additions(next.days, visits[1..]) == adds + (more + Additions(next.days, visits[1..]));
    }
  }

  /** No attended run is longer than the one of `n` days that ends at `end`. */
  ghost predicate LongestRun(days: set<int>, end: int, n: int) {
    Run(days, end, n) && forall e, m | Run(days, e, m) :: m <= n
  }

  /** The `n` days that end at `end` were added one after the other, with nothing in between. */
  ghost predicate AddedInOrder(adds: seq<int>, end: int, n: int) {
    exists i :: Block(adds, i, n) && (n > 0 ==> adds[i + n - 1] == end)
  }

  /**
   Every book a slot can have, whatever the clock did: the stored streak is the block of consecutive
   additions at the end, the stored maximum the longest such block, and the maximum
   is the longest attended run exactly when such a run was added in order.
   */
  lemma MaximumIsLongestBlock(later: Book, visits: seq<Visit>)
    requires Reaches(NEW_BOOK, later, visits)
    ensures var adds := Additions({}, visits);
      && later.days == (set d | d in adds) && later.count == |adds|
      && Streak(adds, later.continuous) && LongestBlock(adds, later.maximum)
      && (MaxExact(later) <==> exists end, n :: LongestRun(later.days, end, n) && AddedInOrder(adds, end, n))
  {
    var adds := Additions({}, visits);
    assert Tells(NEW_BOOK, []) by {
      assert Block([], 0, 0);
    }
    VisitsTell(NEW_BOOK, later, visits, []);
    assert [] + adds == adds;
    if MaxExact(later) {
      var i :| Block(adds, i, later.maximum);
      var n := later.maximum;
      assert Block(adds, 0, 0);
      var end := if n > 0 then adds[i + n - 1] else 0;
      BlockIsRun(adds, i, n);
      assert Run(later.days, end, n);
      assert LongestRun(later.days, end, n) && AddedInOrder(adds, end, n);
    }
  }

  lemma {:induction false} BlockIsRun(adds: seq<int>, i: int, n: nat)
    requires Block(adds, i, n)
    ensures n > 0 ==> Run((set d | d in adds), adds[i + n - 1], n)
    decreases n
  {
    if n > 1 {
      BlockIsRun(adds, i, n - 1);
      assert adds[i + n - 1] == adds[i + n - 2] + 1;
      assert adds[i + n - 1] in adds;
    } else if n == 1 {
      assert adds[i] in adds;
    }
  }

  /** After a clock rollback the maximum can stay below the longest run: 5, then 3, then 4. */
  lemma RollbackUnderReports()
    ensures var visits := [Visit(5, true), Visit(3, true), Visit(4, true)];
      exists later :: Reaches(NEW_BOOK, later, visits) && later.maximum == 2 && HasRun(later.days, 3) && !MaxExact(later)
  {
    var a := Attend(NEW_BOOK, Visit(5, true)).value.0;
    var b := Attend(a, Visit(3, true)).value.0;
    var c := Attend(b, Visit(4, true)).value.0;
    assert Reaches(c, c, []);
    assert [Visit(4, true)][1..] == [];
    assert Reaches(b, c, [Visit(4, true)]);
    assert [Visit(3, true), Visit(4, true)][1..] == [Visit(4, true)];
    assert Reaches(a, c, [Visit(3, true), Visit(4, true)]);
    assert [Visit(5, true), Visit(3, true), Visit(4, true)][1..] == [Visit(3, true), Visit(4, true)];
    assert c.days == {3, 4, 5};
    assert Run(c.days, 5, 3);
  }
}
