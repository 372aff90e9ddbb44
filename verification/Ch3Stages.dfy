/**
 Chapter-three stages of a slot: unlocking, best stars and chapter rewards (`settle_ch3_stage`,
 `claim_ch3_chapter_reward`, `settle_ch3_stream` in crates/persistence-sqlite/src/lib.rs).
 */
module Ch3Stages {
  import opened Wrappers
  import opened SaveDomain

  datatype StageDef = StageDef(id: int, chapter: int, story: bool)

  datatype StageRow = StageRow(chapter: int, completed: bool, star: int, score: int, unlocked: bool)

  /** Rows of `ch3_stages` by stage id and of `ch3_chapter_claims` by chapter and reward number. */
  datatype Stages = Stages(rows: map<int, StageRow>, claims: set<(int, int)>)

  const FIRST_STAGE := 1001
  const NEW_STAGES := Stages(map[FIRST_STAGE := StageRow(1, false, 0, 0, true)], {})

  predicate Unlocked(s: Stages, id: int) {
    id in s.rows && s.rows[id].unlocked
  }

  predicate Completed(s: Stages, id: int) {
    id in s.rows && s.rows[id].completed
  }

  predicate Clears(stage: StageDef, star: int) {
    stage.story || star > 0
  }

  /** Records the result of an unlocked stage; a clear opens the next one. */
  function Settle(s: Stages, stage: StageDef, next: Option<StageDef>, star: int, score: int): Result<Stages, StoreError>
    requires Unlocked(s, stage.id)
  {
    if !Clears(stage, star) then Ok(s)
    else
      var row := s.rows[stage.id];
      var best := row.(completed := true, star := MaxInt(row.star, star), score := MaxInt(row.score, score));
      if !(0 <= best.star <= 3) then Err(SqlConstraint)
      else
        var rows := s.rows[stage.id := best];
        Ok(s.(rows := if next.None? || next.value.id in rows then rows
                      else rows[next.value.id := StageRow(next.value.chapter, false, 0, 0, true)]))
  }

  function StarsIn(row: StageRow, chapter: int): int {
    if row.chapter == chapter then row.star else 0
  }

  /** `SELECT COALESCE(SUM(best_star),0) .. WHERE chapter=..`. */
  function StarSum(rows: map<int, StageRow>, chapter: int): int
    decreases |rows|
  {
    if rows == map[] then 0
    else
      var id := MaxOf(rows.Keys);
      StarsIn(rows[id], chapter) + StarSum(rows - {id}, chapter)
  }

  function ClaimChapter(s: Stages, chapter: int, num: int, goal: int): Result<Stages, StoreError> {
    if StarSum(s.rows, chapter) < goal then Err(Locked)
    else if (chapter, num) in s.claims then Err(AlreadyClaimed)
    else Ok(s.(claims := s.claims + {(chapter, num)}))
  }

  // ----- Sums of stars -----

  lemma {:induction false} StarSumSplit(rows: map<int, StageRow>, chapter: int, id: int)
    requires id in rows
    ensures StarSum(rows, chapter) == StarsIn(rows[id], chapter) + StarSum(rows - {id}, chapter)
    decreases |rows|
  {
    var first := MaxOf(rows.Keys);
    if first != id {
      StarSumSplit(rows - {first}, chapter, id);
      StarSumSplit(rows - {id}, chapter, first);
      assert rows - {first} - {id} == rows - {id} - {first};
    }
  }

  /** `more` has every stage of `rows`, with at least its stars. */
  ghost predicate Below(rows: map<int, StageRow>, more: map<int, StageRow>) {
    forall id | id in rows :: id in more && rows[id].chapter == more[id].chapter && rows[id].star <= more[id].star
  }

  /** More stages and better stars never lower the sum of a chapter. */
  lemma {:induction false} StarSumGrows(rows: map<int, StageRow>, more: map<int, StageRow>, chapter: int)
    requires Below(rows, more) && forall id | id in more :: more[id].star >= 0
    ensures StarSum(rows, chapter) <= StarSum(more, chapter)
    decreases |more|
  {
    if more == map[] {
      assert forall id :: id !in rows;
      assert rows == map[];
    } else {
      var id := MaxOf(more.Keys);
      assert Below(rows - {id}, more - {id});
      StarSumGrows(rows - {id}, more - {id}, chapter);
      if id in rows {
        StarSumSplit(rows, chapter, id);
      } else {
        assert rows - {id} == rows;
      }
    }
  }

  // ----- Progression -----

  /** The active stages in their order, with the star goal of each chapter reward. */
  datatype Catalog = Catalog(order: seq<StageDef>, goals: map<(int, int), int>)

  ghost predicate WellFormed(c: Catalog) {
    && |c.order| >= 1 && c.order[0].id == FIRST_STAGE && c.order[0].chapter == 1
    && (forall i, j | 0 <= i < j < |c.order| :: c.order[i].id != c.order[j].id)
  }

  /**
   The stored stages are the first n of the order, all unlocked; all but the last are completed;
   their stars are in range.
   */
  ghost predicate Prefix(rows: map<int, StageRow>, order: seq<StageDef>, n: nat) {
    && 1 <= n <= |order|
    && (forall i | 0 <= i < n :: order[i].id in rows && rows[order[i].id].chapter == order[i].chapter)
    && (forall id | id in rows :: rows[id].unlocked && 0 <= rows[id].star <= 3)
    && (forall id | id in rows :: exists i :: 0 <= i < n && order[i].id == id)
    && (forall i | 0 <= i < n - 1 :: rows[order[i].id].completed)
  }

  /** Every claimed chapter reward has its star goal met. */
  ghost predicate GoalsMet(s: Stages, goals: map<(int, int), int>) {
    forall k | k in s.claims :: k in goals && goals[k] <= StarSum(s.rows, k.0)
  }

  ghost predicate Grows(s: Stages, s': Stages) {
    && s.claims <= s'.claims
    && forall id | id in s.rows ::
         && id in s'.rows && s.rows[id].star <= s'.rows[id].star && s.rows[id].chapter == s'.rows[id].chapter
         && (s.rows[id].completed ==> s'.rows[id].completed)
  }

  function NextOf(order: seq<StageDef>, pos: nat): Option<StageDef> {
    if pos + 1 < |order| then Some(order[pos + 1]) else None
  }

  /**
   Settling the stage at `pos` of the order, with the stage after it as the next one, keeps the
   unlocked stages a prefix; it grows by one exactly when the last unlocked stage is cleared and
   another one follows.
   */
  lemma SettleKeepsPrefix(s: Stages, c: Catalog, n: nat, pos: nat, star: int, score: int)
    requires WellFormed(c) && Prefix(s.rows, c.order, n) && GoalsMet(s, c.goals) && pos < |c.order|
    requires Unlocked(s, c.order[pos].id) && Settle(s, c.order[pos], NextOf(c.order, pos), star, score).Ok?
    ensures var after := Settle(s, c.order[pos], NextOf(c.order, pos), star, score).value;
      var grown := if Clears(c.order[pos], star) && pos == n - 1 && n < |c.order| then n + 1 else n;
      Prefix(after.rows, c.order, grown) && GoalsMet(after, c.goals) && Grows(s, after)
  {
    var after := Settle(s, c.order[pos], NextOf(c.order, pos), star, score).value;
    PositionBelow(s.rows, c.order, n, pos);
    hide GoalsMet, StarSum;
    if Clears(c.order[pos], star) {
      var row := s.rows[c.order[pos].id];
      var best := row.(completed := true, star := MaxInt(row.star, star), score := MaxInt(row.score, score));
      var rows := s.rows[c.order[pos].id := best];
      RecordKeepsPrefix(s.rows, c.order, n, pos, best);
      assert Below(s.rows, rows);
      if pos == n - 1 && n < |c.order| {
        OpenKeepsPrefix(rows, c.order, n);
      } else if pos < n - 1 {
        assert c.order[pos + 1].id in s.rows;
      }
      assert Below(s.rows, after.rows);
      assert Prefix(after.rows, c.order,
                    if Clears(c.order[pos], star) && pos == n - 1 && n < |c.order| then n + 1 else n);
      GoalsStay(s, after, c);
    }
  }

  /** Goals that were met stay met when stages are added and stars get better. */
  lemma GoalsStay(s: Stages, after: Stages, c: Catalog)
    requires GoalsMet(s, c.goals) && after.claims == s.claims && Below(s.rows, after.rows)
    requires forall id | id in after.rows :: after.rows[id].star >= 0
    ensures GoalsMet(after, c.goals)
  {
    hide StarSum;
    forall k | k in after.claims ensures k in c.goals && c.goals[k] <= StarSum(after.rows, k.0) {
      StarSumGrows(s.rows, after.rows, k.0);
    }
  }

  lemma PositionBelow(rows: map<int, StageRow>, order: seq<StageDef>, n: nat, pos: nat)
    requires Prefix(rows, order, n) && pos < |order| && order[pos].id in rows
    requires forall i, j | 0 <= i < j < |order| :: order[i].id != order[j].id
    ensures pos < n
  {
    var i :| 0 <= i < n && order[i].id == order[pos].id;
    assert i == pos;
  }

  /** A better result of an unlocked stage leaves the same stages unlocked. */
  lemma RecordKeepsPrefix(rows: map<int, StageRow>, order: seq<StageDef>, n: nat, pos: nat, best: StageRow)
    requires Prefix(rows, order, n) && pos < n && 0 <= best.star <= 3
    requires best.completed && best.unlocked && best.chapter == rows[order[pos].id].chapter
    ensures Prefix(rows[order[pos].id := best], order, n)
  {
  }

  /** After the last unlocked stage is completed, the next one of the order may be opened. */
  lemma OpenKeepsPrefix(rows: map<int, StageRow>, order: seq<StageDef>, n: nat)
    requires Prefix(rows, order, n) && n < |order| && rows[order[n - 1].id].completed
    requires forall i, j | 0 <= i < j < |order| :: order[i].id != order[j].id
    ensures order[n].id !in rows
    ensures Prefix(rows[order[n].id := StageRow(order[n].chapter, false, 0, 0, true)], order, n + 1)
  {
  }

  /** A chapter reward is claimed once, and only with its goal met. */
  lemma ClaimKeepsGoals(s: Stages, goals: map<(int, int), int>, chapter: int, num: int)
    requires GoalsMet(s, goals) && (chapter, num) in goals
    requires ClaimChapter(s, chapter, num, goals[(chapter, num)]).Ok?
    ensures var after := ClaimChapter(s, chapter, num, goals[(chapter, num)]).value;
      && GoalsMet(after, goals) && Grows(s, after) && after.rows == s.rows
      && (chapter, num) !in s.claims && after.claims == s.claims + {(chapter, num)}
      && goals[(chapter, num)] <= StarSum(s.rows, chapter)
  {
  }

  lemma NewStagesPrefix(c: Catalog)
    requires WellFormed(c)
    ensures Prefix(NEW_STAGES.rows, c.order, 1) && GoalsMet(NEW_STAGES, c.goals)
  {
    assert c.order[0].id == FIRST_STAGE;
  }

  /** The prefix is as long as the table. */
  lemma PrefixLength(rows: map<int, StageRow>, order: seq<StageDef>, n: nat)
    requires Prefix(rows, order, n) && forall i, j | 0 <= i < j < |order| :: order[i].id != order[j].id
    ensures |rows| == n
  {
    IdCount(order, n);
    var ids := set i | 0 <= i < n :: order[i].id;
    assert forall id | id in rows :: id in ids;
    assert rows.Keys == ids;
  }

  lemma {:induction false} IdCount(order: seq<StageDef>, n: nat)
    requires n <= |order| && forall i, j | 0 <= i < j < |order| :: order[i].id != order[j].id
    ensures |set i | 0 <= i < n :: order[i].id| == n
  {
    var ids := set i | 0 <= i < n :: order[i].id;
    if n == 0 {
      assert ids == {};
    } else {
      IdCount(order, n - 1);
      var fewer := set i | 0 <= i < n - 1 :: order[i].id;
      assert ids == fewer + {order[n - 1].id};
      assert order[n - 1].id !in fewer;
    }
  }
}
