/**
 What a client snapshot may change in a slot: `merge_user_save` and `parse_gp_balance` in
 crates/persistence-sqlite/src/lib.rs.
 */
module ClientSave {
  import opened Wrappers
  import opened Text
  import opened SaveDomain
  import opened SlotRewards

  datatype SavedCore = SavedCore(ch1Like: Option<Number>, fans: Option<int>)

  /** One area of a snapshot: live balances as digit strings, and the legacy amounts. */
  datatype SavedArea = SavedArea(area: int, gp1: Option<string>, gp2: Option<string>,
                                 like: Option<Number>, fans: Option<int>)

  datatype SavedContent = SavedContent(content: Content, area: int, level: Option<int>)

  datatype SavedMusic = SavedMusic(id: int, appears: bool)

  datatype SavedCounter = SavedCounter(id: int, quantity: Number)

  /** Encore of one music: it shows up by itself, or its cooldown ends at an instant. */
  datatype Encore = Encore(appears: bool, readyAt: int)

  type Flags = map<string, int>

  // ----- Live balances -----

  function Pow2(n: nat): (p: nat)
    ensures p >= 1
  {
    if n == 0 then 1 else 2 * Pow2(n - 1)
  }

  /** Decimal numerals from this value on round to infinity as `f64`. */
  function F64Overflow(): int {
    Pow2(1024) - Pow2(970)
  }

  /** A missing or empty text is no balance; anything but up to 309 digits of a finite number is refused. */
  function ParseGp(text: Option<string>): Result<Option<real>, StoreError> {
    if text.None? || text.value == "" then Ok(None)
    else if |text.value| > 309 then Err(InvalidAmount)
    else
      match DigitsValue(text.value)
      case None => Err(InvalidAmount)
      case Some(n) => if n >= F64Overflow() then Err(InvalidAmount) else Ok(Some(n as real))
  }

  const GP1_AREA1 := "protocol.gp1.area1"
  const GP1_AREA2 := "protocol.gp1.area2"

  predicate IsArea(area: int) {
    area == 1 || area == 2
  }

  function FlagOf(area: int): string {
    if area == 1 then GP1_AREA1 else GP1_AREA2
  }

  /** Areas that ever sent a live balance are marked for good. */
  function MarkAreas(flags: Flags, areas: seq<SavedArea>): Result<Flags, StoreError>
    decreases |areas|
  {
    if areas == [] then Ok(flags)
    else if !IsArea(areas[0].area) then MarkAreas(flags, areas[1..])
    else
      var gp :- ParseGp(areas[0].gp1);
      MarkAreas(if gp.Some? then InsertNew(flags, FlagOf(areas[0].area), 1) else flags, areas[1..])
  }

  predicate Usable(amount: Option<Number>) {
    amount.Some? && ValidAmount(amount.value)
  }

  /** Fans only rise. */
  function RaiseFans(wallet: Wallet, fans: Option<int>): Wallet {
    if fans.Some? && fans.value >= 0
    then SetBalance(wallet, Fans, MaxReal(Balance(wallet, Fans), fans.value as real)) else wallet
  }

  /** The legacy amount counts only while the area never sent a live balance. */
  function MergeCore(wallet: Wallet, flags: Flags, core: Option<SavedCore>): Wallet {
    if core.None? then wallet
    else
      var liked := if GP1_AREA1 !in flags && Usable(core.value.ch1Like)
        then SetBalance(wallet, Ch1Like, core.value.ch1Like.value.value) else wallet;
      RaiseFans(liked, core.value.fans)
  }

  function LikeOf(area: int): CurrencyKind {
    if area == 2 then Ch2Like else Ch1Like
  }

  /** The live balance of an area, else its legacy amount while that still counts. */
  function LiveLike(flags: Flags, saved: SavedArea): Result<Option<real>, StoreError> {
    var gp :- ParseGp(saved.gp1);
    Ok(if gp.Some? then gp
       else if FlagOf(saved.area) !in flags && Usable(saved.like) then Some(saved.like.value.value)
       else None)
  }

  function SetIfSome(wallet: Wallet, kind: CurrencyKind, amount: Option<real>): Wallet {
    if amount.Some? then SetBalance(wallet, kind, amount.value) else wallet
  }

  function MergeArea(wallet: Wallet, flags: Flags, saved: SavedArea): Result<Wallet, StoreError> {
    if !IsArea(saved.area) then Ok(wallet)
    else
      var like :- LiveLike(flags, saved);
      var note :- if saved.area == 2 then ParseGp(saved.gp2) else Ok(None);
      Ok(RaiseFans(SetIfSome(SetIfSome(wallet, LikeOf(saved.area), like), Ch2Note, note), saved.fans))
  }

  function MergeAreas(wallet: Wallet, flags: Flags, areas: seq<SavedArea>): Result<Wallet, StoreError>
    decreases |areas|
  {
    if areas == [] then Ok(wallet)
    else
      var next :- MergeArea(wallet, flags, areas[0]);
      MergeAreas(next, flags, areas[1..])
  }

  // ----- Content, music and counters -----

  /** New ownership needs a positive level; levels only rise. */
  function MergeContent(h: Holdings, saved: SavedContent): Holdings {
    var levelled := saved.level.Some? && saved.level.value > 0;
    if saved.content.id <= 0 || (!levelled && saved.content !in h.owned) then h
    else
      var owned := InsertNew(h.owned, saved.content, saved.area);
      if !levelled then h.(owned := owned)
      else
        var level := if saved.content in h.levels
          then MaxInt(h.levels[saved.content], saved.level.value) else saved.level.value;
        h.(owned := owned, levels := h.levels[saved.content := level])
  }

  function MergeContents(h: Holdings, contents: seq<SavedContent>): Holdings
    decreases |contents|
  {
    if contents == [] then h else MergeContents(MergeContent(h, contents[0]), contents[1..])
  }

  /** A snapshot may show or hide the encore of owned music; it does not move the cooldown. */
  function MergeMusic(encores: map<int, Encore>, owned: map<Content, int>, saved: SavedMusic): map<int, Encore> {
    if saved.id <= 0 || Content(Music, saved.id) !in owned then encores
    else encores[saved.id := Encore(saved.appears, if saved.id in encores then encores[saved.id].readyAt else 0)]
  }

  function MergeMusics(encores: map<int, Encore>, owned: map<Content, int>, musics: seq<SavedMusic>): map<int, Encore>
    decreases |musics|
  {
    if musics == [] then encores else MergeMusics(MergeMusic(encores, owned, musics[0]), owned, musics[1..])
  }

  const ATTENDANCE_ACHIEVEMENT := 10

  /** Counters only rise; the attendance achievement is always what attendance counted. */
  function MergeCounter(counters: map<int, real>, saved: SavedCounter, attended: Option<int>): map<int, real> {
    if saved.id <= 0 || !ValidAmount(saved.quantity) then counters
    else if attended.Some? && saved.id == ATTENDANCE_ACHIEVEMENT then counters[saved.id := attended.value as real]
    else counters[saved.id := if saved.id in counters
      then MaxReal(counters[saved.id], saved.quantity.value) else saved.quantity.value]
  }

  function MergeCounters(counters: map<int, real>, saves: seq<SavedCounter>, attended: Option<int>): map<int, real>
    decreases |saves|
  {
    if saves == [] then counters
    else MergeCounters(MergeCounter(counters, saves[0], attended), saves[1..], attended)
  }

  // ----- What a snapshot cannot do -----

  predicate TransactionOwned(kind: CurrencyKind) {
    kind in {Candy, Chocolate, Gingerbread, ChocoMilk}
  }

  /** Balances owned by transactions keep their amount, fans do not fall, and nothing goes negative. */
  ghost predicate Harmless(wallet: Wallet, wallet': Wallet) {
    && (forall kind | TransactionOwned(kind) :: Balance(wallet', kind) == Balance(wallet, kind))
    && Balance(wallet, Fans) <= Balance(wallet', Fans)
    && (NonNegative(wallet) ==> NonNegative(wallet'))
  }

  lemma {:induction false} DigitsNatural(text: string)
    requires DigitsValue(text).Some?
    ensures DigitsValue(text).value >= 0
    decreases |text|
  {
    if text != "" {
      DigitsNatural(text[..|text| - 1]);
    }
  }

  lemma ParseGpNatural(text: Option<string>)
    ensures ParseGp(text).Ok? && ParseGp(text).value.Some? ==> ParseGp(text).value.value >= 0.0
  {
    if text.Some? && DigitsValue(text.value).Some? {
      DigitsNatural(text.value);
    }
  }

  lemma MergeCoreHarmless(wallet: Wallet, flags: Flags, core: Option<SavedCore>)
    ensures Harmless(wallet, MergeCore(wallet, flags, core))
  {
  }

  lemma MergeAreaHarmless(wallet: Wallet, flags: Flags, saved: SavedArea)
    requires MergeArea(wallet, flags, saved).Ok?
    ensures Harmless(wallet, MergeArea(wallet, flags, saved).value)
  {
    ParseGpNatural(saved.gp1);
    ParseGpNatural(saved.gp2);
    hide ParseGp, DigitsValue, Pow2;
  }

  lemma {:induction false} MergeAreasHarmless(wallet: Wallet, flags: Flags, areas: seq<SavedArea>)
    requires MergeAreas(wallet, flags, areas).Ok?
    ensures Harmless(wallet, MergeAreas(wallet, flags, areas).value)
    decreases |areas|
  {
    hide MergeArea;
    if areas == [] {
    } else {
      MergeAreaHarmless(wallet, flags, areas[0]);
      MergeAreasHarmless(MergeArea(wallet, flags, areas[0]).value, flags, areas[1..]);
    }
  }

  /** A marked area never takes the legacy amount again: without a live balance its like stays. */
  lemma MarkedAreaIgnoresLegacy(wallet: Wallet, flags: Flags, saved: SavedArea, core: Option<SavedCore>)
    requires IsArea(saved.area) && FlagOf(saved.area) in flags && (saved.gp1.None? || saved.gp1.value == "")
    requires MergeArea(wallet, flags, saved).Ok?
    ensures Balance(MergeArea(wallet, flags, saved).value, LikeOf(saved.area)) == Balance(wallet, LikeOf(saved.area))
    ensures saved.area == 1 ==> Balance(MergeCore(wallet, flags, core), Ch1Like) == Balance(wallet, Ch1Like)
  {
    hide DigitsValue, Pow2;
  }

  lemma {:induction false} MarksStay(flags: Flags, areas: seq<SavedArea>)
    requires MarkAreas(flags, areas).Ok?
    ensures forall f | f in flags :: f in MarkAreas(flags, areas).value && MarkAreas(flags, areas).value[f] == flags[f]
    decreases |areas|
  {
    hide ParseGp;
    if areas != [] {
      if !IsArea(areas[0].area) {
        MarksStay(flags, areas[1..]);
      } else {
        var gp := ParseGp(areas[0].gp1).value;
        MarksStay(if gp.Some? then InsertNew(flags, FlagOf(areas[0].area), 1) else flags, areas[1..]);
      }
    }
  }

  lemma {:induction false} MergeContentsKeeps(h: Holdings, contents: seq<SavedContent>)
    ensures var after := MergeContents(h, contents);
      Keeps(h, after) && after == h.(owned := after.owned, levels := after.levels)
    decreases |contents|
  {
    if contents != [] {
      MergeContentsKeeps(MergeContent(h, contents[0]), contents[1..]);
      KeepsTransitive(h, MergeContent(h, contents[0]), MergeContents(h, contents));
    }
  }

  /** A snapshot acquires content only by naming it with a positive id and level. */
  lemma {:induction false} MergeContentsAcquires(h: Holdings, contents: seq<SavedContent>, content: Content)
    requires content in MergeContents(h, contents).owned && content !in h.owned
    ensures content.id > 0
    ensures exists i | 0 <= i < |contents| ::
      contents[i].content == content && contents[i].level.Some? && contents[i].level.value > 0
    decreases |contents|
  {
    var next := MergeContent(h, contents[0]);
    if content in next.owned {
      assert contents[0].content == content;
    } else {
      MergeContentsAcquires(next, contents[1..], content);
      var i :| 0 <= i < |contents[1..]| && contents[1..][i].content == content
        && contents[1..][i].level.Some? && contents[1..][i].level.value > 0;
      assert contents[i + 1] == contents[1..][i];
    }
  }

  /** Merged counters never fall, except that the attendance achievement follows the attendance count. */
  lemma {:induction false} MergeCountersRise(counters: map<int, real>, saves: seq<SavedCounter>, attended: Option<int>)
    ensures forall id | id in counters && (attended.None? || id != ATTENDANCE_ACHIEVEMENT) ::
      id in MergeCounters(counters, saves, attended) && counters[id] <= MergeCounters(counters, saves, attended)[id]
    ensures attended.Some? && ATTENDANCE_ACHIEVEMENT in MergeCounters(counters, saves, attended) ==>
      var q := MergeCounters(counters, saves, attended)[ATTENDANCE_ACHIEVEMENT];
      q == attended.value as real || (ATTENDANCE_ACHIEVEMENT in counters && q == counters[ATTENDANCE_ACHIEVEMENT])
    decreases |saves|
  {
    if saves != [] {
      MergeCountersRise(MergeCounter(counters, saves[0], attended), saves[1..], attended);
    }
  }
}
