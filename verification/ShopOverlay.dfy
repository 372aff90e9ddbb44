/**
 `apply_memorial_shop_policy` of crates/transport-http/src/lib.rs: adding the policy's shop items and
 reward groups to the master catalog once, and recognising them the next time.
 */
module ShopOverlay {
  import opened Wrappers
  import opened StableSort
  import opened Text

  datatype Scalar = Null | Integer(i: int) | Real(r: real) | Text(s: string) | Blob(bytes: seq<int>)

  /** A projected master row, by column. */
  type Row = map<string, Scalar>

  datatype ShopRow = ShopRow(id: int, productType: int, rewardGroup: int, sellType: int, sellValue: int,
                             active: bool, condition: int, conditionValue: int)

  datatype RewardRow = RewardRow(rowId: int, group: int, rewardType: int, rewardId: int,
                                 quantity: real, firstPurchaseQuantity: real)

  datatype Catalog = Catalog(shops: seq<ShopRow>, rewards: seq<RewardRow>, gameData: map<string, seq<Row>>)

  datatype Reward = Reward(rewardType: int, id: int, quantity: real)

  datatype Item = Item(id: int, productIdIos: string, productIdAndroid: string, resourceName: string,
                       rewardGroup: int, sortIndex: int, title: map<string, string>,
                       description: map<string, string>, rewards: seq<Reward>)

  datatype Policy = Policy(shopCategory: int, productType: int, sellType: int, sellValue: int,
                           areaList: string, items: seq<Item>)

  datatype OverlayError =
    | NoTable(name: string)
    | PartialOverlay
    | MissingItem(id: int)
    | ItemMismatch(id: int)
    | RewardMismatch(group: int)
    | IncompleteProjection(id: int)
    | ShopIdCollision(id: int)
    | RewardGroupCollision(group: int)
    | RowIdOverflow(id: int)

  function WrapI32(x: int): int {
    (x + 0x8000_0000) % 0x1_0000_0000 - 0x8000_0000
  }

  // ----- Row helpers -----

  /** `f64 as i64`: truncation toward zero, saturating. */
  function TruncateI64(r: real): int {
    var n := if r >= 0.0 then r.Floor else -((-r).Floor);
    if n > I64_MAX then I64_MAX else if n < -I64_MAX - 1 then -I64_MAX - 1 else n
  }

  /** `master_row_i64`. */
  function RowI64(row: Row, field: string): Option<int> {
    if field !in row then None
    else
      match row[field]
      case Integer(i) => Some(i)
      case Real(r) => Some(TruncateI64(r))
      case Text(s) => ParseI64(s)
      case _ => None
  }

  function LocalizedOrEnglish(values: map<string, string>, locale: string): string {
    if locale in values then values[locale] else if "en" in values then values["en"] else ""
  }

  const LOCALES: seq<(string, string)> := [
    ("ko", "ko"), ("en", "en"), ("ja", "ja"), ("zhchs", "zhChs"), ("zhcht", "zhCht"), ("vi", "vi"),
    ("es", "es"), ("it", "it"), ("id", "id"), ("th", "th"), ("pt", "pt"), ("hi", "hi")]

  function FixedColumns(policy: Policy, item: Item): Row {
    map["id" := Integer(item.id),
        "productidios" := Text(item.productIdIos), "productidaos" := Text(item.productIdAndroid),
        "shopcategory" := Integer(policy.shopCategory), "producttype" := Integer(policy.productType),
        "resourcename" := Text(item.resourceName), "rewardgroup" := Integer(item.rewardGroup),
        "tag" := Integer(0), "selltype" := Integer(policy.sellType), "sellvalue" := Integer(policy.sellValue),
        "isactive" := Integer(1), "condition" := Integer(0), "conditionvalue" := Integer(0),
        "storepriceaos" := Text("$0.00"), "storepriceios" := Text("$0.00"),
        "korstorepriceaos" := Text("$0.00"), "korstorepriceios" := Text("$0.00"),
        "sortindex" := Integer(item.sortIndex), "arealist" := Text(policy.areaList),
        "altresourcename" := Text(""), "islimittime" := Integer(0),
        "uistarttime" := Text(""), "starttime" := Text(""), "endtime" := Text("")]
  }

  /** `row` with the localised columns of the first `n` locales. */
  function WithLocales(row: Row, item: Item, n: nat): Row
    requires n <= |LOCALES|
  {
    if n == 0 then row
    else
      var (suffix, key) := LOCALES[n - 1];
      var description := Text(LocalizedOrEnglish(item.description, key));
      WithLocales(row, item, n - 1)
        ["title" + suffix := Text(LocalizedOrEnglish(item.title, key))]
        ["description" + suffix := description]
        ["altdescription" + suffix := description]
  }

  function NewShopRow(policy: Policy, item: Item): Row {
    WithLocales(FixedColumns(policy, item), item, |LOCALES|)
  }

  lemma {:induction false} LocalesKeepId(row: Row, item: Item, n: nat)
    requires n <= |LOCALES| && "id" in row
    ensures "id" in WithLocales(row, item, n) && WithLocales(row, item, n)["id"] == row["id"]
  {
    if n > 0 {
      LocalesKeepId(row, item, n - 1);
      var suffix := LOCALES[n - 1].0;
      assert ("title" + suffix)[0] == 't' && ("description" + suffix)[0] == 'd' && ("altdescription" + suffix)[0] == 'a';
      assert "id"[0] == 'i';
    }
  }

  method BuildShopRow(policy: Policy, item: Item) returns (row: Row)
    ensures row == NewShopRow(policy, item)
  {
    row := FixedColumns(policy, item);
    for n := 0 to |LOCALES|
      invariant row == WithLocales(FixedColumns(policy, item), item, n)
    {
      var (suffix, key) := LOCALES[n];
      var title, description := LocalizedOrEnglish(item.title, key), LocalizedOrEnglish(item.description, key);
      row := row["title" + suffix := Text(title)];
      row := row["description" + suffix := Text(description)];
      row := row["altdescription" + suffix := Text(description)];
    }
  }

  // ----- The rows an item adds -----

  function NewShop(policy: Policy, item: Item): ShopRow {
    ShopRow(item.id, WrapI32(policy.productType), item.rewardGroup, WrapI32(policy.sellType),
            policy.sellValue, true, 0, 0)
  }

  function RowId(item: Item, index: nat): int {
    item.rewardGroup * 100 + (index + 1)
  }

  predicate RowIdOverflows(item: Item, index: nat) {
    !FitsI64(item.rewardGroup * 100) || !FitsI64(RowId(item, index))
  }

  function NewReward(item: Item, index: nat): RewardRow
    requires index < |item.rewards|
  {
    var r := item.rewards[index];
    RewardRow(RowId(item, index), item.rewardGroup, r.rewardType, r.id, r.quantity, 0.0)
  }

  function NewRewardRow(item: Item, index: nat): Row
    requires index < |item.rewards|
  {
    var r := item.rewards[index];
    map["id" := Integer(RowId(item, index)), "group" := Integer(item.rewardGroup),
        "rewardtype" := Integer(r.rewardType), "rewardid" := Integer(r.id),
        "rewardquantity" := Real(r.quantity), "buyfirstquantity" := Integer(0)]
  }

  // ----- The overlay as a function -----

  function HasShopId(id: int): ShopRow -> bool {
    (row: ShopRow) => row.id == id
  }

  function InGroup(group: int): RewardRow -> bool {
    (row: RewardRow) => row.group == group
  }

  function ColumnIs(field: string, value: int): Row -> bool {
    (row: Row) => RowI64(row, field) == Some(value)
  }

  function PolicyShop(items: seq<Item>): ShopRow -> bool {
    (row: ShopRow) => exists i | 0 <= i < |items| :: items[i].id == row.id
  }

  function PolicyReward(items: seq<Item>): RewardRow -> bool {
    (row: RewardRow) => exists i | 0 <= i < |items| :: items[i].rewardGroup == row.group
  }

  function RewardCount(items: seq<Item>): nat {
    if items == [] then 0 else |items[0].rewards| + RewardCount(items[1..])
  }

  function Triples(rows: seq<RewardRow>): seq<Reward> {
    seq(|rows|, i requires 0 <= i < |rows| => Reward(rows[i].rewardType, rows[i].rewardId, rows[i].quantity))
  }

  /** What is wrong, if anything, with the catalog's copy of a policy item. */
  function CheckItem(policy: Policy, c: Catalog, item: Item): Option<OverlayError>
    requires "Shop" in c.gameData && "Reward_group" in c.gameData
  {
    var found := Keep(c.shops, HasShopId(item.id));
    if found == [] then Some(MissingItem(item.id))
    else if found[0].productType != WrapI32(policy.productType) || found[0].rewardGroup != item.rewardGroup
      || found[0].sellType != WrapI32(policy.sellType) || found[0].sellValue != policy.sellValue
      || !found[0].active then Some(ItemMismatch(item.id))
    else if Triples(Keep(c.rewards, InGroup(item.rewardGroup))) != item.rewards then
      Some(RewardMismatch(item.rewardGroup))
    else if Keep(c.gameData["Shop"], ColumnIs("id", item.id)) == []
      || |Keep(c.gameData["Reward_group"], ColumnIs("group", item.rewardGroup))| != |item.rewards| then
      Some(IncompleteProjection(item.id))
    else None
  }

  function CheckItems(policy: Policy, c: Catalog, items: seq<Item>): Option<OverlayError>
    requires "Shop" in c.gameData && "Reward_group" in c.gameData
  {
    if items == [] then None
    else
      match CheckItem(policy, c, items[0])
      case Some(e) => Some(e)
      case None => CheckItems(policy, c, items[1..])
  }

  function Collision(c: Catalog, items: seq<Item>): Option<OverlayError>
    requires "Shop" in c.gameData && "Reward_group" in c.gameData
  {
    if items == [] then None
    else if Keep(c.shops, HasShopId(items[0].id)) != []
      || Keep(c.gameData["Shop"], ColumnIs("id", items[0].id)) != [] then Some(ShopIdCollision(items[0].id))
    else if Keep(c.rewards, InGroup(items[0].rewardGroup)) != []
      || Keep(c.gameData["Reward_group"], ColumnIs("group", items[0].rewardGroup)) != [] then
      Some(RewardGroupCollision(items[0].rewardGroup))
    else Collision(c, items[1..])
  }

  function PushTo(c: Catalog, table: string, row: Row): Catalog
    requires table in c.gameData
  {
    c.(gameData := c.gameData[table := c.gameData[table] + [row]])
  }

  predicate HasTables(c: Catalog) {
    "Shop" in c.gameData && "Reward_group" in c.gameData
  }

  /** A catalog after pushing, and whether the pushing went through. */
  datatype Pushed = Pushed(catalog: Catalog, done: bool)

  function PushReward(c: Catalog, item: Item, index: nat): (r: Catalog)
    requires HasTables(c) && index < |item.rewards|
    ensures HasTables(r)
  {
    PushTo(c.(rewards := c.rewards + [NewReward(item, index)]), "Reward_group", NewRewardRow(item, index))
  }

  function PushRewards(c: Catalog, item: Item, index: nat): (r: Pushed)
    requires HasTables(c) && index <= |item.rewards|
    ensures HasTables(r.catalog)
    decreases |item.rewards| - index
  {
    if index == |item.rewards| then Pushed(c, true)
    else if RowIdOverflows(item, index) then Pushed(c, false)
    else PushRewards(PushReward(c, item, index), item, index + 1)
  }

  function PushShop(policy: Policy, c: Catalog, item: Item): (r: Catalog)
    requires HasTables(c)
    ensures HasTables(r)
  {
    PushTo(c.(shops := c.shops + [NewShop(policy, item)]), "Shop", NewShopRow(policy, item))
  }

  datatype Outcome = Outcome(catalog: Catalog, result: Result<(), OverlayError>)

  function PushItems(policy: Policy, c: Catalog, items: seq<Item>): (r: Outcome)
    requires HasTables(c)
    ensures HasTables(r.catalog)
    decreases |items|
  {
    if items == [] then Outcome(c, Ok(()))
    else
      var pushed := PushRewards(PushShop(policy, c, items[0]), items[0], 0);
      if !pushed.done then Outcome(pushed.catalog, Err(RowIdOverflow(items[0].id)))
      else PushItems(policy, pushed.catalog, items[1..])
  }

  function ShopKey(): ShopRow -> Key {
    (row: ShopRow) => Key(row.id, 0)
  }

  function RewardKey(): RewardRow -> Key {
    (row: RewardRow) => Key(row.group, row.rowId)
  }

  function SortTables(c: Catalog): Catalog {
    c.(shops := Sort(c.shops, ShopKey()), rewards := Sort(c.rewards, RewardKey()))
  }

  function Overlay(policy: Policy, c: Catalog): Outcome {
    if "Shop" !in c.gameData then Outcome(c, Err(NoTable("Shop")))
    else if "Reward_group" !in c.gameData then Outcome(c, Err(NoTable("Reward_group")))
    else
      var shopCount := |Keep(c.shops, PolicyShop(policy.items))|;
      var rewardCount := |Keep(c.rewards, PolicyReward(policy.items))|;
      if shopCount != 0 || rewardCount != 0 then
        if shopCount != |policy.items| || rewardCount != RewardCount(policy.items) then
          Outcome(c, Err(PartialOverlay))
        else
          match CheckItems(policy, c, policy.items)
          case Some(e) => Outcome(c, Err(e))
          case None => Outcome(c, Ok(()))
      else
        match Collision(c, policy.items)
        case Some(e) => Outcome(c, Err(e))
        case None =>
          var pushed := PushItems(policy, c, policy.items);
          if pushed.result.Err? then pushed else Outcome(SortTables(pushed.catalog), Ok(()))
  }

  // ----- The catalog in place -----

  class MasterCatalog {
    var shops: seq<ShopRow>
    var rewards: seq<RewardRow>
    var gameData: map<string, seq<Row>>

    constructor (c: Catalog)
      ensures Value() == c
    {
      shops, rewards, gameData := c.shops, c.rewards, c.gameData;
    }

    function Value(): Catalog
      reads this
    {
      Catalog(shops, rewards, gameData)
    }

    method PushItemRewards(item: Item) returns (done: bool)
      requires HasTables(Value())
      modifies this
      ensures Pushed(Value(), done) == PushRewards(old(Value()), item, 0)
    {
      var index := 0;
      while index < |item.rewards|
        invariant index <= |item.rewards| && HasTables(Value())
        invariant PushRewards(old(Value()), item, 0) == PushRewards(Value(), item, index)
      {
        if RowIdOverflows(item, index) {
          return false;
        }
        rewards := rewards + [NewReward(item, index)];
        gameData := gameData["Reward_group" := gameData["Reward_group"] + [NewRewardRow(item, index)]];
        index := index + 1;
      }
      done := true;
    }

    method ApplyMemorialShopPolicy(policy: Policy) returns (r: Result<(), OverlayError>)
      modifies this
      ensures Outcome(Value(), r) == Overlay(policy, old(Value()))
    {
      hide Keep, NewShopRow, NewShop, PushRewards, CheckItems, Collision, Sort;
      if "Shop" !in gameData {
        return Err(NoTable("Shop"));
      }
      if "Reward_group" !in gameData {
        return Err(NoTable("Reward_group"));
      }
      var shopCount, rewardCount := |Keep(shops, PolicyShop(policy.items))|, |Keep(rewards, PolicyReward(policy.items))|;
      if shopCount != 0 || rewardCount != 0 {
        if shopCount != |policy.items| || rewardCount != RewardCount(policy.items) {
          return Err(PartialOverlay);
        }
        var wrong := CheckItems(policy, Value(), policy.items);
        return if wrong.Some? then Err(wrong.value) else Ok(());
      }
      var collision := Collision(Value(), policy.items);
      if collision.Some? {
        return Err(collision.value);
      }
      var i := 0;
      while i < |policy.items|
        invariant i <= |policy.items| && HasTables(Value())
        invariant PushItems(policy, old(Value()), policy.items) == PushItems(policy, Value(), policy.items[i..])
      {
        var item := policy.items[i];
        assert policy.items[i..][1..] == policy.items[i + 1..];
        shops := shops + [NewShop(policy, item)];
        var row := BuildShopRow(policy, item);
        gameData := gameData["Shop" := gameData["Shop"] + [row]];
        var done := PushItemRewards(item);
        if !done {
          return Err(RowIdOverflow(item.id));
        }
        i := i + 1;
      }
      shops := Sort(shops, ShopKey());
      rewards := Sort(rewards, RewardKey());
      r := Ok(());
    }
  }
}
