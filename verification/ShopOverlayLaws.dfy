/** What the shop overlay guarantees: it is idempotent, keeps every source row and sorts its tables. */
module ShopOverlayLaws {
  import opened Wrappers
  import opened StableSort
  import opened ShopOverlay
  import opened Text

  predicate DistinctItems(items: seq<Item>) {
    forall i, j | 0 <= i < j < |items| :: items[i].id != items[j].id && items[i].rewardGroup != items[j].rewardGroup
  }

  predicate NoOverflow(items: seq<Item>) {
    forall i, k | 0 <= i < |items| && 0 <= k < |items[i].rewards| :: !RowIdOverflows(items[i], k)
  }

  // ----- Everything the overlay adds, in closed form -----

  function RewardsFrom(item: Item, index: nat): seq<RewardRow>
    requires index <= |item.rewards|
    decreases |item.rewards| - index
  {
    if index == |item.rewards| then [] else [NewReward(item, index)] + RewardsFrom(item, index + 1)
  }

  function RewardRowsFrom(item: Item, index: nat): seq<Row>
    requires index <= |item.rewards|
    decreases |item.rewards| - index
  {
    if index == |item.rewards| then [] else [NewRewardRow(item, index)] + RewardRowsFrom(item, index + 1)
  }

  function NewShops(policy: Policy, items: seq<Item>): seq<ShopRow> {
    if items == [] then [] else [NewShop(policy, items[0])] + NewShops(policy, items[1..])
  }

  function NewShopRows(policy: Policy, items: seq<Item>): seq<Row> {
    if items == [] then [] else [NewShopRow(policy, items[0])] + NewShopRows(policy, items[1..])
  }

  function NewRewards(items: seq<Item>): seq<RewardRow> {
    if items == [] then [] else RewardsFrom(items[0], 0) + NewRewards(items[1..])
  }

  function NewRewardRows(items: seq<Item>): seq<Row> {
    if items == [] then [] else RewardRowsFrom(items[0], 0) + NewRewardRows(items[1..])
  }

  function Extend(c: Catalog, shops: seq<ShopRow>, rewards: seq<RewardRow>, shopRows: seq<Row>, rewardRows: seq<Row>)
    : Catalog
    requires HasTables(c)
  {
    Catalog(c.shops + shops, c.rewards + rewards,
            c.gameData["Shop" := c.gameData["Shop"] + shopRows]
                      ["Reward_group" := c.gameData["Reward_group"] + rewardRows])
  }

  lemma ExtendTwice(c: Catalog, s1: seq<ShopRow>, r1: seq<RewardRow>, t1: seq<Row>, u1: seq<Row>,
                    s2: seq<ShopRow>, r2: seq<RewardRow>, t2: seq<Row>, u2: seq<Row>)
    requires HasTables(c)
    ensures HasTables(Extend(c, s1, r1, t1, u1))
    ensures Extend(Extend(c, s1, r1, t1, u1), s2, r2, t2, u2) == Extend(c, s1 + s2, r1 + r2, t1 + t2, u1 + u2)
  {
    assert "Shop" != "Reward_group" by {
      assert "Shop"[0] == 'S' && "Reward_group"[0] == 'R';
    }
    assert c.shops + s1 + s2 == c.shops + (s1 + s2) && c.rewards + r1 + r2 == c.rewards + (r1 + r2);
    var shop, group := c.gameData["Shop"], c.gameData["Reward_group"];
    assert shop + t1 + t2 == shop + (t1 + t2) && group + u1 + u2 == group + (u1 + u2);
  }

  lemma ExtendNothing(c: Catalog)
    requires HasTables(c)
    ensures Extend(c, [], [], [], []) == c
  {
    assert c.shops + [] == c.shops && c.rewards + [] == c.rewards;
    assert c.gameData["Shop"] + [] == c.gameData["Shop"];
    assert c.gameData["Reward_group"] + [] == c.gameData["Reward_group"];
  }

  lemma PushAsExtend(policy: Policy, c: Catalog, item: Item, index: nat)
    requires HasTables(c)
    ensures PushShop(policy, c, item) == Extend(c, [NewShop(policy, item)], [], [NewShopRow(policy, item)], [])
    ensures index < |item.rewards| ==>
      PushReward(c, item, index) == Extend(c, [], [NewReward(item, index)], [], [NewRewardRow(item, index)])
  {
    hide NewShop, NewShopRow, NewReward, NewRewardRow;
    assert "Shop" != "Reward_group" by {
      assert "Shop"[0] == 'S' && "Reward_group"[0] == 'R';
    }
    assert c.shops + [] == c.shops && c.rewards + [] == c.rewards;
    assert c.gameData["Shop"] + [] == c.gameData["Shop"];
    assert c.gameData["Reward_group"] + [] == c.gameData["Reward_group"];
  }

  lemma {:induction false} PushRewardsClosed(policy: Policy, c: Catalog, item: Item, index: nat)
    requires HasTables(c) && index <= |item.rewards| && NoOverflow([item])
    ensures PushRewards(c, item, index)
         == Pushed(Extend(c, [], RewardsFrom(item, index), [], RewardRowsFrom(item, index)), true)
    decreases |item.rewards| - index
  {
    if index == |item.rewards| {
      ExtendNothing(c);
    } else {
      assert [item][0] == item;
      var reward, row := NewReward(item, index), NewRewardRow(item, index);
      PushAsExtend(policy, c, item, index);
      PushRewardsClosed(policy, PushReward(c, item, index), item, index + 1);
      hide Extend, PushReward, NewReward, NewRewardRow, RowIdOverflows;
      ExtendTwice(c, [], [reward], [], [row],
                  [], RewardsFrom(item, index + 1), [], RewardRowsFrom(item, index + 1));
      var noShops: seq<ShopRow>, noRows: seq<Row> := [], [];
      assert noShops + noShops == noShops && noRows + noRows == noRows;
    }
  }

  lemma {:induction false} PushItemsClosed(policy: Policy, c: Catalog, items: seq<Item>)
    requires HasTables(c) && NoOverflow(items)
    ensures PushItems(policy, c, items)
         == Outcome(Extend(c, NewShops(policy, items), NewRewards(items),
                           NewShopRows(policy, items), NewRewardRows(items)), Ok(()))
    decreases |items|
  {
    if items == [] {
      ExtendNothing(c);
    } else {
      var item, rest := items[0], items[1..];
      var withShop := PushShop(policy, c, item);
      assert NoOverflow([item]) && NoOverflow(rest);
      PushAsExtend(policy, c, item, 0);
      PushRewardsClosed(policy, withShop, item, 0);
      var pushed := PushRewards(withShop, item, 0).catalog;
      PushItemsClosed(policy, pushed, rest);
      hide Extend, PushShop, PushRewards, NewShop, NewShopRow, RewardsFrom, RewardRowsFrom, NoOverflow;
      var s1, t1 := [NewShop(policy, item)], [NewShopRow(policy, item)];
      var r1, u1 := RewardsFrom(item, 0), RewardRowsFrom(item, 0);
      ExtendTwice(c, s1, [], t1, [], [], r1, [], u1);
      assert s1 + [] == s1 && [] + r1 == r1 && t1 + [] == t1 && [] + u1 == u1;
      ExtendTwice(c, s1, r1, t1, u1,
                  NewShops(policy, rest), NewRewards(rest), NewShopRows(policy, rest), NewRewardRows(rest));
    }
  }

  // ----- Finding the added rows again -----

  lemma ShopRowId(policy: Policy, item: Item)
    ensures RowI64(NewShopRow(policy, item), "id") == Some(item.id)
  {
    LocalesKeepId(FixedColumns(policy, item), item, |LOCALES|);
  }

  lemma {:induction false} NewShopsFound(policy: Policy, items: seq<Item>, id: int)
    ensures (forall i | 0 <= i < |items| :: items[i].id != id) ==> Keep(NewShops(policy, items), HasShopId(id)) == []
    ensures forall row | row in NewShops(policy, items) :: exists i | 0 <= i < |items| :: items[i].id == row.id
    ensures |NewShops(policy, items)| == |items|
  {
    if items != [] {
      NewShopsFound(policy, items[1..], id);
      var rest := NewShops(policy, items[1..]);
      KeepCons(NewShop(policy, items[0]), rest, HasShopId(id));
      forall row | row in NewShops(policy, items) ensures exists i | 0 <= i < |items| :: items[i].id == row.id {
        if row in rest {
          var i :| 0 <= i < |items[1..]| && items[1..][i].id == row.id;
          assert items[i + 1].id == row.id;
        } else {
          assert items[0].id == row.id;
        }
      }
    }
  }

  lemma {:induction false} NewShopFound(policy: Policy, items: seq<Item>, k: nat)
    requires DistinctItems(items) && k < |items|
    ensures Keep(NewShops(policy, items), HasShopId(items[k].id)) == [NewShop(policy, items[k])]
  {
    var id := items[k].id;
    var rest := NewShops(policy, items[1..]);
    KeepCons(NewShop(policy, items[0]), rest, HasShopId(id));
    if k == 0 {
      NewShopsFound(policy, items[1..], id);
    } else {
      assert items[1..][k - 1] == items[k];
      NewShopFound(policy, items[1..], k - 1);
    }
  }

  lemma {:induction false} NewShopRowFound(policy: Policy, items: seq<Item>, k: nat)
    requires k < |items|
    ensures Keep(NewShopRows(policy, items), ColumnIs("id", items[k].id)) != []
  {
    var p := ColumnIs("id", items[k].id);
    ShopRowId(policy, items[0]);
    KeepCons(NewShopRow(policy, items[0]), NewShopRows(policy, items[1..]), p);
    if k > 0 {
      assert items[1..][k - 1] == items[k];
      NewShopRowFound(policy, items[1..], k - 1);
    }
  }

  lemma {:induction false} RewardsShape(item: Item, index: nat)
    requires index <= |item.rewards|
    ensures |RewardsFrom(item, index)| == |RewardRowsFrom(item, index)| == |item.rewards| - index
    ensures forall k | 0 <= k < |RewardsFrom(item, index)| :: RewardsFrom(item, index)[k] == NewReward(item, index + k)
    decreases |item.rewards| - index
  {
    hide NewReward, NewRewardRow;
    if index < |item.rewards| {
      RewardsShape(item, index + 1);
    }
  }

  lemma {:induction false} RewardsOfItem(item: Item, index: nat, group: int)
    requires index <= |item.rewards|
    ensures Keep(RewardsFrom(item, index), InGroup(group))
         == if group == item.rewardGroup then RewardsFrom(item, index) else []
    ensures Keep(RewardRowsFrom(item, index), ColumnIs("group", group))
         == if group == item.rewardGroup then RewardRowsFrom(item, index) else []
    decreases |item.rewards| - index
  {
    if index == |item.rewards| {
      KeepNone([], InGroup(group));
      KeepNone([], ColumnIs("group", group));
    } else {
      hide Keep, RowI64, NewReward, NewRewardRow;
      NewRewardGroup(item, index);
      RewardRowGroup(item, index);
      RewardsOfItem(item, index + 1, group);
      KeepCons(NewReward(item, index), RewardsFrom(item, index + 1), InGroup(group));
      KeepCons(NewRewardRow(item, index), RewardRowsFrom(item, index + 1), ColumnIs("group", group));
    }
  }

  lemma NewRewardGroup(item: Item, index: nat)
    requires index < |item.rewards|
    ensures NewReward(item, index).group == item.rewardGroup
  {
  }

  lemma RewardRowGroup(item: Item, index: nat)
    requires index < |item.rewards|
    ensures RowI64(NewRewardRow(item, index), "group") == Some(item.rewardGroup)
  {
    assert "group"[0] == 'g' && "id"[0] == 'i' && "rewardtype"[0] == 'r' && "rewardid"[0] == 'r'
        && "rewardquantity"[0] == 'r' && "buyfirstquantity"[0] == 'b';
  }

  lemma {:induction false} NewRewardsElsewhere(items: seq<Item>, group: int)
    requires forall i | 0 <= i < |items| :: items[i].rewardGroup != group
    ensures Keep(NewRewards(items), InGroup(group)) == []
    ensures Keep(NewRewardRows(items), ColumnIs("group", group)) == []
  {
    if items != [] {
      RewardsOfItem(items[0], 0, group);
      NewRewardsElsewhere(items[1..], group);
      KeepConcat(RewardsFrom(items[0], 0), NewRewards(items[1..]), InGroup(group));
      KeepConcat(RewardRowsFrom(items[0], 0), NewRewardRows(items[1..]), ColumnIs("group", group));
    }
  }

  lemma {:induction false} NewRewardsFound(items: seq<Item>, k: nat)
    requires DistinctItems(items) && k < |items|
    ensures Keep(NewRewards(items), InGroup(items[k].rewardGroup)) == RewardsFrom(items[k], 0)
    ensures Keep(NewRewardRows(items), ColumnIs("group", items[k].rewardGroup)) == RewardRowsFrom(items[k], 0)
  {
    hide RewardsFrom, RewardRowsFrom, Keep, RowI64;
    var group := items[k].rewardGroup;
    RewardsOfItem(items[0], 0, group);
    KeepConcat(RewardsFrom(items[0], 0), NewRewards(items[1..]), InGroup(group));
    KeepConcat(RewardRowsFrom(items[0], 0), NewRewardRows(items[1..]), ColumnIs("group", group));
    assert NewRewards(items) == RewardsFrom(items[0], 0) + NewRewards(items[1..]);
    assert NewRewardRows(items) == RewardRowsFrom(items[0], 0) + NewRewardRows(items[1..]);
    if k == 0 {
      NewRewardsElsewhere(items[1..], group);
    } else {
      assert items[1..][k - 1] == items[k];
      NewRewardsFound(items[1..], k - 1);
    }
  }

  lemma {:induction false} NewRewardsCount(items: seq<Item>)
    ensures |NewRewards(items)| == RewardCount(items)
    ensures forall row | row in NewRewards(items) :: exists i | 0 <= i < |items| :: items[i].rewardGroup == row.group
  {
    if items != [] {
      NewRewardsCount(items[1..]);
      RewardsShape(items[0], 0);
      forall row | row in NewRewards(items)
        ensures exists i | 0 <= i < |items| :: items[i].rewardGroup == row.group
      {
        if row in NewRewards(items[1..]) {
          var i :| 0 <= i < |items[1..]| && items[1..][i].rewardGroup == row.group;
          assert items[i + 1].rewardGroup == row.group;
        } else {
          assert items[0].rewardGroup == row.group;
        }
      }
    }
  }

  lemma RewardsSorted(item: Item)
    ensures Sorted(RewardsFrom(item, 0), RewardKey())
    ensures Triples(RewardsFrom(item, 0)) == item.rewards
  {
    RewardsShape(item, 0);
  }

  // ----- Main results -----

  lemma {:induction false} NoCollision(c: Catalog, items: seq<Item>, k: nat)
    requires HasTables(c) && Collision(c, items).None? && k < |items|
    ensures Keep(c.shops, HasShopId(items[k].id)) == []
    ensures Keep(c.rewards, InGroup(items[k].rewardGroup)) == []
    ensures Keep(c.gameData["Reward_group"], ColumnIs("group", items[k].rewardGroup)) == []
  {
    if k > 0 {
      assert items[1..][k - 1] == items[k];
      NoCollision(c, items[1..], k - 1);
    }
  }

  /** The catalog after a first overlay. */
  function Overlaid(policy: Policy, c: Catalog): Catalog
    requires HasTables(c)
  {
    SortTables(Extend(c, NewShops(policy, policy.items), NewRewards(policy.items),
                      NewShopRows(policy, policy.items), NewRewardRows(policy.items)))
  }

  /** Whether the overlay takes the inserting branch. */
  predicate Inserts(policy: Policy, c: Catalog) {
    && HasTables(c) && Collision(c, policy.items).None?
    && Keep(c.shops, PolicyShop(policy.items)) == [] && Keep(c.rewards, PolicyReward(policy.items)) == []
  }

  lemma InsertedItemChecks(policy: Policy, c: Catalog, k: nat)
    requires DistinctItems(policy.items) && Inserts(policy, c) && k < |policy.items|
    ensures CheckItem(policy, Overlaid(policy, c), policy.items[k]).None?
  {
    hide Keep, Sort, NewShops, NewRewards, NewShopRows, NewRewardRows, RewardsFrom, RewardRowsFrom, Triples, RowI64;
    var items, item := policy.items, policy.items[k];
    var c' := Overlaid(policy, c);
    NoCollision(c, items, k);
    // shops
    var shops := c.shops + NewShops(policy, items);
    SortKeep(shops, ShopKey(), HasShopId(item.id));
    KeepConcat(c.shops, NewShops(policy, items), HasShopId(item.id));
    NewShopFound(policy, items, k);
    assert [] + [NewShop(policy, item)] == [NewShop(policy, item)];
    SortOfSorted([NewShop(policy, item)], ShopKey());
    assert Keep(c'.shops, HasShopId(item.id)) == [NewShop(policy, item)];
    // reward groups
    var rewards := c.rewards + NewRewards(items);
    SortKeep(rewards, RewardKey(), InGroup(item.rewardGroup));
    KeepConcat(c.rewards, NewRewards(items), InGroup(item.rewardGroup));
    NewRewardsFound(items, k);
    assert [] + RewardsFrom(item, 0) == RewardsFrom(item, 0);
    RewardsSorted(item);
    SortOfSorted(RewardsFrom(item, 0), RewardKey());
    assert Keep(c'.rewards, InGroup(item.rewardGroup)) == RewardsFrom(item, 0);
    // projected tables
    assert "Shop" != "Reward_group" by {
      assert "Shop"[0] == 'S' && "Reward_group"[0] == 'R';
    }
    KeepConcat(c.gameData["Shop"], NewShopRows(policy, items), ColumnIs("id", item.id));
    NewShopRowFound(policy, items, k);
    KeepConcat(c.gameData["Reward_group"], NewRewardRows(items), ColumnIs("group", item.rewardGroup));
    RewardsShape(item, 0);
  }

  lemma {:induction false} InsertedItemsCheck(policy: Policy, c: Catalog, k: nat)
    requires DistinctItems(policy.items) && Inserts(policy, c) && k <= |policy.items|
    ensures CheckItems(policy, Overlaid(policy, c), policy.items[k..]).None?
    decreases |policy.items| - k
  {
    hide CheckItem, Overlaid;
    if k < |policy.items| {
      InsertedItemChecks(policy, c, k);
      InsertedItemsCheck(policy, c, k + 1);
      assert policy.items[k..][1..] == policy.items[k + 1..];
    }
  }

  lemma CountsAfterInsert(policy: Policy, c: Catalog)
    requires Inserts(policy, c)
    ensures |Keep(Overlaid(policy, c).shops, PolicyShop(policy.items))| == |policy.items|
    ensures |Keep(Overlaid(policy, c).rewards, PolicyReward(policy.items))| == RewardCount(policy.items)
  {
    hide Keep, Sort, NewShops, NewRewards, NewShopRows, NewRewardRows;
    var items := policy.items;
    var newShops, newRewards := NewShops(policy, items), NewRewards(items);
    NewShopsFound(policy, items, 0);
    NewRewardsCount(items);
    SortKeep(c.shops + newShops, ShopKey(), PolicyShop(items));
    KeepConcat(c.shops, newShops, PolicyShop(items));
    KeepAll(newShops, PolicyShop(items));
    SortKeep(c.rewards + newRewards, RewardKey(), PolicyReward(items));
    KeepConcat(c.rewards, newRewards, PolicyReward(items));
    KeepAll(newRewards, PolicyReward(items));
    SameLength(Sort(Keep(c.shops + newShops, PolicyShop(items)), ShopKey()), Keep(c.shops + newShops, PolicyShop(items)));
    SameLength(Sort(Keep(c.rewards + newRewards, PolicyReward(items)), RewardKey()),
               Keep(c.rewards + newRewards, PolicyReward(items)));
  }

  lemma SameLength<T>(a: seq<T>, b: seq<T>)
    requires multiset(a) == multiset(b)
    ensures |a| == |b|
  {
    assert |a| == |multiset(a)| && |b| == |multiset(b)|;
  }

  lemma OverlayInserts(policy: Policy, c: Catalog)
    requires Inserts(policy, c) && NoOverflow(policy.items)
    ensures Overlay(policy, c) == Outcome(Overlaid(policy, c), Ok(()))
  {
    PushItemsClosed(policy, c, policy.items);
  }

  /** Outside the inserting branch the overlay only looks. */
  lemma OverlayLooks(policy: Policy, c: Catalog)
    requires !Inserts(policy, c)
    ensures Overlay(policy, c).catalog == c
    ensures Overlay(policy, c).result.Err? ==> !Overlay(policy, c).result.error.RowIdOverflow?
  {
    hide Keep, RewardCount, CheckItems, Collision;
    if HasTables(c) {
      CollisionIsNoOverflow(c, policy.items);
      CheckIsNoOverflow(policy, c, policy.items);
    }
  }

  lemma ExtendKeeps(c: Catalog, s: seq<ShopRow>, r: seq<RewardRow>, t: seq<Row>, u: seq<Row>)
    requires HasTables(c)
    ensures var c' := Extend(c, s, r, t, u);
      c.gameData.Keys == c'.gameData.Keys && forall table | table in c.gameData :: c.gameData[table] <= c'.gameData[table]
  {
    assert "Shop" != "Reward_group" by {
      assert "Shop"[0] == 'S' && "Reward_group"[0] == 'R';
    }
  }

  /** An overlay that inserted its items met no row id that does not fit. */
  lemma InsertedFits(policy: Policy, c: Catalog)
    requires Inserts(policy, c) && Overlay(policy, c).result.Ok?
    ensures NoOverflow(policy.items)
  {
    PushItemsDoneExactly(policy, c, policy.items);
    hide Keep, PushItems, Collision, Sort, NoOverflow;
  }

  /** A successful overlay succeeds again and changes nothing the second time. */
  lemma OverlayIdempotent(policy: Policy, c: Catalog)
    requires DistinctItems(policy.items) && Overlay(policy, c).result.Ok?
    ensures Overlay(policy, Overlay(policy, c).catalog) == Overlay(policy, c)
  {
    if Inserts(policy, c) {
      var items, c' := policy.items, Overlaid(policy, c);
      InsertedFits(policy, c);
      OverlayInserts(policy, c);
      CountsAfterInsert(policy, c);
      InsertedItemsCheck(policy, c, 0);
      assert items[0..] == items;
      if items == [] {
        OverlayInserts(policy, c');
        SortSorts(c.shops + [], ShopKey());
        SortSorts(c.rewards + [], RewardKey());
        SortOfSorted(c'.shops, ShopKey());
        SortOfSorted(c'.rewards, RewardKey());
        ExtendNothing(c');
      }
    }
  }

  /** Every source row survives; projected tables only grow at the end; tables end up sorted. */
  lemma OverlayKeepsSource(policy: Policy, c: Catalog)
    requires Overlay(policy, c).result.Ok?
    ensures var c' := Overlay(policy, c).catalog;
      && multiset(c.shops) <= multiset(c'.shops) && multiset(c.rewards) <= multiset(c'.rewards)
      && c.gameData.Keys == c'.gameData.Keys
      && (forall t | t in c.gameData :: c.gameData[t] <= c'.gameData[t])
      && (c' == c || (Sorted(c'.shops, ShopKey()) && Sorted(c'.rewards, RewardKey())))
  {
    hide Overlay, Collision, Extend, Keep, Sort, NewShops, NewRewards, NewShopRows, NewRewardRows;
    if Inserts(policy, c) {
      var shops, rewards := NewShops(policy, policy.items), NewRewards(policy.items);
      var shopRows, rewardRows := NewShopRows(policy, policy.items), NewRewardRows(policy.items);
      InsertedFits(policy, c);
      OverlayInserts(policy, c);
      ExtendTables(c, shops, rewards, shopRows, rewardRows);
      ExtendKeeps(c, shops, rewards, shopRows, rewardRows);
      SortSorts(c.shops + shops, ShopKey());
      SortSorts(c.rewards + rewards, RewardKey());
    } else {
      OverlayLooks(policy, c);
    }
  }

  lemma ExtendTables(c: Catalog, s: seq<ShopRow>, r: seq<RewardRow>, t: seq<Row>, u: seq<Row>)
    requires HasTables(c)
    ensures Extend(c, s, r, t, u).shops == c.shops + s && Extend(c, s, r, t, u).rewards == c.rewards + r
  {
  }

  /**
   The overlay fails half-way, leaving rows behind, exactly when it takes the inserting branch for
   items of which some row id does not fit; all other failures leave the catalog as it was.
   */
  lemma FailureLeavesRowsExactly(policy: Policy, c: Catalog)
    ensures Overlay(policy, c).result.Err? && Overlay(policy, c).catalog != c
       <==> Inserts(policy, c) && !NoOverflow(policy.items)
  {
    if !Inserts(policy, c) {
      OverlayLooks(policy, c);
    } else {
      PushItemsDoneExactly(policy, c, policy.items);
      hide Keep, PushItems, Collision, Sort;
      PushItemsGrows(policy, c, policy.items);
    }
  }

  /** The row ids that an item's rewards get lie in the range of `i64`. */
  predicate GroupsFit(items: seq<Item>) {
    forall i | 0 <= i < |items| && items[i].rewards != [] ::
      FitsI64(items[i].rewardGroup * 100) && FitsI64(items[i].rewardGroup * 100 + |items[i].rewards|)
  }

  /** Groups of at most twelve digits with fewer than a million rewards each; the embedded ones have five digits. */
  predicate SmallGroups(items: seq<Item>) {
    forall i | 0 <= i < |items| ::
      0 <= items[i].rewardGroup < 1_000_000_000_000 && |items[i].rewards| < 1_000_000
  }

  lemma GroupsFitExactly(items: seq<Item>)
    ensures NoOverflow(items) <==> GroupsFit(items)
    ensures SmallGroups(items) ==> GroupsFit(items)
  {
    if NoOverflow(items) {
      forall i | 0 <= i < |items| && items[i].rewards != []
        ensures FitsI64(items[i].rewardGroup * 100) && FitsI64(items[i].rewardGroup * 100 + |items[i].rewards|)
      {
        assert !RowIdOverflows(items[i], |items[i].rewards| - 1);
      }
    }
  }

  /** With a policy whose reward groups are in range no failure of the overlay changes the catalog. */
  lemma FittingGroupsChangeNothing(policy: Policy, c: Catalog)
    requires GroupsFit(policy.items)
    ensures Overlay(policy, c).result.Err? ==> Overlay(policy, c).catalog == c
  {
    hide Overlay, Inserts, NoOverflow;
    GroupsFitExactly(policy.items);
    FailureLeavesRowsExactly(policy, c);
  }

  lemma {:induction false} PushRewardsDoneExactly(c: Catalog, item: Item, index: nat)
    requires HasTables(c) && index <= |item.rewards|
    ensures PushRewards(c, item, index).done <==> forall k | index <= k < |item.rewards| :: !RowIdOverflows(item, k)
    decreases |item.rewards| - index
  {
    hide RowIdOverflows, PushReward;
    if index < |item.rewards| && !RowIdOverflows(item, index) {
      PushRewardsDoneExactly(PushReward(c, item, index), item, index + 1);
    }
  }

  lemma {:induction false} PushItemsDoneExactly(policy: Policy, c: Catalog, items: seq<Item>)
    requires HasTables(c)
    ensures PushItems(policy, c, items).result.Ok? <==> NoOverflow(items)
    decreases |items|
  {
    if items != [] {
      hide RowIdOverflows, PushShop, PushRewards;
      var pushed := PushRewards(PushShop(policy, c, items[0]), items[0], 0);
      PushRewardsDoneExactly(PushShop(policy, c, items[0]), items[0], 0);
      PushItemsDoneExactly(policy, pushed.catalog, items[1..]);
      assert NoOverflow(items) <==> pushed.done && NoOverflow(items[1..]) by {
        if pushed.done && NoOverflow(items[1..]) {
          forall i, k | 0 <= i < |items| && 0 <= k < |items[i].rewards| ensures !RowIdOverflows(items[i], k) {
            if i > 0 {
              assert items[i] == items[1..][i - 1];
            }
          }
        }
      }
    }
  }

  /** The error names what happened: rows stay behind exactly when it is a row-id overflow. */
  lemma OverflowErrorTells(policy: Policy, c: Catalog)
    requires Overlay(policy, c).result.Err?
    ensures Overlay(policy, c).catalog == c <==> !Overlay(policy, c).result.error.RowIdOverflow?
  {
    if !Inserts(policy, c) {
      OverlayLooks(policy, c);
    } else {
      hide Keep, PushItems, Collision, Sort;
      PushItemsGrows(policy, c, policy.items);
    }
  }

  lemma {:induction false} CollisionIsNoOverflow(c: Catalog, items: seq<Item>)
    requires HasTables(c)
    ensures Collision(c, items).Some? ==> !Collision(c, items).value.RowIdOverflow?
  {
    if items != [] {
      CollisionIsNoOverflow(c, items[1..]);
    }
  }

  lemma {:induction false} CheckIsNoOverflow(policy: Policy, c: Catalog, items: seq<Item>)
    requires HasTables(c)
    ensures CheckItems(policy, c, items).Some? ==> !CheckItems(policy, c, items).value.RowIdOverflow?
  {
    if items != [] {
      CheckIsNoOverflow(policy, c, items[1..]);
    }
  }

  lemma {:induction false} PushRewardsKeepsShops(c: Catalog, item: Item, index: nat)
    requires HasTables(c) && index <= |item.rewards|
    ensures PushRewards(c, item, index).catalog.shops == c.shops
    decreases |item.rewards| - index
  {
    if index < |item.rewards| && !RowIdOverflows(item, index) {
      PushRewardsKeepsShops(PushReward(c, item, index), item, index + 1);
    }
  }

  lemma {:induction false} PushItemsGrows(policy: Policy, c: Catalog, items: seq<Item>)
    requires HasTables(c)
    ensures |PushItems(policy, c, items).catalog.shops| >= |c.shops| + (if items == [] then 0 else 1)
    ensures PushItems(policy, c, items).result.Err? ==> PushItems(policy, c, items).result.error.RowIdOverflow?
    decreases |items|
  {
    if items != [] {
      var withShop := PushShop(policy, c, items[0]);
      PushRewardsKeepsShops(withShop, items[0], 0);
      PushItemsGrows(policy, PushRewards(withShop, items[0], 0).catalog, items[1..]);
    }
  }

  /** The exception is real: a reward group near the end of `i64` leaves a half-done overlay behind. */
  lemma OverflowLeavesRows()
    ensures exists policy: Policy, c: Catalog ::
      Overlay(policy, c).result.Err? && Overlay(policy, c).catalog != c
  {
    var item := Item(1, "", "", "", I64_MAX, 0, map[], map[], [Reward(1, 1, 1.0)]);
    var policy := Policy(0, 0, 0, 0, "", [item]);
    var c := Catalog([], [], map["Shop" := [], "Reward_group" := []]);
    OverflowStops(policy, c, item);
  }

  lemma OverflowStops(policy: Policy, c: Catalog, item: Item)
    requires HasTables(c) && policy.items == [item] && c.shops == [] && c.rewards == []
    requires c.gameData["Shop"] == [] && c.gameData["Reward_group"] == []
    requires item.rewards != [] && RowIdOverflows(item, 0)
    ensures Overlay(policy, c).result.Err? && Overlay(policy, c).catalog != c
  {
    assert Collision(c, [item]).None? by {
      assert Collision(c, [item][1..]).None?;
    }
    assert PushItems(policy, c, policy.items).result.Err? by {
      assert !PushRewards(PushShop(policy, c, item), item, 0).done;
    }
    hide PushItems, Collision, Keep, Sort;
    assert Overlay(policy, c).result.Err?;
    OverflowErrorTells(policy, c);
    PushItemsGrows(policy, c, policy.items);
  }
}
