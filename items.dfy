/** The item manager: the item-type dispatch table, the drop roll, and the
    protocol that turns a killed monster into dropped gold and items. The
    engine's random numbers and navigation queries are inputs: `rolls(i)` is
    the random value drawn for drop entry i, `draws(i)` the tier the tier-roll
    ratio produces for it, and `nav(i)` whether the navigation query of the
    i-th attempt found a point. */
module Items {
  import opened Counting
  import opened Wrappers

  datatype ItemType = Normal | Equip | Material | Enchant | Gem

  /** The item tier enumeration: only its NORMAL member matters here. */
  datatype ItemTier = NormalTier | OtherTier(rank: nat)

  /** The three creation members the dispatch table can point at. */
  datatype Creator = CreateNormalItem | CreateEquipItem | CreateMaterialItem

  /** The dispatch table the manager's constructor fills. */
  const ItemSelect: map<ItemType, Creator> :=
    map[Normal := CreateNormalItem, Equip := CreateEquipItem, Material := CreateMaterialItem,
        Enchant := CreateNormalItem, Gem := CreateNormalItem]

  /** The creation member an item type is dispatched to. */
  function Dispatch(t: ItemType): (c: Creator)
    ensures c == CreateEquipItem <==> t == Equip
    ensures c == CreateMaterialItem <==> t == Material
    ensures c == CreateNormalItem <==> t == Normal || t == Enchant || t == Gem
  {
    assert t in ItemSelect by { assert t.Normal? || t.Equip? || t.Material? || t.Enchant? || t.Gem?; }
    ItemSelect[t]
  }

  datatype BaseItemData = BaseItemData(id: nat, itemType: ItemType)

  /** One entry of a monster's drop list: the chance and the item's row. */
  datatype DropItemData = DropItemData(dropPercentOne: real, item: BaseItemData)

  /** A tier-roll ratio, known only by identity: its contents and its random
      draw are not part of this model. */
  datatype TierRollRatio = TierRollRatio(id: nat)

  /** What the current tier-roll pointer points at. */
  datatype RollRef = NoRoll | DefaultRoll | MonsterRoll(ratio: TierRollRatio)

  datatype MonsterData = MonsterData(itemTierRoll: TierRollRatio, dropGoldAmount: int,
                                     dropItemDatas: seq<DropItemData>)

  /** What the manager reads of a monster: its current level, its current
      tier as a number, and its data. */
  datatype Monster = Monster(level: int, tier: nat, data: MonsterData)

  /** A created item instance. An equipment item remembers the tier it was
      given, the ratio that tier was drawn from and the level its random stats
      were set for. */
  datatype StoredItem =
    | NormalItem(data: BaseItemData)
    | EquipItem(data: BaseItemData, tier: ItemTier, rolledFrom: RollRef, statLevel: int)
    | MaterialItem(data: BaseItemData)

  /** One entry of the drop log: a navigation query and its answer, or a
      dropped actor spawned after a successful one. */
  datatype Drop = NavQuery(found: bool) | DroppedItem(item: StoredItem) | DroppedGold(amount: int)

  predicate IsNavQuery(d: Drop) { d.NavQuery? }
  predicate IsDroppedGold(d: Drop) { d.DroppedGold? }
  predicate IsDroppedItem(d: Drop) { d.DroppedItem? }

  /** The drop roll: the item drops unless the drawn value exceeds its chance. */
  function ItemDropRoll(itemData: DropItemData, roll: real): (dropped: bool)
    ensures dropped <==> roll <= itemData.dropPercentOne
    ensures !dropped <==> itemData.dropPercentOne < roll
  {
    if itemData.dropPercentOne < roll then false else true
  }

  /** The item the dispatch table creates for `data` at item level `level`,
      with tier-roll pointer `roll` and drawn tier `drawn`. */
  function NewItem(data: BaseItemData, level: int, roll: RollRef, drawn: ItemTier): (item: StoredItem)
    ensures item.data == data
    ensures item.EquipItem? <==> data.itemType == Equip
    ensures item.MaterialItem? <==> data.itemType == Material
    ensures item.NormalItem? <==> data.itemType in {Normal, Enchant, Gem}
    ensures item.EquipItem? ==> item.tier == drawn && item.rolledFrom == roll && item.statLevel == level
  {
    match Dispatch(data.itemType)
    case CreateNormalItem => NormalItem(data)
    case CreateEquipItem => EquipItem(data, drawn, roll, level)
    case CreateMaterialItem => MaterialItem(data)
  }

  /** A signed 32-bit result, wrapped modulo 2^32. Signed overflow is left
      undefined by C++; two's-complement wrap-around is the reading modelled. */
  function Int32(x: int): (r: int)
    ensures -0x8000_0000 <= r < 0x8000_0000
    ensures -0x8000_0000 <= x < 0x8000_0000 ==> r == x
    ensures (x - r) % 0x1_0000_0000 == 0
  {
    (x + 0x8000_0000) % 0x1_0000_0000 - 0x8000_0000
  }

  /** The log of one CreateAndDrop*InRandomGround: the navigation query, and
      the dropped actor only when it found a point. */
  function Attempt(found: bool, dropped: Drop): seq<Drop>
  {
    [NavQuery(found)] + (if found then [dropped] else [])
  }

  /** One attempt asks one navigation query and drops its actor exactly when
      the query found a point. */
  lemma AttemptCounts(found: bool, dropped: Drop)
    requires !dropped.NavQuery?
    ensures Count(Attempt(found, dropped), IsNavQuery) == 1
    ensures Count(Attempt(found, dropped), IsDroppedGold) == if found && dropped.DroppedGold? then 1 else 0
    ensures Count(Attempt(found, dropped), IsDroppedItem) == if found && dropped.DroppedItem? then 1 else 0
  {
  }

  // -------------------------------------------------------------- gold loop

  /** The log of the first n gold attempts. */
  function GoldDrops(n: nat, amount: int, nav: nat -> bool): seq<Drop>
  {
    if n == 0 then [] else GoldDrops(n - 1, amount, nav) + Attempt(nav(n - 1), DroppedGold(amount))
  }

  /** How many of the first n navigation queries found a point. */
  function Successes(n: nat, nav: nat -> bool): (k: nat)
    ensures k <= n
  {
    if n == 0 then 0 else Successes(n - 1, nav) + (if nav(n - 1) then 1 else 0)
  }

  /** n gold attempts ask exactly n navigation queries. */
  lemma {:induction false} GoldDropsQueries(n: nat, amount: int, nav: nat -> bool)
    ensures Count(GoldDrops(n, amount, nav), IsNavQuery) == n
  {
    if n > 0 {
      GoldDropsQueries(n - 1, amount, nav);
      CountConcat(GoldDrops(n - 1, amount, nav), Attempt(nav(n - 1), DroppedGold(amount)), IsNavQuery);
      AttemptCounts(nav(n - 1), DroppedGold(amount));
    }
  }

  /** n gold attempts drop one gold actor per successful query and no item. */
  lemma {:induction false} GoldDropsDropped(n: nat, amount: int, nav: nat -> bool)
    ensures Count(GoldDrops(n, amount, nav), IsDroppedGold) == Successes(n, nav)
    ensures Count(GoldDrops(n, amount, nav), IsDroppedItem) == 0
  {
    if n > 0 {
      var prev := GoldDrops(n - 1, amount, nav);
      var a := Attempt(nav(n - 1), DroppedGold(amount));
      GoldDropsDropped(n - 1, amount, nav);
      CountConcat(prev, a, IsDroppedGold);
      CountConcat(prev, a, IsDroppedItem);
      AttemptCounts(nav(n - 1), DroppedGold(amount));
    }
  }

  /** Every entry of n gold attempts is a navigation query or a gold actor
      carrying the given amount. */
  lemma {:induction false} GoldDropsContents(n: nat, amount: int, nav: nat -> bool)
    ensures forall d :: d in GoldDrops(n, amount, nav) ==> d.NavQuery? || d == DroppedGold(amount)
  {
    if n > 0 {
      GoldDropsContents(n - 1, amount, nav);
    }
  }

  /** n gold attempts ask exactly n navigation queries, drop one gold actor
      per successful query, every one carrying the same amount, and no item. */
  lemma GoldDropsFacts(n: nat, amount: int, nav: nat -> bool)
    ensures Count(GoldDrops(n, amount, nav), IsNavQuery) == n
    ensures Count(GoldDrops(n, amount, nav), IsDroppedGold) == Successes(n, nav)
    ensures Count(GoldDrops(n, amount, nav), IsDroppedItem) == 0
    ensures forall d :: d in GoldDrops(n, amount, nav) ==> d.NavQuery? || d == DroppedGold(amount)
  {
    GoldDropsQueries(n, amount, nav);
    GoldDropsDropped(n, amount, nav);
    GoldDropsContents(n, amount, nav);
  }

  // -------------------------------------------------------------- item loop

  /** The index of the first drop entry, from i on, whose roll fails, or the
      number of entries when none does. */
  function FirstFailureFrom(entries: seq<DropItemData>, rolls: nat -> real, i: nat): (k: nat)
    requires i <= |entries|
    ensures i <= k <= |entries|
    ensures forall j :: i <= j < k ==> ItemDropRoll(entries[j], rolls(j))
    ensures k < |entries| ==> !ItemDropRoll(entries[k], rolls(k))
    decreases |entries| - i
  {
    if i == |entries| then i
    else if !ItemDropRoll(entries[i], rolls(i)) then i
    else FirstFailureFrom(entries, rolls, i + 1)
  }

  function FirstFailure(entries: seq<DropItemData>, rolls: nat -> real): (k: nat)
    ensures k <= |entries|
    ensures forall j :: 0 <= j < k ==> ItemDropRoll(entries[j], rolls(j))
    ensures k < |entries| ==> !ItemDropRoll(entries[k], rolls(k))
  {
    FirstFailureFrom(entries, rolls, 0)
  }

  /** None of the first k entries is equipment, so creating them needs no
      tier-roll ratio. */
  predicate NoEquipBefore(entries: seq<DropItemData>, k: nat)
    requires k <= |entries|
  {
    forall j :: 0 <= j < k ==> entries[j].item.itemType != Equip
  }

  /** The log of creating and dropping the first k entries. */
  function ItemDrops(entries: seq<DropItemData>, k: nat, level: int, roll: RollRef,
                     draws: nat -> ItemTier, nav: nat -> bool): seq<Drop>
    requires k <= |entries|
  {
    if k == 0 then []
    else ItemDrops(entries, k - 1, level, roll, draws, nav)
         + Attempt(nav(k - 1), DroppedItem(NewItem(entries[k - 1].item, level, roll, draws(k - 1))))
  }

  /** The current tier after creating the first k entries: the tier drawn for
      the last equipment entry among them, or the one before. */
  function TierAfter(entries: seq<DropItemData>, k: nat, draws: nat -> ItemTier, before: Option<ItemTier>): Option<ItemTier>
    requires k <= |entries|
  {
    if k == 0 then before
    else if entries[k - 1].item.itemType == Equip then Some(draws(k - 1))
    else TierAfter(entries, k - 1, draws, before)
  }

  /** Creating and dropping k entries asks exactly k navigation queries. */
  lemma {:induction false} ItemDropsQueries(entries: seq<DropItemData>, k: nat, level: int, roll: RollRef,
                                            draws: nat -> ItemTier, nav: nat -> bool)
    requires k <= |entries|
    ensures Count(ItemDrops(entries, k, level, roll, draws, nav), IsNavQuery) == k
  {
    if k > 0 {
      var item := NewItem(entries[k - 1].item, level, roll, draws(k - 1));
      ItemDropsQueries(entries, k - 1, level, roll, draws, nav);
      CountConcat(ItemDrops(entries, k - 1, level, roll, draws, nav), Attempt(nav(k - 1), DroppedItem(item)), IsNavQuery);
      AttemptCounts(nav(k - 1), DroppedItem(item));
    }
  }

  /** Creating and dropping k entries drops one item per successful query and
      no gold. */
  lemma {:induction false} ItemDropsDropped(entries: seq<DropItemData>, k: nat, level: int, roll: RollRef,
                                            draws: nat -> ItemTier, nav: nat -> bool)
    requires k <= |entries|
    ensures Count(ItemDrops(entries, k, level, roll, draws, nav), IsDroppedItem) == Successes(k, nav)
    ensures Count(ItemDrops(entries, k, level, roll, draws, nav), IsDroppedGold) == 0
  {
    if k > 0 {
      var prev := ItemDrops(entries, k - 1, level, roll, draws, nav);
      var item := NewItem(entries[k - 1].item, level, roll, draws(k - 1));
      var a := Attempt(nav(k - 1), DroppedItem(item));
      ItemDropsDropped(entries, k - 1, level, roll, draws, nav);
      CountConcat(prev, a, IsDroppedItem);
      CountConcat(prev, a, IsDroppedGold);
      AttemptCounts(nav(k - 1), DroppedItem(item));
    }
  }

  /** Every item that creating and dropping k entries drops is the one the
      dispatch table creates for one of those k entries, at the given level
      and tier-roll pointer. */
  lemma {:induction false} ItemDropsContents(entries: seq<DropItemData>, k: nat, level: int, roll: RollRef,
                                             draws: nat -> ItemTier, nav: nat -> bool)
    requires k <= |entries|
    ensures forall d :: d in ItemDrops(entries, k, level, roll, draws, nav) ==>
              d.NavQuery? ||
              (d.DroppedItem? && exists j :: 0 <= j < k && d.item == NewItem(entries[j].item, level, roll, draws(j)))
  {
    if k > 0 {
      var prev := ItemDrops(entries, k - 1, level, roll, draws, nav);
      var a := Attempt(nav(k - 1), DroppedItem(NewItem(entries[k - 1].item, level, roll, draws(k - 1))));
      ItemDropsContents(entries, k - 1, level, roll, draws, nav);
      forall d: Drop | d in prev + a
        ensures d.NavQuery? ||
                (d.DroppedItem? && exists j :: 0 <= j < k && d.item == NewItem(entries[j].item, level, roll, draws(j)))
      {
        if d in a && d.DroppedItem? {
          assert d.item == NewItem(entries[k - 1].item, level, roll, draws(k - 1));
        }
      }
    }
  }

  /** Creating and dropping k entries asks exactly k navigation queries, drops
      one item per successful query and no gold, and every item it drops is
      the one the dispatch table creates for one of those k entries, at the
      given level and tier-roll pointer. */
  lemma ItemDropsFacts(entries: seq<DropItemData>, k: nat, level: int, roll: RollRef,
                       draws: nat -> ItemTier, nav: nat -> bool)
    requires k <= |entries|
    ensures Count(ItemDrops(entries, k, level, roll, draws, nav), IsNavQuery) == k
    ensures Count(ItemDrops(entries, k, level, roll, draws, nav), IsDroppedItem) == Successes(k, nav)
    ensures Count(ItemDrops(entries, k, level, roll, draws, nav), IsDroppedGold) == 0
    ensures forall d :: d in ItemDrops(entries, k, level, roll, draws, nav) ==>
              d.NavQuery? ||
              (d.DroppedItem? && exists j :: 0 <= j < k && d.item == NewItem(entries[j].item, level, roll, draws(j)))
  {
    ItemDropsQueries(entries, k, level, roll, draws, nav);
    ItemDropsDropped(entries, k, level, roll, draws, nav);
    ItemDropsContents(entries, k, level, roll, draws, nav);
  }

  /** The log and the tier of the first k entries depend on those entries only. */
  lemma {:induction false} ItemDropsPrefix(entries: seq<DropItemData>, other: seq<DropItemData>, k: nat, level: int,
                                           roll: RollRef, draws: nat -> ItemTier, nav: nat -> bool, before: Option<ItemTier>)
    requires k <= |entries| && k <= |other| && entries[..k] == other[..k]
    ensures ItemDrops(entries, k, level, roll, draws, nav) == ItemDrops(other, k, level, roll, draws, nav)
    ensures TierAfter(entries, k, draws, before) == TierAfter(other, k, draws, before)
  {
    if k > 0 {
      assert entries[k - 1] == entries[..k][k - 1] == other[..k][k - 1] == other[k - 1];
      assert entries[..k - 1] == entries[..k][..k - 1];
      assert other[..k - 1] == other[..k][..k - 1];
      ItemDropsPrefix(entries, other, k - 1, level, roll, draws, nav, before);
    }
  }

  /** No entry after the first failed roll matters: two drop lists that agree
      up to and including that entry stop at the same place and produce the
      same drops and the same current tier. */
  lemma EntriesAfterFailureIgnored(entries: seq<DropItemData>, other: seq<DropItemData>, rolls: nat -> real,
                                   level: int, roll: RollRef, draws: nat -> ItemTier, nav: nat -> bool,
                                   before: Option<ItemTier>)
    requires FirstFailure(entries, rolls) < |entries| && FirstFailure(entries, rolls) < |other|
    requires entries[..FirstFailure(entries, rolls) + 1] == other[..FirstFailure(entries, rolls) + 1]
    ensures FirstFailure(other, rolls) == FirstFailure(entries, rolls)
    ensures ItemDrops(entries, FirstFailure(entries, rolls), level, roll, draws, nav) ==
            ItemDrops(other, FirstFailure(other, rolls), level, roll, draws, nav)
    ensures TierAfter(entries, FirstFailure(entries, rolls), draws, before) ==
            TierAfter(other, FirstFailure(other, rolls), draws, before)
  {
    var k := FirstFailure(entries, rolls);
    forall j | 0 <= j <= k
      ensures entries[j] == other[j]
    {
      assert entries[j] == entries[..k + 1][j];
      assert other[j] == other[..k + 1][j];
    }
    assert FirstFailure(other, rolls) == k;
    assert entries[..k] == other[..k];
    ItemDropsPrefix(entries, other, k, level, roll, draws, nav, before);
  }

  /** Cutting the drop list just after the first failed entry changes neither
      the drops nor the current tier. */
  lemma TruncatedAfterFailure(entries: seq<DropItemData>, rolls: nat -> real, level: int, roll: RollRef,
                              draws: nat -> ItemTier, nav: nat -> bool, before: Option<ItemTier>)
    requires FirstFailure(entries, rolls) < |entries|
    ensures ItemDrops(entries, FirstFailure(entries, rolls), level, roll, draws, nav) ==
            ItemDrops(entries[..FirstFailure(entries, rolls) + 1], FirstFailure(entries[..FirstFailure(entries, rolls) + 1], rolls),
                      level, roll, draws, nav)
    ensures TierAfter(entries, FirstFailure(entries, rolls), draws, before) ==
            TierAfter(entries[..FirstFailure(entries, rolls) + 1], FirstFailure(entries[..FirstFailure(entries, rolls) + 1], rolls),
                      draws, before)
  {
    var cut := entries[..FirstFailure(entries, rolls) + 1];
    assert cut[..FirstFailure(entries, rolls) + 1] == cut;
    EntriesAfterFailureIgnored(entries, cut, rolls, level, roll, draws, nav, before);
  }

  // ----------------------------------------------------------- whole drop

  /** The whole log of dropping a monster's loot: its gold attempts, then its
      items up to the first failed roll, created at the monster's level with
      the monster's tier-roll ratio. */
  function SpawnDrops(monster: Monster, goldRoll: nat, navGold: nat -> bool, rolls: nat -> real,
                      draws: nat -> ItemTier, navItem: nat -> bool): seq<Drop>
  {
    GoldDrops(goldRoll, Int32(monster.level * monster.data.dropGoldAmount), navGold)
    + ItemDrops(monster.data.dropItemDatas, FirstFailure(monster.data.dropItemDatas, rolls),
                monster.level, MonsterRoll(monster.data.itemTierRoll), draws, navItem)
  }

  /** Every equipment item a monster drops is rolled from that monster's
      ratio and given that monster's level, whatever the manager's level and
      pointer were before; every gold actor carries the scaled amount; and the
      number of navigation queries is the gold roll plus the number of entries
      that passed their roll. */
  lemma SpawnDropsFacts(monster: Monster, goldRoll: nat, navGold: nat -> bool, rolls: nat -> real,
                        draws: nat -> ItemTier, navItem: nat -> bool)
    ensures Count(SpawnDrops(monster, goldRoll, navGold, rolls, draws, navItem), IsNavQuery) ==
            goldRoll + FirstFailure(monster.data.dropItemDatas, rolls)
    ensures forall d :: d in SpawnDrops(monster, goldRoll, navGold, rolls, draws, navItem) ==>
              (d.DroppedGold? ==> d.amount == Int32(monster.level * monster.data.dropGoldAmount)) &&
              (d.DroppedItem? && d.item.EquipItem? ==>
                 d.item.statLevel == monster.level && d.item.rolledFrom == MonsterRoll(monster.data.itemTierRoll))
  {
    var entries := monster.data.dropItemDatas;
    var amount := Int32(monster.level * monster.data.dropGoldAmount);
    var k := FirstFailure(entries, rolls);
    var roll := MonsterRoll(monster.data.itemTierRoll);
    var gold := GoldDrops(goldRoll, amount, navGold);
    var items := ItemDrops(entries, k, monster.level, roll, draws, navItem);
    GoldDropsQueries(goldRoll, amount, navGold);
    GoldDropsContents(goldRoll, amount, navGold);
    ItemDropsQueries(entries, k, monster.level, roll, draws, navItem);
    ItemDropsContents(entries, k, monster.level, roll, draws, navItem);
    CountConcat(gold, items, IsNavQuery);
    forall d: Drop | d in gold + items
      ensures (d.DroppedGold? ==> d.amount == amount) &&
              (d.DroppedItem? && d.item.EquipItem? ==> d.item.statLevel == monster.level && d.item.rolledFrom == roll)
    {
      if d in items && d.DroppedItem? {
        var j :| 0 <= j < k && d.item == NewItem(entries[j].item, monster.level, roll, draws(j));
      }
    }
  }

  /** A monster's loot holds one gold actor per successful gold query and one
      item per successful query among the entries that passed their roll. */
  lemma SpawnDropsCounts(monster: Monster, goldRoll: nat, navGold: nat -> bool, rolls: nat -> real,
                         draws: nat -> ItemTier, navItem: nat -> bool)
    ensures Count(SpawnDrops(monster, goldRoll, navGold, rolls, draws, navItem), IsDroppedGold) ==
            Successes(goldRoll, navGold)
    ensures Count(SpawnDrops(monster, goldRoll, navGold, rolls, draws, navItem), IsDroppedItem) ==
            Successes(FirstFailure(monster.data.dropItemDatas, rolls), navItem)
  {
    var entries := monster.data.dropItemDatas;
    var amount := Int32(monster.level * monster.data.dropGoldAmount);
    var k := FirstFailure(entries, rolls);
    var roll := MonsterRoll(monster.data.itemTierRoll);
    var gold := GoldDrops(goldRoll, amount, navGold);
    var items := ItemDrops(entries, k, monster.level, roll, draws, navItem);
    GoldDropsDropped(goldRoll, amount, navGold);
    ItemDropsDropped(entries, k, monster.level, roll, draws, navItem);
    CountConcat(gold, items, IsDroppedGold);
    CountConcat(gold, items, IsDroppedItem);
  }

  // ------------------------------------------------------------- the class

  /** UItemManager: the current item level, tier-roll pointer and tier, and
      the log of what its drops have asked of and spawned in the world. */
  class ItemManager {
    var level: int
    var tierRoll: RollRef
    var tier: Option<ItemTier>
    var drops: seq<Drop>

    /** Before Init, the pointers are null and the level is zero. */
    constructor ()
      ensures level == 0 && tierRoll == NoRoll && tier == None && drops == []
    {
      level := 0;
      tierRoll := NoRoll;
      tier := None;
      drops := [];
    }

    method Init()
      modifies this
      ensures tierRoll == DefaultRoll && tier == Some(NormalTier) && level == 1
      ensures drops == old(drops)
    {
      SetItemTierRollPtr(DefaultRoll);
      SetCurrentItemTier(NormalTier);
      level := 1;
    }

    method SetCurrentItemLevel(n: int)
      modifies this
      ensures level == n
      ensures tierRoll == old(tierRoll) && tier == old(tier) && drops == old(drops)
    {
      level := n;
    }

    method SetItemTierRollPtr(roll: RollRef)
      modifies this
      ensures tierRoll == roll
      ensures level == old(level) && tier == old(tier) && drops == old(drops)
    {
      tierRoll := roll;
    }

    method SetItemTierRollNull()
      modifies this
      ensures tierRoll == DefaultRoll
      ensures level == old(level) && tier == old(tier) && drops == old(drops)
    {
      SetItemTierRollPtr(DefaultRoll);
    }

    method SetCurrentItemTier(t: ItemTier)
      modifies this
      ensures tier == Some(t)
      ensures level == old(level) && tierRoll == old(tierRoll) && drops == old(drops)
    {
      tier := Some(t);
    }

    method GetCurrentItemLevel() returns (n: int)
      ensures n == level
    {
      return level;
    }

    method GetCurrentItemTier() returns (t: ItemTier)
      requires tier.Some?
      ensures tier == Some(t)
    {
      return tier.value;
    }

    /** Point at `roll` and make the tier it produces (`drawn`) current. */
    method RollItemTier(roll: RollRef, drawn: ItemTier) returns (t: ItemTier)
      requires roll != NoRoll
      modifies this
      ensures tierRoll == roll && tier == Some(drawn) && t == drawn
      ensures level == old(level) && drops == old(drops)
    {
      SetItemTierRollPtr(roll);
      SetCurrentItemTier(drawn);
      t := GetCurrentItemTier();
    }

    method CreateNormalItem(data: BaseItemData) returns (item: StoredItem)
      ensures item == NormalItem(data)
    {
      item := NormalItem(data);
    }

    /** An equipment item takes its tier from the current ratio, which stays
      current, and its stats from the current level. */
    method CreateEquipItem(data: BaseItemData, drawn: ItemTier) returns (item: StoredItem)
      requires tierRoll != NoRoll
      modifies this
      ensures item == EquipItem(data, drawn, old(tierRoll), old(level))
      ensures tierRoll == old(tierRoll) && tier == Some(drawn)
      ensures level == old(level) && drops == old(drops)
    {
      var t := RollItemTier(tierRoll, drawn);
      var statLevel := GetCurrentItemLevel();
      item := EquipItem(data, t, tierRoll, statLevel);
    }

    method CreateMaterialItem(data: BaseItemData) returns (item: StoredItem)
      ensures item == MaterialItem(data)
    {
      item := MaterialItem(data);
    }

    /** Call the member the dispatch table holds for the item's type. */
    method PerformCreateItemFuncPtr(data: BaseItemData, drawn: ItemTier) returns (item: StoredItem)
      requires data.itemType == Equip ==> tierRoll != NoRoll
      modifies this
      ensures item == NewItem(data, old(level), old(tierRoll), drawn)
      ensures tier == if data.itemType == Equip then Some(drawn) else old(tier)
      ensures level == old(level) && tierRoll == old(tierRoll) && drops == old(drops)
    {
      match ItemSelect[data.itemType]
      case CreateNormalItem => item := CreateNormalItem(data);
      case CreateEquipItem => item := CreateEquipItem(data, drawn);
      case CreateMaterialItem => item := CreateMaterialItem(data);
    }

    method CreateItemInstance(data: BaseItemData, drawn: ItemTier) returns (item: StoredItem)
      requires data.itemType == Equip ==> tierRoll != NoRoll
      modifies this
      ensures item == NewItem(data, old(level), old(tierRoll), drawn)
      ensures tier == if data.itemType == Equip then Some(drawn) else old(tier)
      ensures level == old(level) && tierRoll == old(tierRoll) && drops == old(drops)
    {
      item := PerformCreateItemFuncPtr(data, drawn);
    }

    /** Spawn the item's actor only when the navigation query found a point. */
    method CreateAndDropItemInRandomGround(item: StoredItem, navFound: bool) returns (dropped: bool)
      modifies this
      ensures dropped == navFound
      ensures drops == old(drops) + Attempt(navFound, DroppedItem(item))
      ensures level == old(level) && tierRoll == old(tierRoll) && tier == old(tier)
    {
      if navFound {
        drops := drops + [NavQuery(true), DroppedItem(item)];
        return true;
      }
      drops := drops + [NavQuery(false)];
      return false;
    }

    /** Spawn a gold actor only when the navigation query found a point. */
    method CreateAndDropGoldInRandomGround(amount: int, navFound: bool) returns (dropped: bool)
      modifies this
      ensures dropped == navFound
      ensures drops == old(drops) + Attempt(navFound, DroppedGold(amount))
      ensures level == old(level) && tierRoll == old(tierRoll) && tier == old(tier)
    {
      if navFound {
        drops := drops + [NavQuery(true), DroppedGold(amount)];
        return true;
      }
      drops := drops + [NavQuery(false)];
      return false;
    }

    /** `goldRoll` is the random count drawn in [0, the monster's tier]. */
    method DropGoldFromMonster(monster: Monster, goldRoll: int, nav: nat -> bool)
      requires 0 <= goldRoll <= monster.tier
      modifies this
      ensures drops == old(drops) + GoldDrops(goldRoll, Int32(monster.level * monster.data.dropGoldAmount), nav)
      ensures level == old(level) && tierRoll == old(tierRoll) && tier == old(tier)
    {
      var scaledGoldAmount := Int32(monster.level * monster.data.dropGoldAmount);
      for i := 0 to goldRoll
        invariant drops == old(drops) + GoldDrops(i, scaledGoldAmount, nav)
        invariant level == old(level) && tierRoll == old(tierRoll) && tier == old(tier)
      {
        var _ := CreateAndDropGoldInRandomGround(scaledGoldAmount, nav(i));
      }
    }

    /** Entries are processed in order; the first failed roll ends the loop. */
    method DropItemFromMonster(monster: Monster, rolls: nat -> real, draws: nat -> ItemTier, nav: nat -> bool)
      requires tierRoll == NoRoll ==> NoEquipBefore(monster.data.dropItemDatas, FirstFailure(monster.data.dropItemDatas, rolls))
      modifies this
      ensures drops == old(drops) + ItemDrops(monster.data.dropItemDatas, FirstFailure(monster.data.dropItemDatas, rolls),
                                              old(level), old(tierRoll), draws, nav)
      ensures tier == TierAfter(monster.data.dropItemDatas, FirstFailure(monster.data.dropItemDatas, rolls), draws, old(tier))
      ensures level == old(level) && tierRoll == old(tierRoll)
    {
      var entries := monster.data.dropItemDatas;
      ghost var k := FirstFailure(entries, rolls);
      var i := 0;
      while i < |entries|
        invariant i <= k
        invariant drops == old(drops) + ItemDrops(entries, i, old(level), old(tierRoll), draws, nav)
        invariant tier == TierAfter(entries, i, draws, old(tier))
        invariant level == old(level) && tierRoll == old(tierRoll)
      {
        if !ItemDropRoll(entries[i], rolls(i)) {
          assert i == k;
          return;
        }
        assert i < k;
        var item := CreateItemInstance(entries[i].item, draws(i));
        var _ := CreateAndDropItemInRandomGround(item, nav(i));
        i := i + 1;
      }
    }

    /** Drop a killed monster's loot at its level and with its ratio, then
      put the level and the pointer back to their defaults. */
    method SpawnDropItemFromMonster(monster: Monster, goldRoll: int, navGold: nat -> bool, rolls: nat -> real,
                                    draws: nat -> ItemTier, navItem: nat -> bool)
      requires 0 <= goldRoll <= monster.tier
      modifies this
      ensures level == 1 && tierRoll == DefaultRoll
      ensures drops == old(drops) + SpawnDrops(monster, goldRoll, navGold, rolls, draws, navItem)
      ensures tier == TierAfter(monster.data.dropItemDatas, FirstFailure(monster.data.dropItemDatas, rolls), draws, old(tier))
    {
      SetItemTierRollPtr(MonsterRoll(monster.data.itemTierRoll));
      SetCurrentItemLevel(monster.level);

      DropGoldFromMonster(monster, goldRoll, navGold);
      DropItemFromMonster(monster, rolls, draws, navItem);

      SetCurrentItemLevel(1);
      SetItemTierRollNull();
    }
  }
}
