/**
 * The inventory screen: what a click on an item row does (download, AID
 * consumption, or equipping and unequipping a weapon or an apparel item), the
 * equip-state updaters passed to `setEquippedItems`, the equipped marker of a
 * row, and the list of rows shown (items in stock, each with its index in the
 * unfiltered tab).
 */
module InvContent {
  import opened Wrappers
  import opened JsString
  import opened Types

  const WeaponPrefix := "WEAPONS-"
  const ApparelPrefix := "APPAREL-"

  // ---------------------------------------------------------------- equip keys

  /** `isEquipped(index)`: the row's key is truthy. */
  predicate IsEquipped(equipped: EquipState, tab: Category, index: nat) {
    IsOn(equipped, ItemKey(tab, index))
  }

  /** `key.split('-')` of an item key is its tab name and its index. */
  lemma ItemKeySplit(c: Category, index: nat)
    ensures Split(ItemKey(c, index), "-") == [CategoryName(c), NatToString(index)]
  {
    var name, digits := CategoryName(c), NatToString(index);
    assert '-' !in name;
    assert '-' !in digits;
    SplitAround(name, "-", digits);
  }

  /** The key of tab `c` starts with the tab's name and a dash. */
  lemma ItemKeyPrefix(c: Category, index: nat)
    ensures StartsWith(ItemKey(c, index), CategoryName(c) + "-")
  {
    var p := CategoryName(c) + "-";
    assert ItemKey(c, index) == p + NatToString(index);
    assert (p + NatToString(index))[..|p|] == p;
  }

  /** Different rows of a tab have different keys. */
  lemma ItemKeyInjective(c: Category, i: nat, j: nat)
    requires ItemKey(c, i) == ItemKey(c, j)
    ensures i == j
  {
    ItemKeySplit(c, i);
    ItemKeySplit(c, j);
    ParseIntOfNatToString(i);
    ParseIntOfNatToString(j);
  }

  // ---------------------------------------------------------------- the weapon updater

  /**
   * The weapon updater for the row with key `itemKey`: when it was off, every
   * other `WEAPONS-` key of `prev` is set to false; then the key is toggled,
   * an absent key counting as false.
   */
  function WeaponClick(prev: EquipState, itemKey: string): EquipState {
    var on := IsOn(prev, itemKey);
    map k | k in prev.Keys + {itemKey} ::
      if k == itemKey then !on
      else if !on && StartsWith(k, WeaponPrefix) then false
      else prev[k]
  }

  /** `setEquippedItems(prev => …)` for a weapon: a copy of `prev` changed key by key over `Object.keys(prev)`. */
  method UpdateWeapons(prev: EquipState, itemKey: string) returns (newEquipped: EquipState)
    ensures newEquipped == WeaponClick(prev, itemKey)
  {
    newEquipped := prev;
    if !IsOn(prev, itemKey) {
      var keys := prev.Keys;
      while keys != {}
        invariant keys <= prev.Keys && newEquipped.Keys == prev.Keys
        invariant forall k :: k in prev ==>
          newEquipped[k] == if k !in keys && StartsWith(k, WeaponPrefix) && k != itemKey then false else prev[k]
        decreases keys
      {
        var key :| key in keys;
        if StartsWith(key, WeaponPrefix) && key != itemKey {
          newEquipped := newEquipped[key := false];
        }
        keys := keys - {key};
      }
    }
    newEquipped := newEquipped[itemKey := !IsOn(prev, itemKey)];
  }

  /** The clicked key ends as the negation of what it was. */
  lemma WeaponClickToggles(prev: EquipState, index: nat)
    ensures IsEquipped(WeaponClick(prev, ItemKey(Weapons, index)), Weapons, index) == !IsEquipped(prev, Weapons, index)
  {
  }

  /** Equipping a weapon makes it the only weapon key that is on. */
  lemma WeaponEquipExclusive(prev: EquipState, itemKey: string)
    requires !IsOn(prev, itemKey)
    ensures var r := WeaponClick(prev, itemKey);
      IsOn(r, itemKey) && forall k :: StartsWith(k, WeaponPrefix) && k != itemKey ==> !IsOn(r, k)
  {
  }

  /** Clicking an equipped weapon turns off its own key and nothing else. */
  lemma WeaponUnequip(prev: EquipState, itemKey: string)
    requires IsOn(prev, itemKey)
    ensures WeaponClick(prev, itemKey) == prev[itemKey := false]
  {
  }

  /** `next` agrees with `prev` on every key that does not start with `prefix`. */
  ghost predicate SameOutside(prev: EquipState, next: EquipState, prefix: string) {
    forall k :: !StartsWith(k, prefix) ==> (k in next <==> k in prev) && (k in prev ==> next[k] == prev[k])
  }

  /** A weapon click changes no key outside `WEAPONS-`, so no apparel key. */
  lemma WeaponClickIsolated(prev: EquipState, index: nat)
    ensures SameOutside(prev, WeaponClick(prev, ItemKey(Weapons, index)), WeaponPrefix)
  {
    ItemKeyPrefix(Weapons, index);
  }

  // ---------------------------------------------------------------- the apparel updater

  /** `bodyPart` is truthy: present and not empty. */
  predicate HasBodyPart(item: InventoryItem) {
    item.bodyPart.Some? && item.bodyPart.value != ""
  }

  /** `parseInt(key.split('-')[1])`, `None` for `NaN`. */
  function KeyIndex(key: string): Option<int> {
    var pieces := Split(key, "-");
    if |pieces| < 2 then None else ParseInt(pieces[1])
  }

  /** `inventory.APPAREL[parseInt(key.split('-')[1])]`, `None` where that is undefined. */
  function ApparelAt(apparel: seq<InventoryItem>, key: string): Option<InventoryItem> {
    var i := KeyIndex(key);
    if i.Some? && 0 <= i.value < |apparel| then Some(apparel[i.value]) else None
  }

  /** The key of apparel row `index` names that row. */
  lemma ApparelAtKey(apparel: seq<InventoryItem>, index: nat)
    requires index < |apparel|
    ensures ApparelAt(apparel, ItemKey(Apparel, index)) == Some(apparel[index])
  {
    ItemKeySplit(Apparel, index);
    ParseIntOfNatToString(index);
  }

  /** An other equipped apparel key whose item covers the same body part as `item`. */
  predicate Conflicts(prev: EquipState, apparel: seq<InventoryItem>, itemKey: string, item: InventoryItem, key: string) {
    StartsWith(key, ApparelPrefix) && key != itemKey && IsOn(prev, key) &&
    ApparelAt(apparel, key).Some? && ApparelAt(apparel, key).value.bodyPart == item.bodyPart
  }

  /**
   * The apparel updater for `item` at key `itemKey`: when it was off and has
   * a body part, the conflicting keys are set to false; then the key is toggled.
   */
  function ApparelClick(prev: EquipState, apparel: seq<InventoryItem>, itemKey: string, item: InventoryItem): EquipState {
    var on := IsOn(prev, itemKey);
    map k | k in prev.Keys + {itemKey} ::
      if k == itemKey then !on
      else if !on && HasBodyPart(item) && Conflicts(prev, apparel, itemKey, item, k) then false
      else prev[k]
  }

  /** `setEquippedItems(prev => …)` for apparel: a copy of `prev` changed key by key over `Object.keys(prev)`. */
  method UpdateApparel(prev: EquipState, apparel: seq<InventoryItem>, itemKey: string, item: InventoryItem)
    returns (newEquipped: EquipState)
    ensures newEquipped == ApparelClick(prev, apparel, itemKey, item)
  {
    newEquipped := prev;
    if !IsOn(prev, itemKey) && item.bodyPart.Some? && item.bodyPart.value != "" {
      var keys := prev.Keys;
      while keys != {}
        invariant keys <= prev.Keys && newEquipped.Keys == prev.Keys
        invariant forall k :: k in prev ==>
          newEquipped[k] == if k !in keys && Conflicts(prev, apparel, itemKey, item, k) then false else prev[k]
        decreases keys
      {
        var key :| key in keys;
        if StartsWith(key, ApparelPrefix) && key != itemKey && prev[key] {
          var apparelIndex := KeyIndex(key);
          if apparelIndex.Some? && 0 <= apparelIndex.value < |apparel| {
            var apparelItem := apparel[apparelIndex.value];
            if apparelItem.bodyPart == item.bodyPart {
              newEquipped := newEquipped[key := false];
            }
          }
        }
        keys := keys - {key};
      }
    }
    newEquipped := newEquipped[itemKey := !IsOn(prev, itemKey)];
  }

  /** The clicked key ends as the negation of what it was. */
  lemma ApparelClickToggles(prev: EquipState, apparel: seq<InventoryItem>, index: nat, item: InventoryItem)
    ensures IsEquipped(ApparelClick(prev, apparel, ItemKey(Apparel, index), item), Apparel, index) ==
      !IsEquipped(prev, Apparel, index)
  {
  }

  /** An apparel click changes no key outside `APPAREL-`, so no weapon key. */
  lemma ApparelClickIsolated(prev: EquipState, apparel: seq<InventoryItem>, index: nat, item: InventoryItem)
    ensures SameOutside(prev, ApparelClick(prev, apparel, ItemKey(Apparel, index), item), ApparelPrefix)
  {
    ItemKeyPrefix(Apparel, index);
  }

  /**
   * Putting on an item with a body part: no other equipped apparel key then
   * covers that body part, every other key that was on and does not conflict
   * is still on, and no other key is turned on.
   */
  lemma ApparelEquipClears(prev: EquipState, apparel: seq<InventoryItem>, itemKey: string, item: InventoryItem)
    requires !IsOn(prev, itemKey) && HasBodyPart(item)
    ensures var r := ApparelClick(prev, apparel, itemKey, item);
      && IsOn(r, itemKey)
      && (forall k :: k != itemKey && IsOn(r, k) && StartsWith(k, ApparelPrefix) && ApparelAt(apparel, k).Some? ==>
            ApparelAt(apparel, k).value.bodyPart != item.bodyPart)
      && (forall k :: k != itemKey && IsOn(prev, k) && !Conflicts(prev, apparel, itemKey, item, k) ==> IsOn(r, k))
      && (forall k :: k != itemKey && IsOn(r, k) ==> IsOn(prev, k))
  {
  }

  /** Putting on an item without a body part, or taking one off, changes only its own key. */
  lemma ApparelNoConflict(prev: EquipState, apparel: seq<InventoryItem>, itemKey: string, item: InventoryItem)
    requires IsOn(prev, itemKey) || !HasBodyPart(item)
    ensures ApparelClick(prev, apparel, itemKey, item) == prev[itemKey := !IsOn(prev, itemKey)]
  {
  }

  // ---------------------------------------------------------------- the equip invariant

  /** At most one weapon key is on. */
  ghost predicate OneWeapon(e: EquipState) {
    forall k1, k2 :: IsOn(e, k1) && IsOn(e, k2) && StartsWith(k1, WeaponPrefix) && StartsWith(k2, WeaponPrefix) ==> k1 == k2
  }

  /** No two apparel keys that are on name items covering the same body part. */
  ghost predicate OnePerBodyPart(e: EquipState, apparel: seq<InventoryItem>) {
    forall k1, k2 ::
      IsOn(e, k1) && IsOn(e, k2) && k1 != k2 && StartsWith(k1, ApparelPrefix) && StartsWith(k2, ApparelPrefix) &&
      ApparelAt(apparel, k1).Some? && ApparelAt(apparel, k2).Some? && HasBodyPart(ApparelAt(apparel, k1).value) ==>
        ApparelAt(apparel, k1).value.bodyPart != ApparelAt(apparel, k2).value.bodyPart
  }

  ghost predicate WellEquipped(e: EquipState, apparel: seq<InventoryItem>) {
    OneWeapon(e) && OnePerBodyPart(e, apparel)
  }

  /** A weapon click keeps the equip state well formed. */
  lemma WeaponClickPreserves(prev: EquipState, apparel: seq<InventoryItem>, index: nat)
    requires WellEquipped(prev, apparel)
    ensures WellEquipped(WeaponClick(prev, ItemKey(Weapons, index)), apparel)
  {
    var itemKey := ItemKey(Weapons, index);
    var r := WeaponClick(prev, itemKey);
    WeaponClickIsolated(prev, index);
    if IsOn(prev, itemKey) {
      WeaponUnequip(prev, itemKey);
    } else {
      WeaponEquipExclusive(prev, itemKey);
    }
    assert forall k :: StartsWith(k, ApparelPrefix) ==> !StartsWith(k, WeaponPrefix) by {
      forall k | StartsWith(k, ApparelPrefix) ensures !StartsWith(k, WeaponPrefix) {
        assert k[..8][0] == 'A';
      }
    }
  }

  /** An apparel click on row `index` keeps the equip state well formed. */
  lemma ApparelClickPreserves(prev: EquipState, apparel: seq<InventoryItem>, index: nat)
    requires index < |apparel|
    requires WellEquipped(prev, apparel)
    ensures WellEquipped(ApparelClick(prev, apparel, ItemKey(Apparel, index), apparel[index]), apparel)
  {
    var itemKey := ItemKey(Apparel, index);
    var item := apparel[index];
    var r := ApparelClick(prev, apparel, itemKey, item);
    ApparelClickIsolated(prev, apparel, index, item);
    ApparelAtKey(apparel, index);
    assert forall k :: StartsWith(k, WeaponPrefix) ==> !StartsWith(k, ApparelPrefix) by {
      forall k | StartsWith(k, WeaponPrefix) ensures !StartsWith(k, ApparelPrefix) {
        assert k[..8][0] == 'W';
      }
    }
    if IsOn(prev, itemKey) || !HasBodyPart(item) {
      ApparelNoConflict(prev, apparel, itemKey, item);
      ItemKeyPrefix(Apparel, index);
      assert OnePerBodyPart(r, apparel);
    } else {
      ApparelEquipClears(prev, apparel, itemKey, item);
    }
  }

  // ---------------------------------------------------------------- handleItemClick

  datatype Sound = SelectSound | EquipSound | UnequipSound

  /**
   * What a click does: the sound played, whether the CV download starts, the
   * `(name, index)` forwarded to the AID handler, and the equip state after
   * the updater runs.
   */
  datatype ClickResult = ClickResult(sound: Sound, download: bool, consumed: Option<(string, nat)>, equipped: EquipState)

  /**
   * `handleItemClick(item, index)` on tab `tab`. `hasAidHandler` says whether
   * `onAidConsumption` was passed; `apparel` is `inventory.APPAREL`.
   */
  function HandleItemClick(tab: Category, item: InventoryItem, index: nat, equipped: EquipState,
                           apparel: seq<InventoryItem>, hasAidHandler: bool): ClickResult
  {
    if item.action == Some("downloadCV") then ClickResult(SelectSound, true, None, equipped)
    else if tab == Aid && hasAidHandler && item.qty > 0 then ClickResult(SelectSound, false, Some((item.name, index)), equipped)
    else if tab == Weapons || tab == Apparel then
      var itemKey := ItemKey(tab, index);
      var sound := if IsOn(equipped, itemKey) then UnequipSound else EquipSound;
      if tab == Weapons then ClickResult(sound, false, None, WeaponClick(equipped, itemKey))
      else ClickResult(sound, false, None, ApparelClick(equipped, apparel, itemKey, item))
    else ClickResult(SelectSound, false, None, equipped)
  }

  /** On the AID tab an item in stock is forwarded, with its index, and the equip state stays. */
  lemma AidClickForwards(item: InventoryItem, index: nat, equipped: EquipState, apparel: seq<InventoryItem>)
    requires item.action != Some("downloadCV") && item.qty > 0
    ensures var r := HandleItemClick(Aid, item, index, equipped, apparel, true);
      r.consumed == Some((item.name, index)) && r.equipped == equipped && r.sound == SelectSound && !r.download
  {
  }

  /** Only a weapon or apparel click changes the equip state, and only those tabs can consume nothing and still toggle. */
  lemma OtherTabsKeepEquipped(tab: Category, item: InventoryItem, index: nat, equipped: EquipState,
                              apparel: seq<InventoryItem>, hasAidHandler: bool)
    requires tab != Weapons && tab != Apparel
    ensures var r := HandleItemClick(tab, item, index, equipped, apparel, hasAidHandler);
      r.equipped == equipped && r.sound == SelectSound && (r.consumed.Some? ==> tab == Aid && item.qty > 0)
  {
  }

  /** A weapon or apparel click toggles its own row, with the sound telling which way, and keeps the state well formed. */
  lemma EquipClick(tab: Category, item: InventoryItem, index: nat, equipped: EquipState,
                   apparel: seq<InventoryItem>, hasAidHandler: bool)
    requires tab == Weapons || (tab == Apparel && index < |apparel| && item == apparel[index])
    requires item.action != Some("downloadCV")
    requires WellEquipped(equipped, apparel)
    ensures var r := HandleItemClick(tab, item, index, equipped, apparel, hasAidHandler);
      && IsEquipped(r.equipped, tab, index) == !IsEquipped(equipped, tab, index)
      && (r.sound == EquipSound <==> !IsEquipped(equipped, tab, index))
      && r.consumed == None && !r.download
      && WellEquipped(r.equipped, apparel)
  {
    if tab == Weapons {
      WeaponClickToggles(equipped, index);
      WeaponClickPreserves(equipped, apparel, index);
    } else {
      ApparelClickToggles(equipped, apparel, index, item);
      ApparelClickPreserves(equipped, apparel, index);
    }
  }

  /** After equipping weapon `index`, no other weapon row shows the marker. */
  lemma OnlyWeaponMarked(prev: EquipState, index: nat, other: nat)
    requires !IsEquipped(prev, Weapons, index) && other != index
    ensures !IsEquipped(WeaponClick(prev, ItemKey(Weapons, index)), Weapons, other)
  {
    ItemKeyPrefix(Weapons, other);
    if ItemKey(Weapons, other) == ItemKey(Weapons, index) {
      ItemKeyInjective(Weapons, other, index);
    }
    WeaponEquipExclusive(prev, ItemKey(Weapons, index));
  }

  // ---------------------------------------------------------------- the rows shown

  /** `items.filter(item => item.qty > 0)`. */
  function InStock(items: seq<InventoryItem>): seq<InventoryItem> {
    if items == [] then []
    else InStock(items[..|items| - 1]) + if items[|items| - 1].qty > 0 then [items[|items| - 1]] else []
  }

  /**
   * The index each shown row carries: `findIndex` by object identity finds the
   * row's own position in the unfiltered tab.
   */
  function RowIndices(items: seq<InventoryItem>): seq<nat> {
    if items == [] then []
    else RowIndices(items[..|items| - 1]) + if items[|items| - 1].qty > 0 then [|items| - 1] else []
  }

  /** As many rows as items in stock, row `j` showing the item at its index, which is in stock. */
  lemma {:induction false} RowsShowTheirItems(items: seq<InventoryItem>)
    ensures var rows, idx := InStock(items), RowIndices(items);
      && |rows| == |idx|
      && forall j :: 0 <= j < |idx| ==> idx[j] < |items| && items[idx[j]] == rows[j] && items[idx[j]].qty > 0
  {
    if items != [] {
      var front := items[..|items| - 1];
      RowsShowTheirItems(front);
      assert forall i :: 0 <= i < |front| ==> front[i] == items[i];
    }
  }

  /** The row indices rise strictly, so the rows keep the tab's order, and each is below the tab's length. */
  lemma {:induction false} RowsInOrder(items: seq<InventoryItem>)
    ensures forall j :: 0 <= j < |RowIndices(items)| ==> RowIndices(items)[j] < |items|
    ensures forall j1, j2 :: 0 <= j1 < j2 < |RowIndices(items)| ==> RowIndices(items)[j1] < RowIndices(items)[j2]
  {
    if items != [] {
      var front := items[..|items| - 1];
      RowsInOrder(front);
      var idx, fi := RowIndices(items), RowIndices(front);
      if items[|items| - 1].qty > 0 {
        assert idx == fi + [|front|];
      } else {
        assert idx == fi + [];
      }
      assert forall j :: 0 <= j < |fi| ==> idx[j] == fi[j] < |front|;
    }
  }

  /** Every item in stock has a row. */
  lemma {:induction false} RowsComplete(items: seq<InventoryItem>, i: int)
    requires 0 <= i < |items| && items[i].qty > 0
    ensures i in RowIndices(items)
  {
    var front := items[..|items| - 1];
    if i < |front| {
      assert front[i] == items[i];
      RowsComplete(front, i);
    }
  }
}
