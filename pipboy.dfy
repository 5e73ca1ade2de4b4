/**
 * The state the Pip-Boy screen owns and the transitions that replace it: the
 * one-second tick that ages the temporary AID effects, the consumption of an
 * AID item, the quest tracking toggle, and the item and quest clicks that
 * lead to them. Each React state updater is one method on `PipBoy`.
 */
module PipBoyCV {
  import opened Wrappers
  import opened Types
  import InvContent
  import DataContent

  // ---------------------------------------------------------------- the tick

  /** `Math.max(0, effect.duration - 1)` applied to one effect. */
  function Decrement(e: TemporaryEffect): TemporaryEffect {
    e.(duration := if e.duration - 1 > 0 then e.duration - 1 else 0)
  }

  /** `prevEffects.map(effect => ({ ...effect, duration: Math.max(0, effect.duration - 1) }))`. */
  function Decremented(prev: seq<TemporaryEffect>): (r: seq<TemporaryEffect>)
    ensures |r| == |prev|
  {
    if prev == [] then [] else Decremented(prev[..|prev| - 1]) + [Decrement(prev[|prev| - 1])]
  }

  /** Each effect is decremented where it stands. */
  lemma {:induction false} DecrementedPointwise(prev: seq<TemporaryEffect>)
    ensures forall i :: 0 <= i < |prev| ==> Decremented(prev)[i] == Decrement(prev[i])
  {
    if prev != [] {
      var front := prev[..|prev| - 1];
      DecrementedPointwise(front);
      assert forall i :: 0 <= i < |front| ==> Decremented(prev)[i] == Decremented(front)[i] && front[i] == prev[i];
    }
  }

  lemma DecrementedFront(prev: seq<TemporaryEffect>)
    requires prev != []
    ensures Decremented(prev)[..|prev| - 1] == Decremented(prev[..|prev| - 1])
    ensures Decremented(prev)[|prev| - 1] == Decrement(prev[|prev| - 1])
  {
    var front := prev[..|prev| - 1];
    assert Decremented(prev) == Decremented(front) + [Decrement(prev[|prev| - 1])];
  }

  /** `prevEffects.filter((prevEffect, index) => prevEffect.duration === 1 && updatedEffects[index].duration === 0)`. */
  function JustExpired(prev: seq<TemporaryEffect>, updated: seq<TemporaryEffect>): seq<TemporaryEffect>
    requires |updated| == |prev|
  {
    if prev == [] then []
    else
      var n := |prev| - 1;
      JustExpired(prev[..n], updated[..n]) + if prev[n].duration == 1 && updated[n].duration == 0 then [prev[n]] else []
  }

  /** `updatedEffects.filter(effect => effect.duration > 0)`. */
  function StillActive(updated: seq<TemporaryEffect>): seq<TemporaryEffect> {
    if updated == [] then []
    else StillActive(updated[..|updated| - 1]) + if updated[|updated| - 1].duration > 0 then [updated[|updated| - 1]] else []
  }

  /** The effects the tick keeps. */
  function TickOf(prev: seq<TemporaryEffect>): seq<TemporaryEffect> {
    StillActive(Decremented(prev))
  }

  /** The effects the tick reports as just expired. */
  function ExpiredOf(prev: seq<TemporaryEffect>): seq<TemporaryEffect> {
    JustExpired(prev, Decremented(prev))
  }

  /** Reference definitions: the effects with more than one second left, aged by exactly one second … */
  function Longer(s: seq<TemporaryEffect>): seq<TemporaryEffect> {
    if s == [] then []
    else Longer(s[..|s| - 1]) + if s[|s| - 1].duration > 1 then [s[|s| - 1]] else []
  }

  function Aged(s: seq<TemporaryEffect>): (r: seq<TemporaryEffect>)
    ensures |r| == |s|
  {
    if s == [] then [] else Aged(s[..|s| - 1]) + [s[|s| - 1].(duration := s[|s| - 1].duration - 1)]
  }

  /** Aging lowers each duration by exactly one and keeps every other field. */
  lemma {:induction false} AgedPointwise(s: seq<TemporaryEffect>)
    ensures forall i :: 0 <= i < |s| ==> Aged(s)[i] == s[i].(duration := s[i].duration - 1)
  {
    if s != [] {
      var front := s[..|s| - 1];
      AgedPointwise(front);
      assert forall i :: 0 <= i < |front| ==> Aged(s)[i] == Aged(front)[i] && front[i] == s[i];
    }
  }

  /** … and the effects in their last second. */
  function LastSecond(s: seq<TemporaryEffect>): seq<TemporaryEffect> {
    if s == [] then []
    else LastSecond(s[..|s| - 1]) + if s[|s| - 1].duration == 1 then [s[|s| - 1]] else []
  }

  /**
   * The survivors of a tick are, in their old order, exactly the effects that
   * had more than one second left, each with its duration lowered by exactly
   * one and every other field kept.
   */
  lemma {:induction false} TickAges(prev: seq<TemporaryEffect>)
    ensures TickOf(prev) == Aged(Longer(prev))
  {
    if prev != [] {
      var front, e := prev[..|prev| - 1], prev[|prev| - 1];
      TickAges(front);
      DecrementedFront(prev);
      StillActiveSnoc(Decremented(front), Decrement(e));
      assert Decremented(prev) == Decremented(front) + [Decrement(e)];
      if e.duration > 1 {
        AgedSnoc(Longer(front), e);
      } else {
        assert Longer(prev) == Longer(front) + [] == Longer(front);
        assert Decrement(e).duration == 0;
        assert StillActive(Decremented(prev)) == StillActive(Decremented(front)) + [] == StillActive(Decremented(front));
      }
    }
  }

  lemma StillActiveSnoc(s: seq<TemporaryEffect>, e: TemporaryEffect)
    ensures StillActive(s + [e]) == StillActive(s) + if e.duration > 0 then [e] else []
  {
    assert (s + [e])[..|s|] == s;
  }

  lemma AgedSnoc(s: seq<TemporaryEffect>, e: TemporaryEffect)
    ensures Aged(s + [e]) == Aged(s) + [e.(duration := e.duration - 1)]
  {
    assert (s + [e])[..|s|] == s;
  }

  /** No effect with no time left survives a tick. */
  lemma NoZeroSurvives(prev: seq<TemporaryEffect>)
    ensures forall e :: e in TickOf(prev) ==> e.duration >= 1
  {
    TickAges(prev);
    LongerMembers(prev);
    var l := Longer(prev);
    AgedPointwise(l);
    forall e | e in TickOf(prev) ensures e.duration >= 1 {
      var i :| 0 <= i < |l| && Aged(l)[i] == e;
      assert l[i] in l;
    }
  }

  lemma {:induction false} LongerMembers(s: seq<TemporaryEffect>)
    ensures forall e :: e in Longer(s) <==> e in s && e.duration > 1
  {
    if s != [] {
      LongerMembers(s[..|s| - 1]);
      assert s == s[..|s| - 1] + [s[|s| - 1]];
    }
  }

  /** The effects reported as just expired are exactly those that had one second left. */
  lemma {:induction false} ExpiredExactly(prev: seq<TemporaryEffect>)
    ensures ExpiredOf(prev) == LastSecond(prev)
  {
    if prev != [] {
      var front := prev[..|prev| - 1];
      ExpiredExactly(front);
      DecrementedFront(prev);
    }
  }

  lemma {:induction false} LastSecondMembers(s: seq<TemporaryEffect>)
    ensures forall e :: e in LastSecond(s) <==> e in s && e.duration == 1
  {
    if s != [] {
      LastSecondMembers(s[..|s| - 1]);
      assert s == s[..|s| - 1] + [s[|s| - 1]];
    }
  }

  /** Every effect with a positive duration either survives the tick or is reported as expired, never both. */
  lemma {:induction false} TickCount(prev: seq<TemporaryEffect>)
    ensures |TickOf(prev)| + |ExpiredOf(prev)| <= |prev|
    ensures (forall i :: 0 <= i < |prev| ==> prev[i].duration >= 1) ==> |TickOf(prev)| + |ExpiredOf(prev)| == |prev|
  {
    TickAges(prev);
    ExpiredExactly(prev);
    SplitByDuration(prev);
  }

  lemma {:induction false} SplitByDuration(s: seq<TemporaryEffect>)
    ensures |Longer(s)| + |LastSecond(s)| <= |s|
    ensures (forall i :: 0 <= i < |s| ==> s[i].duration >= 1) ==> |Longer(s)| + |LastSecond(s)| == |s|
  {
    if s != [] {
      var front := s[..|s| - 1];
      SplitByDuration(front);
      assert forall i :: 0 <= i < |front| ==> front[i] == s[i];
    }
  }

  // ---------------------------------------------------------------- item names are unique

  /** How many temporary effects come from item `name`. */
  function CountName(s: seq<TemporaryEffect>, name: string): nat {
    if s == [] then 0 else CountName(s[..|s| - 1], name) + if s[|s| - 1].itemName == name then 1 else 0
  }

  /** No item has two temporary effects. */
  ghost predicate UniqueNames(s: seq<TemporaryEffect>) {
    forall name :: CountName(s, name) <= 1
  }

  /** Keeping the longer effects does not add to any item's count. */
  lemma {:induction false} LongerCount(s: seq<TemporaryEffect>, name: string)
    ensures CountName(Longer(s), name) <= CountName(s, name)
  {
    if s != [] {
      var front, e := s[..|s| - 1], s[|s| - 1];
      LongerCount(front, name);
      if e.duration > 1 {
        CountSnoc(Longer(front), e, name);
      } else {
        assert Longer(s) == Longer(front);
      }
    }
  }

  /** Aging keeps every item's count. */
  lemma {:induction false} AgedCount(s: seq<TemporaryEffect>, name: string)
    ensures CountName(Aged(s), name) == CountName(s, name)
  {
    if s != [] {
      var front, e := s[..|s| - 1], s[|s| - 1];
      AgedCount(front, name);
      CountSnoc(Aged(front), e.(duration := e.duration - 1), name);
    }
  }

  lemma CountSnoc(s: seq<TemporaryEffect>, e: TemporaryEffect, name: string)
    ensures CountName(s + [e], name) == CountName(s, name) + if e.itemName == name then 1 else 0
  {
    assert (s + [e])[..|s|] == s;
  }

  /** The tick keeps item names unique. */
  lemma TickUnique(prev: seq<TemporaryEffect>)
    requires UniqueNames(prev)
    ensures UniqueNames(TickOf(prev))
  {
    TickAges(prev);
    forall name ensures CountName(TickOf(prev), name) <= 1 {
      AgedCount(Longer(prev), name);
      LongerCount(prev, name);
    }
  }

  // ---------------------------------------------------------------- AID consumption

  /** `prevEffects.filter(effect => effect.itemName !== itemName)`. */
  function WithoutItem(s: seq<TemporaryEffect>, itemName: string): seq<TemporaryEffect> {
    if s == [] then []
    else WithoutItem(s[..|s| - 1], itemName) + if s[|s| - 1].itemName != itemName then [s[|s| - 1]] else []
  }

  /** The effect the item starts, when `aidItem.effects && aidItem.duration` is truthy. */
  function NewEffect(itemName: string, item: InventoryItem): Option<TemporaryEffect> {
    if item.effects.Some? && item.duration.Some? && item.duration.value != 0 then
      Some(TemporaryEffect(itemName, item.effects.value, item.duration.value, item.duration.value))
    else None
  }

  /** The temporary effects after consuming `item` under the name `itemName`. */
  function ConsumedEffects(s: seq<TemporaryEffect>, itemName: string, item: InventoryItem): seq<TemporaryEffect> {
    var started := NewEffect(itemName, item);
    WithoutItem(s, itemName) + if started.Some? then [started.value] else []
  }

  /** `prevInventory.AID.map(…)`: the consumed item's quantity drops by one, not below 0. */
  function UsedOne(aid: seq<InventoryItem>, itemIndex: int): (r: seq<InventoryItem>)
    ensures |r| == |aid|
  {
    seq(|aid|, i requires 0 <= i < |aid| =>
      if i == itemIndex then aid[i].(qty := if aid[i].qty - 1 > 0 then aid[i].qty - 1 else 0) else aid[i])
  }

  /** Only the consumed row's quantity changes: down by one, never below 0. */
  lemma UsedOneOnly(aid: seq<InventoryItem>, itemIndex: int)
    ensures forall i :: 0 <= i < |aid| ==>
      UsedOne(aid, itemIndex)[i] ==
        if i == itemIndex then aid[i].(qty := if aid[i].qty > 0 then aid[i].qty - 1 else 0) else aid[i]
  {
  }

  lemma {:induction false} WithoutItemMembers(s: seq<TemporaryEffect>, itemName: string)
    ensures forall e :: e in WithoutItem(s, itemName) <==> e in s && e.itemName != itemName
  {
    if s != [] {
      WithoutItemMembers(s[..|s| - 1], itemName);
      assert s == s[..|s| - 1] + [s[|s| - 1]];
    }
  }

  /** Filtering out `itemName` removes all of its effects and keeps the counts of the other items. */
  lemma {:induction false} WithoutItemCount(s: seq<TemporaryEffect>, itemName: string, name: string)
    ensures CountName(WithoutItem(s, itemName), name) == if name == itemName then 0 else CountName(s, name)
  {
    if s != [] {
      var front, e := s[..|s| - 1], s[|s| - 1];
      WithoutItemCount(front, itemName, name);
      if e.itemName != itemName {
        CountSnoc(WithoutItem(front, itemName), e, name);
      } else {
        assert WithoutItem(s, itemName) == WithoutItem(front, itemName);
      }
    }
  }

  /**
   * Consuming replaces instead of stacking: afterwards the item has at most one
   * effect, which is the last one exactly when `effects` and `duration` are
   * truthy, with both durations set to the item's; the other effects keep
   * their order.
   */
  lemma ConsumeReplaces(s: seq<TemporaryEffect>, itemName: string, item: InventoryItem)
    ensures var r := ConsumedEffects(s, itemName, item);
      && CountName(r, itemName) == (if NewEffect(itemName, item).Some? then 1 else 0)
      && (NewEffect(itemName, item).Some? ==>
            r == WithoutItem(s, itemName) + [TemporaryEffect(itemName, item.effects.value, item.duration.value, item.duration.value)])
      && (NewEffect(itemName, item).None? ==> r == WithoutItem(s, itemName))
  {
    WithoutItemCount(s, itemName, itemName);
    var w := WithoutItem(s, itemName);
    var started := NewEffect(itemName, item);
    if started.Some? {
      CountSnoc(w, started.value, itemName);
    } else {
      assert w + [] == w;
    }
  }

  /** Consumption keeps item names unique. */
  lemma ConsumeUnique(s: seq<TemporaryEffect>, itemName: string, item: InventoryItem)
    requires UniqueNames(s)
    ensures UniqueNames(ConsumedEffects(s, itemName, item))
  {
    var w := WithoutItem(s, itemName);
    var started := NewEffect(itemName, item);
    forall name ensures CountName(ConsumedEffects(s, itemName, item), name) <= 1 {
      WithoutItemCount(s, itemName, name);
      if started.Some? {
        CountSnoc(w, started.value, name);
      } else {
        assert w + [] == w;
      }
    }
  }

  // ---------------------------------------------------------------- quest tracking

  /** `prevQuests.map(…)`: quest `questIndex` gets `tracked: !quest.tracked`. */
  function ToggledQuests(quests: seq<Quest>, questIndex: int): (r: seq<Quest>)
    ensures |r| == |quests|
  {
    seq(|quests|, i requires 0 <= i < |quests| =>
      if i == questIndex then quests[i].(tracked := Some(!DataContent.IsTracked(quests[i]))) else quests[i])
  }

  /** Only quest `questIndex` changes, and only its tracked flag, which flips. */
  lemma ToggleFlips(quests: seq<Quest>, questIndex: int)
    ensures var r := ToggledQuests(quests, questIndex);
      forall i :: 0 <= i < |quests| ==>
        if i == questIndex then
          r[i].(tracked := quests[i].tracked) == quests[i] && DataContent.IsTracked(r[i]) == !DataContent.IsTracked(quests[i])
        else r[i] == quests[i]
  {
  }

  /** Toggling twice restores the list, except that an absent flag comes back as an explicit false. */
  lemma ToggleTwice(quests: seq<Quest>, questIndex: int)
    ensures var r := ToggledQuests(ToggledQuests(quests, questIndex), questIndex);
      && (forall i :: 0 <= i < |quests| ==> DataContent.IsTracked(r[i]) == DataContent.IsTracked(quests[i]))
      && (0 <= questIndex < |quests| && quests[questIndex].tracked.Some? ==> r == quests)
      && (!(0 <= questIndex < |quests|) ==> r == quests)
  {
    var r := ToggledQuests(ToggledQuests(quests, questIndex), questIndex);
    if 0 <= questIndex < |quests| && quests[questIndex].tracked.Some? {
      var q := quests[questIndex];
      var once := ToggledQuests(quests, questIndex);
      assert once[questIndex].tracked == Some(!DataContent.IsTracked(q));
      assert r[questIndex].tracked == Some(!DataContent.IsTracked(once[questIndex]));
      if q.tracked.value {
        assert r[questIndex].tracked == q.tracked;
      } else {
        assert r[questIndex].tracked == q.tracked;
      }
      assert forall i :: 0 <= i < |quests| ==> r[i] == quests[i];
    }
    if !(0 <= questIndex < |quests|) {
      assert forall i :: 0 <= i < |quests| ==> r[i] == quests[i];
    }
  }

  /** The flag the quest sound announces is the flag the toggle sets. */
  lemma QuestSoundMatches(quests: seq<Quest>, questIndex: nat)
    requires questIndex < |quests|
    ensures var c := DataContent.HandleQuestClick(quests, questIndex);
      c.Toggle? ==> DataContent.IsTracked(ToggledQuests(quests, c.questIndex)[questIndex]) == c.willBeTracked
  {
  }

  /** Only quests in progress are tracked. */
  ghost predicate OnlyInProgressTracked(quests: seq<Quest>) {
    forall i :: 0 <= i < |quests| && DataContent.IsTracked(quests[i]) ==> quests[i].status == InProgress
  }

  // ---------------------------------------------------------------- the state

  class PipBoy {
    var temporaryEffects: seq<TemporaryEffect>
    var inventory: Inventory
    var quests: seq<Quest>
    var equipped: EquipState

    /** At most one weapon and one apparel item per body part are equipped, and no item has two running effects. */
    ghost predicate Valid()
      reads this
    {
      InvContent.WellEquipped(equipped, inventory.apparel) && UniqueNames(temporaryEffects)
    }

    /** The initial state: the data module's inventory and quests, nothing equipped, no effect running. */
    constructor(initialInventory: Inventory, initialQuests: seq<Quest>)
      ensures inventory == initialInventory && quests == initialQuests
      ensures temporaryEffects == [] && equipped == map[]
      ensures Valid()
    {
      temporaryEffects := [];
      inventory := initialInventory;
      quests := initialQuests;
      equipped := map[];
    }

    /**
     * The one-second tick: ages the effects, drops those that ran out, and
     * reports the ones that just expired and whether the wear-off sound plays.
     */
    method Tick() returns (expired: seq<TemporaryEffect>, wearOffSound: bool)
      requires Valid()
      modifies this
      ensures temporaryEffects == TickOf(old(temporaryEffects))
      ensures expired == ExpiredOf(old(temporaryEffects)) && wearOffSound == (|expired| > 0)
      ensures inventory == old(inventory) && quests == old(quests) && equipped == old(equipped)
      ensures Valid()
    {
      var updatedEffects := Decremented(temporaryEffects);
      expired := JustExpired(temporaryEffects, updatedEffects);
      wearOffSound := |expired| > 0;
      TickUnique(temporaryEffects);
      temporaryEffects := StillActive(updatedEffects);
    }

    /** `handleQuestToggle(questIndex)`. */
    method ToggleQuest(questIndex: int)
      requires Valid()
      modifies this
      ensures quests == ToggledQuests(old(quests), questIndex)
      ensures temporaryEffects == old(temporaryEffects) && inventory == old(inventory) && equipped == old(equipped)
      ensures Valid()
    {
      quests := ToggledQuests(quests, questIndex);
    }

    /**
     * `handleAidConsumption(itemName, itemIndex)`: nothing happens for a missing
     * item or one out of stock; otherwise the item's running effect is replaced,
     * its quantity drops, and the confirm sound plays.
     */
    method ConsumeAid(itemName: string, itemIndex: int) returns (confirmSound: bool)
      requires Valid()
      modifies this
      ensures var missing := !(0 <= itemIndex < |old(inventory).aid|) || old(inventory).aid[itemIndex].qty <= 0;
        if missing then
          && temporaryEffects == old(temporaryEffects) && inventory == old(inventory) && !confirmSound
        else
          && temporaryEffects == ConsumedEffects(old(temporaryEffects), itemName, old(inventory).aid[itemIndex])
          && inventory == old(inventory).(aid := UsedOne(old(inventory).aid, itemIndex))
          && confirmSound
      ensures quests == old(quests) && equipped == old(equipped)
      ensures Valid()
    {
      if !(0 <= itemIndex < |inventory.aid|) {
        return false;
      }
      var aidItem := inventory.aid[itemIndex];
      if aidItem.qty <= 0 {
        return false;
      }
      ConsumeUnique(temporaryEffects, itemName, aidItem);
      temporaryEffects := WithoutItem(temporaryEffects, itemName);
      if aidItem.effects.Some? && aidItem.duration.Some? && aidItem.duration.value != 0 {
        var newEffect := TemporaryEffect(itemName, aidItem.effects.value, aidItem.duration.value, aidItem.duration.value);
        temporaryEffects := temporaryEffects + [newEffect];
      } else {
        assert temporaryEffects + [] == temporaryEffects;
      }
      inventory := inventory.(aid := UsedOne(inventory.aid, itemIndex));
      confirmSound := true;
    }

    /**
     * A click on row `index` of inventory tab `tab`, with the handler above
     * passed as `onAidConsumption`.
     */
    method ClickItem(tab: Category, index: nat) returns (sound: InvContent.Sound, confirmSound: bool)
      requires Valid()
      requires index < |inventory.Items(tab)|
      modifies this
      ensures var r := InvContent.HandleItemClick(tab, old(inventory).Items(tab)[index], index, old(equipped),
                                                  old(inventory).apparel, true);
        && sound == r.sound && equipped == r.equipped
        && (r.consumed.None? ==> temporaryEffects == old(temporaryEffects) && inventory == old(inventory) && !confirmSound)
        && (r.consumed.Some? ==>
              && tab == Aid && r.consumed.value == (old(inventory).aid[index].name, index)
              && temporaryEffects == ConsumedEffects(old(temporaryEffects), old(inventory).aid[index].name, old(inventory).aid[index])
              && inventory == old(inventory).(aid := UsedOne(old(inventory).aid, index))
              && confirmSound)
      ensures quests == old(quests)
      ensures Valid()
    {
      var item := inventory.Items(tab)[index];
      confirmSound := false;
      if item.action == Some("downloadCV") {
        sound := InvContent.SelectSound;
      } else if tab == Aid && item.qty > 0 {
        sound := InvContent.SelectSound;
        confirmSound := ConsumeAid(item.name, index);
      } else if tab == Weapons || tab == Apparel {
        var itemKey := ItemKey(tab, index);
        sound := if IsOn(equipped, itemKey) then InvContent.UnequipSound else InvContent.EquipSound;
        if tab == Weapons {
          InvContent.WeaponClickPreserves(equipped, inventory.apparel, index);
          equipped := InvContent.UpdateWeapons(equipped, itemKey);
        } else {
          InvContent.ApparelClickPreserves(equipped, inventory.apparel, index);
          equipped := InvContent.UpdateApparel(equipped, inventory.apparel, itemKey, item);
        }
      } else {
        sound := InvContent.SelectSound;
      }
    }

    /** A click on quest `questIndex` of the log: only a quest in progress toggles. */
    method ClickQuest(questIndex: nat) returns (click: DataContent.QuestClick)
      requires Valid() && OnlyInProgressTracked(quests)
      requires questIndex < |quests|
      modifies this
      ensures click == DataContent.HandleQuestClick(old(quests), questIndex)
      ensures quests == if click.Toggle? then ToggledQuests(old(quests), questIndex) else old(quests)
      ensures temporaryEffects == old(temporaryEffects) && inventory == old(inventory) && equipped == old(equipped)
      ensures Valid() && OnlyInProgressTracked(quests)
    {
      click := DataContent.HandleQuestClick(quests, questIndex);
      if click.Toggle? {
        ToggleQuest(click.questIndex);
      }
    }
  }

  /** The log starts with no quest tracked, so only quests in progress can ever be tracked. */
  lemma InitialTracking(quests: seq<Quest>)
    requires forall i :: 0 <= i < |quests| ==> quests[i].tracked.None?
    ensures OnlyInProgressTracked(quests)
  {
  }
}
