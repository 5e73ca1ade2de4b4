/**
 * The effects aggregator of src/utils/effectsCalculator.ts: the contributions
 * of equipped weapons and apparel and of active AID effects, grouped by effect
 * name (`calculateAllEffects`); their totals once expired AID effects are
 * dropped (`getProcessedEffects`); the fixed 14-stat record
 * (`getLegacyStats`); and the expiry clean-up (`cleanupExpiredEffects`).
 * The clock reading `Date.now()` is the parameter `now`.
 */
module Effects {
  import opened Wrappers
  import opened JsString
  import opened Types

  // ---------------------------------------------------------------- the effects map

  /** One own property of an `EffectsMap`: an effect name and its contributions. */
  datatype Bucket = Bucket(name: string, contributions: seq<EffectContribution>)

  /**
   * An `EffectsMap`, its own properties in insertion order (the order
   * `Object.entries` lists them). Every map the aggregator builds has
   * distinct names (`BuildDistinct`).
   */
  type EffectsMap = seq<Bucket>

  function Names(m: EffectsMap): seq<string> {
    if m == [] then [] else [m[0].name] + Names(m[1..])
  }

  /** No name occurs twice, as in a JavaScript object. */
  predicate Distinct(m: EffectsMap) {
    m == [] || (Lookup(m[1..], m[0].name).None? && Distinct(m[1..]))
  }

  /** `effectsMap[name]`, `None` standing for `undefined`. */
  function Lookup(m: EffectsMap, name: string): Option<seq<EffectContribution>> {
    if m == [] then None
    else if m[0].name == name then Some(m[0].contributions)
    else Lookup(m[1..], name)
  }

  /** The number of contributions in all the lists. */
  function Count(m: EffectsMap): nat {
    if m == [] then 0 else |m[0].contributions| + Count(m[1..])
  }

  /** `addEffectContribution`: append to the list of `name`, creating it at the end if it is missing. */
  function Add(m: EffectsMap, name: string, c: EffectContribution): EffectsMap {
    if m == [] then [Bucket(name, [c])]
    else if m[0].name == name then [Bucket(name, m[0].contributions + [c])] + m[1..]
    else [m[0]] + Add(m[1..], name, c)
  }

  /** Adding extends the list of `name` by `c` and leaves every other name's list alone. */
  lemma {:induction false} AddLookup(m: EffectsMap, name: string, c: EffectContribution, k: string)
    ensures Lookup(Add(m, name, c), k) ==
      if k == name then Some(Lookup(m, name).GetOr([]) + [c]) else Lookup(m, k)
  {
    if m == [] {
      assert [Bucket(name, [c])][1..] == [] && [] + [c] == [c];
    } else {
      if m[0].name == name {
        assert ([Bucket(name, m[0].contributions + [c])] + m[1..])[1..] == m[1..];
      } else {
        AddLookup(m[1..], name, c, k);
        assert ([m[0]] + Add(m[1..], name, c))[1..] == Add(m[1..], name, c);
      }
    }
  }

  /** A new name goes after all the existing ones; an existing name keeps its place. */
  lemma {:induction false} AddNames(m: EffectsMap, name: string, c: EffectContribution)
    ensures Names(Add(m, name, c)) == if Lookup(m, name).Some? then Names(m) else Names(m) + [name]
  {
    if m != [] && m[0].name != name {
      AddNames(m[1..], name, c);
    }
  }

  lemma {:induction false} AddDistinct(m: EffectsMap, name: string, c: EffectContribution)
    requires Distinct(m)
    ensures Distinct(Add(m, name, c))
  {
    if m != [] && m[0].name != name {
      AddDistinct(m[1..], name, c);
      AddLookup(m[1..], name, c, m[0].name);
      assert Add(m, name, c)[1..] == Add(m[1..], name, c);
    }
  }

  /** Each addition adds exactly one contribution. */
  lemma {:induction false} AddCount(m: EffectsMap, name: string, c: EffectContribution)
    ensures Count(Add(m, name, c)) == Count(m) + 1
  {
    if m != [] && m[0].name != name {
      AddCount(m[1..], name, c);
      assert Add(m, name, c)[1..] == Add(m[1..], name, c);
    }
  }

  // ---------------------------------------------------------------- the calls of addEffectContribution

  /** One call `addEffectContribution(name, contribution)`. */
  datatype Push = Push(name: string, contribution: EffectContribution)

  /** The map after the calls `ps`, in order, starting from `m`. */
  function BuildOnto(m: EffectsMap, ps: seq<Push>): EffectsMap {
    if ps == [] then m
    else
      var last := ps[|ps| - 1];
      Add(BuildOnto(m, ps[..|ps| - 1]), last.name, last.contribution)
  }

  /** The map after the calls `ps`, starting from `{}`. */
  function Build(ps: seq<Push>): EffectsMap {
    BuildOnto([], ps)
  }

  /** The contributions pushed under `k`, in the order of the calls. */
  function Select(ps: seq<Push>, k: string): seq<EffectContribution> {
    if ps == [] then []
    else
      var last := ps[|ps| - 1];
      Select(ps[..|ps| - 1], k) + if last.name == k then [last.contribution] else []
  }

  lemma BuildOntoSnoc(m: EffectsMap, ps: seq<Push>, p: Push)
    ensures BuildOnto(m, ps + [p]) == Add(BuildOnto(m, ps), p.name, p.contribution)
  {
    assert (ps + [p])[..|ps|] == ps;
  }

  /** Two runs of calls one after the other. */
  lemma {:induction false} BuildOntoAppend(m: EffectsMap, a: seq<Push>, b: seq<Push>)
    ensures BuildOnto(m, a + b) == BuildOnto(BuildOnto(m, a), b)
  {
    if b == [] {
      assert a + b == a;
    } else {
      var front := b[..|b| - 1];
      var last := b[|b| - 1];
      BuildOntoAppend(m, a, front);
      assert a + b == (a + front) + [last];
      BuildOntoSnoc(m, a + front, last);
    }
  }

  lemma SelectSnoc(ps: seq<Push>, p: Push, k: string)
    ensures Select(ps + [p], k) == Select(ps, k) + if p.name == k then [p.contribution] else []
  {
    assert (ps + [p])[..|ps|] == ps;
  }

  lemma {:induction false} SelectAppend(a: seq<Push>, b: seq<Push>, k: string)
    ensures Select(a + b, k) == Select(a, k) + Select(b, k)
  {
    if b == [] {
      assert a + b == a;
    } else {
      var front := b[..|b| - 1];
      var last := b[|b| - 1];
      SelectAppend(a, front, k);
      assert a + b == (a + front) + [last];
      SelectSnoc(a + front, last, k);
    }
  }

  /** A name's list holds exactly the contributions pushed under it, in push order; unpushed names are undefined. */
  lemma {:induction false} BuildLookup(ps: seq<Push>, k: string)
    ensures Lookup(Build(ps), k) == if Select(ps, k) == [] then None else Some(Select(ps, k))
  {
    if ps != [] {
      var front := ps[..|ps| - 1];
      var last := ps[|ps| - 1];
      BuildLookup(front, k);
      AddLookup(BuildOnto([], front), last.name, last.contribution, k);
      assert Select(front, k) + [] == Select(front, k);
    }
  }

  lemma {:induction false} BuildDistinct(ps: seq<Push>)
    ensures Distinct(Build(ps))
  {
    if ps != [] {
      var last := ps[|ps| - 1];
      BuildDistinct(ps[..|ps| - 1]);
      AddDistinct(BuildOnto([], ps[..|ps| - 1]), last.name, last.contribution);
    }
  }

  /** Every pushed contribution lands in exactly one list. */
  lemma {:induction false} BuildCount(ps: seq<Push>)
    ensures Count(Build(ps)) == |ps|
  {
    if ps != [] {
      var last := ps[|ps| - 1];
      BuildCount(ps[..|ps| - 1]);
      AddCount(BuildOnto([], ps[..|ps| - 1]), last.name, last.contribution);
    }
  }

  // ---------------------------------------------------------------- calculateAllEffects

  /** `effect.name && effect.value !== null`: a non-empty name and a value. */
  predicate Qualifies(e: InventoryEffect) {
    e.name.Some? && e.name.value != "" && e.value.Some?
  }

  /** The call made for one effect, if it qualifies. */
  function PushOf(e: InventoryEffect, itemName: string, itemType: ItemType,
                  isTemporary: bool, expiresAt: Option<int>): seq<Push>
  {
    if Qualifies(e) then [Push(e.name.value, EffectContribution(itemName, itemType, e.value.value, isTemporary, expiresAt))]
    else []
  }

  /** The calls made for one list of effects, all carrying the same item fields. */
  function EffectPushes(effects: seq<InventoryEffect>, itemName: string, itemType: ItemType,
                        isTemporary: bool, expiresAt: Option<int>): seq<Push>
  {
    if effects == [] then []
    else
      EffectPushes(effects[..|effects| - 1], itemName, itemType, isTemporary, expiresAt) +
        PushOf(effects[|effects| - 1], itemName, itemType, isTemporary, expiresAt)
  }

  lemma EffectPushesSnoc(effects: seq<InventoryEffect>, j: int, itemName: string, itemType: ItemType,
                         isTemporary: bool, expiresAt: Option<int>)
    requires 0 <= j < |effects|
    ensures EffectPushes(effects[..j + 1], itemName, itemType, isTemporary, expiresAt) ==
      EffectPushes(effects[..j], itemName, itemType, isTemporary, expiresAt) +
        PushOf(effects[j], itemName, itemType, isTemporary, expiresAt)
  {
    assert effects[..j + 1][..j] == effects[..j];
  }

  /** The item type of the weapons and apparel tabs. */
  function TypeOf(c: Category): ItemType
    requires c == Weapons || c == Apparel
  {
    if c == Weapons then WeaponItem else ApparelItem
  }

  /** The calls made for one item of tab `c`: only when its key is on and it has an effect list. */
  function ItemPushes(item: InventoryItem, key: string, c: Category, equipped: EquipState): seq<Push>
    requires c == Weapons || c == Apparel
  {
    if IsOn(equipped, key) && item.effects.Some? then EffectPushes(item.effects.value, item.name, TypeOf(c), false, None)
    else []
  }

  /** The calls made by the `forEach` over the weapons or the apparel, item `i` under key `${CATEGORY}-${i}`. */
  function EquippedPushes(items: seq<InventoryItem>, c: Category, equipped: EquipState): seq<Push>
    requires c == Weapons || c == Apparel
  {
    if items == [] then []
    else
      EquippedPushes(items[..|items| - 1], c, equipped) +
        ItemPushes(items[|items| - 1], ItemKey(c, |items| - 1), c, equipped)
  }

  lemma EquippedPushesSnoc(items: seq<InventoryItem>, i: int, c: Category, equipped: EquipState)
    requires c == Weapons || c == Apparel
    requires 0 <= i < |items|
    ensures EquippedPushes(items[..i + 1], c, equipped) ==
      EquippedPushes(items[..i], c, equipped) + ItemPushes(items[i], ItemKey(c, i), c, equipped)
  {
    assert items[..i + 1][..i] == items[..i];
  }

  /** The calls made by the `forEach` over the temporary effects, each expiring `duration` seconds after `now`. */
  function TemporaryPushes(temps: seq<TemporaryEffect>, now: int): seq<Push> {
    if temps == [] then []
    else
      var t := temps[|temps| - 1];
      TemporaryPushes(temps[..|temps| - 1], now) +
        EffectPushes(t.effects, t.itemName, AidItem, true, Some(now + t.duration * 1000))
  }

  lemma TemporaryPushesSnoc(temps: seq<TemporaryEffect>, i: int, now: int)
    requires 0 <= i < |temps|
    ensures TemporaryPushes(temps[..i + 1], now) ==
      TemporaryPushes(temps[..i], now) +
        EffectPushes(temps[i].effects, temps[i].itemName, AidItem, true, Some(now + temps[i].duration * 1000))
  {
    assert temps[..i + 1][..i] == temps[..i];
  }

  /** Every call of `calculateAllEffects`: weapons, then apparel, then temporary effects. */
  function AllPushes(inventory: Inventory, equipped: EquipState, temps: seq<TemporaryEffect>, now: int): seq<Push> {
    EquippedPushes(inventory.weapons, Weapons, equipped) +
    EquippedPushes(inventory.apparel, Apparel, equipped) +
    TemporaryPushes(temps, now)
  }

  /** The map `calculateAllEffects` returns. */
  function AllEffects(inventory: Inventory, equipped: EquipState, temps: seq<TemporaryEffect>, now: int): EffectsMap {
    Build(AllPushes(inventory, equipped, temps, now))
  }

  /** The inner `forEach` over one effect list. */
  method AddEffects(m0: EffectsMap, effects: seq<InventoryEffect>, itemName: string, itemType: ItemType,
                    isTemporary: bool, expiresAt: Option<int>) returns (m: EffectsMap)
    ensures m == BuildOnto(m0, EffectPushes(effects, itemName, itemType, isTemporary, expiresAt))
  {
    m := m0;
    var j := 0;
    while j < |effects|
      invariant 0 <= j <= |effects|
      invariant m == BuildOnto(m0, EffectPushes(effects[..j], itemName, itemType, isTemporary, expiresAt))
    {
      var effect := effects[j];
      ghost var done := EffectPushes(effects[..j], itemName, itemType, isTemporary, expiresAt);
      EffectPushesSnoc(effects, j, itemName, itemType, isTemporary, expiresAt);
      if effect.name.Some? && effect.name.value != "" && effect.value.Some? {
        var contribution := EffectContribution(itemName, itemType, effect.value.value, isTemporary, expiresAt);
        BuildOntoSnoc(m0, done, Push(effect.name.value, contribution));
        m := Add(m, effect.name.value, contribution);
      } else {
        assert done + [] == done;
      }
      j := j + 1;
    }
    assert effects[..j] == effects;
  }

  /** The `forEach` over the weapons or the apparel. */
  method AddEquipped(m0: EffectsMap, items: seq<InventoryItem>, c: Category, equipped: EquipState)
    returns (m: EffectsMap)
    requires c == Weapons || c == Apparel
    ensures m == BuildOnto(m0, EquippedPushes(items, c, equipped))
  {
    m := m0;
    var i := 0;
    while i < |items|
      invariant 0 <= i <= |items|
      invariant m == BuildOnto(m0, EquippedPushes(items[..i], c, equipped))
    {
      var item := items[i];
      var itemKey := ItemKey(c, i);
      ghost var done := EquippedPushes(items[..i], c, equipped);
      EquippedPushesSnoc(items, i, c, equipped);
      BuildOntoAppend(m0, done, ItemPushes(item, itemKey, c, equipped));
      if itemKey in equipped && equipped[itemKey] && item.effects.Some? {
        m := AddEffects(m, item.effects.value, item.name, TypeOf(c), false, None);
      }
      i := i + 1;
    }
    assert items[..i] == items;
  }

  /** The `forEach` over the temporary effects. */
  method AddTemporary(m0: EffectsMap, temps: seq<TemporaryEffect>, now: int) returns (m: EffectsMap)
    ensures m == BuildOnto(m0, TemporaryPushes(temps, now))
  {
    m := m0;
    var i := 0;
    while i < |temps|
      invariant 0 <= i <= |temps|
      invariant m == BuildOnto(m0, TemporaryPushes(temps[..i], now))
    {
      var tempEffect := temps[i];
      var expiresAt := now + tempEffect.duration * 1000;
      TemporaryStep(m0, temps, i, now);
      m := AddEffects(m, tempEffect.effects, tempEffect.itemName, AidItem, true, Some(expiresAt));
      i := i + 1;
    }
    assert temps[..i] == temps;
  }

  lemma TemporaryStep(m0: EffectsMap, temps: seq<TemporaryEffect>, i: int, now: int)
    requires 0 <= i < |temps|
    ensures BuildOnto(m0, TemporaryPushes(temps[..i + 1], now)) ==
      BuildOnto(BuildOnto(m0, TemporaryPushes(temps[..i], now)),
                EffectPushes(temps[i].effects, temps[i].itemName, AidItem, true, Some(now + temps[i].duration * 1000)))
  {
    TemporaryPushesSnoc(temps, i, now);
    BuildOntoAppend(m0, TemporaryPushes(temps[..i], now),
                    EffectPushes(temps[i].effects, temps[i].itemName, AidItem, true, Some(now + temps[i].duration * 1000)));
  }

  /** `calculateAllEffects`. */
  method CalculateAllEffects(inventory: Inventory, equipped: EquipState, temps: seq<TemporaryEffect>, now: int)
    returns (m: EffectsMap)
    ensures m == AllEffects(inventory, equipped, temps, now)
  {
    var w := EquippedPushes(inventory.weapons, Weapons, equipped);
    var a := EquippedPushes(inventory.apparel, Apparel, equipped);
    var t := TemporaryPushes(temps, now);
    m := AddEquipped([], inventory.weapons, Weapons, equipped);
    m := AddEquipped(m, inventory.apparel, Apparel, equipped);
    m := AddTemporary(m, temps, now);
    BuildOntoAppend([], w, a);
    BuildOntoAppend([], w + a, t);
  }

  // ---------------------------------------------------------------- what calculateAllEffects promises

  /**
   * A name's list holds the contributions of the equipped weapons in index
   * order, then those of the equipped apparel, then those of the temporary
   * effects; a name nothing contributes to is absent.
   */
  lemma AllEffectsLookup(inventory: Inventory, equipped: EquipState, temps: seq<TemporaryEffect>, now: int, k: string)
    ensures var s := Select(EquippedPushes(inventory.weapons, Weapons, equipped), k) +
                     Select(EquippedPushes(inventory.apparel, Apparel, equipped), k) +
                     Select(TemporaryPushes(temps, now), k);
      Lookup(AllEffects(inventory, equipped, temps, now), k) == if s == [] then None else Some(s)
  {
    var w := EquippedPushes(inventory.weapons, Weapons, equipped);
    var a := EquippedPushes(inventory.apparel, Apparel, equipped);
    var t := TemporaryPushes(temps, now);
    BuildLookup(w + a + t, k);
    SelectAppend(w + a, t, k);
    SelectAppend(w, a, k);
  }

  /** The lists together hold one contribution per call, and no name occurs twice. */
  lemma AllEffectsCount(inventory: Inventory, equipped: EquipState, temps: seq<TemporaryEffect>, now: int)
    ensures Count(AllEffects(inventory, equipped, temps, now)) == |AllPushes(inventory, equipped, temps, now)|
    ensures Distinct(AllEffects(inventory, equipped, temps, now))
  {
    BuildCount(AllPushes(inventory, equipped, temps, now));
    BuildDistinct(AllPushes(inventory, equipped, temps, now));
  }

  /** Every call for an effect list comes from a qualifying effect of that list, with its name and value. */
  lemma {:induction false} EffectPushesFrom(effects: seq<InventoryEffect>, itemName: string, itemType: ItemType,
                                            isTemporary: bool, expiresAt: Option<int>, p: Push)
    requires p in EffectPushes(effects, itemName, itemType, isTemporary, expiresAt)
    ensures p.contribution.itemName == itemName && p.contribution.itemType == itemType
    ensures p.contribution.isTemporary == isTemporary && p.contribution.expiresAt == expiresAt
    ensures exists e :: e in effects && Qualifies(e) && p.name == e.name.value && p.contribution.value == e.value.value
  {
    var front := effects[..|effects| - 1];
    var e := effects[|effects| - 1];
    if p in EffectPushes(front, itemName, itemType, isTemporary, expiresAt) {
      EffectPushesFrom(front, itemName, itemType, isTemporary, expiresAt, p);
      var e' :| e' in front && Qualifies(e') && p.name == e'.name.value && p.contribution.value == e'.value.value;
      assert e' in effects;
    } else {
      assert e in effects;
    }
  }

  /**
   * Only an item whose key `${CATEGORY}-${index}` is on contributes, with its
   * own name, the tab's item type, no expiry, and a qualifying effect's name and
   * value; flavour effects never contribute.
   */
  lemma {:induction false} EquippedPushesFrom(items: seq<InventoryItem>, c: Category, equipped: EquipState, p: Push)
    requires c == Weapons || c == Apparel
    requires p in EquippedPushes(items, c, equipped)
    ensures !p.contribution.isTemporary && p.contribution.expiresAt.None? && p.contribution.itemType == TypeOf(c)
    ensures exists i :: (0 <= i < |items| && IsOn(equipped, ItemKey(c, i)) && items[i].effects.Some? &&
      p.contribution.itemName == items[i].name &&
      exists e :: e in items[i].effects.value && Qualifies(e) && p.name == e.name.value && p.contribution.value == e.value.value)
  {
    var front := items[..|items| - 1];
    var n := |items| - 1;
    if p in EquippedPushes(front, c, equipped) {
      EquippedPushesFrom(front, c, equipped, p);
      var i :| 0 <= i < |front| && IsOn(equipped, ItemKey(c, i)) && front[i].effects.Some? &&
        p.contribution.itemName == front[i].name &&
        exists e :: e in front[i].effects.value && Qualifies(e) && p.name == e.name.value && p.contribution.value == e.value.value;
      assert items[i] == front[i];
    } else {
      var item := items[n];
      EffectPushesFrom(item.effects.value, item.name, TypeOf(c), false, None, p);
    }
  }

  /** An AID contribution is temporary and expires `duration` seconds after `now` of its temporary effect. */
  lemma {:induction false} TemporaryPushesFrom(temps: seq<TemporaryEffect>, now: int, p: Push)
    requires p in TemporaryPushes(temps, now)
    ensures p.contribution.isTemporary && p.contribution.itemType == AidItem
    ensures exists t :: (t in temps && p.contribution.itemName == t.itemName &&
      p.contribution.expiresAt == Some(now + t.duration * 1000) &&
      exists e :: e in t.effects && Qualifies(e) && p.name == e.name.value && p.contribution.value == e.value.value)
  {
    var front := temps[..|temps| - 1];
    var t := temps[|temps| - 1];
    if p in TemporaryPushes(front, now) {
      TemporaryPushesFrom(front, now, p);
      var t' :| t' in front && p.contribution.itemName == t'.itemName &&
        p.contribution.expiresAt == Some(now + t'.duration * 1000) &&
        exists e :: e in t'.effects && Qualifies(e) && p.name == e.name.value && p.contribution.value == e.value.value;
      assert t' in temps;
    } else {
      EffectPushesFrom(t.effects, t.itemName, AidItem, true, Some(now + t.duration * 1000), p);
      assert t in temps;
    }
  }

  /** Nothing is equipped and nothing is wearing off: the map is empty. */
  lemma {:induction false} NothingEquipped(items: seq<InventoryItem>, c: Category, equipped: EquipState)
    requires c == Weapons || c == Apparel
    requires forall i :: 0 <= i < |items| ==> !IsOn(equipped, ItemKey(c, i))
    ensures EquippedPushes(items, c, equipped) == []
  {
    if items != [] {
      NothingEquipped(items[..|items| - 1], c, equipped);
    }
  }

  // ---------------------------------------------------------------- getProcessedEffects

  /** `expiresAt` is truthy: present and not 0. */
  predicate Truthy(t: Option<int>) {
    t.Some? && t.value != 0
  }

  /** The filter of both functions: a temporary contribution with a truthy `expiresAt` must expire after `now`. */
  predicate Active(c: EffectContribution, now: int) {
    if c.isTemporary && Truthy(c.expiresAt) then c.expiresAt.value > now else true
  }

  function ActiveOf(cs: seq<EffectContribution>, now: int): seq<EffectContribution> {
    if cs == [] then []
    else ActiveOf(cs[..|cs| - 1], now) + if Active(cs[|cs| - 1], now) then [cs[|cs| - 1]] else []
  }

  /** `reduce((sum, contrib) => sum + contrib.value, 0)`. */
  function Sum(cs: seq<EffectContribution>): int {
    if cs == [] then 0 else Sum(cs[..|cs| - 1]) + cs[|cs| - 1].value
  }

  /** `getProcessedEffects`: per name, the active contributions and their sum, dropping sums that are not positive. */
  function ProcessedEffects(m: EffectsMap, now: int): seq<ProcessedEffect> {
    if m == [] then [] else ProcessedOne(m[0], now) + ProcessedEffects(m[1..], now)
  }

  /** What one entry of the map becomes: its active contributions and their sum, if that is positive. */
  function ProcessedOne(b: Bucket, now: int): seq<ProcessedEffect> {
    var active := ActiveOf(b.contributions, now);
    if Sum(active) > 0 then [ProcessedEffect(b.name, Sum(active), active)] else []
  }

  /** No processed effect has a total of 0 or less, and each total is the sum of the contributions it lists. */
  lemma {:induction false} ProcessedPositive(m: EffectsMap, now: int)
    ensures forall p :: p in ProcessedEffects(m, now) ==> p.totalValue > 0 && p.totalValue == Sum(p.contributors)
  {
    if m != [] {
      ProcessedPositive(m[1..], now);
    }
  }

  /** The processed effect named `k`, if there is one. */
  function FindEffect(ps: seq<ProcessedEffect>, k: string): Option<ProcessedEffect> {
    if ps == [] then None else if ps[0].name == k then Some(ps[0]) else FindEffect(ps[1..], k)
  }

  /** The filter keeps exactly the active contributions. */
  lemma {:induction false} ActiveOfMembers(cs: seq<EffectContribution>, now: int, c: EffectContribution)
    ensures c in ActiveOf(cs, now) <==> c in cs && Active(c, now)
  {
    if cs != [] {
      ActiveOfMembers(cs[..|cs| - 1], now, c);
      assert cs == cs[..|cs| - 1] + [cs[|cs| - 1]];
    }
  }

  /** A non-temporary contribution, or one without a truthy expiry, is always kept. */
  lemma PermanentActive(c: EffectContribution, now: int)
    requires !c.isTemporary || !Truthy(c.expiresAt)
    ensures Active(c, now)
  {
  }

  lemma {:induction false} ActiveOfIdempotent(cs: seq<EffectContribution>, now: int)
    ensures ActiveOf(ActiveOf(cs, now), now) == ActiveOf(cs, now)
  {
    if cs != [] {
      var front := cs[..|cs| - 1];
      var c := cs[|cs| - 1];
      ActiveOfIdempotent(front, now);
      if Active(c, now) {
        var a := ActiveOf(front, now);
        assert (a + [c])[..|a|] == a;
      } else {
        assert ActiveOf(front, now) + [] == ActiveOf(front, now);
      }
    }
  }

  /**
   * With distinct names, name `k` is processed exactly when it has a list
   * whose active contributions sum to more than 0, and then it carries that
   * sum and those contributions.
   */
  lemma {:induction false} ProcessedLookup(m: EffectsMap, now: int, k: string)
    requires Distinct(m)
    ensures FindEffect(ProcessedEffects(m, now), k) ==
      match Lookup(m, k)
      case None => None
      case Some(cs) =>
        if Sum(ActiveOf(cs, now)) > 0 then Some(ProcessedEffect(k, Sum(ActiveOf(cs, now)), ActiveOf(cs, now)))
        else None
  {
    if m != [] {
      ProcessedLookup(m[1..], now, k);
      FindAfterOne(m[0], ProcessedEffects(m[1..], now), now, k);
      if m[0].name == k {
        NamedAbsent(m[1..], now, k);
      }
    }
  }

  /** A name without a list is not processed. */
  lemma {:induction false} NamedAbsent(m: EffectsMap, now: int, k: string)
    requires Lookup(m, k).None?
    ensures FindEffect(ProcessedEffects(m, now), k).None?
  {
    if m != [] {
      NamedAbsent(m[1..], now, k);
      FindAfterOne(m[0], ProcessedEffects(m[1..], now), now, k);
    }
  }

  /** Looking `k` up past the result of one entry. */
  lemma FindAfterOne(b: Bucket, rest: seq<ProcessedEffect>, now: int, k: string)
    ensures var one := ProcessedOne(b, now);
      FindEffect(one + rest, k) == if one != [] && b.name == k then Some(one[0]) else FindEffect(rest, k)
  {
    var one := ProcessedOne(b, now);
    if one == [] {
      assert one + rest == rest;
    } else {
      assert (one + rest)[0] == one[0] && (one + rest)[1..] == rest;
    }
  }

  // ---------------------------------------------------------------- cleanupExpiredEffects

  /** `cleanupExpiredEffects`: the active contributions of each name, keeping only names left with some. */
  function CleanupOf(m: EffectsMap, now: int): EffectsMap {
    if m == [] then [] else CleanupOf(m[..|m| - 1], now) + CleanedOf(m[|m| - 1], now)
  }

  /** What one entry becomes: its active contributions under its name, or nothing when none is left. */
  function CleanedOf(b: Bucket, now: int): EffectsMap {
    var active := ActiveOf(b.contributions, now);
    if |active| > 0 then [Bucket(b.name, active)] else []
  }

  /**
   * `cleanupExpiredEffects`, its `forEach` storing each name's non-empty active
   * list. The names are distinct, so storing appends.
   */
  method CleanupExpiredEffects(m: EffectsMap, now: int) returns (cleaned: EffectsMap)
    ensures cleaned == CleanupOf(m, now)
  {
    cleaned := [];
    var i := 0;
    while i < |m|
      invariant 0 <= i <= |m|
      invariant cleaned == CleanupOf(m[..i], now)
    {
      var activeContributions := ActiveOf(m[i].contributions, now);
      assert m[..i + 1] == m[..i] + [m[i]];
      CleanupSnoc(m[..i], m[i], now);
      if |activeContributions| > 0 {
        cleaned := cleaned + [Bucket(m[i].name, activeContributions)];
      } else {
        assert cleaned + [] == cleaned;
      }
      i := i + 1;
    }
    assert m[..i] == m;
  }

  lemma CleanupSnoc(m: EffectsMap, b: Bucket, now: int)
    ensures CleanupOf(m + [b], now) == CleanupOf(m, now) + CleanedOf(b, now)
  {
    assert (m + [b])[..|m|] == m;
  }

  /** Cleaning up twice at the same instant is cleaning up once. */
  lemma {:induction false} CleanupIdempotent(m: EffectsMap, now: int)
    ensures CleanupOf(CleanupOf(m, now), now) == CleanupOf(m, now)
  {
    if m != [] {
      var front := m[..|m| - 1];
      var b := m[|m| - 1];
      var active := ActiveOf(b.contributions, now);
      CleanupIdempotent(front, now);
      if |active| > 0 {
        ActiveOfIdempotent(b.contributions, now);
        CleanupSnoc(CleanupOf(front, now), Bucket(b.name, active), now);
      } else {
        assert CleanupOf(front, now) + [] == CleanupOf(front, now);
      }
    }
  }

  lemma {:induction false} ProcessedAppend(a: EffectsMap, b: EffectsMap, now: int)
    ensures ProcessedEffects(a + b, now) == ProcessedEffects(a, now) + ProcessedEffects(b, now)
  {
    if a == [] {
      assert a + b == b;
    } else {
      var x, rest := a[0], a[1..];
      assert a == [x] + rest;
      assert a + b == [x] + (rest + b);
      ProcessedAppend(rest, b, now);
      ProcessedConsOf(x, rest, now);
      ProcessedConsOf(x, rest + b, now);
      AppendAssoc(ProcessedOne(x, now), ProcessedEffects(rest, now), ProcessedEffects(b, now));
    }
  }

  lemma ProcessedConsOf(x: Bucket, r: EffectsMap, now: int)
    ensures ProcessedEffects([x] + r, now) == ProcessedOne(x, now) + ProcessedEffects(r, now)
  {
    var s := [x] + r;
    assert s[0] == x && s[1..] == r;
  }

  lemma AppendAssoc(p: seq<ProcessedEffect>, q: seq<ProcessedEffect>, r: seq<ProcessedEffect>)
    ensures p + (q + r) == (p + q) + r
  {
  }

  lemma ProcessedSingle(b: Bucket, now: int)
    ensures ProcessedEffects([b], now) == ProcessedOne(b, now)
  {
    assert [b][1..] == [];
    assert ProcessedOne(b, now) + [] == ProcessedOne(b, now);
  }

  /** Cleaning up first does not change what `getProcessedEffects` reports. */
  lemma {:induction false} ProcessedAfterCleanup(m: EffectsMap, now: int)
    ensures ProcessedEffects(CleanupOf(m, now), now) == ProcessedEffects(m, now)
  {
    if m != [] {
      var front := m[..|m| - 1];
      var b := m[|m| - 1];
      ProcessedAfterCleanup(front, now);
      assert m == front + [b];
      CleanupSnoc(front, b, now);
      ProcessedAppend(front, [b], now);
      ProcessedSingle(b, now);
      ProcessedAppend(CleanupOf(front, now), CleanedOf(b, now), now);
      CleanedOne(b, now);
    }
  }

  /** The cleaned-up entry, if any, processes like the original. */
  lemma CleanedOne(b: Bucket, now: int)
    ensures ProcessedEffects(CleanedOf(b, now), now) == ProcessedOne(b, now)
  {
    var active := ActiveOf(b.contributions, now);
    if |active| > 0 {
      ActiveOfIdempotent(b.contributions, now);
      ProcessedSingle(Bucket(b.name, active), now);
    }
  }

  /** Unlike `getProcessedEffects`, the clean-up keeps a name whose active sum is not positive. */
  lemma CleanupKeepsNonPositive(now: int)
    ensures var c := EffectContribution("Heavy Boots", ApparelItem, -2, false, None);
      var m := [Bucket("agility", [c])];
      CleanupOf(m, now) == m && ProcessedEffects(m, now) == []
  {
    var c := EffectContribution("Heavy Boots", ApparelItem, -2, false, None);
    assert [c][..0] == [];
    assert ActiveOf([c], now) == [c];
    assert Sum([c]) == -2;
    var m := [Bucket("agility", [c])];
    assert m[..0] == [];
  }

  // ---------------------------------------------------------------- getLegacyStats

  /** The keys of the record `getLegacyStats` returns. */
  const StatNames: seq<string> := [
    "hp", "ap", "typing_speed", "code_quality", "bug_detection", "focus", "comfort",
    "alertness", "productivity", "energy", "error_resolution", "bug_fix_success",
    "typing_comfort", "eye_comfort"]

  /** The record `getLegacyStats` starts from: every stat at 0. */
  function InitialStats(): (r: map<string, int>)
    ensures r.Keys == set k | k in StatNames
    ensures forall k :: k in r ==> r[k] == 0
  {
    map[
      "hp" := 0, "ap" := 0, "typing_speed" := 0, "code_quality" := 0, "bug_detection" := 0,
      "focus" := 0, "comfort" := 0, "alertness" := 0, "productivity" := 0, "energy" := 0,
      "error_resolution" := 0, "bug_fix_success" := 0, "typing_comfort" := 0, "eye_comfort" := 0]
  }

  /** The record after the `forEach` over `effects`: a known name is overwritten with its total. */
  function LegacyStatsOf(effects: seq<ProcessedEffect>): map<string, int> {
    if effects == [] then InitialStats()
    else
      var stats := LegacyStatsOf(effects[..|effects| - 1]);
      var e := effects[|effects| - 1];
      if e.name in stats then stats[e.name := e.totalValue] else stats
  }

  /** `getLegacyStats`. */
  method GetLegacyStats(effects: seq<ProcessedEffect>) returns (stats: map<string, int>)
    ensures stats == LegacyStatsOf(effects)
  {
    stats := map[
      "hp" := 0, "ap" := 0, "typing_speed" := 0, "code_quality" := 0, "bug_detection" := 0,
      "focus" := 0, "comfort" := 0, "alertness" := 0, "productivity" := 0, "energy" := 0,
      "error_resolution" := 0, "bug_fix_success" := 0, "typing_comfort" := 0, "eye_comfort" := 0];
    assert stats == InitialStats();
    var i := 0;
    while i < |effects|
      invariant 0 <= i <= |effects|
      invariant stats == LegacyStatsOf(effects[..i])
    {
      var effect := effects[i];
      assert effects[..i + 1][..i] == effects[..i];
      if effect.name in stats {
        stats := stats[effect.name := effect.totalValue];
      }
      i := i + 1;
    }
    assert effects[..i] == effects;
  }

  /** The record always has exactly the 14 stat keys. */
  lemma {:induction false} LegacyStatsKeys(effects: seq<ProcessedEffect>)
    ensures LegacyStatsOf(effects).Keys == set k | k in StatNames
  {
    if effects != [] {
      LegacyStatsKeys(effects[..|effects| - 1]);
    }
  }

  /** A stat no effect names stays 0. */
  lemma {:induction false} LegacyStatsUnnamed(effects: seq<ProcessedEffect>, k: string)
    requires k in StatNames
    requires forall i :: 0 <= i < |effects| ==> effects[i].name != k
    ensures k in LegacyStatsOf(effects) && LegacyStatsOf(effects)[k] == 0
  {
    if effects != [] {
      var front := effects[..|effects| - 1];
      assert forall i :: 0 <= i < |front| ==> front[i] == effects[i];
      LegacyStatsUnnamed(front, k);
    }
  }

  /** A stat holds the total of the last effect with its name. */
  lemma {:induction false} LegacyStatsLast(effects: seq<ProcessedEffect>, k: string, i: int)
    requires k in StatNames
    requires 0 <= i < |effects| && effects[i].name == k
    requires forall j :: i < j < |effects| ==> effects[j].name != k
    ensures k in LegacyStatsOf(effects) && LegacyStatsOf(effects)[k] == effects[i].totalValue
  {
    var front := effects[..|effects| - 1];
    LegacyStatsKeys(front);
    if i < |front| {
      assert front[i] == effects[i];
      assert forall j :: i < j < |front| ==> front[j] == effects[j];
      LegacyStatsLast(front, k, i);
    }
  }

  /** An effect whose name is not a stat changes nothing. */
  lemma UnknownNameIgnored(effects: seq<ProcessedEffect>, e: ProcessedEffect)
    requires e.name !in StatNames
    ensures LegacyStatsOf(effects + [e]) == LegacyStatsOf(effects)
  {
    assert (effects + [e])[..|effects|] == effects;
    LegacyStatsKeys(effects);
  }
}
