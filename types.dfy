/**
 * The records the résumé app passes around: inventory items and their effects,
 * temporary AID effects, effect contributions, and quests. JavaScript `null` and
 * optional (`?`) fields become `Option`; fields no modelled logic reads
 * (weights, prices, descriptions, achievements, coordinates) are dropped.
 */
module Types {
  import opened Wrappers
  import opened JsString

  /** One line of an item's effect list; a `None` name marks flavour text. */
  datatype InventoryEffect = InventoryEffect(name: Option<string>, value: Option<int>, displayName: string)

  datatype InventoryItem = InventoryItem(
    name: string,
    qty: int,
    action: Option<string>,
    effects: Option<seq<InventoryEffect>>,
    duration: Option<int>,
    bodyPart: Option<string>)

  /** An AID effect that is wearing off; `duration` is the remaining time in seconds. */
  datatype TemporaryEffect = TemporaryEffect(
    itemName: string,
    effects: seq<InventoryEffect>,
    duration: int,
    maxDuration: int)

  datatype ItemType = WeaponItem | ApparelItem | AidItem

  /**
   * One item's share of a named effect. `isTemporary == false` also stands for
   * an absent field; `expiresAt` is a millisecond timestamp.
   */
  datatype EffectContribution = EffectContribution(
    itemName: string,
    itemType: ItemType,
    value: int,
    isTemporary: bool,
    expiresAt: Option<int>)

  datatype ProcessedEffect = ProcessedEffect(name: string, totalValue: int, contributors: seq<EffectContribution>)

  /** The seven inventory tabs. */
  datatype Category = Weapons | Apparel | Aid | Misc | Junk | Mods | Ammo

  /** The tab's name as it appears in equip keys such as `WEAPONS-3`. */
  function CategoryName(c: Category): string {
    match c
    case Weapons => "WEAPONS"
    case Apparel => "APPAREL"
    case Aid => "AID"
    case Misc => "MISC"
    case Junk => "JUNK"
    case Mods => "MODS"
    case Ammo => "AMMO"
  }

  datatype Inventory = Inventory(
    weapons: seq<InventoryItem>,
    apparel: seq<InventoryItem>,
    aid: seq<InventoryItem>,
    misc: seq<InventoryItem>,
    junk: seq<InventoryItem>,
    mods: seq<InventoryItem>,
    ammo: seq<InventoryItem>)
  {
    /** `inventory[CATEGORY]`. */
    function Items(c: Category): seq<InventoryItem> {
      match c
      case Weapons => weapons
      case Apparel => apparel
      case Aid => aid
      case Misc => misc
      case Junk => junk
      case Mods => mods
      case Ammo => ammo
    }
  }

  datatype Quest = Quest(name: string, status: string, company: string, period: string, tracked: Option<bool>)

  const Completed := "COMPLETED"
  const InProgress := "IN PROGRESS"

  /** Which equip keys are on; an absent key reads as unequipped. */
  type EquipState = map<string, bool>

  /** The equip key `${CATEGORY}-${index}` of the item at `index` of tab `c`. */
  function ItemKey(c: Category, index: nat): string {
    CategoryName(c) + "-" + NatToString(index)
  }

  /** `equippedItems[key]` is truthy. */
  predicate IsOn(equipped: EquipState, key: string) {
    key in equipped && equipped[key]
  }
}
