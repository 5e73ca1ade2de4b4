/**
 * The seven icon tables of the icon component, entry by entry in source
 * order (`name: file`), grouped as the source groups them, and the fact
 * that lets the rest of the model tell them apart: the first three
 * characters of every name identify the table it belongs to.
 */
module IconTables {
  import opened Wrappers

  /** An object literal `{ name: file, ... }` as its entries in order. */
  type IconMapping = seq<(string, string)>

  /** The seven tables, in the order the icon folder is looked up. */
  datatype Category = MapMarkers | Special | Health | Inventory | Pipboy | Data | Stats

  // ---------------------------------------------------------------- mapMarkerIcons (lines 9-84)

  /** Location markers, part 1 of 6. */
  const LocationMarkersPart1: IconMapping := [
    ("location-signal", "icon_3.svg"),
    ("location-vault", "icon_8.svg"),
    ("location-vault-unknown", "icon_9.svg"),
    ("location-boat", "icon_11.svg"),
    ("location-boat-unknown", "icon_12.svg"),
    ("location-ruined-tall-building", "icon_14.svg"),
    ("location-ruined-tall-building-unknown", "icon_15.svg"),
    ("location-ruined-housing-building", "icon_17.svg"),
    ("location-ruined-housing-building-unknown", "icon_18.svg"),
    ("location-housing-building", "icon_20.svg")
  ]

  /** Location markers, part 2 of 6. */
  const LocationMarkersPart2: IconMapping := [
    ("location-housing-building-unknown", "icon_21.svg"),
    ("location-synth", "icon_23.svg"),
    ("location-synth-unknown", "icon_24.svg"),
    ("location-park-lake", "icon_26.svg"),
    ("location-park-lake-unknown", "icon_27.svg"),
    ("location-u-boat", "icon_29.svg"),
    ("location-u-boat-unknown", "icon_30.svg"),
    ("location-sea-boat", "icon_32.svg"),
    ("location-sea-boat-unknown", "icon_33.svg")
  ]

  /** Location markers, part 3 of 6. */
  const LocationMarkersPart3: IconMapping := [
    ("location-water-pump", "icon_35.svg"),
    ("location-water-pump-unknown", "icon_36.svg"),
    ("location-camp-site", "icon_38.svg"),
    ("location-camp-site-unknown", "icon_39.svg"),
    ("location-temple", "icon_41.svg"),
    ("location-temple-unknown", "icon_42.svg"),
    ("location-church", "icon_44.svg"),
    ("location-church-unknown", "icon_45.svg"),
    ("location-satellite-dish", "icon_47.svg")
  ]

  /** Location markers, part 4 of 6. */
  const LocationMarkersPart4: IconMapping := [
    ("location-satellite-dish-unknown", "icon_48.svg"),
    ("location-memorial", "icon_50.svg"),
    ("location-memorial-unknown", "icon_51.svg"),
    ("location-witch", "icon_53.svg"),
    ("location-witch-unknown", "icon_54.svg"),
    ("location-rr", "icon_56.svg"),
    ("location-rr-unknown", "icon_57.svg"),
    ("location-lamp", "icon_59.svg"),
    ("location-lamp-unknown", "icon_60.svg")
  ]

  /** Location markers, part 5 of 6. */
  const LocationMarkersPart5: IconMapping := [
    ("location-radio-tower", "icon_62.svg"),
    ("location-radio-tower-unknown", "icon_63.svg"),
    ("location-radiation-zone", "icon_65.svg"),
    ("location-radiation-zone-unknown", "icon_66.svg"),
    ("location-door-quest-marker", "icon_68.svg"),
    ("location-up-arrow", "icon_69.svg"),
    ("location-down-arrow", "icon_70.svg"),
    ("location-active-quest-marker", "icon_73.svg"),
    ("location-mine", "icon_76.svg")
  ]

  /** Location markers, part 6 of 6. */
  const LocationMarkersPart6: IconMapping := [
    ("location-mine-unknown", "icon_77.svg"),
    ("location-zeppelin", "icon_79.svg"),
    ("location-zeppelin-unknown", "icon_80.svg"),
    ("location-power-armor-helmet", "icon_82.svg"),
    ("location-lake", "icon_85.svg"),
    ("location-lake-unknown", "icon_86.svg"),
    ("location-police-station", "icon_88.svg"),
    ("location-police-station-unknown", "icon_89.svg"),
    ("location-quest-marker", "icon_91.svg")
  ]

  /** Special markers, part 1 of 2. */
  const SpecialMarkersPart1: IconMapping := [
    ("marker-player", "icon_94.svg"),
    ("marker-companion", "icon_66.svg"),
    ("marker-enemy", "icon_68.svg"),
    ("marker-neutral", "icon_69.svg"),
    ("marker-friendly", "icon_70.svg"),
    ("marker-danger", "icon_73.svg"),
    ("marker-safe", "icon_76.svg"),
    ("marker-radiation", "icon_77.svg")
  ]

  /** Special markers, part 2 of 2. */
  const SpecialMarkersPart2: IconMapping := [
    ("marker-loot", "icon_79.svg"),
    ("marker-weapon", "icon_80.svg"),
    ("marker-armor", "icon_82.svg"),
    ("marker-food", "icon_85.svg"),
    ("marker-medicine", "icon_86.svg"),
    ("marker-ammo", "icon_88.svg"),
    ("marker-scrap", "icon_89.svg")
  ]

  /** `mapMarkerIcons`. */
  const MapMarkerIcons: IconMapping := LocationMarkersPart1 + LocationMarkersPart2 + LocationMarkersPart3 + LocationMarkersPart4 + LocationMarkersPart5 + LocationMarkersPart6 + SpecialMarkersPart1 + SpecialMarkersPart2

  // ---------------------------------------------------------------- specialIcons (lines 87-170)

  /** Strength. */
  const StrengthIcons: IconMapping := [
    ("strength-1", "icon_strength_1.svg"),
    ("strength-2", "icon_strength_2.svg"),
    ("strength-3", "icon_strength_3.svg"),
    ("strength-4", "icon_strength_4.svg"),
    ("strength-5", "icon_strength_5.svg"),
    ("strength-6", "icon_strength_6.svg")
  ]

  /** Perception. */
  const PerceptionIcons: IconMapping := [
    ("perception-1", "icon_perception_1.svg"),
    ("perception-2", "icon_perception_2.svg"),
    ("perception-3", "icon_perception_3.svg"),
    ("perception-4", "icon_perception_4.svg"),
    ("perception-5", "icon_perception_5.svg"),
    ("perception-6", "icon_perception_6.svg"),
    ("perception-7", "icon_perception_7.svg")
  ]

  /** Endurance. */
  const EnduranceIcons: IconMapping := [
    ("endurance-1", "icon_endurance_1.svg"),
    ("endurance-2", "icon_endurance_2.svg"),
    ("endurance-3", "icon_endurance_3.svg"),
    ("endurance-4", "icon_endurance_4.svg")
  ]

  /** Charisma. */
  const CharismaIcons: IconMapping := [
    ("charisma-1", "icon_charisma_1.svg"),
    ("charisma-2", "icon_charisma_2.svg"),
    ("charisma-3", "icon_charisma_3.svg"),
    ("charisma-4", "icon_charisma_4.svg"),
    ("charisma-5", "icon_charisma_5.svg"),
    ("charisma-6", "icon_charisma_6.svg")
  ]

  /** Intelligence, part 1 of 2. */
  const IntelligenceIconsPart1: IconMapping := [
    ("intelligence-1", "icon_intelligence_1.svg"),
    ("intelligence-2", "icon_intelligence_2.svg"),
    ("intelligence-3", "icon_intelligence_3.svg"),
    ("intelligence-4", "icon_intelligence_4.svg"),
    ("intelligence-5", "icon_intelligence_5.svg"),
    ("intelligence-6", "icon_intelligence_6.svg"),
    ("intelligence-7", "icon_intelligence_7.svg")
  ]

  /** Intelligence, part 2 of 2. */
  const IntelligenceIconsPart2: IconMapping := [
    ("intelligence-8", "icon_intelligence_8.svg"),
    ("intelligence-9", "icon_intelligence_9.svg"),
    ("intelligence-10", "icon_intelligence_10.svg"),
    ("intelligence-11", "icon_intelligence_11.svg"),
    ("intelligence-12", "icon_intelligence_12.svg"),
    ("intelligence-13", "icon_intelligence_13.svg"),
    ("intelligence-14", "icon_intelligence_14.svg")
  ]

  /** Agility. */
  const AgilityIcons: IconMapping := [
    ("agility-1", "icon_agility_1.svg"),
    ("agility-2", "icon_agility_2.svg"),
    ("agility-3", "icon_agility_3.svg"),
    ("agility-4", "icon_agility_4.svg")
  ]

  /** Luck, part 1 of 2. */
  const LuckIconsPart1: IconMapping := [
    ("luck-1", "icon_luck_1.svg"),
    ("luck-2", "icon_luck_2.svg"),
    ("luck-3", "icon_luck_3.svg"),
    ("luck-4", "icon_luck_4.svg"),
    ("luck-5", "icon_luck_5.svg"),
    ("luck-7", "icon_luck_7.svg")
  ]

  /** Luck, part 2 of 2. */
  const LuckIconsPart2: IconMapping := [
    ("luck-8", "icon_luck_8.svg"),
    ("luck-9", "icon_luck_9.svg"),
    ("luck-10", "icon_luck_10.svg"),
    ("luck-11", "icon_luck_11.svg"),
    ("luck-12", "icon_luck_12.svg"),
    ("luck-13", "icon_luck_13.svg")
  ]

  /** Name clips, part 1 of 2. */
  const NameClipIconsPart1: IconMapping := [
    ("nameclip-1", "icon_nameclip_1.svg"),
    ("nameclip-2", "icon_nameclip_2.svg"),
    ("nameclip-3", "icon_nameclip_3.svg"),
    ("nameclip-4", "icon_nameclip_4.svg"),
    ("nameclip-5", "icon_nameclip_5.svg"),
    ("nameclip-6", "icon_nameclip_6.svg"),
    ("nameclip-7", "icon_nameclip_7.svg")
  ]

  /** Name clips, part 2 of 2. */
  const NameClipIconsPart2: IconMapping := [
    ("nameclip-8", "icon_nameclip_8.svg"),
    ("nameclip-9", "icon_nameclip_9.svg"),
    ("nameclip-10", "icon_nameclip_10.svg"),
    ("nameclip-11", "icon_nameclip_11.svg"),
    ("nameclip-12", "icon_nameclip_12.svg"),
    ("nameclip-13", "icon_nameclip_13.svg"),
    ("nameclip-14", "icon_nameclip_14.svg")
  ]

  /** `specialIcons`. */
  const SpecialIcons: IconMapping := StrengthIcons + PerceptionIcons + EnduranceIcons + CharismaIcons + IntelligenceIconsPart1 + IntelligenceIconsPart2 + AgilityIcons + LuckIconsPart1 + LuckIconsPart2 + NameClipIconsPart1 + NameClipIconsPart2

  // ---------------------------------------------------------------- healthIcons (lines 173-199)

  /** Body conditions, part 1 of 2. */
  const BodyConditionIconsPart1: IconMapping := [
    ("body-healthy", "icon_condition_body_0.svg"),
    ("body-light-damage", "icon_condition_body_1.svg"),
    ("body-moderate-damage", "icon_condition_body_2.svg"),
    ("body-heavy-damage", "icon_condition_body_3.svg"),
    ("body-critical", "icon_condition_body_4.svg"),
    ("body-radiation-1", "icon_condition_body_5.svg"),
    ("body-radiation-2", "icon_condition_body_6.svg"),
    ("body-radiation-3", "icon_condition_body_7.svg"),
    ("body-radiation-4", "icon_condition_body_8.svg")
  ]

  /** Body conditions, part 2 of 2. */
  const BodyConditionIconsPart2: IconMapping := [
    ("body-radiation-5", "icon_condition_body_9.svg"),
    ("body-poisoned", "icon_condition_body_10.svg"),
    ("body-diseased", "icon_condition_body_11.svg"),
    ("body-addicted", "icon_condition_body_12.svg"),
    ("body-starving", "icon_condition_body_13.svg"),
    ("body-dehydrated", "icon_condition_body_14.svg"),
    ("body-exhausted", "icon_condition_body_15.svg"),
    ("body-crippled", "icon_condition_body_16.svg")
  ]

  /** Head conditions. */
  const HeadConditionIcons: IconMapping := [
    ("head-healthy", "icon_condition_head_1.svg"),
    ("head-light-damage", "icon_condition_head_3.svg"),
    ("head-moderate-damage", "icon_condition_head_5.svg"),
    ("head-heavy-damage", "icon_condition_head_7.svg"),
    ("head-critical", "icon_condition_head_9.svg"),
    ("head-concussed", "icon_condition_head_11.svg"),
    ("head-crippled", "icon_condition_head_13.svg")
  ]

  /** `healthIcons`. */
  const HealthIcons: IconMapping := BodyConditionIconsPart1 + BodyConditionIconsPart2 + HeadConditionIcons

  // ---------------------------------------------------------------- inventoryIcons (lines 202-296)

  /** Weapons. */
  const WeaponIcons: IconMapping := [
    ("weapon-pistol", "icon_100.svg"),
    ("weapon-rifle", "icon_102.svg"),
    ("weapon-shotgun", "icon_104.svg"),
    ("weapon-automatic", "icon_106.svg"),
    ("weapon-heavy", "icon_108.svg"),
    ("weapon-melee", "icon_110.svg"),
    ("weapon-explosive", "icon_112.svg"),
    ("weapon-energy", "icon_114.svg"),
    ("weapon-alien", "icon_116.svg"),
    ("weapon-legendary", "icon_118.svg")
  ]

  /** Armor. */
  const ArmorIcons: IconMapping := [
    ("armor-helmet", "icon_120.svg"),
    ("armor-chest", "icon_122.svg"),
    ("armor-arms", "icon_124.svg"),
    ("armor-legs", "icon_126.svg"),
    ("armor-outfit", "icon_128.svg"),
    ("armor-power", "icon_130.svg"),
    ("armor-special", "icon_132.svg")
  ]

  /** Items, part 1 of 2. */
  const ItemIconsPart1: IconMapping := [
    ("item-aid", "icon_134.svg"),
    ("item-food", "icon_136.svg"),
    ("item-drink", "icon_138.svg"),
    ("item-chem", "icon_140.svg"),
    ("item-book", "icon_142.svg"),
    ("item-holotape", "icon_144.svg"),
    ("item-key", "icon_146.svg"),
    ("item-note", "icon_148.svg"),
    ("item-misc", "icon_150.svg")
  ]

  /** Items, part 2 of 2. */
  const ItemIconsPart2: IconMapping := [
    ("item-junk", "icon_152.svg"),
    ("item-component", "icon_154.svg"),
    ("item-mod", "icon_156.svg"),
    ("item-ammo", "icon_158.svg"),
    ("item-currency", "icon_160.svg"),
    ("item-quest", "icon_162.svg"),
    ("item-unique", "icon_164.svg"),
    ("item-rare", "icon_166.svg"),
    ("item-legendary-item", "icon_168.svg")
  ]

  /** Containers. */
  const ContainerIcons: IconMapping := [
    ("container-safe", "icon_170.svg"),
    ("container-toolbox", "icon_172.svg"),
    ("container-footlocker", "icon_174.svg"),
    ("container-desk", "icon_176.svg"),
    ("container-cabinet", "icon_178.svg"),
    ("container-cooler", "icon_180.svg"),
    ("container-barrel", "icon_183.svg")
  ]

  /** Crafting. */
  const CraftingIcons: IconMapping := [
    ("craft-cooking", "icon_197.svg"),
    ("craft-chemistry", "icon_198.svg"),
    ("craft-armor-bench", "icon_206.svg"),
    ("craft-weapon-bench", "icon_20.svg"),
    ("craft-power-armor", "icon_22.svg")
  ]

  /** Resources, part 1 of 3. */
  const ResourceIconsPart1: IconMapping := [
    ("resource-scrap", "icon_25.svg"),
    ("resource-steel", "icon_34.svg"),
    ("resource-wood", "icon_36.svg"),
    ("resource-concrete", "icon_38.svg"),
    ("resource-plastic", "icon_40.svg"),
    ("resource-rubber", "icon_42.svg"),
    ("resource-cloth", "icon_44.svg"),
    ("resource-leather", "icon_46.svg")
  ]

  /** Resources, part 2 of 3. */
  const ResourceIconsPart2: IconMapping := [
    ("resource-glass", "icon_57.svg"),
    ("resource-ceramic", "icon_62.svg"),
    ("resource-electronics", "icon_67.svg"),
    ("resource-nuclear", "icon_69.svg"),
    ("resource-acid", "icon_79.svg"),
    ("resource-adhesive", "icon_82.svg"),
    ("resource-aluminum", "icon_84.svg")
  ]

  /** Resources, part 3 of 3. */
  const ResourceIconsPart3: IconMapping := [
    ("resource-copper", "icon_86.svg"),
    ("resource-crystal", "icon_88.svg"),
    ("resource-fiber-optics", "icon_90.svg"),
    ("resource-gears", "icon_92.svg"),
    ("resource-oil", "icon_94.svg"),
    ("resource-screws", "icon_96.svg"),
    ("resource-springs", "icon_98.svg")
  ]

  /** Special items, part 1 of 2. */
  const SpecialItemIconsPart1: IconMapping := [
    ("special-fusion-core", "icon_225.svg"),
    ("special-holotape-game", "icon_227.svg"),
    ("special-bobblehead", "icon_230.svg"),
    ("special-magazine", "icon_233.svg"),
    ("special-serum", "icon_236.svg"),
    ("special-artifact", "icon_239.svg")
  ]

  /** Special items, part 2 of 2. */
  const SpecialItemIconsPart2: IconMapping := [
    ("special-blueprint", "icon_242.svg"),
    ("special-schematic", "icon_245.svg"),
    ("special-prototype", "icon_248.svg"),
    ("special-experimental", "icon_251.svg"),
    ("special-classified", "icon_253.svg")
  ]

  /** `inventoryIcons`. */
  const InventoryIcons: IconMapping := WeaponIcons + ArmorIcons + ItemIconsPart1 + ItemIconsPart2 + ContainerIcons + CraftingIcons + ResourceIconsPart1 + ResourceIconsPart2 + ResourceIconsPart3 + SpecialItemIconsPart1 + SpecialItemIconsPart2

  // ---------------------------------------------------------------- pipboyIcons (lines 299-317)

  /** Pip-Boy menu icons, part 1 of 2. */
  const PipboyMenuIconsPart1: IconMapping := [
    ("menu-stats", "icon_14.svg"),
    ("menu-inventory", "icon_16.svg"),
    ("menu-data", "icon_18.svg"),
    ("menu-map", "icon_20.svg"),
    ("menu-radio", "icon_22.svg"),
    ("menu-settings", "icon_24.svg"),
    ("menu-help", "icon_26.svg"),
    ("menu-back", "icon_31.svg"),
    ("menu-forward", "icon_33.svg")
  ]

  /** Pip-Boy menu icons, part 2 of 2. */
  const PipboyMenuIconsPart2: IconMapping := [
    ("menu-select", "icon_42.svg"),
    ("menu-cancel", "icon_5.svg"),
    ("menu-confirm", "icon_6.svg"),
    ("menu-options", "icon_7.svg"),
    ("menu-favorites", "icon_52.svg"),
    ("menu-recent", "icon_54.svg"),
    ("menu-search", "icon_67.svg"),
    ("menu-filter", "icon_69.svg")
  ]

  /** `pipboyIcons`. */
  const PipboyIcons: IconMapping := PipboyMenuIconsPart1 + PipboyMenuIconsPart2

  // ---------------------------------------------------------------- dataIcons (lines 320-340)

  /** Data page icons, part 1 of 2. */
  const DataPageIconsPart1: IconMapping := [
    ("data-admin", "icon_4.svg"),
    ("data-holotape", "icon_15.svg"),
    ("data-terminal", "icon_16.svg"),
    ("data-note", "icon_20.svg"),
    ("data-quest", "icon_21.svg"),
    ("data-log", "icon_22.svg"),
    ("data-message", "icon_23.svg"),
    ("data-record", "icon_24.svg"),
    ("data-file", "icon_25.svg"),
    ("data-database", "icon_26.svg")
  ]

  /** Data page icons, part 2 of 2. */
  const DataPageIconsPart2: IconMapping := [
    ("data-archive", "icon_27.svg"),
    ("data-backup", "icon_28.svg"),
    ("data-encrypted", "icon_29.svg"),
    ("data-classified", "icon_30.svg"),
    ("data-personal", "icon_31.svg"),
    ("data-military", "icon_32.svg"),
    ("data-scientific", "icon_33.svg"),
    ("data-medical", "icon_34.svg"),
    ("data-corporate", "icon_35.svg")
  ]

  /** `dataIcons`. */
  const DataIcons: IconMapping := DataPageIconsPart1 + DataPageIconsPart2

  // ---------------------------------------------------------------- statsIcons (lines 343-369)

  /** Stats page icons, part 1 of 2. */
  const StatsPageIconsPart1: IconMapping := [
    ("stat-level", "icon_100.svg"),
    ("stat-experience", "icon_102.svg"),
    ("stat-health", "icon_104.svg"),
    ("stat-action-points", "icon_106.svg"),
    ("stat-radiation", "icon_108.svg"),
    ("stat-carry-weight", "icon_110.svg"),
    ("stat-damage-resistance", "icon_112.svg"),
    ("stat-energy-resistance", "icon_114.svg"),
    ("stat-poison-resistance", "icon_116.svg"),
    ("stat-rad-resistance", "icon_118.svg")
  ]

  /** Stats page icons, part 2 of 2. */
  const StatsPageIconsPart2: IconMapping := [
    ("stat-melee-damage", "icon_120.svg"),
    ("stat-ranged-damage", "icon_122.svg"),
    ("stat-accuracy", "icon_124.svg"),
    ("stat-critical-chance", "icon_126.svg"),
    ("stat-critical-damage", "icon_128.svg"),
    ("stat-sneak-attack", "icon_130.svg"),
    ("stat-movement-speed", "icon_132.svg"),
    ("stat-jump-height", "icon_134.svg"),
    ("stat-fall-damage", "icon_136.svg"),
    ("stat-addiction-chance", "icon_138.svg")
  ]

  /** Additional stats icons used by the map. */
  const AdditionalStatsIcons: IconMapping := [
    ("stat-radiation-minimal", "icon_74.svg"),
    ("stat-temperature", "icon_76.svg"),
    ("stat-signal", "icon_104.svg")
  ]

  /** `statsIcons`. */
  const StatsIcons: IconMapping := StatsPageIconsPart1 + StatsPageIconsPart2 + AdditionalStatsIcons

  /** The seven tables of an icon set, one field per category. */
  datatype IconSet = IconSet(mapMarkers: IconMapping, special: IconMapping, health: IconMapping, inventory: IconMapping, pipboy: IconMapping, data: IconMapping, stats: IconMapping)

  /** The table of a category. */
  function TableOf(icons: IconSet, c: Category): IconMapping {
    match c
    case MapMarkers => icons.mapMarkers
    case Special => icons.special
    case Health => icons.health
    case Inventory => icons.inventory
    case Pipboy => icons.pipboy
    case Data => icons.data
    case Stats => icons.stats
  }

  /** The icons of the application. */
  const Fallout4Icons: IconSet := IconSet(MapMarkerIcons, SpecialIcons, HealthIcons, InventoryIcons, PipboyIcons, DataIcons, StatsIcons)

  // ---------------------------------------------------------------- telling the tables apart

  /** The first three characters of an icon name. */
  function Tag(name: string): (char, char, char)
    requires |name| >= 3
  {
    (name[0], name[1], name[2])
  }

  /** The table whose names start with these three characters, if any. */
  function CategoryOfTag(t: (char, char, char)): Option<Category> {
    match t
    case ('l', 'o', 'c') => Some(MapMarkers)
    case ('m', 'a', 'r') => Some(MapMarkers)
    case ('s', 't', 'r') => Some(Special)
    case ('p', 'e', 'r') => Some(Special)
    case ('e', 'n', 'd') => Some(Special)
    case ('c', 'h', 'a') => Some(Special)
    case ('i', 'n', 't') => Some(Special)
    case ('a', 'g', 'i') => Some(Special)
    case ('l', 'u', 'c') => Some(Special)
    case ('n', 'a', 'm') => Some(Special)
    case ('b', 'o', 'd') => Some(Health)
    case ('h', 'e', 'a') => Some(Health)
    case ('w', 'e', 'a') => Some(Inventory)
    case ('a', 'r', 'm') => Some(Inventory)
    case ('i', 't', 'e') => Some(Inventory)
    case ('c', 'o', 'n') => Some(Inventory)
    case ('c', 'r', 'a') => Some(Inventory)
    case ('r', 'e', 's') => Some(Inventory)
    case ('s', 'p', 'e') => Some(Inventory)
    case ('m', 'e', 'n') => Some(Pipboy)
    case ('d', 'a', 't') => Some(Data)
    case ('s', 't', 'a') => Some(Stats)
    case _ => None
  }

  /** Every name of `run` starts with `t`, and every file is non-empty. */
  predicate SameTag(run: IconMapping, t: (char, char, char)) {
    forall i :: 0 <= i < |run| ==> |run[i].0| >= 3 && Tag(run[i].0) == t && run[i].1 != ""
  }

  /** Every name of `entries` is tagged as belonging to `c`, and every file is non-empty. */
  predicate InCategory(entries: IconMapping, c: Category) {
    forall i :: 0 <= i < |entries| ==> |entries[i].0| >= 3 && CategoryOfTag(Tag(entries[i].0)) == Some(c) && entries[i].1 != ""
  }

  lemma SameTagInCategory(run: IconMapping, t: (char, char, char), c: Category)
    requires SameTag(run, t) && CategoryOfTag(t) == Some(c)
    ensures InCategory(run, c)
  {
  }

  lemma InCategoryAppend(a: IconMapping, b: IconMapping, c: Category)
    requires InCategory(a, c) && InCategory(b, c)
    ensures InCategory(a + b, c)
  {
    forall i | 0 <= i < |a + b|
      ensures |(a + b)[i].0| >= 3 && CategoryOfTag(Tag((a + b)[i].0)) == Some(c) && (a + b)[i].1 != ""
    {
      if i < |a| {
        assert (a + b)[i] == a[i];
      } else {
        assert (a + b)[i] == b[i - |a|];
      }
    }
  }

  lemma LocationMarkersPart1Tagged()
    ensures SameTag(LocationMarkersPart1, ('l', 'o', 'c'))
  {
  }

  lemma LocationMarkersPart2Tagged()
    ensures SameTag(LocationMarkersPart2, ('l', 'o', 'c'))
  {
  }

  lemma LocationMarkersPart3Tagged()
    ensures SameTag(LocationMarkersPart3, ('l', 'o', 'c'))
  {
  }

  lemma LocationMarkersPart4Tagged()
    ensures SameTag(LocationMarkersPart4, ('l', 'o', 'c'))
  {
  }

  lemma LocationMarkersPart5Tagged()
    ensures SameTag(LocationMarkersPart5, ('l', 'o', 'c'))
  {
  }

  lemma LocationMarkersPart6Tagged()
    ensures SameTag(LocationMarkersPart6, ('l', 'o', 'c'))
  {
  }

  lemma SpecialMarkersPart1Tagged()
    ensures SameTag(SpecialMarkersPart1, ('m', 'a', 'r'))
  {
  }

  lemma SpecialMarkersPart2Tagged()
    ensures SameTag(SpecialMarkersPart2, ('m', 'a', 'r'))
  {
  }

  lemma StrengthIconsTagged()
    ensures SameTag(StrengthIcons, ('s', 't', 'r'))
  {
  }

  lemma PerceptionIconsTagged()
    ensures SameTag(PerceptionIcons, ('p', 'e', 'r'))
  {
  }

  lemma EnduranceIconsTagged()
    ensures SameTag(EnduranceIcons, ('e', 'n', 'd'))
  {
  }

  lemma CharismaIconsTagged()
    ensures SameTag(CharismaIcons, ('c', 'h', 'a'))
  {
  }

  lemma IntelligenceIconsPart1Tagged()
    ensures SameTag(IntelligenceIconsPart1, ('i', 'n', 't'))
  {
  }

  lemma IntelligenceIconsPart2Tagged()
    ensures SameTag(IntelligenceIconsPart2, ('i', 'n', 't'))
  {
  }

  lemma AgilityIconsTagged()
    ensures SameTag(AgilityIcons, ('a', 'g', 'i'))
  {
  }

  lemma LuckIconsPart1Tagged()
    ensures SameTag(LuckIconsPart1, ('l', 'u', 'c'))
  {
  }

  lemma LuckIconsPart2Tagged()
    ensures SameTag(LuckIconsPart2, ('l', 'u', 'c'))
  {
  }

  lemma NameClipIconsPart1Tagged()
    ensures SameTag(NameClipIconsPart1, ('n', 'a', 'm'))
  {
  }

  lemma NameClipIconsPart2Tagged()
    ensures SameTag(NameClipIconsPart2, ('n', 'a', 'm'))
  {
  }

  lemma BodyConditionIconsPart1Tagged()
    ensures SameTag(BodyConditionIconsPart1, ('b', 'o', 'd'))
  {
  }

  lemma BodyConditionIconsPart2Tagged()
    ensures SameTag(BodyConditionIconsPart2, ('b', 'o', 'd'))
  {
  }

  lemma HeadConditionIconsTagged()
    ensures SameTag(HeadConditionIcons, ('h', 'e', 'a'))
  {
  }

  lemma WeaponIconsTagged()
    ensures SameTag(WeaponIcons, ('w', 'e', 'a'))
  {
  }

  lemma ArmorIconsTagged()
    ensures SameTag(ArmorIcons, ('a', 'r', 'm'))
  {
  }

  lemma ItemIconsPart1Tagged()
    ensures SameTag(ItemIconsPart1, ('i', 't', 'e'))
  {
  }

  lemma ItemIconsPart2Tagged()
    ensures SameTag(ItemIconsPart2, ('i', 't', 'e'))
  {
  }

  lemma ContainerIconsTagged()
    ensures SameTag(ContainerIcons, ('c', 'o', 'n'))
  {
  }

  lemma CraftingIconsTagged()
    ensures SameTag(CraftingIcons, ('c', 'r', 'a'))
  {
  }

  lemma ResourceIconsPart1Tagged()
    ensures SameTag(ResourceIconsPart1, ('r', 'e', 's'))
  {
  }

  lemma ResourceIconsPart2Tagged()
    ensures SameTag(ResourceIconsPart2, ('r', 'e', 's'))
  {
  }

  lemma ResourceIconsPart3Tagged()
    ensures SameTag(ResourceIconsPart3, ('r', 'e', 's'))
  {
  }

  lemma SpecialItemIconsPart1Tagged()
    ensures SameTag(SpecialItemIconsPart1, ('s', 'p', 'e'))
  {
  }

  lemma SpecialItemIconsPart2Tagged()
    ensures SameTag(SpecialItemIconsPart2, ('s', 'p', 'e'))
  {
  }

  lemma PipboyMenuIconsPart1Tagged()
    ensures SameTag(PipboyMenuIconsPart1, ('m', 'e', 'n'))
  {
  }

  lemma PipboyMenuIconsPart2Tagged()
    ensures SameTag(PipboyMenuIconsPart2, ('m', 'e', 'n'))
  {
  }

  lemma DataPageIconsPart1Tagged()
    ensures SameTag(DataPageIconsPart1, ('d', 'a', 't'))
  {
  }

  lemma DataPageIconsPart2Tagged()
    ensures SameTag(DataPageIconsPart2, ('d', 'a', 't'))
  {
  }

  lemma StatsPageIconsPart1Tagged()
    ensures SameTag(StatsPageIconsPart1, ('s', 't', 'a'))
  {
  }

  lemma StatsPageIconsPart2Tagged()
    ensures SameTag(StatsPageIconsPart2, ('s', 't', 'a'))
  {
  }

  lemma AdditionalStatsIconsTagged()
    ensures SameTag(AdditionalStatsIcons, ('s', 't', 'a'))
  {
  }

  lemma MapMarkerIconsInCategory()
    ensures InCategory(MapMarkerIcons, MapMarkers)
  {
    LocationMarkersPart1Tagged();
    SameTagInCategory(LocationMarkersPart1, ('l', 'o', 'c'), MapMarkers);
    LocationMarkersPart2Tagged();
    SameTagInCategory(LocationMarkersPart2, ('l', 'o', 'c'), MapMarkers);
    InCategoryAppend(LocationMarkersPart1, LocationMarkersPart2, MapMarkers);
    LocationMarkersPart3Tagged();
    SameTagInCategory(LocationMarkersPart3, ('l', 'o', 'c'), MapMarkers);
    InCategoryAppend(LocationMarkersPart1 + LocationMarkersPart2, LocationMarkersPart3, MapMarkers);
    LocationMarkersPart4Tagged();
    SameTagInCategory(LocationMarkersPart4, ('l', 'o', 'c'), MapMarkers);
    InCategoryAppend(LocationMarkersPart1 + LocationMarkersPart2 + LocationMarkersPart3, LocationMarkersPart4, MapMarkers);
    LocationMarkersPart5Tagged();
    SameTagInCategory(LocationMarkersPart5, ('l', 'o', 'c'), MapMarkers);
    InCategoryAppend(LocationMarkersPart1 + LocationMarkersPart2 + LocationMarkersPart3 + LocationMarkersPart4, LocationMarkersPart5, MapMarkers);
    LocationMarkersPart6Tagged();
    SameTagInCategory(LocationMarkersPart6, ('l', 'o', 'c'), MapMarkers);
    InCategoryAppend(LocationMarkersPart1 + LocationMarkersPart2 + LocationMarkersPart3 + LocationMarkersPart4 + LocationMarkersPart5, LocationMarkersPart6, MapMarkers);
    SpecialMarkersPart1Tagged();
    SameTagInCategory(SpecialMarkersPart1, ('m', 'a', 'r'), MapMarkers);
    InCategoryAppend(LocationMarkersPart1 + LocationMarkersPart2 + LocationMarkersPart3 + LocationMarkersPart4 + LocationMarkersPart5 + LocationMarkersPart6, SpecialMarkersPart1, MapMarkers);
    SpecialMarkersPart2Tagged();
    SameTagInCategory(SpecialMarkersPart2, ('m', 'a', 'r'), MapMarkers);
    InCategoryAppend(LocationMarkersPart1 + LocationMarkersPart2 + LocationMarkersPart3 + LocationMarkersPart4 + LocationMarkersPart5 + LocationMarkersPart6 + SpecialMarkersPart1, SpecialMarkersPart2, MapMarkers);
  }

  lemma SpecialIconsInCategory()
    ensures InCategory(SpecialIcons, Special)
  {
    StrengthIconsTagged();
    SameTagInCategory(StrengthIcons, ('s', 't', 'r'), Special);
    PerceptionIconsTagged();
    SameTagInCategory(PerceptionIcons, ('p', 'e', 'r'), Special);
    InCategoryAppend(StrengthIcons, PerceptionIcons, Special);
    EnduranceIconsTagged();
    SameTagInCategory(EnduranceIcons, ('e', 'n', 'd'), Special);
    InCategoryAppend(StrengthIcons + PerceptionIcons, EnduranceIcons, Special);
    CharismaIconsTagged();
    SameTagInCategory(CharismaIcons, ('c', 'h', 'a'), Special);
    InCategoryAppend(StrengthIcons + PerceptionIcons + EnduranceIcons, CharismaIcons, Special);
    IntelligenceIconsPart1Tagged();
    SameTagInCategory(IntelligenceIconsPart1, ('i', 'n', 't'), Special);
    InCategoryAppend(StrengthIcons + PerceptionIcons + EnduranceIcons + CharismaIcons, IntelligenceIconsPart1, Special);
    IntelligenceIconsPart2Tagged();
    SameTagInCategory(IntelligenceIconsPart2, ('i', 'n', 't'), Special);
    InCategoryAppend(StrengthIcons + PerceptionIcons + EnduranceIcons + CharismaIcons + IntelligenceIconsPart1, IntelligenceIconsPart2, Special);
    AgilityIconsTagged();
    SameTagInCategory(AgilityIcons, ('a', 'g', 'i'), Special);
    InCategoryAppend(StrengthIcons + PerceptionIcons + EnduranceIcons + CharismaIcons + IntelligenceIconsPart1 + IntelligenceIconsPart2, AgilityIcons, Special);
    LuckIconsPart1Tagged();
    SameTagInCategory(LuckIconsPart1, ('l', 'u', 'c'), Special);
    InCategoryAppend(StrengthIcons + PerceptionIcons + EnduranceIcons + CharismaIcons + IntelligenceIconsPart1 + IntelligenceIconsPart2 + AgilityIcons, LuckIconsPart1, Special);
    LuckIconsPart2Tagged();
    SameTagInCategory(LuckIconsPart2, ('l', 'u', 'c'), Special);
    InCategoryAppend(StrengthIcons + PerceptionIcons + EnduranceIcons + CharismaIcons + IntelligenceIconsPart1 + IntelligenceIconsPart2 + AgilityIcons + LuckIconsPart1, LuckIconsPart2, Special);
    NameClipIconsPart1Tagged();
    SameTagInCategory(NameClipIconsPart1, ('n', 'a', 'm'), Special);
    InCategoryAppend(StrengthIcons + PerceptionIcons + EnduranceIcons + CharismaIcons + IntelligenceIconsPart1 + IntelligenceIconsPart2 + AgilityIcons + LuckIconsPart1 + LuckIconsPart2, NameClipIconsPart1, Special);
    NameClipIconsPart2Tagged();
    SameTagInCategory(NameClipIconsPart2, ('n', 'a', 'm'), Special);
    InCategoryAppend(StrengthIcons + PerceptionIcons + EnduranceIcons + CharismaIcons + IntelligenceIconsPart1 + IntelligenceIconsPart2 + AgilityIcons + LuckIconsPart1 + LuckIconsPart2 + NameClipIconsPart1, NameClipIconsPart2, Special);
  }

  lemma HealthIconsInCategory()
    ensures InCategory(HealthIcons, Health)
  {
    BodyConditionIconsPart1Tagged();
    SameTagInCategory(BodyConditionIconsPart1, ('b', 'o', 'd'), Health);
    BodyConditionIconsPart2Tagged();
    SameTagInCategory(BodyConditionIconsPart2, ('b', 'o', 'd'), Health);
    InCategoryAppend(BodyConditionIconsPart1, BodyConditionIconsPart2, Health);
    HeadConditionIconsTagged();
    SameTagInCategory(HeadConditionIcons, ('h', 'e', 'a'), Health);
    InCategoryAppend(BodyConditionIconsPart1 + BodyConditionIconsPart2, HeadConditionIcons, Health);
  }

  lemma InventoryIconsInCategory()
    ensures InCategory(InventoryIcons, Inventory)
  {
    WeaponIconsTagged();
    SameTagInCategory(WeaponIcons, ('w', 'e', 'a'), Inventory);
    ArmorIconsTagged();
    SameTagInCategory(ArmorIcons, ('a', 'r', 'm'), Inventory);
    InCategoryAppend(WeaponIcons, ArmorIcons, Inventory);
    ItemIconsPart1Tagged();
    SameTagInCategory(ItemIconsPart1, ('i', 't', 'e'), Inventory);
    InCategoryAppend(WeaponIcons + ArmorIcons, ItemIconsPart1, Inventory);
    ItemIconsPart2Tagged();
    SameTagInCategory(ItemIconsPart2, ('i', 't', 'e'), Inventory);
    InCategoryAppend(WeaponIcons + ArmorIcons + ItemIconsPart1, ItemIconsPart2, Inventory);
    ContainerIconsTagged();
    SameTagInCategory(ContainerIcons, ('c', 'o', 'n'), Inventory);
    InCategoryAppend(WeaponIcons + ArmorIcons + ItemIconsPart1 + ItemIconsPart2, ContainerIcons, Inventory);
    CraftingIconsTagged();
    SameTagInCategory(CraftingIcons, ('c', 'r', 'a'), Inventory);
    InCategoryAppend(WeaponIcons + ArmorIcons + ItemIconsPart1 + ItemIconsPart2 + ContainerIcons, CraftingIcons, Inventory);
    ResourceIconsPart1Tagged();
    SameTagInCategory(ResourceIconsPart1, ('r', 'e', 's'), Inventory);
    InCategoryAppend(WeaponIcons + ArmorIcons + ItemIconsPart1 + ItemIconsPart2 + ContainerIcons + CraftingIcons, ResourceIconsPart1, Inventory);
    ResourceIconsPart2Tagged();
    SameTagInCategory(ResourceIconsPart2, ('r', 'e', 's'), Inventory);
    InCategoryAppend(WeaponIcons + ArmorIcons + ItemIconsPart1 + ItemIconsPart2 + ContainerIcons + CraftingIcons + ResourceIconsPart1, ResourceIconsPart2, Inventory);
    ResourceIconsPart3Tagged();
    SameTagInCategory(ResourceIconsPart3, ('r', 'e', 's'), Inventory);
    InCategoryAppend(WeaponIcons + ArmorIcons + ItemIconsPart1 + ItemIconsPart2 + ContainerIcons + CraftingIcons + ResourceIconsPart1 + ResourceIconsPart2, ResourceIconsPart3, Inventory);
    SpecialItemIconsPart1Tagged();
    SameTagInCategory(SpecialItemIconsPart1, ('s', 'p', 'e'), Inventory);
    InCategoryAppend(WeaponIcons + ArmorIcons + ItemIconsPart1 + ItemIconsPart2 + ContainerIcons + CraftingIcons + ResourceIconsPart1 + ResourceIconsPart2 + ResourceIconsPart3, SpecialItemIconsPart1, Inventory);
    SpecialItemIconsPart2Tagged();
    SameTagInCategory(SpecialItemIconsPart2, ('s', 'p', 'e'), Inventory);
    InCategoryAppend(WeaponIcons + ArmorIcons + ItemIconsPart1 + ItemIconsPart2 + ContainerIcons + CraftingIcons + ResourceIconsPart1 + ResourceIconsPart2 + ResourceIconsPart3 + SpecialItemIconsPart1, SpecialItemIconsPart2, Inventory);
  }

  lemma PipboyIconsInCategory()
    ensures InCategory(PipboyIcons, Pipboy)
  {
    PipboyMenuIconsPart1Tagged();
    SameTagInCategory(PipboyMenuIconsPart1, ('m', 'e', 'n'), Pipboy);
    PipboyMenuIconsPart2Tagged();
    SameTagInCategory(PipboyMenuIconsPart2, ('m', 'e', 'n'), Pipboy);
    InCategoryAppend(PipboyMenuIconsPart1, PipboyMenuIconsPart2, Pipboy);
  }

  lemma DataIconsInCategory()
    ensures InCategory(DataIcons, Data)
  {
    DataPageIconsPart1Tagged();
    SameTagInCategory(DataPageIconsPart1, ('d', 'a', 't'), Data);
    DataPageIconsPart2Tagged();
    SameTagInCategory(DataPageIconsPart2, ('d', 'a', 't'), Data);
    InCategoryAppend(DataPageIconsPart1, DataPageIconsPart2, Data);
  }

  lemma StatsIconsInCategory()
    ensures InCategory(StatsIcons, Stats)
  {
    StatsPageIconsPart1Tagged();
    SameTagInCategory(StatsPageIconsPart1, ('s', 't', 'a'), Stats);
    StatsPageIconsPart2Tagged();
    SameTagInCategory(StatsPageIconsPart2, ('s', 't', 'a'), Stats);
    InCategoryAppend(StatsPageIconsPart1, StatsPageIconsPart2, Stats);
    AdditionalStatsIconsTagged();
    SameTagInCategory(AdditionalStatsIcons, ('s', 't', 'a'), Stats);
    InCategoryAppend(StatsPageIconsPart1 + StatsPageIconsPart2, AdditionalStatsIcons, Stats);
  }

  /** Every table of the set holds only names tagged with its own category, and only non-empty files. */
  ghost predicate Separated(icons: IconSet) {
    forall c :: InCategory(TableOf(icons, c), c)
  }

  /** The icons of the application are separated by the first three characters of their names. */
  lemma Fallout4IconsSeparated()
    ensures Separated(Fallout4Icons)
  {
    MapMarkerIconsInCategory();
    SpecialIconsInCategory();
    HealthIconsInCategory();
    InventoryIconsInCategory();
    PipboyIconsInCategory();
    DataIconsInCategory();
    StatsIconsInCategory();
    forall c ensures InCategory(TableOf(Fallout4Icons, c), c) {
    }
  }
}
