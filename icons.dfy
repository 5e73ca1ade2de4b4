/**
 * The lookups of the icon component: the merged table `allIcons`, the
 * category name lists `iconCategories`, the folder of an icon, its URL, the
 * `<img>` the component renders, the sorted list of all names and the names
 * of one category.
 */
module Icons {
  import opened Wrappers
  import opened JsString
  import opened IconTables

  /** `import.meta.env.BASE_URL`: the `base` of the build configuration. */
  const BaseUrl := "/fallout_cv_app/"

  // ---------------------------------------------------------------- objects built from entries

  /** Some entry of `entries` has this name. */
  ghost predicate HasName(entries: IconMapping, name: string) {
    exists i :: 0 <= i < |entries| && entries[i].0 == name
  }

  /** `obj[name]` for the object the entries build: a later entry overrides an earlier one, `undefined` if none. */
  function Get(entries: IconMapping, name: string): Option<string> {
    if entries == [] then None
    else if entries[|entries| - 1].0 == name then Some(entries[|entries| - 1].1)
    else Get(entries[..|entries| - 1], name)
  }

  /** `Object.keys(obj)`: every name in order of first appearance, once. */
  function ObjectKeys(entries: IconMapping): seq<string> {
    if entries == [] then []
    else
      var front := ObjectKeys(entries[..|entries| - 1]);
      var name := entries[|entries| - 1].0;
      if name in front then front else front + [name]
  }

  /** A property is defined exactly when some entry has its name, and it holds the file of the last such entry. */
  lemma {:induction false} GetLast(entries: IconMapping, name: string)
    ensures Get(entries, name).Some? <==> HasName(entries, name)
    ensures Get(entries, name).Some? ==>
      exists i :: 0 <= i < |entries| && entries[i] == (name, Get(entries, name).value) &&
        forall j :: i < j < |entries| ==> entries[j].0 != name
  {
    if entries != [] {
      var front := entries[..|entries| - 1];
      var n := |entries| - 1;
      GetLast(front, name);
      if entries[n].0 == name {
        assert entries[n] == (name, Get(entries, name).value);
      } else {
        assert forall i :: 0 <= i < |front| ==> front[i] == entries[i];
        if HasName(entries, name) {
          var i :| 0 <= i < |entries| && entries[i].0 == name;
          assert front[i].0 == name;
        }
      }
    }
  }

  /** `{ ...a, ...b }`: a name of `b` reads from `b`, any other from `a`. */
  lemma {:induction false} GetSpread(a: IconMapping, b: IconMapping, name: string)
    ensures Get(a + b, name) == if Get(b, name).Some? then Get(b, name) else Get(a, name)
  {
    if b != [] {
      var n := |b| - 1;
      assert (a + b)[|a + b| - 1] == b[n];
      assert (a + b)[..|a + b| - 1] == a + b[..n];
      GetSpread(a, b[..n], name);
    } else {
      assert a + b == a;
    }
  }

  /** `Object.keys` lists exactly the names of the entries, each once. */
  lemma {:induction false} ObjectKeysMembers(entries: IconMapping)
    ensures forall name :: name in ObjectKeys(entries) <==> HasName(entries, name)
    ensures forall name :: multiset(ObjectKeys(entries))[name] <= 1
  {
    if entries != [] {
      var front := entries[..|entries| - 1];
      ObjectKeysMembers(front);
      assert forall i :: 0 <= i < |front| ==> front[i] == entries[i];
      forall name | HasName(entries, name) ensures name in ObjectKeys(entries) {
        var i :| 0 <= i < |entries| && entries[i].0 == name;
        if i < |front| {
          assert front[i].0 == name;
        }
      }
      forall name | name in ObjectKeys(entries) ensures HasName(entries, name) {
        if name in ObjectKeys(front) {
          var i :| 0 <= i < |front| && front[i].0 == name;
          assert entries[i].0 == name;
        } else {
          assert entries[|entries| - 1].0 == name;
        }
      }
    }
  }

  // ---------------------------------------------------------------- allIcons and iconCategories

  /** `allIcons`: the seven tables spread in order. */
  function AllIcons(icons: IconSet): IconMapping {
    icons.mapMarkers + icons.special + icons.health + icons.inventory + icons.pipboy + icons.data + icons.stats
  }

  /** `iconCategories[c]`: the names of one table. */
  function IconCategory(icons: IconSet, c: Category): seq<string> {
    ObjectKeys(TableOf(icons, c))
  }

  /** The key of a category in `iconCategories`. */
  function CategoryKey(c: Category): string {
    match c
    case MapMarkers => "mapMarkers"
    case Special => "special"
    case Health => "health"
    case Inventory => "inventory"
    case Pipboy => "pipboy"
    case Data => "data"
    case Stats => "stats"
  }

  /** The folder under `icons/` that holds the files of a category. */
  function FolderName(c: Category): string {
    match c
    case MapMarkers => "FO4MapMarkers"
    case Special => "FO4SpecialIcons"
    case Health => "FO4HealthConditionIcons"
    case Inventory => "FO4InvPageIcons"
    case Pipboy => "FO4PipboyMenuIcons"
    case Data => "FO4DataPageIcons"
    case Stats => "FO4StatsPageIcons"
  }

  /** In a separated set, a name of a table starts with that table's three characters. */
  lemma KeyTagged(icons: IconSet, c: Category, name: string)
    requires Separated(icons) && name in IconCategory(icons, c)
    ensures |name| >= 3 && CategoryOfTag(Tag(name)) == Some(c)
  {
    ObjectKeysMembers(TableOf(icons, c));
    assert InCategory(TableOf(icons, c), c);
  }

  /** In a separated set no name is in two tables. */
  lemma CategoriesDisjoint(icons: IconSet, c1: Category, c2: Category, name: string)
    requires Separated(icons) && name in IconCategory(icons, c1) && name in IconCategory(icons, c2)
    ensures c1 == c2
  {
    KeyTagged(icons, c1, name);
    KeyTagged(icons, c2, name);
  }

  /** A name shorter than three characters, or with three first characters no table uses, is in no table. */
  lemma UntaggedUnknown(icons: IconSet, name: string, c: Category)
    requires Separated(icons) && (|name| < 3 || CategoryOfTag(Tag(name)).None?)
    ensures name !in IconCategory(icons, c)
  {
    if name in IconCategory(icons, c) {
      KeyTagged(icons, c, name);
    }
  }

  // ---------------------------------------------------------------- getIconFolder

  /** `getIconFolder(iconName)`: the folder of the first category listing the name, else the map markers. */
  function GetIconFolder(icons: IconSet, iconName: string): string {
    if iconName in IconCategory(icons, MapMarkers) then FolderName(MapMarkers)
    else if iconName in IconCategory(icons, Special) then FolderName(Special)
    else if iconName in IconCategory(icons, Health) then FolderName(Health)
    else if iconName in IconCategory(icons, Inventory) then FolderName(Inventory)
    else if iconName in IconCategory(icons, Pipboy) then FolderName(Pipboy)
    else if iconName in IconCategory(icons, Data) then FolderName(Data)
    else if iconName in IconCategory(icons, Stats) then FolderName(Stats)
    else "FO4MapMarkers"
  }

  /** In a separated set every name of a table resolves to that table's folder; a name of no table to the map markers. */
  lemma FolderLookup(icons: IconSet, iconName: string)
    requires Separated(icons)
    ensures forall c :: iconName in IconCategory(icons, c) ==> GetIconFolder(icons, iconName) == FolderName(c)
    ensures (forall c :: iconName !in IconCategory(icons, c)) ==> GetIconFolder(icons, iconName) == "FO4MapMarkers"
  {
    forall c | iconName in IconCategory(icons, c) ensures GetIconFolder(icons, iconName) == FolderName(c) {
      FolderOfListed(icons, c, iconName);
    }
  }

  lemma FolderOfListed(icons: IconSet, c: Category, iconName: string)
    requires Separated(icons) && iconName in IconCategory(icons, c)
    ensures GetIconFolder(icons, iconName) == FolderName(c)
  {
    if c != MapMarkers { ListedOnce(icons, c, MapMarkers, iconName); }
    if c != Special { ListedOnce(icons, c, Special, iconName); }
    if c != Health { ListedOnce(icons, c, Health, iconName); }
    if c != Inventory { ListedOnce(icons, c, Inventory, iconName); }
    if c != Pipboy { ListedOnce(icons, c, Pipboy, iconName); }
    if c != Data { ListedOnce(icons, c, Data, iconName); }
  }

  lemma ListedOnce(icons: IconSet, c: Category, c': Category, name: string)
    requires Separated(icons) && name in IconCategory(icons, c) && c' != c
    ensures name !in IconCategory(icons, c')
  {
    if name in IconCategory(icons, c') {
      CategoriesDisjoint(icons, c, c', name);
    }
  }

  // ---------------------------------------------------------------- allIcons[name]

  /** `{ ...a1, ..., ...a7 }` reads a name from the last table that defines it. */
  lemma GetAllIcons(icons: IconSet, name: string)
    ensures Get(AllIcons(icons), name) ==
      if Get(icons.stats, name).Some? then Get(icons.stats, name)
      else if Get(icons.data, name).Some? then Get(icons.data, name)
      else if Get(icons.pipboy, name).Some? then Get(icons.pipboy, name)
      else if Get(icons.inventory, name).Some? then Get(icons.inventory, name)
      else if Get(icons.health, name).Some? then Get(icons.health, name)
      else if Get(icons.special, name).Some? then Get(icons.special, name)
      else Get(icons.mapMarkers, name)
  {
    var a2 := icons.mapMarkers + icons.special;
    var a3 := a2 + icons.health;
    var a4 := a3 + icons.inventory;
    var a5 := a4 + icons.pipboy;
    var a6 := a5 + icons.data;
    GetSpread(icons.mapMarkers, icons.special, name);
    GetSpread(a2, icons.health, name);
    GetSpread(a3, icons.inventory, name);
    GetSpread(a4, icons.pipboy, name);
    GetSpread(a5, icons.data, name);
    GetSpread(a6, icons.stats, name);
  }

  /** A name is defined in a table exactly when the table lists it. */
  lemma GetListed(icons: IconSet, c: Category, name: string)
    ensures Get(TableOf(icons, c), name).Some? <==> name in IconCategory(icons, c)
  {
    GetLast(TableOf(icons, c), name);
    ObjectKeysMembers(TableOf(icons, c));
  }

  /** In a separated set the merged table reads every name of a table from that table, and the file there is non-empty. */
  lemma AllIconsReadsTable(icons: IconSet, c: Category, name: string)
    requires Separated(icons) && name in IconCategory(icons, c)
    ensures Get(AllIcons(icons), name) == Get(TableOf(icons, c), name)
    ensures Get(TableOf(icons, c), name).Some? && Get(TableOf(icons, c), name).value != ""
  {
    forall c' ensures Get(TableOf(icons, c'), name).Some? <==> c' == c {
      GetListed(icons, c', name);
      if name in IconCategory(icons, c') {
        CategoriesDisjoint(icons, c, c', name);
      }
    }
    assert Get(icons.stats, name) == Get(TableOf(icons, Stats), name);
    assert Get(icons.data, name) == Get(TableOf(icons, Data), name);
    assert Get(icons.pipboy, name) == Get(TableOf(icons, Pipboy), name);
    assert Get(icons.inventory, name) == Get(TableOf(icons, Inventory), name);
    assert Get(icons.health, name) == Get(TableOf(icons, Health), name);
    assert Get(icons.special, name) == Get(TableOf(icons, Special), name);
    assert Get(icons.mapMarkers, name) == Get(TableOf(icons, MapMarkers), name);
    GetAllIcons(icons, name);
    var t := TableOf(icons, c);
    GetLast(t, name);
    var i :| 0 <= i < |t| && t[i] == (name, Get(t, name).value);
    assert InCategory(t, c);
  }

  /** A name of no table is `undefined` in the merged table. */
  lemma AllIconsMissing(icons: IconSet, name: string)
    requires forall c :: name !in IconCategory(icons, c)
    ensures Get(AllIcons(icons), name).None?
  {
    forall c ensures Get(TableOf(icons, c), name).None? {
      GetListed(icons, c, name);
    }
    assert Get(icons.stats, name) == Get(TableOf(icons, Stats), name);
    assert Get(icons.data, name) == Get(TableOf(icons, Data), name);
    assert Get(icons.pipboy, name) == Get(TableOf(icons, Pipboy), name);
    assert Get(icons.inventory, name) == Get(TableOf(icons, Inventory), name);
    assert Get(icons.health, name) == Get(TableOf(icons, Health), name);
    assert Get(icons.special, name) == Get(TableOf(icons, Special), name);
    assert Get(icons.mapMarkers, name) == Get(TableOf(icons, MapMarkers), name);
    GetAllIcons(icons, name);
  }

  // ---------------------------------------------------------------- getIconUrl and the component

  /** `getIconUrl(iconName)`: the file under its folder, or the fixed fallback icon when the file is missing. */
  function GetIconUrl(icons: IconSet, iconName: string): string {
    var iconFile := Get(AllIcons(icons), iconName);
    if iconFile.None? || iconFile.value == "" then BaseUrl + "icons/FO4MapMarkers/icon_94.svg"
    else BaseUrl + "icons/" + GetIconFolder(icons, iconName) + "/" + iconFile.value
  }

  /** In a separated set a name of a table gets the URL of its own file in its own folder. */
  lemma IconUrlKnown(icons: IconSet, c: Category, iconName: string)
    requires Separated(icons) && iconName in IconCategory(icons, c)
    ensures Get(TableOf(icons, c), iconName).Some?
    ensures GetIconUrl(icons, iconName) == "/fallout_cv_app/icons/" + FolderName(c) + "/" + Get(TableOf(icons, c), iconName).value
  {
    AllIconsReadsTable(icons, c, iconName);
    FolderOfListed(icons, c, iconName);
    UrlPrefix();
  }

  /** A name of no table gets the fallback icon. */
  lemma IconUrlUnknown(icons: IconSet, iconName: string)
    requires forall c :: iconName !in IconCategory(icons, c)
    ensures GetIconUrl(icons, iconName) == "/fallout_cv_app/icons/FO4MapMarkers/icon_94.svg"
  {
    AllIconsMissing(icons, iconName);
    UrlPrefix();
  }

  /** The base and the `icons/` directory spelled out. */
  lemma UrlPrefix()
    ensures BaseUrl + "icons/" == "/fallout_cv_app/icons/"
    ensures BaseUrl + "icons/FO4MapMarkers/icon_94.svg" == "/fallout_cv_app/icons/FO4MapMarkers/icon_94.svg"
  {
  }

  /** The map asks for `quest-main`, which no table of the application has, so it gets the fallback icon. */
  lemma QuestMainFallback()
    ensures GetIconUrl(Fallout4Icons, "quest-main") == "/fallout_cv_app/icons/FO4MapMarkers/icon_94.svg"
  {
    Fallout4IconsSeparated();
    assert Tag("quest-main") == ('q', 'u', 'e');
    forall c ensures "quest-main" !in IconCategory(Fallout4Icons, c) {
      UntaggedUnknown(Fallout4Icons, "quest-main", c);
    }
    IconUrlUnknown(Fallout4Icons, "quest-main");
  }

  /** What the `Icon` component renders: an `<img>` with this source and alternative text. */
  datatype IconImage = IconImage(src: string, alt: string)

  /** `Icon({ name, alt })`: nothing when the file is missing, else the image of the file. */
  function IconElement(icons: IconSet, name: string, alt: Option<string>): Option<IconImage> {
    var iconFile := Get(AllIcons(icons), name);
    if iconFile.None? || iconFile.value == "" then None
    else
      var iconPath := BaseUrl + "icons/" + GetIconFolder(icons, name) + "/" + iconFile.value;
      Some(IconImage(iconPath, if alt.Some? && alt.value != "" then alt.value else name + " icon"))
  }

  /**
   * In a separated set the component renders an image exactly for the names
   * of the tables, its source is the URL `getIconUrl` gives, and its text is
   * the given one or the name followed by " icon".
   */
  lemma IconRendersKnownNames(icons: IconSet, name: string, alt: Option<string>)
    requires Separated(icons)
    ensures IconElement(icons, name, alt).Some? <==> exists c :: name in IconCategory(icons, c)
    ensures IconElement(icons, name, alt).Some? ==> IconElement(icons, name, alt).value.src == GetIconUrl(icons, name)
    ensures IconElement(icons, name, alt).Some? ==>
      IconElement(icons, name, alt).value.alt == (if alt.Some? && alt.value != "" then alt.value else name + " icon")
  {
    if exists c :: name in IconCategory(icons, c) {
      var c :| name in IconCategory(icons, c);
      AllIconsReadsTable(icons, c, name);
    } else {
      AllIconsMissing(icons, name);
    }
  }

  // ---------------------------------------------------------------- getAvailableIcons and getIconsByCategory

  /** `getAvailableIcons()`: the names of the merged table in the default string order. */
  function GetAvailableIcons(icons: IconSet): seq<string> {
    SortStrings(ObjectKeys(AllIcons(icons)))
  }

  /** The list is sorted and holds every defined name of the merged table exactly once. */
  lemma AvailableIconsSorted(icons: IconSet)
    ensures SortedStrings(GetAvailableIcons(icons))
    ensures forall name :: name in GetAvailableIcons(icons) <==> Get(AllIcons(icons), name).Some?
    ensures forall name :: multiset(GetAvailableIcons(icons))[name] <= 1
  {
    var keys := ObjectKeys(AllIcons(icons));
    SortStringsSorted(keys);
    ObjectKeysMembers(AllIcons(icons));
    forall name ensures name in GetAvailableIcons(icons) <==> Get(AllIcons(icons), name).Some? {
      GetLast(AllIcons(icons), name);
      assert name in GetAvailableIcons(icons) <==> name in multiset(keys);
    }
  }

  /** The category a key of `iconCategories` names; any other string names none. */
  function CategoryNamed(category: string): Option<Category> {
    if category == CategoryKey(MapMarkers) then Some(MapMarkers)
    else if category == CategoryKey(Special) then Some(Special)
    else if category == CategoryKey(Health) then Some(Health)
    else if category == CategoryKey(Inventory) then Some(Inventory)
    else if category == CategoryKey(Pipboy) then Some(Pipboy)
    else if category == CategoryKey(Data) then Some(Data)
    else if category == CategoryKey(Stats) then Some(Stats)
    else None
  }

  /** `getIconsByCategory(category)`: that category's names, or `[]` for a key that is not one. */
  function GetIconsByCategory(icons: IconSet, category: string): seq<string> {
    match CategoryNamed(category)
    case Some(c) => IconCategory(icons, c)
    case None => []
  }

  /** Each of the seven keys gives its category's names, and any other string gives `[]`. */
  lemma IconsByCategory(icons: IconSet, category: string)
    ensures forall c :: category == CategoryKey(c) ==> GetIconsByCategory(icons, category) == IconCategory(icons, c)
    ensures (forall c :: category != CategoryKey(c)) ==> GetIconsByCategory(icons, category) == []
  {
  }

  /** The list of a category's key is that category's names. */
  lemma ByCategoryKey(icons: IconSet, c: Category)
    ensures GetIconsByCategory(icons, CategoryKey(c)) == IconCategory(icons, c)
  {
    IconsByCategory(icons, CategoryKey(c));
  }

  /**
   * In a separated set the category lists share out the available icons: a
   * name is available exactly when some category lists it, and a listed name
   * resolves to that category's folder.
   */
  lemma CategoriesShareAvailable(icons: IconSet, name: string)
    requires Separated(icons)
    ensures name in GetAvailableIcons(icons) <==> exists c :: name in GetIconsByCategory(icons, CategoryKey(c))
    ensures forall c :: name in GetIconsByCategory(icons, CategoryKey(c)) ==> GetIconFolder(icons, name) == FolderName(c)
  {
    AvailableIconsSorted(icons);
    forall c ensures GetIconsByCategory(icons, CategoryKey(c)) == IconCategory(icons, c) {
      ByCategoryKey(icons, c);
    }
    if exists c :: name in IconCategory(icons, c) {
      var c :| name in IconCategory(icons, c);
      AllIconsReadsTable(icons, c, name);
    } else {
      AllIconsMissing(icons, name);
    }
    forall c | name in IconCategory(icons, c) ensures GetIconFolder(icons, name) == FolderName(c) {
      FolderOfListed(icons, c, name);
    }
  }
}
