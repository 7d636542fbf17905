/**
 * The tag classifier of the map data file (`PropertySetter`): a feature's
 * key/value tags are turned into closed enumerations by matching the value
 * against fixed, ordered tables of prefixes.
 */
module Tags {
  import opened Wrappers

  // The closed enumerations. `NULL` is the default of every one of them.
  datatype Highway = NULL | MOTORWAY | TRUNK | PRIMARY | SECONDARY | TERTIARY | UNCLASSIFIED | RESIDENTIAL | ROAD
  datatype Place = NULL | CITY | LOCALITY | HAMLET | TOWN
  datatype LandUse =
    | NULL | RESIDENTIAL | INDUSTRIAL | FOREST | COMMERCIAL | CONSTRUCTION | MILITARY | QUARRY
    | BROWNFIELD | FARM | GRASS | GREENFIELD | RECREATION_GROUND | ALLOTMENTS | RECREATIONAL
    | TRANSPORT | AGRICULTURAL | ORCHARD | CEMETERY | SQUARE | MEADOW | WINTER_SPORTS | RESERVOIR | BASIN
  datatype Natural =
    | NULL | GRASSLAND | HEATH | MOOR | SCRUB | FELL | WETLAND | WOOD | TREE_ROW | BARE_ROCK
    | ROCK | SCREE | BEACH | SAND | WATER | MINERAL | FOREST | WILDLIFE
  datatype AdminLevel = NULL | LEVEL2
  datatype Boundary = NULL | ADMINISTRATIVE | FOREST
  datatype Water = NULL | RIVER | LAKE | OCEAN | STREAM | GLACIER
  datatype Railway = NULL | HEAVY | INTERCITY | HIGHSPEED | HERITAGE | MONORAIL | MOUNTAIN | PLATEWAY | RACK | TOURIST | WAGONWAY
  datatype Building = NULL | RESIDENTIAL | EDUCATIONAL | INSTITUTIONAL | ASSEMBLY | BUSINESS | MERCANTILE | INDUSTRIAL | STORAGE
  datatype PublicAmenity = NULL | RESIDENTIAL_HOME | PARK | SCHOOL | SHOPPING_CENTER | POST_OFFICE
  datatype PrivateAmenity = NULL | PRIVATE_ROAD | PRIVATE_DRIVEWAY | PRIVATE_CLUB | PRIVATE_LAND

  /** A tag: key and value. */
  type Tag = (string, string)

  // The lookup tables, in declaration order (the enumeration order of the
  // dictionaries they model, which is insertion order).

  const HighwayTable: seq<(string, Highway)> := [
    ("motorway", Highway.MOTORWAY),
    ("trunk", Highway.TRUNK),
    ("primary", Highway.PRIMARY),
    ("secondary", Highway.SECONDARY),
    ("tertiary", Highway.TERTIARY),
    ("unclassified", Highway.UNCLASSIFIED),
    ("residential", Highway.RESIDENTIAL),
    ("road", Highway.ROAD)
  ]

  const PlaceTable: seq<(string, Place)> := [
    ("city", Place.CITY),
    ("town", Place.TOWN),
    ("locality", Place.LOCALITY),
    ("hamlet", Place.HAMLET)
  ]

  const LandUseTable: seq<(string, LandUse)> := [
    ("forest", LandUse.FOREST),
    ("orchard", LandUse.ORCHARD),
    ("residential", LandUse.RESIDENTIAL),
    ("cemetery", LandUse.CEMETERY),
    ("industrial", LandUse.INDUSTRIAL),
    ("commercial", LandUse.COMMERCIAL),
    ("square", LandUse.SQUARE),
    ("construction", LandUse.CONSTRUCTION),
    ("military", LandUse.MILITARY),
    ("quarry", LandUse.QUARRY),
    ("brownfield", LandUse.BROWNFIELD),
    ("farm", LandUse.FARM),
    ("meadow", LandUse.MEADOW),
    ("grass", LandUse.GRASS),
    ("greenfield", LandUse.GREENFIELD),
    ("recreation_ground", LandUse.RECREATION_GROUND),
    ("winter_sports", LandUse.WINTER_SPORTS),
    ("allotments", LandUse.ALLOTMENTS),
    ("reservoir", LandUse.RESERVOIR),
    ("basin", LandUse.BASIN)
  ]

  const NaturalTable: seq<(string, Natural)> := [
    ("fell", Natural.FELL),
    ("grassland", Natural.GRASSLAND),
    ("heath", Natural.HEATH),
    ("moor", Natural.MOOR),
    ("scrub", Natural.SCRUB),
    ("wetland", Natural.WETLAND),
    ("wood", Natural.WOOD),
    ("tree_row", Natural.TREE_ROW),
    ("bare_rock", Natural.BARE_ROCK),
    ("rock", Natural.ROCK),
    ("scree", Natural.SCREE),
    ("beach", Natural.BEACH),
    ("sand", Natural.SAND),
    ("water", Natural.WATER)
  ]

  const AdminLevelTable: seq<(string, AdminLevel)> := [
    ("2", AdminLevel.LEVEL2)
  ]

  const BoundaryTable: seq<(string, Boundary)> := [
    ("administrative", Boundary.ADMINISTRATIVE),
    ("forest", Boundary.FOREST)
  ]

  /** `s.StartsWith(prefix)`, compared character by character. */
  predicate StartsWith(s: string, prefix: string) {
    |prefix| <= |s| && (prefix == [] || (prefix[0] == s[0] && StartsWith(s[1..], prefix[1..])))
  }

  /** The character-by-character definition is the sequence-prefix relation. */
  lemma {:induction false} StartsWithIsPrefix(s: string, prefix: string)
    ensures StartsWith(s, prefix) <==> prefix <= s
  {
    if prefix != [] && |prefix| <= |s| {
      StartsWithIsPrefix(s[1..], prefix[1..]);
      if prefix[0] == s[0] && prefix[1..] <= s[1..] {
        assert prefix == [prefix[0]] + prefix[1..] && s == [s[0]] + s[1..];
      }
    }
  }

  /** The index of the first entry of `table`, in order, whose key is a prefix of `value`. */
  function FirstPrefix<E>(table: seq<(string, E)>, value: string): (r: Option<nat>)
    ensures r.Some? ==>
      && r.value < |table|
      && StartsWith(value, table[r.value].0)
      && forall j :: 0 <= j < r.value ==> !StartsWith(value, table[j].0)
    ensures r.None? ==> forall j :: 0 <= j < |table| ==> !StartsWith(value, table[j].0)
  {
    if table == [] then None
    else if StartsWith(value, table[0].0) then Some(0)
    else match FirstPrefix(table[1..], value)
      case None => None
      case Some(i) => Some(i + 1)
  }

  /**
   * The enumeration a table assigns to `value`: the entry of the first key that
   * is a prefix of `value`, or `absent` (the enumeration's NULL, which
   * `TryGetValue` writes when its key is missing) if there is none.
   */
  function Lookup<E>(table: seq<(string, E)>, value: string, absent: E): E {
    match FirstPrefix(table, value)
    case Some(i) => table[i].1
    case None => absent
  }

  /** The categories the classifier recognises, by key prefix. */
  datatype Category = HighwayKey | BoundaryKey | NaturalKey | LandUseKey | AdminLevelKey | PlaceKey

  /** The category a key is filed under: the first prefix, in switch order, that the key starts with. */
  function Owner(key: string): Option<Category> {
    if StartsWith(key, "highway") then Some(HighwayKey)
    else if StartsWith(key, "boundary") then Some(BoundaryKey)
    else if StartsWith(key, "natural") then Some(NaturalKey)
    else if StartsWith(key, "landuse") then Some(LandUseKey)
    else if StartsWith(key, "admin_level") then Some(AdminLevelKey)
    else if StartsWith(key, "place") then Some(PlaceKey)
    else None
  }

  /** The classified tag set: the fields of a PropertySetter as one value. */
  datatype Classification = Classification(
    highway: Highway,
    water: Water,
    place: Place,
    railway: Railway,
    natural: Natural,
    landUse: LandUse,
    building: Building,
    boundary: Boundary,
    publicAmenity: PublicAmenity,
    privateAmenity: PrivateAmenity,
    adminLevel: AdminLevel,
    name: Option<string>)

  /** Every field NULL and no name: a freshly initialised PropertySetter. */
  const Unclassified := Classification(
    Highway.NULL, Water.NULL, Place.NULL, Railway.NULL, Natural.NULL, LandUse.NULL,
    Building.NULL, Boundary.NULL, PublicAmenity.NULL, PrivateAmenity.NULL, AdminLevel.NULL, None)

  /** One pass of the loop body: the tag overwrites the field of its category. */
  function Apply(c: Classification, tag: Tag): Classification {
    match Owner(tag.0)
    case None => c
    case Some(HighwayKey) => c.(highway := Lookup(HighwayTable, tag.1, Highway.NULL))
    case Some(BoundaryKey) => c.(boundary := Lookup(BoundaryTable, tag.1, Boundary.NULL))
    case Some(NaturalKey) => c.(natural := Lookup(NaturalTable, tag.1, Natural.NULL))
    case Some(LandUseKey) => c.(landUse := Lookup(LandUseTable, tag.1, LandUse.NULL))
    case Some(AdminLevelKey) => c.(adminLevel := Lookup(AdminLevelTable, tag.1, AdminLevel.NULL))
    case Some(PlaceKey) => c.(place := Lookup(PlaceTable, tag.1, Place.NULL))
  }

  /**
   * A tag of no recognised category changes nothing, and no tag writes water,
   * railway, building, either amenity or the name.
   */
  lemma ApplyLeavesOtherFields(c: Classification, tag: Tag)
    ensures Owner(tag.0).None? ==> Apply(c, tag) == c
    ensures var r := Apply(c, tag);
      && r.water == c.water && r.railway == c.railway && r.building == c.building
      && r.publicAmenity == c.publicAmenity && r.privateAmenity == c.privateAmenity && r.name == c.name
  {
  }

  /** The tags applied to `c` in order. */
  function ClassifyFrom(c: Classification, tags: seq<Tag>): Classification
    decreases |tags|
  {
    if tags == [] then c else Apply(ClassifyFrom(c, tags[..|tags| - 1]), tags[|tags| - 1])
  }

  /** The classification a new PropertySetter computes from its tags. */
  function Classify(tags: seq<Tag>): Classification {
    ClassifyFrom(Unclassified, tags)
  }

  /** The value of the last tag whose key is filed under `cat`, if any. */
  function LastValue(tags: seq<Tag>, cat: Category): Option<string>
    decreases |tags|
  {
    if tags == [] then None
    else if Owner(tags[|tags| - 1].0) == Some(cat) then Some(tags[|tags| - 1].1)
    else LastValue(tags[..|tags| - 1], cat)
  }

  /** A field's final value: the lookup of the last value of its category, or its initial value. */
  function Resolve<E>(last: Option<string>, table: seq<(string, E)>, absent: E, initial: E): E {
    match last
    case None => initial
    case Some(v) => Lookup(table, v, absent)
  }

  /**
   * The whole effect of a run of tags: each of the six recognised fields is
   * decided by the last tag of its category alone (first prefix in its table,
   * or NULL), and every other field is left as it was.
   */
  lemma {:induction false} ClassifyFromLastWins(c: Classification, tags: seq<Tag>)
    ensures var r := ClassifyFrom(c, tags);
      && r.highway == Resolve(LastValue(tags, HighwayKey), HighwayTable, Highway.NULL, c.highway)
      && r.boundary == Resolve(LastValue(tags, BoundaryKey), BoundaryTable, Boundary.NULL, c.boundary)
      && r.natural == Resolve(LastValue(tags, NaturalKey), NaturalTable, Natural.NULL, c.natural)
      && r.landUse == Resolve(LastValue(tags, LandUseKey), LandUseTable, LandUse.NULL, c.landUse)
      && r.adminLevel == Resolve(LastValue(tags, AdminLevelKey), AdminLevelTable, AdminLevel.NULL, c.adminLevel)
      && r.place == Resolve(LastValue(tags, PlaceKey), PlaceTable, Place.NULL, c.place)
      && r.water == c.water && r.railway == c.railway && r.building == c.building
      && r.publicAmenity == c.publicAmenity && r.privateAmenity == c.privateAmenity
      && r.name == c.name
    decreases |tags|
  {
    if tags != [] {
      var init, last := tags[..|tags| - 1], tags[|tags| - 1];
      ClassifyFromLastWins(c, init);
      assert ClassifyFrom(c, tags) == Apply(ClassifyFrom(c, init), last);
      match Owner(last.0)
      case None =>
      case Some(HighwayKey) =>
      case Some(BoundaryKey) =>
      case Some(NaturalKey) =>
      case Some(LandUseKey) =>
      case Some(AdminLevelKey) =>
      case Some(PlaceKey) =>
    }
  }

  /**
   * From a fresh PropertySetter: water, railway, building and both amenities
   * stay NULL and the name stays absent whatever the tags, and each recognised
   * field is NULL unless a tag of its category occurs.
   */
  lemma ClassifyLastWins(tags: seq<Tag>)
    ensures var r := Classify(tags);
      && r.highway == Resolve(LastValue(tags, HighwayKey), HighwayTable, Highway.NULL, Highway.NULL)
      && r.boundary == Resolve(LastValue(tags, BoundaryKey), BoundaryTable, Boundary.NULL, Boundary.NULL)
      && r.natural == Resolve(LastValue(tags, NaturalKey), NaturalTable, Natural.NULL, Natural.NULL)
      && r.landUse == Resolve(LastValue(tags, LandUseKey), LandUseTable, LandUse.NULL, LandUse.NULL)
      && r.adminLevel == Resolve(LastValue(tags, AdminLevelKey), AdminLevelTable, AdminLevel.NULL, AdminLevel.NULL)
      && r.place == Resolve(LastValue(tags, PlaceKey), PlaceTable, Place.NULL, Place.NULL)
      && r.water == Water.NULL && r.railway == Railway.NULL && r.building == Building.NULL
      && r.publicAmenity == PublicAmenity.NULL && r.privateAmenity == PrivateAmenity.NULL
      && r.name == None
  {
    ClassifyFromLastWins(Unclassified, tags);
  }

  /**
   * A later tag of a category overwrites whatever the earlier ones decided,
   * and resets the field to NULL when no table entry is a prefix of its value.
   */
  lemma LaterTagOverwrites(tags: seq<Tag>, key: string, value: string)
    requires Owner(key) == Some(HighwayKey)
    ensures Classify(tags + [(key, value)]).highway == Lookup(HighwayTable, value, Highway.NULL)
    ensures FirstPrefix(HighwayTable, value).None? ==> Classify(tags + [(key, value)]).highway == Highway.NULL
  {
    assert (tags + [(key, value)])[..|tags|] == tags;
  }

  /** A tag whose key has none of the six prefixes changes nothing, wherever it occurs. */
  lemma {:induction false} UnrecognisedTagIgnored(c: Classification, before: seq<Tag>, tag: Tag, after: seq<Tag>)
    requires Owner(tag.0).None?
    ensures ClassifyFrom(c, before + [tag] + after) == ClassifyFrom(c, before + after)
    decreases |after|
  {
    if after == [] {
      assert (before + [tag] + after)[..|before|] == before;
      assert before + after == before;
    } else {
      var n := |after|;
      UnrecognisedTagIgnored(c, before, tag, after[..n - 1]);
      assert (before + [tag] + after)[..|before| + 1 + n - 1] == before + [tag] + after[..n - 1];
      assert (before + after)[..|before| + n - 1] == before + after[..n - 1];
    }
  }

  /** No key among the first `i` entries of `table` is a prefix of `value`. */
  predicate NoPrefixBefore<E>(table: seq<(string, E)>, value: string, i: nat)
    requires i <= |table|
  {
    i == 0 || (!StartsWith(value, table[i - 1].0) && NoPrefixBefore(table, value, i - 1))
  }

  /** The lookup of a value is the entry at `i` when `i` is the first key that is a prefix of it. */
  lemma {:induction false} LookupAt<E>(table: seq<(string, E)>, value: string, absent: E, i: nat)
    requires i < |table| && StartsWith(value, table[i].0)
    requires NoPrefixBefore(table, value, i)
    ensures Lookup(table, value, absent) == table[i].1
  {
    var r := FirstPrefix(table, value);
    NoPrefixBeforeAll(table, value, i);
    if r.Some? {
      assert !(r.value < i) && !(i < r.value);
    }
  }

  lemma {:induction false} NoPrefixBeforeAll<E>(table: seq<(string, E)>, value: string, i: nat)
    requires i <= |table| && NoPrefixBefore(table, value, i)
    ensures forall j :: 0 <= j < i ==> !StartsWith(value, table[j].0)
  {
    if i > 0 {
      NoPrefixBeforeAll(table, value, i - 1);
    }
  }

  /** A value that starts with a highway class counts as that class: "motorway_link" is a MOTORWAY. */
  lemma HighwayExamples()
    ensures Lookup(HighwayTable, "motorway_link", Highway.NULL) == Highway.MOTORWAY
    ensures Lookup(HighwayTable, "trunk_link", Highway.NULL) == Highway.TRUNK
    ensures Lookup(HighwayTable, "xyz", Highway.NULL) == Highway.NULL
  {
    StartsWithIsPrefix("motorway_link", "motorway");
    StartsWithIsPrefix("trunk_link", "trunk");
    LookupAt(HighwayTable, "trunk_link", Highway.NULL, 1);
  }

  /** None of the first three land-use keys is a prefix of "grassland". */
  lemma GrasslandNotInFirstThree()
    ensures NoPrefixBefore(LandUseTable, "grassland", 3)
  {
    // each step unfolds NoPrefixBefore over one more table entry
    assert NoPrefixBefore(LandUseTable, "grassland", 1);
    assert NoPrefixBefore(LandUseTable, "grassland", 2);
  }

  /** Nor is any of the first six. */
  lemma GrasslandNotInFirstSix()
    ensures NoPrefixBefore(LandUseTable, "grassland", 6)
  {
    GrasslandNotInFirstThree();
    assert NoPrefixBefore(LandUseTable, "grassland", 4);
    assert NoPrefixBefore(LandUseTable, "grassland", 5);
  }

  /** Nor is any of the first nine. */
  lemma GrasslandNotInFirstNine()
    ensures NoPrefixBefore(LandUseTable, "grassland", 9)
  {
    GrasslandNotInFirstSix();
    assert NoPrefixBefore(LandUseTable, "grassland", 7);
    assert NoPrefixBefore(LandUseTable, "grassland", 8);
  }

  /** Nor is any of the first twelve. */
  lemma GrasslandNotInFirstTwelve()
    ensures NoPrefixBefore(LandUseTable, "grassland", 12)
  {
    GrasslandNotInFirstNine();
    assert NoPrefixBefore(LandUseTable, "grassland", 10);
    assert NoPrefixBefore(LandUseTable, "grassland", 11);
  }

  /** "grass", entry 13, is the first land-use key that is a prefix of "grassland". */
  lemma GrassIsFirstPrefix()
    ensures NoPrefixBefore(LandUseTable, "grassland", 13)
    ensures StartsWith("grassland", LandUseTable[13].0)
  {
    GrasslandNotInFirstTwelve();
    StartsWithIsPrefix("grassland", "grass");
  }

  /** "grassland" is not a land-use key, but "grass", the first key that is a prefix of it, is. */
  lemma LandUseExamples()
    ensures Lookup(LandUseTable, "grassland", LandUse.NULL) == LandUse.GRASS
  {
    GrassIsFirstPrefix();
    LookupAt(LandUseTable, "grassland", LandUse.NULL, 13);
  }

  /**
   * The PropertySetter: one field per category, all initialised to NULL,
   * overwritten by `SetDictionaries` as it walks the tags.
   */
  class PropertySetter {
    var highway: Highway
    var water: Water
    var place: Place
    var railway: Railway
    var natural: Natural
    var landUse: LandUse
    var building: Building
    var boundary: Boundary
    var publicAmenity: PublicAmenity
    var privateAmenity: PrivateAmenity
    var adminLevel: AdminLevel
    var name: Option<string>

    /** The current field values. */
    function Value(): Classification
      reads this
    {
      Classification(highway, water, place, railway, natural, landUse, building, boundary,
                     publicAmenity, privateAmenity, adminLevel, name)
    }

    /** `properties` lists the dictionary's entries in enumeration (insertion) order. */
    constructor (properties: seq<Tag>)
      ensures Value() == Classify(properties)
    {
      highway := Highway.NULL;
      water := Water.NULL;
      place := Place.NULL;
      railway := Railway.NULL;
      natural := Natural.NULL;
      landUse := LandUse.NULL;
      building := Building.NULL;
      boundary := Boundary.NULL;
      publicAmenity := PublicAmenity.NULL;
      privateAmenity := PrivateAmenity.NULL;
      adminLevel := AdminLevel.NULL;
      name := None;
      new;
      SetDictionaries(properties);
    }

    /** Walks the tags in order; a tag of a recognised category overwrites that field. */
    method SetDictionaries(properties: seq<Tag>)
      modifies this
      ensures Value() == ClassifyFrom(old(Value()), properties)
    {
      for i := 0 to |properties|
        invariant Value() == ClassifyFrom(old(Value()), properties[..i])
      {
        var (key, value) := properties[i];
        SetEntry(key, value);
        assert properties[..i + 1][..i] == properties[..i];
      }
      assert properties[..|properties|] == properties;
    }

    /** The `switch (true)` on one dictionary entry: `Owner` picks the first case whose key prefix matches. */
    method SetEntry(key: string, value: string)
      modifies this
      ensures Value() == Apply(old(Value()), (key, value))
    {
      match Owner(key) {
        case None =>
        case Some(HighwayKey) => highway := Lookup(HighwayTable, value, Highway.NULL);
        case Some(BoundaryKey) => boundary := Lookup(BoundaryTable, value, Boundary.NULL);
        case Some(NaturalKey) => natural := Lookup(NaturalTable, value, Natural.NULL);
        case Some(LandUseKey) => landUse := Lookup(LandUseTable, value, LandUse.NULL);
        case Some(AdminLevelKey) => adminLevel := Lookup(AdminLevelTable, value, AdminLevel.NULL);
        case Some(PlaceKey) => place := Lookup(PlaceTable, value, Place.NULL);
      }
    }
  }
}
