/**
 * The map data file: a read-only mapped region holding
 *   FileHeader | TileHeaderEntry[TileCount] | per tile: TileBlockHeader | MapFeature[FeaturesCount]
 * with each tile's coordinate array, string-entry array and character blob
 * located by byte offsets in its TileBlockHeader, and the query that visits
 * every feature with a vertex inside a bounding box.
 */
module MemoryMapped {
  import opened Wrappers
  import Tags

  /** A record size in bytes (`Marshal.SizeOf` of a struct): always positive. */
  type Size = x: int | x > 0 witness 1

  datatype GeometryType = Point | Line | Polygon

  datatype FileHeader = FileHeader(tileCount: int)
  datatype TileHeaderEntry = TileHeaderEntry(id: int, offsetInBytes: nat)
  datatype TileBlockHeader = TileBlockHeader(
    featuresCount: int,
    coordinatesCount: int,
    stringCount: int,
    charactersCount: int,
    coordinatesOffsetInBytes: nat,
    stringsOffsetInBytes: nat,
    charactersOffsetInBytes: nat)
  /** `coordinateOffset` and `propertiesOffset` index the tile's coordinate and string-entry arrays. */
  datatype MapFeature = MapFeature(
    id: int,
    geometryType: GeometryType,
    coordinateOffset: int,
    coordinateCount: int,
    labelOffset: int,
    propertiesOffset: int,
    propertyCount: int)
  datatype Coordinate = Coordinate(latitude: real, longitude: real)
  /** `offset` and `length` count 2-byte characters of the tile's character blob. */
  datatype StringEntry = StringEntry(offset: int, length: int)

  /**
   * The mapped region seen through typed views: `tileHeaderAt(a)` is the
   * TileHeaderEntry whose first byte is at address `a`, and so on. The file
   * header sits at address 0.
   */
  datatype MappedFile = MappedFile(
    header: FileHeader,
    tileHeaderAt: int -> TileHeaderEntry,
    tileBlockAt: int -> TileBlockHeader,
    featureAt: int -> MapFeature,
    coordinateAt: int -> Coordinate,
    stringEntryAt: int -> StringEntry,
    charAt: int -> char)

  datatype RecordSizes = RecordSizes(
    coordinate: Size,
    fileHeader: Size,
    mapFeature: Size,
    stringEntry: Size,
    tileBlockHeader: Size,
    tileHeaderEntry: Size)

  /** The exceptions a query can raise. */
  datatype Error =
    | NegativeSpanLength   // a ReadOnlySpan created with a negative length
    | NegativeCapacity     // a Dictionary created with a negative capacity
    | OddPropertyIndex     // GetProperty called on an odd string index
    | DuplicateKey         // Dictionary.Add with a key already present

  datatype Result<T> = Ok(value: T) | Err(error: Error)

  /**
   * What the visitor receives for one feature. `dictionary` holds the property
   * pairs in insertion order; `Properties()` is what the PropertySetter built
   * from them holds (the constructor `Tags.PropertySetter` computes the same).
   */
  datatype MapFeatureData = MapFeatureData(
    id: int,
    geometryType: GeometryType,
    labelText: string,
    coordinates: seq<Coordinate>,
    dictionary: seq<Tags.Tag>)
  {
    function Properties(): Tags.Classification {
      Tags.Classify(dictionary)
    }
  }

  /** The visitor calls a query made, in order, and the exception that ended it, if any. */
  datatype Run = Run(calls: seq<MapFeatureData>, failure: Option<Error>)

  function Prepend(calls: seq<MapFeatureData>, r: Run): Run {
    Run(calls + r.calls, r.failure)
  }

  /** Run `first`, then `next` unless `first` raised. */
  function Then(first: Run, next: Run): Run {
    if first.failure.Some? then first else Prepend(first.calls, next)
  }

  /** Sequencing runs is associative, and the empty run is its unit. */
  lemma ThenAssociative(x: Run, y: Run, z: Run)
    ensures Then(x, Then(y, z)) == Then(Then(x, y), z)
    ensures Then(Run([], None), x) == x && Then(x, Run([], None)) == x
  {
    if x.failure.None? && y.failure.None? {
      assert x.calls + (y.calls + z.calls) == (x.calls + y.calls) + z.calls;
    }
    assert [] + x.calls == x.calls && x.calls + [] == x.calls;
  }

  /** Some vertex lies inside the box. */
  predicate AnyInside(coordinates: seq<Coordinate>, contains: Coordinate -> bool) {
    exists k :: 0 <= k < |coordinates| && contains(coordinates[k])
  }

  /** Every feature in `calls` has a vertex inside the box. */
  predicate AllInside(calls: seq<MapFeatureData>, contains: Coordinate -> bool) {
    forall k :: 0 <= k < |calls| ==> AnyInside(calls[k].coordinates, contains)
  }

  /** A key/value list in which no key occurs twice, as in a Dictionary. */
  predicate DistinctKeys(properties: seq<Tags.Tag>) {
    forall p, q :: 0 <= p < q < |properties| ==> properties[p].0 != properties[q].0
  }

  predicate HasKey(properties: seq<Tags.Tag>, key: string) {
    exists p :: 0 <= p < |properties| && properties[p].0 == key
  }

  class DataFile {
    const file: MappedFile
    const sizes: RecordSizes
    var disposedValue: bool
    /** How many times the view's base address, the view and the mapping have been released. */
    var releases: nat

    /** Resources are released at most once, and only on the way to being disposed. */
    ghost predicate Valid()
      reads this
    {
      releases <= 1 && (releases == 1 ==> disposedValue)
    }

    /** The mapping itself is not modelled: the region and the record sizes are given. */
    constructor (file: MappedFile, sizes: RecordSizes)
      ensures this.file == file && this.sizes == sizes
      ensures Valid() && !disposedValue && releases == 0
    {
      this.file := file;
      this.sizes := sizes;
      disposedValue := false;
      releases := 0;
    }

    method Dispose()
      requires Valid()
      modifies this
      ensures Valid() && disposedValue
      ensures releases == if old(disposedValue) then old(releases) else 1
    {
      DisposeCore(true);
    }

    /** `Dispose(bool disposing)`: releases only on the first call, and only when disposing. */
    method DisposeCore(disposing: bool)
      requires Valid()
      modifies this
      ensures Valid() && disposedValue
      ensures releases == if !old(disposedValue) && disposing then old(releases) + 1 else old(releases)
    {
      if !disposedValue {
        if disposing {
          releases := releases + 1;
        }
        disposedValue := true;
      }
    }

    // ---- Record addresses ----

    /** Address of the i-th TileHeaderEntry. */
    function TileHeaderAddress(i: int): int {
      i * sizes.tileHeaderEntry + sizes.fileHeader
    }

    function GetNthTileHeader(i: int): TileHeaderEntry {
      file.tileHeaderAt(TileHeaderAddress(i))
    }

    /** Address of the i-th MapFeature of the tile whose block header is at `tileOffset`. */
    function FeatureAddress(i: int, tileOffset: int): int {
      tileOffset + sizes.tileBlockHeader + i * sizes.mapFeature
    }

    function GetFeature(i: int, tileOffset: int): MapFeature {
      file.featureAt(FeatureAddress(i, tileOffset))
    }

    // ---- Tile lookup ----

    /** Entry i is the first among the TileCount entries whose ID is `tileId`. */
    predicate FirstWithId(tileId: int, i: int) {
      && 0 <= i < file.header.tileCount
      && GetNthTileHeader(i).id == tileId
      && forall j :: 0 <= j < i ==> GetNthTileHeader(j).id != tileId
    }

    /** The linear scan from entry i on. */
    function LocateTileFrom(tileId: int, i: nat): (r: Option<(TileBlockHeader, nat)>)
      ensures r.None? ==> forall j :: i <= j < file.header.tileCount ==> GetNthTileHeader(j).id != tileId
      ensures r.Some? ==>
        exists k :: i <= k < file.header.tileCount
          && GetNthTileHeader(k).id == tileId
          && (forall j :: i <= j < k ==> GetNthTileHeader(j).id != tileId)
          && r.value == (file.tileBlockAt(GetNthTileHeader(k).offsetInBytes), GetNthTileHeader(k).offsetInBytes)
      decreases file.header.tileCount - i
    {
      if i >= file.header.tileCount then None
      else if GetNthTileHeader(i).id == tileId then
        var offset := GetNthTileHeader(i).offsetInBytes;
        Some((file.tileBlockAt(offset), offset))
      else LocateTileFrom(tileId, i + 1)
    }

    /**
     * The tile with ID `tileId`: the block header at the offset of the first
     * matching entry, in index order, and that offset; none when no entry matches.
     */
    function LocateTile(tileId: int): (r: Option<(TileBlockHeader, nat)>)
      ensures r.None? <==> forall i :: 0 <= i < file.header.tileCount ==> GetNthTileHeader(i).id != tileId
      ensures r.Some? ==>
        exists i :: FirstWithId(tileId, i)
          && r.value == (file.tileBlockAt(GetNthTileHeader(i).offsetInBytes), GetNthTileHeader(i).offsetInBytes)
    {
      LocateTileFrom(tileId, 0)
    }

    /** `GetTile`: a linear scan that returns at the first entry whose ID matches, or `(null, 0)`. */
    method GetTile(tileId: int) returns (tile: Option<TileBlockHeader>, tileOffset: nat)
      ensures LocateTile(tileId) == if tile.Some? then Some((tile.value, tileOffset)) else None
      ensures tile.None? ==> tileOffset == 0
    {
      tileOffset := 0;
      var i := 0;
      while i < file.header.tileCount
        invariant 0 <= i
        invariant LocateTile(tileId) == LocateTileFrom(tileId, i)
      {
        var tileHeaderEntry := GetNthTileHeader(i);
        if tileHeaderEntry.id == tileId {
          tileOffset := tileHeaderEntry.offsetInBytes;
          return Some(file.tileBlockAt(tileOffset)), tileOffset;
        }
        i := i + 1;
      }
      tile := None;
    }

    // ---- Coordinates and strings ----

    /**
     * `count` coordinates starting with element `ith` of the coordinate array at
     * `coordinateOffset`; a negative count is rejected by the span.
     */
    function GetCoordinates(coordinateOffset: int, ith: int, count: int): (r: Result<seq<Coordinate>>)
      ensures r.Err? <==> count < 0
      ensures r.Err? ==> r.error == NegativeSpanLength
      ensures r.Ok? ==>
        && |r.value| == count
        && forall k :: 0 <= k < count ==> r.value[k] == file.coordinateAt(coordinateOffset + (ith + k) * sizes.coordinate)
    {
      if count < 0 then Err(NegativeSpanLength)
      else
        var start := coordinateOffset + ith * sizes.coordinate;
        var view := seq(count, k requires 0 <= k < count => file.coordinateAt(start + k * sizes.coordinate));
        assert forall k :: 0 <= k < count ==> start + k * sizes.coordinate == coordinateOffset + (ith + k) * sizes.coordinate;
        Ok(view)
    }

    /** A feature's coordinates are the slice [ith, ith + count) of its tile's coordinate array. */
    lemma CoordinatesAreTileSlice(coordinateOffset: int, ith: int, count: int, total: int)
      requires 0 <= ith && 0 <= count && ith + count <= total
      ensures GetCoordinates(coordinateOffset, ith, count)
           == Ok(GetCoordinates(coordinateOffset, 0, total).value[ith..ith + count])
    {
      var all := GetCoordinates(coordinateOffset, 0, total).value;
      var view := GetCoordinates(coordinateOffset, ith, count).value;
      assert forall k :: 0 <= k < count ==> view[k] == all[ith + k];
      assert view == all[ith..ith + count];
    }

    function GetStringEntry(stringsOffset: int, i: int): StringEntry {
      file.stringEntryAt(stringsOffset + i * sizes.stringEntry)
    }

    /** The characters of a tile's character blob at `charsOffset`, `count` of them. */
    function Characters(charsOffset: int, count: nat): seq<char> {
      seq(count, k requires 0 <= k < count => file.charAt(charsOffset + 2 * k))
    }

    /**
     * String i of a tile: `Length` characters of 2 bytes each, starting at
     * character `Offset` of the blob; a negative length is rejected by the span.
     */
    function GetString(stringsOffset: int, charsOffset: int, i: int): (r: Result<string>)
      ensures var entry := GetStringEntry(stringsOffset, i);
        && (r.Err? <==> entry.length < 0)
        && (r.Err? ==> r.error == NegativeSpanLength)
        && (r.Ok? ==>
              && |r.value| == entry.length
              && forall k :: 0 <= k < entry.length ==> r.value[k] == file.charAt(charsOffset + 2 * (entry.offset + k)))
    {
      var entry := GetStringEntry(stringsOffset, i);
      if entry.length < 0 then Err(NegativeSpanLength)
      else
        var start := charsOffset + entry.offset * 2;
        Ok(seq(entry.length, k requires 0 <= k < entry.length => file.charAt(start + 2 * k)))
    }

    /** A string is the slice [Offset, Offset + Length) of its tile's character blob. */
    lemma StringIsBlobSlice(stringsOffset: int, charsOffset: int, i: int, charactersCount: nat)
      requires var entry := GetStringEntry(stringsOffset, i);
        0 <= entry.offset && 0 <= entry.length && entry.offset + entry.length <= charactersCount
      ensures var entry := GetStringEntry(stringsOffset, i);
        GetString(stringsOffset, charsOffset, i)
        == Ok(Characters(charsOffset, charactersCount)[entry.offset..entry.offset + entry.length])
    {
      var entry := GetStringEntry(stringsOffset, i);
      var blob := Characters(charsOffset, charactersCount);
      var s := GetString(stringsOffset, charsOffset, i).value;
      assert forall k :: 0 <= k < entry.length ==> s[k] == blob[entry.offset + k];
      assert s == blob[entry.offset..entry.offset + entry.length];
    }

    /**
     * Property pairs start at even string indices: an odd index raises; otherwise
     * the key is string i and the value string i + 1.
     */
    function GetProperty(stringsOffset: int, charsOffset: int, i: int): (r: Result<Tags.Tag>)
      ensures i % 2 != 0 ==> r == Err(OddPropertyIndex)
      ensures r.Ok? <==>
        i % 2 == 0 && GetString(stringsOffset, charsOffset, i).Ok? && GetString(stringsOffset, charsOffset, i + 1).Ok?
      ensures r.Ok? ==>
        r.value == (GetString(stringsOffset, charsOffset, i).value, GetString(stringsOffset, charsOffset, i + 1).value)
    {
      if i % 2 != 0 then Err(OddPropertyIndex)
      else
        match GetString(stringsOffset, charsOffset, i)
        case Err(e) => Err(e)
        case Ok(key) =>
          match GetString(stringsOffset, charsOffset, i + 1)
          case Err(e) => Err(e)
          case Ok(value) => Ok((key, value))
    }

    // ---- The query, as functions ----

    /** String index of the key of a feature's p-th property pair. */
    function PropertyIndex(feature: MapFeature, p: int): int {
      p * 2 + feature.propertiesOffset
    }

    /** The p-th property pair of a feature, read from its tile's strings. */
    function PairAt(tile: TileBlockHeader, feature: MapFeature, p: int): Result<Tags.Tag> {
      GetProperty(tile.stringsOffsetInBytes, tile.charactersOffsetInBytes, PropertyIndex(feature, p))
    }

    /** Each of the first n pairs reads without an exception, and no key occurs twice among them. */
    predicate Fillable(tile: TileBlockHeader, feature: MapFeature, n: int) {
      && (forall p :: 0 <= p < n ==> PairAt(tile, feature, p).Ok?)
      && forall p, q :: 0 <= p < q < n && PairAt(tile, feature, p).Ok? && PairAt(tile, feature, q).Ok? ==>
           PairAt(tile, feature, p).value.0 != PairAt(tile, feature, q).value.0
    }

    /**
     * The dictionary filled from the first n property pairs of a feature, in
     * insertion order. Filling succeeds exactly when every pair reads and no key
     * repeats.
     */
    function ReadProperties(tile: TileBlockHeader, feature: MapFeature, n: nat): (r: Result<seq<Tags.Tag>>)
      ensures r.Ok? <==> Fillable(tile, feature, n)
      ensures r.Ok? ==>
        && |r.value| == n
        && DistinctKeys(r.value)
        && forall p :: 0 <= p < n ==> PairAt(tile, feature, p) == Ok(r.value[p])
      ensures n > 0 && feature.propertiesOffset % 2 != 0 ==> r == Err(OddPropertyIndex)
      decreases n
    {
      if n == 0 then Ok([])
      else
        match ReadProperties(tile, feature, n - 1)
        case Err(e) => Err(e)
        case Ok(properties) =>
          assert PropertyIndex(feature, n - 1) % 2 == feature.propertiesOffset % 2;
          match PairAt(tile, feature, n - 1)
          case Err(e) => Err(e)
          case Ok(property) =>
            if HasKey(properties, property.0) then Err(DuplicateKey) else Ok(properties + [property])
    }

    /** Once filling the dictionary has raised, reading more pairs raises the same exception. */
    lemma {:induction false} ReadPropertiesErrorPersists(tile: TileBlockHeader, feature: MapFeature, n: nat, m: nat)
      requires n <= m && ReadProperties(tile, feature, n).Err?
      ensures ReadProperties(tile, feature, m) == ReadProperties(tile, feature, n)
      decreases m
    {
      if n < m {
        ReadPropertiesErrorPersists(tile, feature, n, m - 1);
      }
    }

    /** The feature's property dictionary; a negative PropertyCount is rejected as a capacity. */
    function PropertiesOf(tile: TileBlockHeader, feature: MapFeature): Result<seq<Tags.Tag>> {
      if feature.propertyCount < 0 then Err(NegativeCapacity)
      else ReadProperties(tile, feature, feature.propertyCount)
    }

    /**
     * Feature j of a tile: the exception it raises, no call (no vertex inside
     * the box), or the data the visitor is called with.
     */
    function FeatureStep(contains: Coordinate -> bool, tile: TileBlockHeader, tileOffset: nat, j: int)
      : Result<Option<MapFeatureData>>
    {
      var feature := GetFeature(j, tileOffset);
      match GetCoordinates(tile.coordinatesOffsetInBytes, feature.coordinateOffset, feature.coordinateCount)
      case Err(e) => Err(e)
      case Ok(coordinates) =>
        var labelResult := LabelOf(tile, feature);
        if labelResult.Err? then Err(labelResult.error)
        else if !AnyInside(coordinates, contains) then Ok(None)
        else
          match PropertiesOf(tile, feature)
          case Err(e) => Err(e)
          case Ok(properties) =>
            Ok(Some(MapFeatureData(feature.id, feature.geometryType, labelResult.value, coordinates, properties)))
    }

    /** The features of one tile from index j on: a `false` from the visitor ends the tile. */
    function ScanFrom(contains: Coordinate -> bool, visit: MapFeatureData -> bool,
                      tile: TileBlockHeader, tileOffset: nat, j: int): Run
      decreases tile.featuresCount - j
    {
      if j >= tile.featuresCount then Run([], None)
      else
        match FeatureStep(contains, tile, tileOffset, j)
        case Err(e) => Run([], Some(e))
        case Ok(None) => ScanFrom(contains, visit, tile, tileOffset, j + 1)
        case Ok(Some(data)) =>
          if visit(data) then Prepend([data], ScanFrom(contains, visit, tile, tileOffset, j + 1))
          else Run([data], None)
    }

    /** The label a feature carries: none for a negative offset, else string `LabelOffset` of the tile. */
    function LabelOf(tile: TileBlockHeader, feature: MapFeature): Result<string> {
      if feature.labelOffset >= 0
      then GetString(tile.stringsOffsetInBytes, tile.charactersOffsetInBytes, feature.labelOffset)
      else Ok([])
    }

    /**
     * What feature j amounts to: a negative coordinate count raises; so does a
     * label of negative length, whether or not the feature is in the box;
     * otherwise the visitor is due a call exactly when some vertex lies inside
     * the box, with the feature's ID, type, label, coordinates and dictionary;
     * and a feature in the box with properties at an odd string index raises.
     */
    lemma FeatureStepCases(contains: Coordinate -> bool, tile: TileBlockHeader, tileOffset: nat, j: int)
      ensures var feature := GetFeature(j, tileOffset);
        feature.coordinateCount < 0 ==> FeatureStep(contains, tile, tileOffset, j) == Err(NegativeSpanLength)
      ensures var feature := GetFeature(j, tileOffset);
        && feature.coordinateCount >= 0 && feature.labelOffset >= 0
        && GetStringEntry(tile.stringsOffsetInBytes, feature.labelOffset).length < 0
        ==> FeatureStep(contains, tile, tileOffset, j) == Err(NegativeSpanLength)
      ensures var feature := GetFeature(j, tileOffset);
        var coordinates := GetCoordinates(tile.coordinatesOffsetInBytes, feature.coordinateOffset, feature.coordinateCount);
        var step := FeatureStep(contains, tile, tileOffset, j);
        step.Ok? ==>
          && coordinates.Ok? && LabelOf(tile, feature).Ok?
          && (step.value.Some? <==> AnyInside(coordinates.value, contains))
          && (step.value.Some? ==>
                && PropertiesOf(tile, feature).Ok?
                && step.value.value == MapFeatureData(feature.id, feature.geometryType, LabelOf(tile, feature).value,
                                                      coordinates.value, PropertiesOf(tile, feature).value))
      ensures var feature := GetFeature(j, tileOffset);
        var coordinates := GetCoordinates(tile.coordinatesOffsetInBytes, feature.coordinateOffset, feature.coordinateCount);
        var step := FeatureStep(contains, tile, tileOffset, j);
        coordinates.Ok? && AnyInside(coordinates.value, contains) && !step.Err? ==> step.value.Some?
      ensures var feature := GetFeature(j, tileOffset);
        var coordinates := GetCoordinates(tile.coordinatesOffsetInBytes, feature.coordinateOffset, feature.coordinateCount);
        var step := FeatureStep(contains, tile, tileOffset, j);
        && coordinates.Ok? && AnyInside(coordinates.value, contains)
        && LabelOf(tile, feature).Ok?
        && feature.propertyCount > 0 && feature.propertiesOffset % 2 != 0
        ==> step == Err(OddPropertyIndex)
    {
    }

    /**
     * Feature j is read without an exception exactly when its coordinate count
     * and label length are not negative and, if a vertex lies in the box, its
     * property count is not negative and its dictionary can be filled.
     */
    lemma FeatureStepSucceeds(contains: Coordinate -> bool, tile: TileBlockHeader, tileOffset: nat, j: int)
      ensures var feature := GetFeature(j, tileOffset);
        FeatureStep(contains, tile, tileOffset, j).Ok? <==>
          && feature.coordinateCount >= 0
          && (feature.labelOffset >= 0 ==> GetStringEntry(tile.stringsOffsetInBytes, feature.labelOffset).length >= 0)
          && (AnyInside(GetCoordinates(tile.coordinatesOffsetInBytes, feature.coordinateOffset, feature.coordinateCount).value,
                        contains)
              ==> feature.propertyCount >= 0 && Fillable(tile, feature, feature.propertyCount))
    {
    }

    /**
     * The reference scan: every feature from j on whose step yields data, in
     * order, up to the first exception, whatever the visitor answers.
     */
    function Candidates(contains: Coordinate -> bool, tile: TileBlockHeader, tileOffset: nat, j: int): Run
      decreases tile.featuresCount - j
    {
      if j >= tile.featuresCount then Run([], None)
      else
        match FeatureStep(contains, tile, tileOffset, j)
        case Err(e) => Run([], Some(e))
        case Ok(None) => Candidates(contains, tile, tileOffset, j + 1)
        case Ok(Some(data)) => Prepend([data], Candidates(contains, tile, tileOffset, j + 1))
    }

    /** Every candidate has a vertex inside the box. */
    lemma {:induction false} CandidatesAreInside(contains: Coordinate -> bool, tile: TileBlockHeader, tileOffset: nat, j: int)
      ensures AllInside(Candidates(contains, tile, tileOffset, j).calls, contains)
      decreases tile.featuresCount - j
    {
      if j < tile.featuresCount {
        CandidatesAreInside(contains, tile, tileOffset, j + 1);
        FeatureStepCases(contains, tile, tileOffset, j);
        var rest := Candidates(contains, tile, tileOffset, j + 1).calls;
        match FeatureStep(contains, tile, tileOffset, j) {
          case Err(e) =>
          case Ok(None) =>
            assert Candidates(contains, tile, tileOffset, j).calls == rest;
          case Ok(Some(data)) =>
            assert AnyInside(data.coordinates, contains);
            var c := Candidates(contains, tile, tileOffset, j).calls;
            assert c == [data] + rest;
            forall k | 0 <= k < |c|
              ensures AnyInside(c[k].coordinates, contains)
            {
              if k > 0 {
                assert c[k] == rest[k - 1];
              }
            }
        }
      }
    }

    /**
     * `s` is the candidate run `c` cut short after the first call the visitor
     * rejects: its calls are a prefix of the candidates, every call but the last
     * was accepted, a run that differs from `c` ends in a rejection rather than
     * an exception, and a run that ends in an exception rejected nothing.
     */
    predicate TruncationOf(s: Run, c: Run, visit: MapFeatureData -> bool) {
      && s.calls <= c.calls
      && (forall k :: 0 <= k < |s.calls| - 1 ==> visit(s.calls[k]))
      && (s != c ==> s.failure.None? && s.calls != [] && !visit(s.calls[|s.calls| - 1]))
      && (s.failure.Some? ==> forall k :: 0 <= k < |s.calls| ==> visit(s.calls[k]))
    }

    /** A candidate run has exactly one truncation: the visitor's answers fix where the scan stops. */
    lemma TruncationIsUnique(s: Run, t: Run, c: Run, visit: MapFeatureData -> bool)
      requires TruncationOf(s, c, visit) && TruncationOf(t, c, visit)
      ensures s == t
    {
      RejectedOnlyLast(s, c, visit);
      RejectedOnlyLast(t, c, visit);
      assert s.calls == t.calls;
    }

    /**
     * In a truncation, a call shorter than the candidates ends in a rejection,
     * and no call before the last one is rejected.
     */
    lemma RejectedOnlyLast(s: Run, c: Run, visit: MapFeatureData -> bool)
      requires TruncationOf(s, c, visit)
      ensures |s.calls| < |c.calls| ==> s.calls != [] && !visit(c.calls[|s.calls| - 1])
      ensures forall k :: 0 <= k < |s.calls| - 1 ==> s.calls[k] == c.calls[k] && visit(c.calls[k])
    {
    }

    /** The scan of a tile is its candidates, truncated at the first rejection. */
    lemma {:induction false} ScanIsTruncatedCandidates(contains: Coordinate -> bool, visit: MapFeatureData -> bool,
                                                       tile: TileBlockHeader, tileOffset: nat, j: int)
      ensures TruncationOf(ScanFrom(contains, visit, tile, tileOffset, j), Candidates(contains, tile, tileOffset, j), visit)
      decreases tile.featuresCount - j
    {
      if j < tile.featuresCount {
        ScanIsTruncatedCandidates(contains, visit, tile, tileOffset, j + 1);
        var s := ScanFrom(contains, visit, tile, tileOffset, j);
        var rest := ScanFrom(contains, visit, tile, tileOffset, j + 1);
        match FeatureStep(contains, tile, tileOffset, j) {
          case Err(e) =>
          case Ok(None) =>
          case Ok(Some(data)) =>
            if visit(data) {
              TruncationPrepend(data, rest, Candidates(contains, tile, tileOffset, j + 1), visit);
            }
        }
      }
    }

    /** An accepted call in front of a truncation and of its candidates keeps it a truncation. */
    lemma TruncationPrepend(d: MapFeatureData, s: Run, c: Run, visit: MapFeatureData -> bool)
      requires TruncationOf(s, c, visit) && visit(d)
      ensures TruncationOf(Prepend([d], s), Prepend([d], c), visit)
    {
      var s', c' := Prepend([d], s), Prepend([d], c);
      assert forall k :: 1 <= k < |s'.calls| ==> s'.calls[k] == s.calls[k - 1];
      assert s' != c' ==> s != c;
      assert s'.failure == s.failure;
    }

    /** A visitor that accepts everything is called for every candidate of the tile. */
    lemma AcceptingScanSeesAllCandidates(contains: Coordinate -> bool, visit: MapFeatureData -> bool,
                                         tile: TileBlockHeader, tileOffset: nat)
      requires forall d :: visit(d)
      ensures ScanFrom(contains, visit, tile, tileOffset, 0) == Candidates(contains, tile, tileOffset, 0)
    {
      ScanIsTruncatedCandidates(contains, visit, tile, tileOffset, 0);
    }

    /** The run over one tile ID: nothing for a tile missing from the index. */
    function TileRun(contains: Coordinate -> bool, visit: MapFeatureData -> bool, tileId: int): Run {
      match LocateTile(tileId)
      case None => Run([], None)
      case Some((tile, tileOffset)) => ScanFrom(contains, visit, tile, tileOffset, 0)
    }

    /** The tiles in order: missing tiles are skipped, an exception ends the query. */
    function QueryTiles(contains: Coordinate -> bool, visit: MapFeatureData -> bool, tiles: seq<int>): Run {
      if tiles == [] then Run([], None)
      else Then(TileRun(contains, visit, tiles[0]), QueryTiles(contains, visit, tiles[1..]))
    }

    /** `ForeachFeature` with the tiles the tiling system gives for the box; no action, no calls. */
    function Query(contains: Coordinate -> bool, tiles: seq<int>, action: Option<MapFeatureData -> bool>): Run {
      match action
      case None => Run([], None)
      case Some(visit) => QueryTiles(contains, visit, tiles)
    }

    /**
     * A query over `a + b` is the query over `a` followed by the one over `b`,
     * unless `a` raised: a visitor's `false` ends only its own tile.
     */
    lemma {:induction false} QueryTilesAppend(contains: Coordinate -> bool, visit: MapFeatureData -> bool, a: seq<int>, b: seq<int>)
      ensures QueryTiles(contains, visit, a + b) == Then(QueryTiles(contains, visit, a), QueryTiles(contains, visit, b))
    {
      if a == [] {
        assert a + b == b;
        ThenAssociative(QueryTiles(contains, visit, b), Run([], None), Run([], None));
      } else {
        var first, rest, last := TileRun(contains, visit, a[0]), QueryTiles(contains, visit, a[1..]), QueryTiles(contains, visit, b);
        calc {
          QueryTiles(contains, visit, a + b);
          { assert (a + b)[0] == a[0] && (a + b)[1..] == a[1..] + b; }
          Then(first, QueryTiles(contains, visit, a[1..] + b));
          { QueryTilesAppend(contains, visit, a[1..], b); }
          Then(first, Then(rest, last));
          { ThenAssociative(first, rest, last); }
          Then(Then(first, rest), last);
        }
      }
    }

    /** A tile ID with no entry in the tile index contributes nothing, wherever it occurs. */
    lemma MissingTileSkipped(contains: Coordinate -> bool, visit: MapFeatureData -> bool,
                             before: seq<int>, tileId: int, after: seq<int>)
      requires LocateTile(tileId).None?
      ensures QueryTiles(contains, visit, before + [tileId] + after) == QueryTiles(contains, visit, before + after)
    {
      QueryTilesAppend(contains, visit, before, [tileId] + after);
      QueryTilesAppend(contains, visit, before, after);
      assert before + [tileId] + after == before + ([tileId] + after);
      assert ([tileId] + after)[1..] == after;
      ThenAssociative(QueryTiles(contains, visit, after), Run([], None), Run([], None));
    }

    /** Every visitor call made on one tile is for a feature with a vertex inside the box. */
    lemma TileRunCallsAreInside(contains: Coordinate -> bool, visit: MapFeatureData -> bool, tileId: int)
      ensures AllInside(TileRun(contains, visit, tileId).calls, contains)
    {
      match LocateTile(tileId) {
        case None =>
        case Some((tile, tileOffset)) =>
          CandidatesAreInside(contains, tile, tileOffset, 0);
          ScanIsTruncatedCandidates(contains, visit, tile, tileOffset, 0);
          var calls := ScanFrom(contains, visit, tile, tileOffset, 0).calls;
          var candidates := Candidates(contains, tile, tileOffset, 0).calls;
          assert forall k :: 0 <= k < |calls| ==> calls[k] == candidates[k];
      }
    }

    /** Every visitor call of a query is for a feature with a vertex inside the box. */
    lemma {:induction false} QueryCallsAreInside(contains: Coordinate -> bool, visit: MapFeatureData -> bool, tiles: seq<int>)
      ensures AllInside(QueryTiles(contains, visit, tiles).calls, contains)
    {
      if tiles != [] {
        QueryCallsAreInside(contains, visit, tiles[1..]);
        TileRunCallsAreInside(contains, visit, tiles[0]);
        ThenCallsInside(TileRun(contains, visit, tiles[0]), QueryTiles(contains, visit, tiles[1..]), contains);
      }
    }

    /** Sequencing two runs whose calls are all inside the box gives calls inside the box. */
    lemma ThenCallsInside(x: Run, y: Run, contains: Coordinate -> bool)
      requires AllInside(x.calls, contains) && AllInside(y.calls, contains)
      ensures AllInside(Then(x, y).calls, contains)
    {
      var calls := Then(x, y).calls;
      forall k | 0 <= k < |calls|
        ensures AnyInside(calls[k].coordinates, contains)
      {
        if k >= |x.calls| {
          assert calls[k] == y.calls[k - |x.calls|];
        }
      }
    }

    /** Without an action, `ForeachFeature` makes no call and raises nothing. */
    lemma NoActionNoCalls(contains: Coordinate -> bool, tiles: seq<int>)
      ensures Query(contains, tiles, None) == Run([], None)
    {
    }

    /** A dictionary whose pairs repeat a key cannot be filled: `Add` raises. */
    lemma DuplicateKeyRaises(tile: TileBlockHeader, feature: MapFeature, n: nat, p: nat, q: nat)
      requires p < q < n
      requires var key := GetProperty(tile.stringsOffsetInBytes, tile.charactersOffsetInBytes, PropertyIndex(feature, p));
        var other := GetProperty(tile.stringsOffsetInBytes, tile.charactersOffsetInBytes, PropertyIndex(feature, q));
        key.Ok? && other.Ok? && key.value.0 == other.value.0
      ensures ReadProperties(tile, feature, n).Err?
    {
      assert PairAt(tile, feature, p).value.0 == PairAt(tile, feature, q).value.0;
    }

    // ---- The query, as the source runs it ----

    /** The vertex test: stops at the first coordinate inside the box. */
    method AnyCoordinateInside(coordinates: seq<Coordinate>, contains: Coordinate -> bool) returns (isFeatureInBBox: bool)
      ensures isFeatureInBBox <==> AnyInside(coordinates, contains)
    {
      isFeatureInBBox := false;
      for k := 0 to |coordinates|
        invariant forall m :: 0 <= m < k ==> !contains(coordinates[m])
      {
        if contains(coordinates[k]) {
          isFeatureInBBox := true;
          break;
        }
      }
    }

    /** Fills the feature's dictionary pair by pair. */
    method BuildProperties(tile: TileBlockHeader, feature: MapFeature) returns (r: Result<seq<Tags.Tag>>)
      ensures r == PropertiesOf(tile, feature)
    {
      if feature.propertyCount < 0 {
        return Err(NegativeCapacity);
      }
      var properties: seq<Tags.Tag> := [];
      var p := 0;
      while p < feature.propertyCount
        invariant 0 <= p <= feature.propertyCount
        invariant ReadProperties(tile, feature, p) == Ok(properties)
      {
        var property := GetProperty(tile.stringsOffsetInBytes, tile.charactersOffsetInBytes, PropertyIndex(feature, p));
        if property.Err? {
          ReadPropertiesErrorPersists(tile, feature, p + 1, feature.propertyCount);
          return Err(property.error);
        }
        if HasKey(properties, property.value.0) {
          ReadPropertiesErrorPersists(tile, feature, p + 1, feature.propertyCount);
          return Err(DuplicateKey);
        }
        properties := properties + [property.value];
        p := p + 1;
      }
      return Ok(properties);
    }

    /** The body of the feature loop for feature j: coordinates, vertex test, label, then properties. */
    method ReadFeature(contains: Coordinate -> bool, tile: TileBlockHeader, tileOffset: nat, j: int)
      returns (step: Result<Option<MapFeatureData>>)
      ensures step == FeatureStep(contains, tile, tileOffset, j)
    {
      var feature := GetFeature(j, tileOffset);
      var coordinates := GetCoordinates(tile.coordinatesOffsetInBytes, feature.coordinateOffset, feature.coordinateCount);
      if coordinates.Err? {
        return Err(coordinates.error);
      }
      var isFeatureInBBox := AnyCoordinateInside(coordinates.value, contains);
      var labelText: string := [];
      if feature.labelOffset >= 0 {
        var labelString := GetString(tile.stringsOffsetInBytes, tile.charactersOffsetInBytes, feature.labelOffset);
        if labelString.Err? {
          return Err(labelString.error);
        }
        labelText := labelString.value;
      }
      if !isFeatureInBBox {
        return Ok(None);
      }
      var properties := BuildProperties(tile, feature);
      if properties.Err? {
        return Err(properties.error);
      }
      return Ok(Some(MapFeatureData(feature.id, feature.geometryType, labelText, coordinates.value, properties.value)));
    }

    /** The feature loop of one tile: stops when the visitor returns `false`. */
    method ScanTile(contains: Coordinate -> bool, visit: MapFeatureData -> bool, tile: TileBlockHeader, tileOffset: nat)
      returns (calls: seq<MapFeatureData>, failure: Option<Error>)
      ensures Run(calls, failure) == ScanFrom(contains, visit, tile, tileOffset, 0)
    {
      calls, failure := [], None;
      ghost var scan := ScanFrom(contains, visit, tile, tileOffset, 0);
      assert scan == Prepend(calls, scan);
      var j := 0;
      while j < tile.featuresCount
        invariant scan == Prepend(calls, ScanFrom(contains, visit, tile, tileOffset, j))
        decreases tile.featuresCount - j
      {
        var step := ReadFeature(contains, tile, tileOffset, j);
        ScanStep(contains, visit, tile, tileOffset, j, calls, scan);
        if step.Err? {
          failure := Some(step.error);
          return;
        }
        if step.value.Some? {
          var data := step.value.value;
          calls := calls + [data];
          if !visit(data) {
            return;
          }
        }
        j := j + 1;
      }
      assert calls + [] == calls;
    }

    /** What one pass of the feature loop adds to the calls made so far. */
    lemma ScanStep(contains: Coordinate -> bool, visit: MapFeatureData -> bool, tile: TileBlockHeader, tileOffset: nat,
                   j: int, calls: seq<MapFeatureData>, scan: Run)
      requires j < tile.featuresCount
      requires scan == Prepend(calls, ScanFrom(contains, visit, tile, tileOffset, j))
      ensures var step := FeatureStep(contains, tile, tileOffset, j);
        && (step.Err? ==> scan == Run(calls, Some(step.error)))
        && (step.Ok? && step.value.None? ==> scan == Prepend(calls, ScanFrom(contains, visit, tile, tileOffset, j + 1)))
        && (step.Ok? && step.value.Some? && visit(step.value.value) ==>
              scan == Prepend(calls + [step.value.value], ScanFrom(contains, visit, tile, tileOffset, j + 1)))
        && (step.Ok? && step.value.Some? && !visit(step.value.value) ==> scan == Run(calls + [step.value.value], None))
    {
      var rest := ScanFrom(contains, visit, tile, tileOffset, j + 1);
      assert calls + [] == calls;
      var step := FeatureStep(contains, tile, tileOffset, j);
      if step.Ok? && step.value.Some? {
        assert calls + ([step.value.value] + rest.calls) == calls + [step.value.value] + rest.calls;
      }
    }

    /**
     * `ForeachFeature(b, action)`: `contains` is `b.Contains` and `tiles` the
     * tile IDs the tiling system returns for `b`. Returns the visitor calls in
     * order and the exception that ended the query, if any.
     */
    method ForeachFeature(contains: Coordinate -> bool, tiles: seq<int>, action: Option<MapFeatureData -> bool>)
      returns (calls: seq<MapFeatureData>, failure: Option<Error>)
      ensures Run(calls, failure) == Query(contains, tiles, action)
    {
      calls, failure := [], None;
      if action.None? {
        return;
      }
      var visit := action.value;
      for i := 0 to |tiles|
        invariant QueryTiles(contains, visit, tiles) == Prepend(calls, QueryTiles(contains, visit, tiles[i..]))
      {
        var tileCalls, tileFailure := VisitTile(contains, visit, tiles[i]);
        QueryStep(contains, visit, tiles, i, calls, Run(tileCalls, tileFailure));
        calls := calls + tileCalls;
        if tileFailure.Some? {
          failure := tileFailure;
          return;
        }
      }
      assert calls + [] == calls;
    }

    /** What one pass of the tile loop adds to the calls made so far. */
    lemma QueryStep(contains: Coordinate -> bool, visit: MapFeatureData -> bool, tiles: seq<int>, i: nat,
                    calls: seq<MapFeatureData>, r: Run)
      requires i < |tiles| && r == TileRun(contains, visit, tiles[i])
      requires QueryTiles(contains, visit, tiles) == Prepend(calls, QueryTiles(contains, visit, tiles[i..]))
      ensures r.failure.None? ==>
        QueryTiles(contains, visit, tiles) == Prepend(calls + r.calls, QueryTiles(contains, visit, tiles[i + 1..]))
      ensures r.failure.Some? ==> QueryTiles(contains, visit, tiles) == Run(calls + r.calls, r.failure)
    {
      var rest := QueryTiles(contains, visit, tiles[i + 1..]);
      calc {
        QueryTiles(contains, visit, tiles[i..]);
        { assert tiles[i..][0] == tiles[i] && tiles[i..][1..] == tiles[i + 1..]; }
        Then(r, rest);
      }
      PrependThen(calls, r, rest);
    }

    /** Calls already made, then one run, then the rest. */
    lemma PrependThen(calls: seq<MapFeatureData>, r: Run, rest: Run)
      ensures r.failure.None? ==> Prepend(calls, Then(r, rest)) == Prepend(calls + r.calls, rest)
      ensures r.failure.Some? ==> Prepend(calls, Then(r, rest)) == Run(calls + r.calls, r.failure)
    {
      assert calls + (r.calls + rest.calls) == calls + r.calls + rest.calls;
    }

    /** One pass of the tile loop: find the tile, skip it when missing, else scan its features. */
    method VisitTile(contains: Coordinate -> bool, visit: MapFeatureData -> bool, tileId: int)
      returns (calls: seq<MapFeatureData>, failure: Option<Error>)
      ensures Run(calls, failure) == TileRun(contains, visit, tileId)
    {
      var tile, tileOffset := GetTile(tileId);
      if tile.None? {
        return [], None;
      }
      calls, failure := ScanTile(contains, visit, tile.value, tileOffset);
    }
  }
}
