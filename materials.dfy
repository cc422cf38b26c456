/**
 * The material catalog of MapBodyManager: named Box2D fixture definitions,
 * seeded with two built-ins and then filled from a parsed materials file.
 */
module Materials {
  import opened Wrappers
  import opened Geometry

  /** The surface and collision-filter values of a fixture definition. */
  datatype Material = Material(density: real, friction: real, restitution: real, categoryBits: int, maskBits: int)

  /**
   * A Box2D FixtureDef as the catalog stores it: the values above and the
   * `shape` slot that createPhysics fills in and clears again.
   */
  datatype FixtureDef = FixtureDef(shape: Option<Shape>, material: Material)

  /** Box2D's Filter defaults: category 0x0001, mask -1 (every bit). */
  const FilterDefaultCategory: int := 0x0001
  const FilterDefaultMask: int := -1

  /** "default": density 1, friction 1, restitution 0, filter left at Box2D's defaults. */
  const DefaultPreset: FixtureDef := FixtureDef(None, Material(1.0, 1.0, 0.0, FilterDefaultCategory, FilterDefaultMask))

  /** "physics": the same values with the mask set to -1 explicitly. */
  const PhysicsPreset: FixtureDef := FixtureDef(None, Material(1.0, 1.0, 0.0, FilterDefaultCategory, -1))

  /** A Java short cast: wrap an integer into the signed 16-bit range. */
  function ToShort(v: int): (s: int)
    ensures -32768 <= s <= 32767
    ensures (s - v) % 65536 == 0
    ensures -32768 <= v <= 32767 ==> s == v
  {
    (v + 32768) % 65536 - 32768
  }

  /** One field of a parsed record: missing, a value, or a value that cannot be read as a number. */
  datatype Field<T> = Absent | Given(value: T) | Malformed

  datatype MaterialRecord = MaterialRecord(
    name: string,
    density: Field<real>,
    friction: Field<real>,
    restitution: Field<real>,
    category: Field<int>,
    mask: Field<int>)

  /** The materials file after parsing: unreadable, or a sequence of records. */
  datatype MaterialSource = Unreadable | Records(records: seq<MaterialRecord>)

  function FieldOr<T>(f: Field<T>, default: T): T
    requires !f.Malformed?
  {
    if f.Given? then f.value else default
  }

  /** A record every getter can read; any other record makes its getter throw. */
  predicate Readable(r: MaterialRecord) {
    !r.density.Malformed? && !r.friction.Malformed? && !r.restitution.Malformed? &&
    !r.category.Malformed? && !r.mask.Malformed?
  }

  /** The fixture definition built from a record, with the getters' defaults filled in. */
  function RecordFixture(r: MaterialRecord): FixtureDef
    requires Readable(r)
  {
    FixtureDef(None, Material(FieldOr(r.density, 1.0), FieldOr(r.friction, 1.0), FieldOr(r.restitution, 0.0),
                              ToShort(FieldOr(r.category, 0x0001)), ToShort(FieldOr(r.mask, 0x0000))))
  }

  function Seeded(catalog: map<string, FixtureDef>): map<string, FixtureDef> {
    catalog["default" := DefaultPreset]["physics" := PhysicsPreset]
  }

  /** The puts of the record loop; the first unreadable record throws, and what was put stays. */
  function PutRecords(catalog: map<string, FixtureDef>, records: seq<MaterialRecord>): map<string, FixtureDef>
    decreases |records|
  {
    if |records| == 0 || !Readable(records[0]) then catalog
    else PutRecords(catalog[records[0].name := RecordFixture(records[0])], records[1..])
  }

  /** loadMaterialsFile: the built-ins first, then the file's records when it could be parsed. */
  function LoadedCatalog(catalog: map<string, FixtureDef>, source: MaterialSource): map<string, FixtureDef> {
    match source
    case Unreadable => Seeded(catalog)
    case Records(records) => PutRecords(Seeded(catalog), records)
  }

  /** Length of the prefix of records read before the first unreadable one. */
  function ReadablePrefix(records: seq<MaterialRecord>): (k: nat)
    ensures k <= |records|
    ensures forall i :: 0 <= i < k ==> Readable(records[i])
    ensures k < |records| ==> !Readable(records[k])
  {
    if |records| == 0 || !Readable(records[0]) then 0 else 1 + ReadablePrefix(records[1..])
  }

  /** The names the record loop puts. */
  function NamesOf(records: seq<MaterialRecord>): (names: set<string>)
    ensures forall i :: 0 <= i < |records| ==> records[i].name in names
    ensures forall n :: n in names ==> exists i :: 0 <= i < |records| && records[i].name == n
  {
    if |records| == 0 then {}
    else
      var rest := NamesOf(records[1..]);
      assert forall i :: 1 <= i < |records| ==> records[i] == records[1..][i - 1];
      {records[0].name} + rest
  }

  /** The two built-in presets are the same: Box2D's default mask already has every bit set. */
  lemma BuiltinsCoincide()
    ensures DefaultPreset == PhysicsPreset
  {
  }

  /** A record with every field missing gets density 1, friction 1, restitution 0, category 0x0001, mask 0x0000. */
  lemma RecordDefaults(name: string)
    ensures RecordFixture(MaterialRecord(name, Absent, Absent, Absent, Absent, Absent)) ==
            FixtureDef(None, Material(1.0, 1.0, 0.0, 0x0001, 0x0000))
  {
  }

  /** An exception at an unreadable record keeps exactly the puts before it. */
  lemma {:induction false} PutRecordsStopsAtUnreadable(catalog: map<string, FixtureDef>, records: seq<MaterialRecord>)
    decreases |records|
    ensures PutRecords(catalog, records) == PutRecords(catalog, records[..ReadablePrefix(records)])
  {
    if |records| > 0 && Readable(records[0]) {
      var rest := records[1..];
      PutRecordsStopsAtUnreadable(catalog[records[0].name := RecordFixture(records[0])], rest);
      assert records[..ReadablePrefix(records)][1..] == rest[..ReadablePrefix(rest)];
    } else {
      assert records[..ReadablePrefix(records)] == [];
    }
  }

  /** The catalog's names: the ones it had and the names of the records read. */
  lemma {:induction false} PutRecordsKeys(catalog: map<string, FixtureDef>, records: seq<MaterialRecord>)
    decreases |records|
    ensures PutRecords(catalog, records).Keys == catalog.Keys + NamesOf(records[..ReadablePrefix(records)])
  {
    if |records| > 0 && Readable(records[0]) {
      var rest := records[1..];
      PutRecordsKeys(catalog[records[0].name := RecordFixture(records[0])], rest);
      var read := records[..ReadablePrefix(records)];
      assert read[1..] == rest[..ReadablePrefix(rest)];
      assert NamesOf(read) == {records[0].name} + NamesOf(read[1..]);
    } else {
      assert records[..ReadablePrefix(records)] == [];
    }
  }

  /** A name without a record keeps the value it had. */
  lemma {:induction false} PutRecordsKeepsUnnamed(catalog: map<string, FixtureDef>, records: seq<MaterialRecord>, name: string)
    requires name in catalog
    requires forall i :: 0 <= i < |records| ==> records[i].name != name
    decreases |records|
    ensures name in PutRecords(catalog, records) && PutRecords(catalog, records)[name] == catalog[name]
  {
    if |records| > 0 && Readable(records[0]) {
      PutRecordsKeepsUnnamed(catalog[records[0].name := RecordFixture(records[0])], records[1..], name);
    }
  }

  /** Of several readable records with one name, the last one read wins. */
  lemma {:induction false} PutRecordsLastWins(catalog: map<string, FixtureDef>, records: seq<MaterialRecord>, i: nat)
    requires i < ReadablePrefix(records)
    requires forall j :: i < j < ReadablePrefix(records) ==> records[j].name != records[i].name
    decreases |records|
    ensures var name := records[i].name;
            name in PutRecords(catalog, records) && PutRecords(catalog, records)[name] == RecordFixture(records[i])
  {
    var rest := records[1..];
    var next := catalog[records[0].name := RecordFixture(records[0])];
    assert ReadablePrefix(records) == 1 + ReadablePrefix(rest);
    if i == 0 {
      PutRecordsStopsAtUnreadable(next, rest);
      var read := rest[..ReadablePrefix(rest)];
      assert forall j :: 0 <= j < |read| ==> read[j] == records[j + 1];
      PutRecordsKeepsUnnamed(next, read, records[0].name);
    } else {
      PutRecordsLastWins(next, rest, i - 1);
    }
  }

  /** Whatever the file holds, the two built-in names are in a loaded catalog. */
  lemma {:induction false} LoadedHasBuiltins(catalog: map<string, FixtureDef>, source: MaterialSource)
    ensures "default" in LoadedCatalog(catalog, source) && "physics" in LoadedCatalog(catalog, source)
  {
    if source.Records? {
      PutRecordsKeys(Seeded(catalog), source.records);
    }
  }

  /** A file that cannot be parsed leaves the catalog with the built-ins added and nothing else. */
  lemma UnreadableLoadsBuiltinsOnly(catalog: map<string, FixtureDef>)
    ensures LoadedCatalog(catalog, Unreadable).Keys == catalog.Keys + {"default", "physics"}
    ensures LoadedCatalog(catalog, Unreadable)["default"] == DefaultPreset
    ensures LoadedCatalog(catalog, Unreadable)["physics"] == PhysicsPreset
  {
  }

  /** Every definition the loader stores has an empty shape slot. */
  predicate Clean(catalog: map<string, FixtureDef>) {
    forall n :: n in catalog ==> catalog[n].shape == None
  }

  lemma {:induction false} LoadedIsClean(catalog: map<string, FixtureDef>, source: MaterialSource)
    requires Clean(catalog)
    ensures Clean(LoadedCatalog(catalog, source))
  {
    if source.Records? {
      PutRecordsClean(Seeded(catalog), source.records);
    }
  }

  lemma {:induction false} PutRecordsClean(catalog: map<string, FixtureDef>, records: seq<MaterialRecord>)
    requires Clean(catalog)
    decreases |records|
    ensures Clean(PutRecords(catalog, records))
  {
    if |records| > 0 && Readable(records[0]) {
      PutRecordsClean(catalog[records[0].name := RecordFixture(records[0])], records[1..]);
    }
  }
}
