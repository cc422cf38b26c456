/**
 * MapBodyManager: turns the objects of a map's physics layer into static Box2D
 * bodies, one per accepted object, with the material each object resolves
 * to; owns the bodies it made and can destroy them all.
 */
module MapBodies {
  import opened Wrappers
  import opened Vectors
  import opened Maps
  import opened Geometry
  import opened Materials
  import opened Box2D

  /** Debug tag of bodies whose material came from the layer. */
  const LineOfSightTag: string := "LOS"

  /**
   * The null dereferences createPhysics runs into; each one ends the call
   * with the world and the catalog as they were at that moment.
   */
  datatype SynthError =
    | MissingLayerMaterial(material: string)   // the layer's material is not in the catalog
    | MissingObjectMaterial(material: string)  // the object's material is not in the catalog
    | NpcShapeUnset(material: string)          // "npc" on a non-rectangle: the definition has no shape

  /** Everything the synthesis reads and writes: the world's bodies, the tracked bodies, the catalog. */
  datatype Synth = Synth(live: map<BodyId, StaticBody>, nextId: BodyId, tracked: seq<BodyId>,
                         materials: map<string, FixtureDef>)

  datatype Outcome = Outcome(state: Synth, error: Option<SynthError>)

  /** Tracked bodies are live and distinct, and every live id was handed out. */
  ghost predicate Coherent(st: Synth) {
    && (forall id :: id in st.live ==> id < st.nextId)
    && (forall i :: 0 <= i < |st.tracked| ==> st.tracked[i] in st.live)
    && (forall i, j :: 0 <= i < j < |st.tracked| ==> st.tracked[i] != st.tracked[j])
  }

  /** The shape of an object of an accepted kind; none for texture and other objects. */
  function DirectShape(o: MapObject, units: real): Option<Shape>
    requires units != 0.0
  {
    match o.kind
    case TextureObject => None
    case RectangleObject(r) => Some(GetRectangle(r, units))
    case PolygonObject(v) => Some(GetPolygon(v, units))
    case PolylineObject(v) => Some(GetPolyline(v, units))
    case CircleObject(c) => Some(GetCircle(c, units))
    case OtherObject => None
  }

  predicate IsNpc(material: string) {
    EqualsIgnoreCase(material, "npc")
  }

  /** The object's own material property, "default" when it has none. */
  function ObjectMaterial(o: MapObject): string {
    GetProperty(o.properties, "material", "default")
  }

  datatype Resolution = Resolved(key: string, body: StaticBody) | Failed(error: SynthError)

  /**
   * The material and shape of one accepted object: the catalog key whose
   * definition is used, and the body it ends up as.
   */
  function Resolve(layerProperties: map<string, string>, materials: map<string, FixtureDef>,
                   o: MapObject, shape: Shape): (r: Resolution)
    ensures r.Resolved? ==> r.key in materials
  {
    if "material" in layerProperties then
      var name := layerProperties["material"];
      if name !in materials then Failed(MissingLayerMaterial(name))
      else Resolved(name, StaticBody([Fixture(shape, materials[name].material)], Some(LineOfSightTag)))
    else
      var name := ObjectMaterial(o);
      if name !in materials then Failed(MissingObjectMaterial(name))
      else
        var used :=
          if !IsNpc(name) then Some(shape)
          else if o.kind.RectangleObject? then Some(GetHollowRectangle(o.kind.rectangle))
          else materials[name].shape;
        if used.None? then Failed(NpcShapeUnset(name))
        else Resolved(name, StaticBody([Fixture(used.value, materials[name].material)], None))
  }

  /** One pass of the object loop: an accepted object takes the next id and adds it to the world, whether or not it then fails. */
  function Step(st: Synth, layerProperties: map<string, string>, o: MapObject, units: real): (r: Outcome)
    requires units != 0.0
    ensures DirectShape(o, units).None? ==> r == Outcome(st, None)
    ensures DirectShape(o, units).Some? ==>
              r.state.nextId == st.nextId + 1 && r.state.live.Keys == st.live.Keys + {st.nextId}
  {
    match DirectShape(o, units)
    case None => Outcome(st, None)
    case Some(shape) =>
      var id := st.nextId;
      var created := st.(live := st.live[id := NewBody], nextId := id + 1);
      match Resolve(layerProperties, st.materials, o, shape)
      case Failed(e) => Outcome(created, Some(e))
      case Resolved(key, body) =>
        Outcome(created.(live := st.live[id := body], tracked := st.tracked + [id],
                         materials := st.materials[key := st.materials[key].(shape := None)]), None)
  }

  /** The object loop: step through the objects in order, stopping at the first error. */
  function Run(st: Synth, layerProperties: map<string, string>, objects: seq<MapObject>, units: real): Outcome
    requires units != 0.0
    decreases |objects|
  {
    if |objects| == 0 then Outcome(st, None)
    else
      var next := Step(st, layerProperties, objects[0], units);
      if next.error.Some? then next else Run(next.state, layerProperties, objects[1..], units)
  }

  /** The group loop of the layer lookup: each top-level group overwrites the result, so the last group decides. */
  function GroupScan(layers: seq<MapLayer>, name: string): (r: Option<MapLayer>)
    ensures r.Some? ==> r.value.name == name
  {
    if |layers| == 0 then None
    else
      var last := layers[|layers| - 1];
      if IsGroup(last) then GetLayer(last.children.layers, name)
      else GroupScan(layers[..|layers| - 1], name)
  }

  /** The layer createPhysics works on: the group lookup, or else the top-level layer of that name. */
  function ResolveLayer(layers: seq<MapLayer>, name: string): (r: Option<MapLayer>)
    ensures r.Some? ==> r.value.name == name
    ensures r.None? ==> forall i :: 0 <= i < |layers| ==> layers[i].name != name
  {
    var fromGroups := GroupScan(layers, name);
    if fromGroups.Some? then fromGroups else GetLayer(layers, name)
  }

  function CreatePhysicsOutcome(st: Synth, layers: seq<MapLayer>, name: string, units: real): Outcome
    requires units != 0.0
  {
    match ResolveLayer(layers, name)
    case None => Outcome(st, None)
    case Some(layer) => Run(st, layer.properties, layer.objects, units)
  }

  /** One pass of the object loop keeps the world and the tracked list coherent, whether or not it fails. */
  lemma StepKeepsCoherent(st: Synth, layerProperties: map<string, string>, o: MapObject, units: real)
    requires units != 0.0 && Coherent(st)
    ensures Coherent(Step(st, layerProperties, o, units).state)
  {
  }

  /** The objects that become bodies: rectangles, polygons, polylines and circles, in order. */
  function Accepted(objects: seq<MapObject>, units: real): (r: seq<MapObject>)
    requires units != 0.0
    ensures |r| <= |objects|
    ensures forall k :: 0 <= k < |r| ==> DirectShape(r[k], units).Some?
    decreases |objects|
  {
    if |objects| == 0 then []
    else if DirectShape(objects[0], units).Some? then [objects[0]] + Accepted(objects[1..], units)
    else Accepted(objects[1..], units)
  }

  /** The body an accepted object becomes against a catalog, if its material resolves. */
  function BodyFor(layerProperties: map<string, string>, materials: map<string, FixtureDef>,
                   o: MapObject, units: real): Option<StaticBody>
    requires units != 0.0
  {
    match DirectShape(o, units)
    case None => None
    case Some(shape) =>
      match Resolve(layerProperties, materials, o, shape)
      case Failed(_) => None
      case Resolved(_, body) => Some(body)
  }

  /** The ids handed out to n new bodies from `start` on. */
  function Ids(start: BodyId, n: nat): (r: seq<BodyId>)
    ensures |r| == n && forall k :: 0 <= k < n ==> r[k] == start + k
  {
    seq(n, k requires 0 <= k < n => start + k)
  }

  /** With a clean catalog a successful pass leaves the catalog as it was, and every pass leaves it clean. */
  lemma StepKeepsCatalog(st: Synth, layerProperties: map<string, string>, o: MapObject, units: real)
    requires units != 0.0 && Clean(st.materials)
    ensures var r := Step(st, layerProperties, o, units);
            Clean(r.state.materials) && (r.error.None? ==> r.state.materials == st.materials)
  {
    var r := Step(st, layerProperties, o, units);
    if DirectShape(o, units).Some? && r.error.None? {
      var res := Resolve(layerProperties, st.materials, o, DirectShape(o, units).value);
      assert st.materials[res.key].(shape := None) == st.materials[res.key];
      assert st.materials[res.key := st.materials[res.key]] == st.materials;
    }
  }

  lemma {:induction false} RunKeepsCoherent(st: Synth, layerProperties: map<string, string>, objects: seq<MapObject>, units: real)
    requires units != 0.0 && Coherent(st)
    decreases |objects|
    ensures Coherent(Run(st, layerProperties, objects, units).state)
  {
    if |objects| > 0 {
      StepKeepsCoherent(st, layerProperties, objects[0], units);
      RunKeepsCoherent(Step(st, layerProperties, objects[0], units).state, layerProperties, objects[1..], units);
    }
  }

  /**
   * A successful createPhysics over a clean catalog hands out one fresh,
   * consecutive id per accepted object and tracks them in object order; the
   * catalog is left as it was.
   */
  lemma {:induction false} RunTracksOneIdPerAcceptedObject(st: Synth, layerProperties: map<string, string>,
                                                           objects: seq<MapObject>, units: real)
    requires units != 0.0 && Clean(st.materials)
    requires Run(st, layerProperties, objects, units).error.None?
    decreases |objects|
    ensures var r := Run(st, layerProperties, objects, units).state;
            var n := |Accepted(objects, units)|;
            r.nextId == st.nextId + n && r.tracked == st.tracked + Ids(st.nextId, n) && r.materials == st.materials
  {
    if |objects| == 0 {
      assert st.tracked + Ids(st.nextId, 0) == st.tracked;
      return;
    }
    var o, rest := objects[0], objects[1..];
    var st1 := Step(st, layerProperties, o, units).state;
    StepKeepsCatalog(st, layerProperties, o, units);
    RunTracksOneIdPerAcceptedObject(st1, layerProperties, rest, units);
    var n' := |Accepted(rest, units)|;
    if DirectShape(o, units).Some? {
      var id := st.nextId;
      assert |Accepted(objects, units)| == 1 + n';
      assert st1.tracked == st.tracked + [id];
      assert st.tracked + [id] + Ids(id + 1, n') == st.tracked + Ids(id, n' + 1);
    } else {
      assert st1 == st;
    }
  }

  /**
   * The bodies of a successful createPhysics over a clean catalog: the k-th
   * accepted object becomes the body with the k-th new id, made of what its
   * material resolves to; bodies already in the world stay as they were.
   */
  lemma {:induction false} RunMakesOneBodyPerAcceptedObject(st: Synth, layerProperties: map<string, string>,
                                                            objects: seq<MapObject>, units: real)
    requires units != 0.0 && Coherent(st) && Clean(st.materials)
    requires Run(st, layerProperties, objects, units).error.None?
    decreases |objects|
    ensures var r := Run(st, layerProperties, objects, units).state;
            var accepted := Accepted(objects, units);
            && (forall id :: id in r.live <==> id in st.live || st.nextId <= id < st.nextId + |accepted|)
            && (forall id :: id in st.live ==> r.live[id] == st.live[id])
            && (forall k :: 0 <= k < |accepted| ==>
                  BodyFor(layerProperties, st.materials, accepted[k], units) == Some(r.live[st.nextId + k]))
  {
    if |objects| == 0 {
      return;
    }
    var o, rest := objects[0], objects[1..];
    var st1 := Step(st, layerProperties, o, units).state;
    StepKeepsCatalog(st, layerProperties, o, units);
    StepKeepsCoherent(st, layerProperties, o, units);
    RunMakesOneBodyPerAcceptedObject(st1, layerProperties, rest, units);
    var acc' := Accepted(rest, units);
    var r := Run(st, layerProperties, objects, units).state;
    assert r == Run(st1, layerProperties, rest, units).state;
    if DirectShape(o, units).Some? {
      assert Accepted(objects, units) == [o] + acc';
      assert st1.live == st.live[st.nextId := BodyFor(layerProperties, st.materials, o, units).value];
      assert st1.nextId == st.nextId + 1 && st1.materials == st.materials;
      BodiesOfAcceptedPrefix(layerProperties, st.materials, st, st1, r, o, acc', units);
    } else {
      assert st1 == st;
    }
  }

  /** The inductive step of RunMakesOneBodyPerAcceptedObject: one more accepted object in front. */
  lemma BodiesOfAcceptedPrefix(layerProperties: map<string, string>, materials: map<string, FixtureDef>,
                               st: Synth, st1: Synth, r: Synth, o: MapObject, rest: seq<MapObject>, units: real)
    requires units != 0.0 && Coherent(st)
    requires BodyFor(layerProperties, materials, o, units).Some?
    requires st1.live == st.live[st.nextId := BodyFor(layerProperties, materials, o, units).value]
    requires st1.nextId == st.nextId + 1
    requires forall id :: id in r.live <==> id in st1.live || st1.nextId <= id < st1.nextId + |rest|
    requires forall id :: id in st1.live ==> r.live[id] == st1.live[id]
    requires forall k :: 0 <= k < |rest| ==> BodyFor(layerProperties, materials, rest[k], units) == Some(r.live[st1.nextId + k])
    ensures forall id :: id in r.live <==> id in st.live || st.nextId <= id < st.nextId + 1 + |rest|
    ensures forall id :: id in st.live ==> r.live[id] == st.live[id]
    ensures var accepted := [o] + rest;
            forall k :: 0 <= k < |accepted| ==>
              BodyFor(layerProperties, materials, accepted[k], units) == Some(r.live[st.nextId + k])
  {
    var accepted := [o] + rest;
    forall k | 0 <= k < |accepted|
      ensures BodyFor(layerProperties, materials, accepted[k], units) == Some(r.live[st.nextId + k])
    {
      if k > 0 {
        assert accepted[k] == rest[k - 1];
      }
    }
  }

  /** Some object among `objects` has a material that does not resolve. */
  predicate SomeUnresolved(layerProperties: map<string, string>, materials: map<string, FixtureDef>,
                           objects: seq<MapObject>, units: real)
    requires units != 0.0
  {
    exists k :: 0 <= k < |objects| && BodyFor(layerProperties, materials, objects[k], units).None?
  }

  /** Over a clean catalog, createPhysics fails exactly when some accepted object's material does not resolve. */
  lemma {:induction false} RunFailsIffSomeObjectUnresolved(st: Synth, layerProperties: map<string, string>,
                                                          objects: seq<MapObject>, units: real)
    requires units != 0.0 && Clean(st.materials)
    decreases |objects|
    ensures Run(st, layerProperties, objects, units).error.Some? <==>
            SomeUnresolved(layerProperties, st.materials, Accepted(objects, units), units)
  {
    if |objects| == 0 {
      return;
    }
    var o, rest := objects[0], objects[1..];
    var step := Step(st, layerProperties, o, units);
    StepKeepsCatalog(st, layerProperties, o, units);
    var accepted, acc' := Accepted(objects, units), Accepted(rest, units);
    if step.error.Some? {
      var shape := DirectShape(o, units).value;
      assert Resolve(layerProperties, st.materials, o, shape).Failed?;
      assert accepted == [o] + acc';
      assert BodyFor(layerProperties, st.materials, accepted[0], units).None?;
      assert Run(st, layerProperties, objects, units) == step;
    } else {
      RunFailsIffSomeObjectUnresolved(step.state, layerProperties, rest, units);
      if DirectShape(o, units).Some? {
        assert accepted == [o] + acc';
        assert BodyFor(layerProperties, st.materials, o, units).Some?;
        assert step.state.materials == st.materials;
        assert Run(st, layerProperties, objects, units) == Run(step.state, layerProperties, rest, units);
        UnresolvedBehindResolved(layerProperties, st.materials, o, acc', accepted, units);
      } else {
        assert step == Outcome(st, None);
        assert Run(st, layerProperties, objects, units) == Run(st, layerProperties, rest, units);
        assert accepted == acc';
      }
    }
  }

  /** An object that resolves, put in front, does not change whether some object fails to resolve. */
  lemma UnresolvedBehindResolved(layerProperties: map<string, string>, materials: map<string, FixtureDef>,
                                 o: MapObject, rest: seq<MapObject>, accepted: seq<MapObject>, units: real)
    requires units != 0.0 && BodyFor(layerProperties, materials, o, units).Some?
    requires accepted == [o] + rest
    ensures SomeUnresolved(layerProperties, materials, accepted, units) <==> SomeUnresolved(layerProperties, materials, rest, units)
  {
    if exists k :: 0 <= k < |rest| && BodyFor(layerProperties, materials, rest[k], units).None? {
      var k :| 0 <= k < |rest| && BodyFor(layerProperties, materials, rest[k], units).None?;
      assert accepted[k + 1] == rest[k];
    }
    if exists k :: 0 <= k < |accepted| && BodyFor(layerProperties, materials, accepted[k], units).None? {
      var k :| 0 <= k < |accepted| && BodyFor(layerProperties, materials, accepted[k], units).None?;
      assert k > 0 && accepted[k] == rest[k - 1];
    }
  }

  /**
   * A failing createPhysics leaves the body it had just created in the world,
   * untracked and without a fixture.
   */
  lemma {:induction false} FailureLeavesUntrackedBody(st: Synth, layerProperties: map<string, string>,
                                                      objects: seq<MapObject>, units: real)
    requires units != 0.0 && Coherent(st)
    requires Run(st, layerProperties, objects, units).error.Some?
    decreases |objects|
    ensures var r := Run(st, layerProperties, objects, units).state;
            && r.nextId > st.nextId
            && r.nextId - 1 in r.live && r.live[r.nextId - 1] == NewBody
            && r.nextId - 1 !in r.tracked
  {
    var o, rest := objects[0], objects[1..];
    var step := Step(st, layerProperties, o, units);
    if step.error.None? {
      StepKeepsCoherent(st, layerProperties, o, units);
      FailureLeavesUntrackedBody(step.state, layerProperties, rest, units);
    } else {
      var r := step.state;
      assert r.tracked == st.tracked;
      assert forall i :: 0 <= i < |st.tracked| ==> st.tracked[i] < st.nextId;
    }
  }

  /** A material on the layer wins: the object's own material property plays no part. */
  lemma LayerMaterialTakesPrecedence(layerProperties: map<string, string>, materials: map<string, FixtureDef>,
                                     o: MapObject, shape: Shape, objectProperties: map<string, string>)
    requires "material" in layerProperties
    ensures var r := Resolve(layerProperties, materials, o, shape);
            && r == Resolve(layerProperties, materials, o.(properties := objectProperties), shape)
            && (r.Resolved? <==> layerProperties["material"] in materials)
            && (r.Resolved? ==> r.key == layerProperties["material"] && r.body.userData == Some(LineOfSightTag)
                                && r.body.fixtures == [Fixture(shape, materials[r.key].material)])
  {
  }

  /** Without a layer material, an object with no material property is made of "default". */
  lemma ObjectMaterialDefaultsToDefault(layerProperties: map<string, string>, materials: map<string, FixtureDef>,
                                        o: MapObject, shape: Shape)
    requires "material" !in layerProperties && "material" !in o.properties && "default" in materials
    ensures var r := Resolve(layerProperties, materials, o, shape);
            r.Resolved? && r.key == "default" && r.body == StaticBody([Fixture(shape, materials["default"].material)], None)
  {
    assert !IsNpc("default") by {
      assert AsciiLower("default"[0]) != AsciiLower("npc"[0]);
    }
  }

  /**
   * The ordinary object case: with no layer material, an object whose own
   * material is not "npc" has that material looked up; the body is its direct
   * shape with that material and no user data, and the lookup fails exactly
   * when the name is not in the catalog.
   */
  lemma ObjectMaterialIsUsed(layerProperties: map<string, string>, materials: map<string, FixtureDef>,
                             o: MapObject, shape: Shape)
    requires "material" !in layerProperties && !IsNpc(ObjectMaterial(o))
    ensures "material" in o.properties ==> ObjectMaterial(o) == o.properties["material"]
    ensures var name := ObjectMaterial(o);
            var r := Resolve(layerProperties, materials, o, shape);
            && (r.Resolved? <==> name in materials)
            && (r.Failed? ==> r.error == MissingObjectMaterial(name))
            && (r.Resolved? ==> r.key == name && r.body == StaticBody([Fixture(shape, materials[name].material)], None))
  {
  }

  /** An "npc" rectangle becomes the unscaled closed outline of its rectangle. */
  lemma NpcRectangleBecomesOutline(layerProperties: map<string, string>, materials: map<string, FixtureDef>,
                                   o: MapObject, units: real)
    requires units != 0.0 && "material" !in layerProperties && o.kind.RectangleObject?
    requires IsNpc(ObjectMaterial(o)) && ObjectMaterial(o) in materials
    ensures BodyFor(layerProperties, materials, o, units) ==
            Some(StaticBody([Fixture(GetHollowRectangle(o.kind.rectangle), materials[ObjectMaterial(o)].material)], None))
  {
  }

  /** An "npc" object that is not a rectangle finds no shape in a clean catalog, and the pass fails. */
  lemma NpcNonRectangleFails(layerProperties: map<string, string>, materials: map<string, FixtureDef>,
                             o: MapObject, shape: Shape)
    requires Clean(materials) && "material" !in layerProperties && !o.kind.RectangleObject?
    requires IsNpc(ObjectMaterial(o)) && ObjectMaterial(o) in materials
    ensures Resolve(layerProperties, materials, o, shape) == Failed(NpcShapeUnset(ObjectMaterial(o)))
  {
  }

  /** With no top-level group the layer is looked up among the top-level layers. */
  lemma {:induction false} NoGroupsMeansTopLevelLookup(layers: seq<MapLayer>, name: string)
    requires forall i :: 0 <= i < |layers| ==> !IsGroup(layers[i])
    ensures ResolveLayer(layers, name) == GetLayer(layers, name)
  {
    GroupScanWithoutGroups(layers, name);
  }

  lemma {:induction false} GroupScanWithoutGroups(layers: seq<MapLayer>, name: string)
    requires forall i :: 0 <= i < |layers| ==> !IsGroup(layers[i])
    ensures GroupScan(layers, name) == None
  {
    if |layers| > 0 {
      GroupScanWithoutGroups(layers[..|layers| - 1], name);
    }
  }

  /** When there are groups, the last top-level group alone decides, even when the layer is not in it. */
  lemma {:induction false} LastGroupDecides(layers: seq<MapLayer>, name: string, g: nat)
    requires g < |layers| && IsGroup(layers[g])
    requires forall i :: g < i < |layers| ==> !IsGroup(layers[i])
    decreases |layers|
    ensures GroupScan(layers, name) == GetLayer(layers[g].children.layers, name)
  {
    if g < |layers| - 1 {
      var init := layers[..|layers| - 1];
      assert init[g] == layers[g];
      LastGroupDecides(init, name, g);
    }
  }

  /** A map with one physics layer holding one 64x64 "ice" rectangle at the origin, at 32 pixels per unit. */
  lemma IceRectangleScenario()
    ensures var ice := MaterialRecord("ice", Given(1.0), Given(0.1), Given(0.0), Absent, Absent);
            var catalog := LoadedCatalog(map[], Records([ice]));
            var rect := MapObject(RectangleObject(Rect(0.0, 0.0, 64.0, 64.0)), map["material" := "ice"]);
            var layer := MapLayer("physics", true, map[], [rect], NotGroup);
            var r := CreatePhysicsOutcome(Synth(map[], 0, [], catalog), [layer], "physics", 32.0);
            && r.error.None? && r.state.tracked == [0] && r.state.nextId == 1 && r.state.live.Keys == {0}
            && r.state.live[0] == StaticBody([Fixture(BoxShape(1.0, 1.0, Vec2(1.0, 1.0), 0.0), Material(1.0, 0.1, 0.0, 1, 0))], None)
  {
    var ice := MaterialRecord("ice", Given(1.0), Given(0.1), Given(0.0), Absent, Absent);
    var catalog := LoadedCatalog(map[], Records([ice]));
    assert [ice][1..] == [];
    assert Readable(ice) && RecordFixture(ice) == FixtureDef(None, Material(1.0, 0.1, 0.0, 1, 0));
    assert LoadedCatalog(map[], Records([ice])) == PutRecords(Seeded(map[]), [ice]);
    assert PutRecords(Seeded(map[]), [ice]) == PutRecords(Seeded(map[])["ice" := RecordFixture(ice)], []);
    assert catalog == Seeded(map[])["ice" := RecordFixture(ice)];
    assert catalog["ice"] == FixtureDef(None, Material(1.0, 0.1, 0.0, 1, 0));
    var rect := MapObject(RectangleObject(Rect(0.0, 0.0, 64.0, 64.0)), map["material" := "ice"]);
    var layer := MapLayer("physics", true, map[], [rect], NotGroup);
    assert [layer][..0] == [];
    assert GroupScan([layer], "physics") == None;
    assert GetLayer([layer], "physics") == Some(layer);
    assert ObjectMaterial(rect) == "ice";
    assert !IsNpc("ice") by {
      assert AsciiLower("ice"[0]) != AsciiLower("npc"[0]);
    }
    assert GetRectangle(Rect(0.0, 0.0, 64.0, 64.0), 32.0) == BoxShape(1.0, 1.0, Vec2(1.0, 1.0), 0.0);
    assert [rect][1..] == [];
  }

  class MapBodyManager {
    const world: World
    const units: real
    var bodies: seq<BodyId>
    var materials: map<string, FixtureDef>

    function State(): Synth
      reads this, world
    {
      Synth(world.bodies, world.nextId, bodies, materials)
    }

    ghost predicate Valid()
      reads this, world
    {
      units != 0.0 && Coherent(State())
    }

    /** With no materials file nothing is loaded, not even the built-ins. */
    constructor (world: World, unitsPerPixel: real, materialsFile: Option<MaterialSource>)
      requires world.Valid() && unitsPerPixel != 0.0
      ensures Valid() && this.world == world && units == unitsPerPixel && bodies == []
      ensures materials == if materialsFile.None? then map[] else LoadedCatalog(map[], materialsFile.value)
    {
      this.world := world;
      units := unitsPerPixel;
      bodies := [];
      materials := map[];
      new;
      if materialsFile.Some? {
        LoadMaterialsFile(materialsFile.value);
      }
    }

    /** The layer lookup at the start of createPhysics. */
    static method FindLayer(tiledMap: seq<MapLayer>, layerName: string) returns (layer: Option<MapLayer>)
      ensures layer == ResolveLayer(tiledMap, layerName)
    {
      layer := None;
      var i := 0;
      while i < |tiledMap|
        invariant 0 <= i <= |tiledMap|
        invariant layer == GroupScan(tiledMap[..i], layerName)
      {
        var mapLayer := tiledMap[i];
        if IsGroup(mapLayer) {
          layer := GetLayer(mapLayer.children.layers, layerName);
        }
        assert tiledMap[..i + 1][..i] == tiledMap[..i];
        i := i + 1;
      }
      assert tiledMap[..i] == tiledMap;
      if layer.None? {
        layer := GetLayer(tiledMap, layerName);
      }
    }

    /** createPhysics; the result is the exception it ends with, if any. */
    method CreatePhysics(tiledMap: seq<MapLayer>, layerName: string, mapName: string) returns (error: Option<SynthError>)
      requires Valid()
      modifies this, world
      ensures Valid()
      ensures Outcome(State(), error) == CreatePhysicsOutcome(old(State()), tiledMap, layerName, units)
      ensures ResolveLayer(tiledMap, layerName).None? ==> State() == old(State()) && error.None?
    {
      var layer := FindLayer(tiledMap, layerName);
      if layer.None? {
        return None;
      }
      var objects := layer.value.objects;
      var properties := layer.value.properties;
      ghost var start := State();
      var j := 0;
      while j < |objects|
        invariant 0 <= j <= |objects|
        invariant Valid()
        invariant Run(State(), properties, objects[j..], units) == Run(start, properties, objects, units)
      {
        assert objects[j..][0] == objects[j] && objects[j..][1..] == objects[j + 1..];
        error := AddBody(properties, objects[j]);
        if error.Some? {
          return;
        }
        j := j + 1;
      }
      assert objects[j..] == [];
      return None;
    }

    /** One pass of the object loop of createPhysics. */
    method AddBody(properties: map<string, string>, mapObject: MapObject) returns (error: Option<SynthError>)
      requires Valid()
      modifies this`materials, this`bodies, world
      ensures Valid()
      ensures Outcome(State(), error) == Step(old(State()), properties, mapObject, units)
    {
      var direct := DirectShape(mapObject, units);
      if direct.None? {
        // neither a rectangle, a polygon, a polyline nor a circle
        return None;
      }
      var shape := direct.value;
      StepKeepsCoherent(State(), properties, mapObject, units);
      ghost var before := State();
      var body := world.CreateBody();
      ghost var res := Resolve(properties, before.materials, mapObject, shape);
      ghost var created := before.(live := before.live[body := NewBody], nextId := body + 1);
      var key, failure := PrepareFixture(properties, mapObject, shape);
      if failure.Some? {
        assert State() == created;
        assert Step(before, properties, mapObject, units) == Outcome(created, failure);
        return failure;
      }
      AttachFixture(body, key, "material" in properties);
      assert world.bodies == before.live[body := res.body];
      assert State() == Synth(before.live[body := res.body], body + 1, before.tracked + [body],
                              before.materials[key := before.materials[key].(shape := None)]);
      assert Step(before, properties, mapObject, units) == Outcome(State(), None);
      return None;
    }

    /**
     * The rest of a successful pass: tag the body when the layer names the
     * material, attach the fixture, track the body and clear the shared
     * definition's shape again.
     */
    method AttachFixture(body: BodyId, key: string, tagged: bool)
      requires world.Valid() && body in world.bodies && world.bodies[body] == NewBody
      requires key in materials && materials[key].shape.Some?
      modifies this`materials, this`bodies, world
      ensures world.Valid() && world.nextId == old(world.nextId)
      ensures world.bodies == old(world.bodies)[body := StaticBody([Fixture(old(materials)[key].shape.value, old(materials)[key].material)],
                                                                   if tagged then Some(LineOfSightTag) else None)]
      ensures bodies == old(bodies) + [body]
      ensures materials == old(materials)[key := old(materials)[key].(shape := None)]
    {
      if tagged {
        world.SetUserData(body, LineOfSightTag);
      }
      ghost var userData := if tagged then Some(LineOfSightTag) else None;
      assert world.bodies == old(world.bodies)[body := StaticBody([], userData)];
      var fixtureDef := materials[key];
      world.CreateFixture(body, fixtureDef);
      ghost var fixture := Fixture(fixtureDef.shape.value, fixtureDef.material);
      assert [] + [fixture] == [fixture];
      assert world.bodies == old(world.bodies)[body := StaticBody([fixture], userData)];
      bodies := bodies + [body];
      materials := materials[key := materials[key].(shape := None)];
    }

    /**
     * The material part of one pass: find the definition and point its shape
     * at this object's shape (or at the hollow outline for "npc").
     */
    method PrepareFixture(properties: map<string, string>, mapObject: MapObject, shape: Shape)
      returns (key: string, failure: Option<SynthError>)
      modifies this`materials
      ensures var r := Resolve(properties, old(materials), mapObject, shape);
              if failure.Some? then r == Failed(failure.value) && materials == old(materials)
              else && r.Resolved? && r.key == key
                   && key in materials && materials == old(materials)[key := materials[key]]
                   && materials[key].shape.Some?
                   && r.body == StaticBody([Fixture(materials[key].shape.value, materials[key].material)],
                                           if "material" in properties then Some(LineOfSightTag) else None)
    {
      if "material" in properties {
        key := properties["material"];
        if key !in materials {
          // "no fixture" is printed, then createFixture(null) throws
          return key, Some(MissingLayerMaterial(key));
        }
        materials := materials[key := materials[key].(shape := Some(shape))];
      } else {
        key := GetProperty(mapObject.properties, "material", "default");
        if key !in materials {
          // getting the material's shape dereferences null
          return key, Some(MissingObjectMaterial(key));
        }
        if EqualsIgnoreCase(key, "npc") {
          if mapObject.kind.RectangleObject? {
            materials := materials[key := materials[key].(shape := Some(GetHollowRectangle(mapObject.kind.rectangle)))];
          }
        } else {
          materials := materials[key := materials[key].(shape := Some(shape))];
        }
      }
      if materials[key].shape.None? {
        // createFixture dereferences the missing shape
        return key, Some(NpcShapeUnset(key));
      }
      failure := None;
    }

    /** destroyPhysics: every tracked body leaves the world and the list is emptied; a second call changes nothing. */
    method DestroyPhysics()
      requires Valid()
      modifies this`bodies, world
      ensures Valid() && bodies == []
      ensures world.bodies == old(world.bodies) - (set k | 0 <= k < |old(bodies)| :: old(bodies)[k])
      ensures world.nextId == old(world.nextId) && materials == old(materials)
    {
      var i := 0;
      while i < |bodies|
        invariant 0 <= i <= |bodies| && bodies == old(bodies)
        invariant world.Valid() && world.nextId == old(world.nextId)
        invariant world.bodies == old(world.bodies) - (set k | 0 <= k < i :: bodies[k])
        invariant forall k :: i <= k < |bodies| ==> bodies[k] in world.bodies
      {
        world.DestroyBody(bodies[i]);
        i := i + 1;
      }
      bodies := [];
    }

    /** loadMaterialsFile: the two built-ins, then one put per record until a record cannot be read. */
    method LoadMaterialsFile(source: MaterialSource)
      modifies this`materials
      ensures materials == LoadedCatalog(old(materials), source)
    {
      materials := materials["default" := DefaultPreset];
      materials := materials["physics" := PhysicsPreset];
      match source {
        case Unreadable =>
          // the parser threw; the exception is caught
        case Records(records) =>
          var i := 0;
          while i < |records|
            invariant 0 <= i <= |records|
            invariant PutRecords(materials, records[i..]) == LoadedCatalog(old(materials), source)
          {
            var record := records[i];
            assert records[i..][0] == record && records[i..][1..] == records[i + 1..];
            if !Readable(record) {
              // a getter threw; the exception is caught
              break;
            }
            materials := materials[record.name := RecordFixture(record)];
            i := i + 1;
          }
          assert i == |records| ==> records[i..] == [];
      }
    }

    /** addFixture: put a definition under a name, replacing any earlier one. */
    method AddFixture(fixtureDef: FixtureDef, name: string)
      modifies this`materials
      ensures materials == old(materials)[name := fixtureDef]
    {
      materials := materials[name := fixtureDef];
    }
  }
}
