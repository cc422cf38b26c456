/**
 * The parts of a Tiled map (as libGDX loads it) that the core reads: layers,
 * possibly grouped, each with a visibility flag, a property bag and objects.
 */
module Maps {
  import opened Wrappers

  datatype Rect = Rect(x: real, y: real, width: real, height: real)

  datatype Circle = Circle(x: real, y: real, radius: real)

  /** The object classes libGDX builds from a map file. */
  datatype ObjectKind =
    | TextureObject                       // image and tile objects
    | RectangleObject(rectangle: Rect)
    | PolygonObject(vertices: seq<real>)  // transformed vertices, flattened x0, y0, x1, y1, ...
    | PolylineObject(vertices: seq<real>) // transformed vertices, flattened
    | CircleObject(circle: Circle)
    | OtherObject                         // any other class, such as an ellipse object

  datatype MapObject = MapObject(kind: ObjectKind, properties: map<string, string>)

  datatype MapLayer = MapLayer(
    name: string,
    visible: bool,
    properties: map<string, string>,
    objects: seq<MapObject>,
    children: Children)

  /** A group layer holds further layers; any other layer holds none. */
  datatype Children = NotGroup | Group(layers: seq<MapLayer>)

  predicate IsGroup(l: MapLayer) {
    l.children.Group?
  }

  /** MapLayers.get(name): the first layer whose name equals `name` exactly, if any. */
  function GetLayer(layers: seq<MapLayer>, name: string): (r: Option<MapLayer>)
    ensures r.None? <==> forall i :: 0 <= i < |layers| ==> layers[i].name != name
    ensures r.Some? ==> exists i :: 0 <= i < |layers| && layers[i] == r.value && r.value.name == name &&
                                    forall j :: 0 <= j < i ==> layers[j].name != name
  {
    if |layers| == 0 then None
    else if layers[0].name == name then Some(layers[0])
    else
      var r := GetLayer(layers[1..], name);
      assert forall i :: 1 <= i < |layers| ==> layers[i] == layers[1..][i - 1];
      r
  }

  /** MapProperties.get(key, default): the stored value, or the default when the key is absent. */
  function GetProperty(properties: map<string, string>, key: string, default: string): string {
    if key in properties then properties[key] else default
  }

  function AsciiLower(c: char): char {
    if 'A' <= c <= 'Z' then (c as int + 32) as char else c
  }

  /** String.equalsIgnoreCase, folding ASCII letters. */
  predicate EqualsIgnoreCase(a: string, b: string) {
    |a| == |b| && forall i :: 0 <= i < |a| ==> AsciiLower(a[i]) == AsciiLower(b[i])
  }
}
