/**
 * MapRenderer: splits a map's layers into those drawn before the player
 * (firstRenderLayers) and those drawn after it (lastRenderLayers). Drawing
 * itself is not modelled; only the partition and the render-order flag are.
 */
module MapRendering {
  import opened Maps

  /** A top-level group contributes its children, one level deep; any other layer is itself. */
  function Expand(l: MapLayer): seq<MapLayer> {
    if IsGroup(l) then l.children.layers else [l]
  }

  /** The layers the constructor hands to addLayer, in order. */
  function Flatten(layers: seq<MapLayer>): seq<MapLayer> {
    if |layers| == 0 then [] else Expand(layers[0]) + Flatten(layers[1..])
  }

  function VisibleLayers(layers: seq<MapLayer>): (r: seq<MapLayer>)
    ensures |r| <= |layers|
  {
    if |layers| == 0 then []
    else if layers[0].visible then [layers[0]] + VisibleLayers(layers[1..])
    else VisibleLayers(layers[1..])
  }

  predicate IsPlayerLayer(l: MapLayer) {
    EqualsIgnoreCase(l.name, "player")
  }

  /** Index of the first layer named "player" in any case, or the length when there is none. */
  function FirstPlayer(layers: seq<MapLayer>): (k: nat)
    ensures k <= |layers|
    ensures forall j :: 0 <= j < k ==> !IsPlayerLayer(layers[j])
    ensures k < |layers| ==> IsPlayerLayer(layers[k])
  {
    if |layers| == 0 then 0
    else if IsPlayerLayer(layers[0]) then 0
    else 1 + FirstPlayer(layers[1..])
  }

  /** The constructor's state: the two lists and the switchList flag. */
  datatype Split = Split(first: seq<MapLayer>, last: seq<MapLayer>, switched: bool)

  const Unsplit: Split := Split([], [], false)

  /** One addLayer call: a visible layer is appended to exactly one of the two lists, and the switch never turns back. */
  function AddOne(st: Split, l: MapLayer): (r: Split)
    ensures !l.visible ==> r == st
    ensures l.visible ==> (r.first == st.first + [l] && r.last == st.last) != (r.first == st.first && r.last == st.last + [l])
    ensures st.switched ==> r.switched && r.first == st.first
  {
    if !l.visible then st
    else
      var switched := st.switched || IsPlayerLayer(l);
      if !switched then st.(first := st.first + [l])
      else st.(last := st.last + [l], switched := true)
  }

  function AddAll(st: Split, layers: seq<MapLayer>): Split
    decreases |layers|
  {
    if |layers| == 0 then st else AddAll(AddOne(st, layers[0]), layers[1..])
  }

  lemma FlattenAppend(a: seq<MapLayer>, b: seq<MapLayer>)
    ensures Flatten(a + b) == Flatten(a) + Flatten(b)
  {
    if |a| > 0 {
      assert (a + b)[1..] == a[1..] + b;
      FlattenAppend(a[1..], b);
    } else {
      assert a + b == b;
    }
  }

  /** Without top-level groups the constructor hands every layer over unchanged. */
  lemma {:induction false} FlattenWithoutGroups(layers: seq<MapLayer>)
    requires forall i :: 0 <= i < |layers| ==> !IsGroup(layers[i])
    ensures Flatten(layers) == layers
  {
    if |layers| > 0 {
      FlattenWithoutGroups(layers[1..]);
    }
  }

  /** A group at the top level is replaced by its children as they are, whatever the group's own visibility and whatever the children are (nested groups included). */
  lemma FlattenOfGroup(g: MapLayer)
    requires IsGroup(g)
    ensures Flatten([g]) == g.children.layers
  {
    assert [g][1..] == [];
  }

  /** Once switched, every further visible layer is appended to the second list. */
  lemma {:induction false} AddAllAfterSwitch(st: Split, layers: seq<MapLayer>)
    requires st.switched
    decreases |layers|
    ensures AddAll(st, layers) == Split(st.first, st.last + VisibleLayers(layers), true)
  {
    if |layers| > 0 {
      var l, rest := layers[0], layers[1..];
      var next := AddOne(st, l);
      assert AddAll(st, layers) == AddAll(next, rest);
      if l.visible {
        assert next == Split(st.first, st.last + [l], true);
        AddAllAfterSwitch(next, rest);
        assert VisibleLayers(layers) == [l] + VisibleLayers(rest);
        assert st.last + [l] + VisibleLayers(rest) == st.last + VisibleLayers(layers);
      } else {
        assert next == st;
        AddAllAfterSwitch(next, rest);
        assert VisibleLayers(layers) == VisibleLayers(rest);
      }
    }
  }

  /** Skipping a leading non-"player" layer moves the first player index by one. */
  lemma FirstPlayerAfterOther(l: MapLayer, v: seq<MapLayer>)
    requires !IsPlayerLayer(l)
    ensures FirstPlayer([l] + v) == 1 + FirstPlayer(v)
  {
    assert ([l] + v)[1..] == v;
  }

  lemma SlicesAfterOther(first: seq<MapLayer>, l: MapLayer, v: seq<MapLayer>, k: nat)
    requires k <= |v|
    ensures first + [l] + v[..k] == first + ([l] + v)[..1 + k]
    ensures v[k..] == ([l] + v)[1 + k..]
  {
    assert ([l] + v)[..1 + k] == [l] + v[..k];
  }

  /**
   * The partition: visible layers before the first visible "player" layer go
   * to the first list; that layer and every visible layer after it go to the
   * second; invisible layers go nowhere.
   */
  lemma {:induction false} AddAllSplitsAtFirstPlayer(first: seq<MapLayer>, layers: seq<MapLayer>)
    decreases |layers|
    ensures var v := VisibleLayers(layers);
            var k := FirstPlayer(v);
            AddAll(Split(first, [], false), layers) == Split(first + v[..k], v[k..], k < |v|)
  {
    if |layers| == 0 {
      return;
    }
    var l, rest := layers[0], layers[1..];
    var v' := VisibleLayers(rest);
    var st := Split(first, [], false);
    assert AddAll(st, layers) == AddAll(AddOne(st, l), rest);
    if !l.visible {
      assert AddOne(st, l) == st;
      assert VisibleLayers(layers) == v';
      AddAllSplitsAtFirstPlayer(first, rest);
    } else if IsPlayerLayer(l) {
      assert VisibleLayers(layers) == [l] + v';
      assert AddOne(st, l) == Split(first, [l], true);
      AddAllAfterSwitch(Split(first, [l], true), rest);
      assert FirstPlayer([l] + v') == 0;
      assert first + ([l] + v')[..0] == first;
    } else {
      assert VisibleLayers(layers) == [l] + v';
      assert AddOne(st, l) == Split(first + [l], [], false);
      AddAllSplitsAtFirstPlayer(first + [l], rest);
      FirstPlayerAfterOther(l, v');
      SlicesAfterOther(first, l, v', FirstPlayer(v'));
    }
  }

  /** Concatenating the two lists gives back exactly the visible flattened layers, in order. */
  lemma PartitionIsVisibleLayers(layers: seq<MapLayer>)
    ensures var r := AddAll(Unsplit, layers);
            r.first + r.last == VisibleLayers(layers)
  {
    var v := VisibleLayers(layers);
    AddAllSplitsAtFirstPlayer([], layers);
    assert [] + v[..FirstPlayer(v)] + v[FirstPlayer(v)..] == v;
  }

  /**
   * What the constructor leaves behind: the two lists together are the visible
   * layers; no "player" layer is in the first; the second, when non-empty,
   * starts with one; and switchList is set exactly when the second is non-empty.
   */
  lemma PartitionFacts(layers: seq<MapLayer>)
    ensures var r := AddAll(Unsplit, layers);
            && r.first + r.last == VisibleLayers(layers)
            && (forall i :: 0 <= i < |r.first| ==> !IsPlayerLayer(r.first[i]))
            && (r.last != [] ==> IsPlayerLayer(r.last[0]))
            && (r.switched <==> r.last != [])
  {
    var v := VisibleLayers(layers);
    var k := FirstPlayer(v);
    AddAllSplitsAtFirstPlayer([], layers);
    PartitionIsVisibleLayers(layers);
    assert [] + v[..k] == v[..k];
    assert forall i :: 0 <= i < k ==> v[..k][i] == v[i];
  }

  /** An invisible layer, "player" or not, changes nothing; in particular it does not switch lists. */
  lemma InvisibleLayerIgnored(st: Split, l: MapLayer)
    requires !l.visible
    ensures AddOne(st, l) == st
  {
  }

  /** switchList only goes from false to true. */
  lemma SwitchIsMonotone(st: Split, layers: seq<MapLayer>)
    requires st.switched
    ensures AddAll(st, layers).switched
  {
    AddAllAfterSwitch(st, layers);
  }

  class MapRenderer {
    var firstRenderLayers: seq<MapLayer>
    var lastRenderLayers: seq<MapLayer>
    var firstRun: bool
    var switchList: bool

    function State(): Split
      reads this
    {
      Split(firstRenderLayers, lastRenderLayers, switchList)
    }

    constructor (layers: seq<MapLayer>)
      ensures State() == AddAll(Unsplit, Flatten(layers))
      ensures firstRenderLayers + lastRenderLayers == VisibleLayers(Flatten(layers))
      ensures forall i :: 0 <= i < |firstRenderLayers| ==> !IsPlayerLayer(firstRenderLayers[i])
      ensures lastRenderLayers != [] ==> IsPlayerLayer(lastRenderLayers[0])
      ensures switchList <==> lastRenderLayers != []
      ensures !firstRun
    {
      firstRenderLayers := [];
      lastRenderLayers := [];
      firstRun := false;
      switchList := false;
      new;
      ghost var target := AddAll(Unsplit, Flatten(layers));
      var i := 0;
      while i < |layers|
        invariant 0 <= i <= |layers|
        invariant AddAll(State(), Flatten(layers[i..])) == target
        invariant !firstRun
      {
        var layer := layers[i];
        assert layers[i..][1..] == layers[i + 1..];
        ghost var later := Flatten(layers[i + 1..]);
        assert Flatten(layers[i..]) == Expand(layer) + later;
        if IsGroup(layer) {
          var children := layer.children.layers;
          var j := 0;
          while j < |children|
            invariant 0 <= j <= |children|
            invariant AddAll(State(), children[j..] + later) == target
            invariant !firstRun
          {
            assert (children[j..] + later)[1..] == children[j + 1..] + later;
            AddLayer(children[j]);
            j := j + 1;
          }
          assert children[j..] + later == later;
        } else {
          assert [layer] + later == Flatten(layers[i..]);
          AddLayer(layer);
        }
        i := i + 1;
      }
      assert layers[i..] == [];
      PartitionFacts(Flatten(layers));
    }

    /** addLayer: the state after one more layer. */
    method AddLayer(layer: MapLayer)
      modifies this`firstRenderLayers, this`lastRenderLayers, this`switchList
      ensures State() == AddOne(old(State()), layer)
    {
      if layer.visible {
        if EqualsIgnoreCase(layer.name, "player") {
          switchList := true;
        }
        if !switchList {
          firstRenderLayers := firstRenderLayers + [layer];
        } else {
          lastRenderLayers := lastRenderLayers + [layer];
        }
      }
    }

    /** renderBefore draws the first list (not modelled) and records that it ran. */
    method RenderBefore()
      modifies this`firstRun
      ensures firstRun
    {
      firstRun := true;
    }

    /** renderAfter warns when renderBefore has not run yet, and draws the second list either way. */
    method RenderAfter() returns (warned: bool)
      ensures warned <==> !firstRun
    {
      warned := !firstRun;
    }
  }
}
