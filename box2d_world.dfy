/**
 * The Box2D world as the map-to-body code sees it: a set of live body ids,
 * each with the fixtures attached to it and its user data.
 */
module Box2D {
  import opened Wrappers
  import opened Geometry
  import opened Materials

  type BodyId = nat

  datatype Fixture = Fixture(shape: Shape, material: Material)

  datatype StaticBody = StaticBody(fixtures: seq<Fixture>, userData: Option<string>)

  const NewBody: StaticBody := StaticBody([], None)

  class World {
    var bodies: map<BodyId, StaticBody>
    var nextId: BodyId

    /** Every live id was handed out before. */
    ghost predicate Valid()
      reads this
    {
      forall id :: id in bodies ==> id < nextId
    }

    constructor ()
      ensures Valid() && bodies == map[] && nextId == 0
    {
      bodies := map[];
      nextId := 0;
    }

    /** createBody: a fresh id, with no fixtures and no user data yet. */
    method CreateBody() returns (id: BodyId)
      requires Valid()
      modifies this
      ensures Valid()
      ensures id == old(nextId) && id !in old(bodies) && nextId == old(nextId) + 1
      ensures bodies == old(bodies)[id := NewBody]
    {
      id := nextId;
      bodies := bodies[id := NewBody];
      nextId := nextId + 1;
    }

    /** createFixture: attach the definition's shape and material to a live body. */
    method CreateFixture(id: BodyId, def: FixtureDef)
      requires Valid() && id in bodies && def.shape.Some?
      modifies this
      ensures Valid() && nextId == old(nextId)
      ensures bodies == old(bodies)[id := old(bodies)[id].(fixtures := old(bodies)[id].fixtures + [Fixture(def.shape.value, def.material)])]
    {
      var body := bodies[id];
      bodies := bodies[id := body.(fixtures := body.fixtures + [Fixture(def.shape.value, def.material)])];
    }

    method SetUserData(id: BodyId, data: string)
      requires Valid() && id in bodies
      modifies this
      ensures Valid() && nextId == old(nextId)
      ensures bodies == old(bodies)[id := old(bodies)[id].(userData := Some(data))]
    {
      bodies := bodies[id := bodies[id].(userData := Some(data))];
    }

    /** destroyBody: the body leaves the world. */
    method DestroyBody(id: BodyId)
      requires Valid() && id in bodies
      modifies this
      ensures Valid() && nextId == old(nextId)
      ensures bodies == old(bodies) - {id}
    {
      bodies := bodies - {id};
    }
  }
}
