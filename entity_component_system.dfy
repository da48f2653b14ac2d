/** The entity table of entitycomponentsystem.rs: three parallel lists indexed
    by entity, the entity ids, the transforms and the optional sprites. */
module EntityComponentSystem {
  import opened Components

  /** One call of a sprite component's `update`, with the transform it is
      passed. What the call does to the sprite scene is external. */
  datatype SpriteCall = SpriteCall(entity: nat, transform: Transform)

  /** The indices of the filled slots of `s`, in increasing order. */
  function SomeSlots<T>(s: seq<Option<T>>): (r: seq<nat>)
    ensures forall k :: 0 <= k < |r| ==> r[k] < |s| && s[r[k]].Some?
    ensures forall i :: 0 <= i < |s| && s[i].Some? ==> i in r
    ensures forall j, k :: 0 <= j < k < |r| ==> r[j] < r[k]
  {
    if |s| == 0 then []
    else SomeSlots(s[..|s| - 1]) + (if s[|s| - 1].Some? then [|s| - 1] else [])
  }

  class ECS {
    var entities: seq<nat>
    var transforms: seq<Transform>
    var sprites: seq<Option<SpriteComponent>>

    /** The three lists have one slot per entity, and entity i is id i. */
    ghost predicate Valid()
      reads this
    {
      && |entities| == |transforms| == |sprites|
      && forall i :: 0 <= i < |entities| ==> entities[i] == i
    }

    /** `ECS::new`: no entity. */
    constructor ()
      ensures Valid()
      ensures entities == [] && transforms == [] && sprites == []
    {
      entities, transforms, sprites := [], [], [];
    }

    /** `new_entity`: appends one slot to each list and returns the index of
        the new entity, which has the given transform and no sprite. */
    method NewEntity(x: real, y: real, size: real, rotation: real) returns (e: nat)
      requires Valid()
      modifies this
      ensures Valid()
      ensures e == |old(transforms)|
      ensures transforms == old(transforms) + [Transform(x, y, size, rotation)]
      ensures sprites == old(sprites) + [None]
      ensures entities == old(entities) + [e]
      ensures e < |transforms| && GetTransform(e) == Transform(x, y, size, rotation)
    {
      var transform := Transform(x, y, size, rotation);
      var position := |transforms|;
      transforms := transforms + [transform];
      sprites := sprites + [None];
      entities := entities + [position];
      e := position;
    }

    /** `add_sprite_component`, with the sprite scene already built: fills the
        entity's sprite slot and changes nothing else. An entity outside the
        table makes the source panic, so it is excluded. */
    method AddSpriteComponent(entity: nat, sprite: SpriteComponent)
      requires Valid() && entity < |sprites|
      modifies this
      ensures Valid()
      ensures sprites == old(sprites)[entity := Some(sprite)]
      ensures transforms == old(transforms) && entities == old(entities)
    {
      sprites := sprites[entity := Some(sprite)];
    }

    /** `get_transform`: the transform stored for an entity of the table. */
    function GetTransform(entity: nat): (t: Transform)
      reads this
      requires entity < |transforms|
      ensures t == transforms[entity]
    {
      transforms[entity]
    }

    /** A write through the reference that `get_transform_mut` hands out: the
        entity's transform is replaced and nothing else changes. */
    method WriteTransform(entity: nat, transform: Transform)
      requires Valid() && entity < |transforms|
      modifies this
      ensures Valid()
      ensures transforms == old(transforms)[entity := transform]
      ensures sprites == old(sprites) && entities == old(entities)
    {
      transforms := transforms[entity := transform];
    }

    /** `update`: visits the entities in order and calls `update` on each
        sprite component that is present, passing the entity's transform. The
        table itself is not changed. */
    method Update() returns (calls: seq<SpriteCall>)
      requires Valid()
      ensures |calls| == |SomeSlots(sprites)|
      ensures forall k :: 0 <= k < |calls| ==>
                calls[k] == SpriteCall(SomeSlots(sprites)[k], transforms[SomeSlots(sprites)[k]])
    {
      calls := [];
      for position := 0 to |entities|
        invariant |calls| == |SomeSlots(sprites[..position])|
        invariant forall k :: 0 <= k < |calls| ==>
                    calls[k] == SpriteCall(SomeSlots(sprites[..position])[k],
                                           transforms[SomeSlots(sprites[..position])[k]])
      {
        assert sprites[..position + 1][..position] == sprites[..position];
        if sprites[position].Some? {
          calls := calls + [SpriteCall(position, transforms[position])];
        }
      }
      assert sprites[..|entities|] == sprites;
    }

    /** `render`: the entities whose sprite is drawn, in drawing order. */
    method Render() returns (drawn: seq<nat>)
      requires Valid()
      ensures drawn == SomeSlots(sprites)
    {
      drawn := [];
      for position := 0 to |entities|
        invariant drawn == SomeSlots(sprites[..position])
      {
        assert sprites[..position + 1][..position] == sprites[..position];
        if sprites[position].Some? {
          drawn := drawn + [position];
        }
      }
      assert sprites[..|entities|] == sprites;
    }
  }
}
