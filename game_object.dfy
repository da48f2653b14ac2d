/** The game object of gameobject.rs: a transform and an optional sprite. */
module GameObjects {
  import opened Components

  class GameObject {
    var transform: Transform
    var sprite: Option<SpriteComponent>

    /** `GameObject::new`: at the given position, size 1, rotation 0, and no
        sprite yet. The graphics factory and command buffer are not modelled. */
    constructor New(x: real, y: real)
      ensures transform == Transform(x, y, 1.0, 0.0)
      ensures sprite == None
    {
      transform := Transform(x, y, 1.0, 0.0);
      sprite := None;
    }

    /** `add_sprite`, with the texture loading and the one-child scene done by
        the caller: the sprite slot is filled and the transform kept. */
    method AddSprite(scene: Scene, spriteUuid: Uuid)
      modifies this
      ensures sprite == Some(SpriteComponent(scene, spriteUuid))
      ensures transform == old(transform)
    {
      sprite := Some(SpriteComponent(scene, spriteUuid));
    }

    /** `get_transform`: the stored transform. */
    function GetTransform(): (t: Transform)
      reads this
      ensures t == transform
    {
      transform
    }

    /** `update`: the sprite component's `update` is called with the
        transform exactly when there is a sprite; the object is not changed. */
    method Update() returns (call: Option<Transform>)
      ensures call.Some? <==> sprite.Some?
      ensures call.Some? ==> call.value == transform
    {
      if sprite.Some? {
        call := Some(transform);
      } else {
        call := None;
      }
    }

    /** `render`: the sprite is drawn exactly when there is one. */
    method Render() returns (drawn: bool)
      ensures drawn <==> sprite.Some?
    {
      drawn := false;
      if sprite.Some? {
        drawn := true;
      }
    }
  }
}
