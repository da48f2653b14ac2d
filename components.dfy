/** Value types shared by the engine's modules. The sprite and scene payloads
    come from rendering libraries and appear here only as opaque handles. */
module Components {

  datatype Option<T> = None | Some(value: T)

  /** The identifier that a sprite scene hands out for a child it holds. */
  type Uuid = nat

  /** An opaque sprite scene (a texture loaded from an asset file, wrapped in a
      one-child scene). Nothing in the core looks inside it. */
  datatype Scene = Scene(handle: nat)

  /** The SpriteComponent record of entitycomponentsystem.rs and gameobject.rs:
      a scene and the identifier of the sprite inside it. */
  datatype SpriteComponent = SpriteComponent(scene: Scene, spriteId: Uuid)

  /** The TransformComponent record that entitycomponentsystem.rs and
      gameobject.rs both declare: a position, a uniform size and a rotation. */
  datatype Transform = Transform(x: real, y: real, size: real, rotation: real)

  /** The Player component: an entity that reacts to the player's actions. */
  datatype Player = Player(movementSpeed: real)
}
