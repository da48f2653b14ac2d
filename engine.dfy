/** The Game of lib.rs: the list of sprite scenes in the world and the list of
    game objects. The window and the OpenGL backend are not modelled. */
module Engine {
  import opened Components
  import opened GameObjects

  class Game {
    var sprites: seq<(Uuid, Scene)>
    var objects: seq<GameObject>

    /** Each game object is owned by the list once: no two slots hold the same
        object, so changing one leaves the others as they were. */
    ghost predicate Valid()
      reads this
    {
      forall i, j :: 0 <= i < j < |objects| ==> objects[i] != objects[j]
    }

    /** `Game::new`: no sprite and no object. */
    constructor New()
      ensures Valid()
      ensures sprites == [] && objects == []
    {
      sprites, objects := [], [];
    }

    /** `add_sprite`, with the texture loading and the posed one-child scene
        built by the caller: appends the scene and returns the new length of
        the list. */
    method AddSprite(spriteUuid: Uuid, scene: Scene) returns (n: nat)
      requires Valid()
      modifies this
      ensures Valid()
      ensures sprites == old(sprites) + [(spriteUuid, scene)]
      ensures n == |sprites|
      ensures objects == old(objects)
    {
      sprites := sprites + [(spriteUuid, scene)];
      n := |sprites|;
    }

    /** `new_game_object` as written: appends a fresh object at (x, y) and
        returns the new length of the list, which is one more than the new
        object's index. */
    method NewGameObject(x: real, y: real) returns (n: nat)
      requires Valid()
      modifies this
      ensures Valid()
      ensures |objects| == |old(objects)| + 1 && objects[..|old(objects)|] == old(objects)
      ensures fresh(objects[|objects| - 1])
      ensures objects[|objects| - 1].transform == Transform(x, y, 1.0, 0.0)
      ensures objects[|objects| - 1].sprite == None
      ensures n == |objects| && n - 1 == |old(objects)|
      ensures sprites == old(sprites)
    {
      var gameObject := new GameObject.New(x, y);
      objects := objects + [gameObject];
      n := |objects|;
    }

    /** `new_game_object` returning the new object's index, which is what the
        engine's entry point passes to `get_game_object_mut`. */
    method NewGameObjectIndex(x: real, y: real) returns (index: nat)
      requires Valid()
      modifies this
      ensures Valid()
      ensures |objects| == |old(objects)| + 1 && objects[..|old(objects)|] == old(objects)
      ensures index == |old(objects)|
      ensures fresh(objects[index])
      ensures objects[index].transform == Transform(x, y, 1.0, 0.0)
      ensures objects[index].sprite == None
      ensures GetGameObject(index) == Some(objects[index])
      ensures sprites == old(sprites)
    {
      var gameObject := new GameObject.New(x, y);
      objects := objects + [gameObject];
      index := |objects| - 1;
    }

    /** `get_game_object`: the object at `index`, or nothing past the end. */
    function GetGameObject(index: nat): (r: Option<GameObject>)
      reads this
      ensures r.Some? <==> index < |objects|
      ensures r.Some? ==> r.value == objects[index]
    {
      if index < |objects| then Some(objects[index]) else None
    }

    /** `get_game_object_mut`: the same lookup; the list is not changed, and
        the caller may change the object it gets. */
    method GetGameObjectMut(index: nat) returns (r: Option<GameObject>)
      ensures r.Some? <==> index < |objects|
      ensures r.Some? ==> r.value == objects[index]
    {
      if index < |objects| {
        r := Some(objects[index]);
      } else {
        r := None;
      }
    }
  }

  /** The entry point as written: the value `new_game_object` returns is used
      as an index, so the lookup finds nothing and the `unwrap` that follows
      panics. */
  method PlayerSetupAsWritten() returns (player: Option<GameObject>)
    ensures player == None
  {
    var game := new Game.New();
    var handle := game.NewGameObject(400.0, 400.0);
    player := game.GetGameObjectMut(handle);
  }

  /** The entry point with the index returned: the player object is found, is
      at (400, 400) and carries the sprite added to it. */
  method PlayerSetup(scene: Scene, spriteUuid: Uuid) returns (game: Game, player: GameObject)
    ensures game.objects == [player]
    ensures player.transform == Transform(400.0, 400.0, 1.0, 0.0)
    ensures player.sprite == Some(SpriteComponent(scene, spriteUuid))
  {
    game := new Game.New();
    var index := game.NewGameObjectIndex(400.0, 400.0);
    var found := game.GetGameObjectMut(index);
    player := found.value;
    player.AddSprite(scene, spriteUuid);
  }
}
