# Input, action and entity tables of a small 2D game engine

This project models the parts of the engine that hold logic of their own:

- **Input to actions** (`InputSystem`, `Systems.InputRun`). Each frame, the input system turns the set of pressed keys into four "currently requested" flags: MoveNorth, MoveSouth, MoveWest and MoveEast. The bindings are Up/W, Down/S, Left/A and Right/D. The system also flips the `draw_colliders` debug option when F1 goes down, meaning F1 is pressed now and was not pressed in the previous frame.
- **Actions to force** (`ActionSystem`, `Systems.ActRun`). Every Player gets a force vector built from the flags. On the y axis, north wins over south; on the x axis, east wins over west. Y grows downwards, so north is negative y.
- **Resources** (`Resources`). These are the action map of `ActionContext::new` (every action present and false) and the derived defaults of `ActionContext`, `GameOptions` and `DeltaTime`.
- **The entity table** (`EntityComponentSystem.ECS`). It holds three parallel lists: entity ids, transforms and optional sprites.
- **Game objects** (`GameObjects.GameObject`). Each has a transform and an optional sprite.
- **The game's lists** (`Engine.Game`). These are the sprite scenes and the game objects.

`ActionContext`, `GameOptions`, `ECS`, `GameObject` and `Game` become classes, because the source updates them in place. `InputContext`, `DeltaTime`, `Transform`, `Player` and `SpriteComponent` are values.

Other choices:

- The force rule and the two key-mapping steps are also written as functions (`ActionSystem.Force`, `InputSystem.MappedKeys`, `InputSystem.MappedInput`). The methods are proved against these functions.
- src/engine/systems.rs repeats the code of input_system.rs and action_system.rs. Its `Input` system calls the `InputSystem` module. Its `Act` system is written out with the same local force updates as the source, and is proved to give the same force as `ActionSystem.Force`.
- Sprite scenes, textures and sprite ids are opaque values that the caller passes in.
- The calls the core makes into the sprite library (a sprite component's `update` and `render`) come back as results. `ECS.Update` returns the list of calls it makes, and `GameObject.Render` returns whether it draws.
- The force systems return the force each player would receive. Handing it to the rigid-body set is external.
- Real numbers stand for the source's `f64`. They are only stored, negated and selected here.
- `KeyCode` names the nine keys the core looks at. `Other(code)` stands for every other key.

Two facts about the source shape what is modelled:

- The engine has no collision code of its own. It hands collisions to nphysics2d. The draw system queries nphysics contacts and bounding boxes only to draw collider outlines (src/engine/systems/draw_system.rs:81-91).
- The guard `!force.is_empty()` (src/engine/systems/action_system.rs:30) tests whether the vector has no elements. That is never the case for a 2-vector, so `apply_force` is always called, even with a zero force. The call is left out.

## Model

| member | source | states |
|---|---|---|
| `Resources.AllActionsComplete` | src/engine/resources.rs:43-49 | The four actions are the whole `PlayerAction` enumeration. |
| `Resources.DefaultDeltaTime` | src/engine/resources.rs:12-13 | The derived default frame time is zero seconds. |
| `Resources.CollectActionMap` | src/engine/resources.rs:30-38 | Collecting a list of pairs into a map, inserting in order, gives at most one key per pair. Its keys and values are stated in `CollectActionMapKeys` and `CollectActionMapLastWins`. |
| `Resources.CollectActionMapKeys` | src/engine/resources.rs:30-38 | Collecting a list of pairs into a map gives exactly the pairs' first components as keys (both directions). |
| `Resources.CollectActionMapLastWins` | src/engine/resources.rs:30-38 | In the collected map, a key that does not occur later in the list has the value of its pair, so the last insertion wins. |
| `Resources.NewActionMap` | src/engine/resources.rs:29-40 | The map of `ActionContext::new` has exactly the four actions as keys, and every one maps to false. |
| `Resources.ActionContext.New` | src/engine/resources.rs:28-41 | `ActionContext::new` holds that map, so every action can be indexed and none is requested. |
| `Resources.ActionContext.Default` | src/engine/resources.rs:23-26 | The derived default has an empty map, which the force rule cannot index. |
| `Resources.GameOptions.Default` | src/engine/resources.rs:51-54 | By default colliders are not drawn. |
| `Resources.NewIsNotDefault` | src/engine/resources.rs:23-41 | `new()` and `default()` differ: only `new()` holds every action. |
| `InputSystem.MappedKeys` | src/engine/systems/input_system.rs:52-63 | After `map_keys`, the action's entry is true iff the pressed keys meet the binding, the key set gains the action, and every other entry is unchanged. |
| `InputSystem.MappedInput` | src/engine/systems/input_system.rs:19-42 | After the four bindings, the map has exactly the four actions. MoveNorth holds iff Up or W is pressed, MoveSouth iff Down or S, MoveWest iff Left or A, and MoveEast iff Right or D. |
| `InputSystem.F1PressEdge` | src/engine/systems/input_system.rs:44 | A press edge of F1 means F1 is pressed now and was not pressed before, so this frame's key set differs from the previous one. Its effect is stated in `ToggledDrawColliders` and `F1HeldTogglesOnce`. |
| `InputSystem.ToggledDrawColliders` | src/engine/systems/input_system.rs:44-47 | `draw_colliders` changes iff F1 is pressed now and was not pressed in the previous frame. |
| `InputSystem.MapKeys` | src/engine/systems/input_system.rs:52-63 | The in-place update leaves the action map equal to `MappedKeys` of the old map. |
| `InputSystem.Run` | src/engine/systems/input_system.rs:14-48 | The in-place update leaves the map equal to `MappedInput` of the old map, and the option equal to `ToggledDrawColliders` of the old option. |
| `InputSystem.MappedInputIgnoresHistory` | src/engine/systems/input_system.rs:14-42 | The flags depend only on the pressed keys: any two starting maps give the same result. |
| `InputSystem.MappedInputIdempotent` | src/engine/systems/input_system.rs:14-42 | Mapping the same keys twice gives the same map as mapping them once. |
| `InputSystem.MappedInputHasAllActions` | src/engine/systems/input_system.rs:19-42 | After mapping, the force rule can index every action, even from the empty default map. |
| `InputSystem.OppositeFlagsBothRequested` | src/engine/systems/input_system.rs:19-30 | Opposite flags are independent: W and S together request both north and south. |
| `InputSystem.F1HeldTogglesOnce` | src/engine/systems/input_system.rs:44-47 | Holding F1 over two frames after it was up toggles the option exactly once. |
| `ActionSystem.Force` | src/engine/systems/action_system.rs:19-29 | Each force component is -speed, 0 or +speed. Its priorities are stated in `NorthOverridesSouth` and `EastOverridesWest`, its zero case in `NoActionNoForce`, and its axis independence in `AxesIndependent`. |
| `ActionSystem.NoActionNoForce` | src/engine/systems/action_system.rs:19-29 | With every flag false the force is (0, 0). |
| `ActionSystem.NorthOverridesSouth` | src/engine/systems/action_system.rs:20-24 | y is -speed when north is set, whatever south says. Otherwise it is +speed when south is set, and 0 when neither is. |
| `ActionSystem.EastOverridesWest` | src/engine/systems/action_system.rs:25-29 | x is +speed when east is set, whatever west says. Otherwise it is -speed when west is set, and 0 when neither is. |
| `ActionSystem.AxesIndependent` | src/engine/systems/action_system.rs:20-29 | y depends only on the north and south flags, and x only on the east and west flags. |
| `ActionSystem.DiagonalForce` | src/engine/systems/action_system.rs:19-29 | With W and D pressed and a non-zero speed, both components are non-zero. |
| `ActionSystem.ForceFromKeys` | src/engine/systems/action_system.rs:18-29 | After the input system runs, each force component is decided by the pressed keys alone, with north and east taking priority. |
| `ActionSystem.Run` | src/engine/systems/action_system.rs:17-29 | The loop yields one force per joined player, and the i-th is the force rule for the i-th player. All four actions are required only when a player is joined, so the empty default map is accepted with no players. |
| `Systems.InputMapKeys` | src/engine/systems.rs:162-175 | `Input::map_keys` leaves the map equal to `MappedKeys` of the old map, the same as `InputSystem::map_keys`. |
| `Systems.InputRun` | src/engine/systems.rs:125-159 | `Input::run` gives the same map and option as `InputSystem::run`. |
| `Systems.ActRun` | src/engine/systems.rs:186-198 | `Act` starts each force at (0, 0), sets y and then x field by field, and yields for every player the same force as `ActionSystem`. Like `ActionSystem.Run`, it reads the flags only when a player is joined. |
| `EntityComponentSystem.SomeSlots` | src/engine/entitycomponentsystem.rs:119-125 | The slots visited are exactly the filled sprite slots, each in range, in increasing order. |
| `EntityComponentSystem.ECS.constructor` | src/engine/entitycomponentsystem.rs:24-30 | `ECS::new` has three empty lists. |
| `EntityComponentSystem.ECS.NewEntity` | src/engine/entitycomponentsystem.rs:62-74 | Returns the old length, grows each list by one, and keeps the lengths equal and `entities[i] == i`. The new slot has no sprite and exactly the given transform, which `get_transform` returns. |
| `EntityComponentSystem.ECS.AddSpriteComponent` | src/engine/entitycomponentsystem.rs:76-109 | Fills the entity's sprite slot. Every other slot, every transform and the entity list are unchanged. |
| `EntityComponentSystem.ECS.GetTransform` | src/engine/entitycomponentsystem.rs:127-130 | Returns the stored transform of an entity in the table. Indexing past the end is excluded, because the source panics. |
| `EntityComponentSystem.ECS.WriteTransform` | src/engine/entitycomponentsystem.rs:132-135 | A write through `get_transform_mut` replaces that one transform and nothing else. |
| `EntityComponentSystem.ECS.Update` | src/engine/entitycomponentsystem.rs:119-125 | Calls sprite `update` once per filled slot, in entity order, with that entity's transform. The transforms and entities are unchanged; the pose written into the sprite's scene is external. |
| `EntityComponentSystem.ECS.Render` | src/engine/entitycomponentsystem.rs:111-117 | Draws exactly the entities with a sprite, in entity order. |
| `GameObjects.GameObject.New` | src/engine/gameobject.rs:54-66 | A new object is at (x, y) with size 1.0 and rotation 0.0, and has no sprite. |
| `GameObjects.GameObject.AddSprite` | src/engine/gameobject.rs:68-95 | Fills the sprite slot and keeps the transform. |
| `GameObjects.GameObject.GetTransform` | src/engine/gameobject.rs:97-99 | Returns the stored transform. |
| `GameObjects.GameObject.Update` | src/engine/gameobject.rs:101-108 | Calls the sprite's `update` with the transform iff a sprite is present. The transform is unchanged; the pose written into the sprite's scene is external. |
| `GameObjects.GameObject.Render` | src/engine/gameobject.rs:110-116 | Draws iff a sprite is present. |
| `Engine.Game.New` | src/engine/lib.rs:35-56 | A new game has no sprites and no objects, and no object is held twice. |
| `Engine.Game.AddSprite` | src/engine/lib.rs:58-99 | Appends exactly one scene, returns the new length and leaves the objects unchanged. |
| `Engine.Game.NewGameObject` | src/engine/lib.rs:118-122 | Appends one fresh object at (x, y) with no sprite, keeps the earlier objects and the sprites, keeps every object held once, and returns the new length, one more than the new index. |
| `Engine.Game.NewGameObjectIndex` | src/engine/lib.rs:118-122 | Appends the same object but returns its index. Looking that index up finds the object. |
| `Engine.Game.GetGameObject` | src/engine/lib.rs:124-126 | Is Some iff the index is below the length, and then holds the object at that index. |
| `Engine.Game.GetGameObjectMut` | src/engine/lib.rs:128-130 | Does the same lookup without changing the list. |
| `Engine.PlayerSetupAsWritten` | src/main.rs:5-11 | Used as an index, the value `new_game_object` returns finds no object, so the `unwrap` panics. |
| `Engine.PlayerSetup` | src/main.rs:5-11 | With the index returned, the player is found at (400, 400), and the sprite is added to it. |

## Left out

- Collision detection, swept resolution, velocities and a scheduler: no source file implements them. Collisions are delegated to an external rigid-body library.
- The `Draw` system of src/engine/systems.rs and src/engine/systems/draw_system.rs: rendering and collider queries on external libraries.
- The `apply_force` call and the rigid-body lookup in both force systems: they change the external body set. The model stops at the force vector. The `is_empty` guard around them is left out with them.
- Texture loading, the asset folder search, `Scene`/`Sprite` calls and what a sprite component's own `update`/`render` do to its scene: external libraries. Scenes and sprite ids are opaque parameters, so `Engine.Game.AddSprite` does not record the position, rotation and scale given to the sprite.
- The window, the event loop, `Game::run`, `Game::render`, `Game::update` (an empty body) and the OpenGL backend: I/O.
- The graphics factory and command buffer kept by `GameObject`, and the window that `GameObject::render` uses but never receives: external handles.
- The `dbg!` output of the input systems, and the unused `active_mods` and `mouse_context`: debug output and unread fields.
- The physics world wrappers (src/engine/physics/resources.rs) and the body and collider handles of src/engine/components.rs: declarations without logic.
- Floating point: `f64` is modelled as `real`, so rounding and NaN are not modelled.
- `usize` overflow of entity and object counts: lengths are unbounded naturals.
- `ActionSystem.Force` requires all four actions in the map. The source demands less: it reads MoveSouth only when MoveNorth is false, and MoveWest only when MoveEast is false. So partial maps such as `{MoveNorth: true, MoveEast: true}` are excluded, although the source handles them without panicking. Nothing produces such a map: it comes from `default()` (empty), `new()` (all four) or the input system (all four, whatever it held before). `ActionSystem.Run` and `Systems.ActRun` require all four actions only when a player is joined, so they accept the empty default map with no players, as the source does.
- `EntityComponentSystem.ECS.AddSpriteComponent`, `EntityComponentSystem.ECS.GetTransform` and `EntityComponentSystem.ECS.WriteTransform` require the entity to be in the table. The source indexes the list (src/engine/entitycomponentsystem.rs:108, 128, 133) and panics past its end. The model excludes that case rather than modelling the panic.

## Findings

| source | as written | input that shows it | evidently intended | confidence | as-written member | corrected member |
|---|---|---|---|---|---|---|
| src/engine/lib.rs:118-122 with src/main.rs:7-9 | `new_game_object` returns `objects.len()` after the push. The entry point passes that value to `get_game_object_mut` as an index. | A new game: `new_game_object(400.0, 400.0)` returns 1, and `get_game_object_mut(1)` is None, so `unwrap` panics | return the new object's index, `len() - 1`, as `new_entity` does for entities | high, not executed | `Engine.PlayerSetupAsWritten` | `Engine.PlayerSetup` |
