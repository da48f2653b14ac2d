/** The systems of systems.rs. Its Input system is the same code as
    input_system.rs and is modelled by calling that module; its Act system
    builds each player's force in a local vector, field by field. */
module Systems {
  import opened Resources
  import opened Components
  import InputSystem
  import ActionSystem

  /** `Input::map_keys`: the same update as `InputSystem::map_keys`. */
  method InputMapKeys(keys: set<KeyCode>, action: PlayerAction, actionContext: ActionContext,
                      pressedKeys: set<KeyCode>)
    modifies actionContext
    ensures actionContext.playerActionMap
         == InputSystem.MappedKeys(old(actionContext.playerActionMap), keys, action, pressedKeys)
  {
    InputSystem.MapKeys(keys, action, actionContext, pressedKeys);
  }

  /** `Input::run`: the same bindings and F1 toggle as `InputSystem::run`. */
  method InputRun(inputContext: InputContext, actionContext: ActionContext, options: GameOptions)
    modifies actionContext, options
    ensures actionContext.playerActionMap
         == InputSystem.MappedInput(old(actionContext.playerActionMap), inputContext.pressedKeys)
    ensures options.drawColliders
         == InputSystem.ToggledDrawColliders(old(options.drawColliders), inputContext)
  {
    InputSystem.Run(inputContext, actionContext, options);
  }

  /** `Act::run`: for each player the force starts at zero and its y, then its
      x, is set by the flags; the result agrees with `ActionSystem.Force`, so
      both systems compute the same force for the same flags and speed. */
  method ActRun(players: seq<Player>, actionContext: ActionContext) returns (forces: seq<ActionSystem.Vector2>)
    requires |players| > 0 ==> HasAllActions(actionContext.playerActionMap)
    ensures |forces| == |players|
    ensures forall i :: 0 <= i < |players| ==>
              forces[i] == ActionSystem.Force(actionContext.playerActionMap, players[i])
  {
    var actions := actionContext.playerActionMap;
    forces := [];
    for i := 0 to |players|
      invariant |forces| == i
      invariant forall k :: 0 <= k < i ==> forces[k] == ActionSystem.Force(actions, players[k])
    {
      var player := players[i];
      var force := ActionSystem.Vector2(0.0, 0.0);
      if actions[MoveNorth] {
        force := force.(y := -player.movementSpeed);
      } else if actions[MoveSouth] {
        force := force.(y := player.movementSpeed);
      }
      if actions[MoveEast] {
        force := force.(x := player.movementSpeed);
      } else if actions[MoveWest] {
        force := force.(x := -player.movementSpeed);
      }
      forces := forces + [force];
    }
  }
}
