/** The input system: turns the keys down in this frame into the player's
    action flags, and toggles collider drawing on a fresh press of F1. */
module InputSystem {
  import opened Resources

  const NorthKeys: set<KeyCode> := {KeyCode.Up, KeyCode.W}
  const SouthKeys: set<KeyCode> := {KeyCode.Down, KeyCode.S}
  const WestKeys: set<KeyCode> := {KeyCode.Left, KeyCode.A}
  const EastKeys: set<KeyCode> := {KeyCode.Right, KeyCode.D}

  /** A two-key binding meets the pressed keys exactly when one of its keys is
      pressed. */
  lemma PairBinding(pressed: set<KeyCode>, k1: KeyCode, k2: KeyCode)
    ensures pressed * {k1, k2} != {} <==> k1 in pressed || k2 in pressed
  {
    if k1 in pressed { assert k1 in pressed * {k1, k2}; }
    if k2 in pressed { assert k2 in pressed * {k1, k2}; }
  }

  /** The action map after `map_keys`: the entry for `action` says whether a
      key bound to it is pressed; every other entry is kept. */
  function MappedKeys(m: map<PlayerAction, bool>, keys: set<KeyCode>, action: PlayerAction,
                      pressed: set<KeyCode>): (r: map<PlayerAction, bool>)
    ensures r.Keys == m.Keys + {action}
    ensures r[action] <==> pressed * keys != {}
    ensures forall a :: a in m && a != action ==> r[a] == m[a]
  {
    m[action := |pressed * keys| > 0]
  }

  /** The action map after the four bindings of `run`. */
  function MappedInput(m: map<PlayerAction, bool>, pressed: set<KeyCode>): (r: map<PlayerAction, bool>)
    ensures r.Keys == AllActions
    ensures r[MoveNorth] <==> KeyCode.Up in pressed || KeyCode.W in pressed
    ensures r[MoveSouth] <==> KeyCode.Down in pressed || KeyCode.S in pressed
    ensures r[MoveWest] <==> KeyCode.Left in pressed || KeyCode.A in pressed
    ensures r[MoveEast] <==> KeyCode.Right in pressed || KeyCode.D in pressed
  {
    var north := MappedKeys(m, NorthKeys, MoveNorth, pressed);
    assert north[MoveNorth] <==> KeyCode.Up in pressed || KeyCode.W in pressed by {
      PairBinding(pressed, KeyCode.Up, KeyCode.W);
    }
    var south := MappedKeys(north, SouthKeys, MoveSouth, pressed);
    assert south[MoveSouth] <==> KeyCode.Down in pressed || KeyCode.S in pressed by {
      PairBinding(pressed, KeyCode.Down, KeyCode.S);
    }
    var west := MappedKeys(south, WestKeys, MoveWest, pressed);
    assert west[MoveWest] <==> KeyCode.Left in pressed || KeyCode.A in pressed by {
      PairBinding(pressed, KeyCode.Left, KeyCode.A);
    }
    var r := MappedKeys(west, EastKeys, MoveEast, pressed);
    assert r[MoveEast] <==> KeyCode.Right in pressed || KeyCode.D in pressed by {
      PairBinding(pressed, KeyCode.Right, KeyCode.D);
    }
    forall a | a in m ensures a in AllActions {
      AllActionsComplete(a);
    }
    r
  }

  /** Whether this frame's input is a fresh press of F1. */
  predicate F1PressEdge(input: InputContext): (r: bool)
    ensures r ==> input.pressedKeys != input.lastPressedKeys
  {
    KeyCode.F1 in input.pressedKeys && KeyCode.F1 !in input.lastPressedKeys
  }

  /** The `draw_colliders` option after `run`: flipped on a press edge of F1,
      kept otherwise. */
  function ToggledDrawColliders(drawColliders: bool, input: InputContext): (r: bool)
    ensures r != drawColliders <==> F1PressEdge(input)
  {
    if F1PressEdge(input) then !drawColliders else drawColliders
  }

  /** `InputSystem::map_keys`. */
  method MapKeys(keys: set<KeyCode>, action: PlayerAction, actionContext: ActionContext,
                 pressedKeys: set<KeyCode>)
    modifies actionContext
    ensures actionContext.playerActionMap
         == MappedKeys(old(actionContext.playerActionMap), keys, action, pressedKeys)
  {
    if |pressedKeys * keys| > 0 {
      actionContext.playerActionMap := actionContext.playerActionMap[action := true];
    } else {
      actionContext.playerActionMap := actionContext.playerActionMap[action := false];
    }
  }

  /** `InputSystem::run`. */
  method Run(inputContext: InputContext, actionContext: ActionContext, options: GameOptions)
    modifies actionContext, options
    ensures actionContext.playerActionMap
         == MappedInput(old(actionContext.playerActionMap), inputContext.pressedKeys)
    ensures options.drawColliders == ToggledDrawColliders(old(options.drawColliders), inputContext)
  {
    var pressedKeys := inputContext.pressedKeys;
    var lastPressedKeys := inputContext.lastPressedKeys;
    MapKeys(NorthKeys, MoveNorth, actionContext, pressedKeys);
    MapKeys(SouthKeys, MoveSouth, actionContext, pressedKeys);
    MapKeys(WestKeys, MoveWest, actionContext, pressedKeys);
    MapKeys(EastKeys, MoveEast, actionContext, pressedKeys);
    if KeyCode.F1 in pressedKeys && KeyCode.F1 !in lastPressedKeys {
      options.drawColliders := !options.drawColliders;
    }
  }

  /** The flags depend on the current keys alone: whatever the map held before,
      the same keys give the same map. */
  lemma MappedInputIgnoresHistory(m1: map<PlayerAction, bool>, m2: map<PlayerAction, bool>,
                                  pressed: set<KeyCode>)
    ensures MappedInput(m1, pressed) == MappedInput(m2, pressed)
  {
  }

  /** Running the mapping twice on the same keys changes nothing more. */
  lemma MappedInputIdempotent(m: map<PlayerAction, bool>, pressed: set<KeyCode>)
    ensures MappedInput(MappedInput(m, pressed), pressed) == MappedInput(m, pressed)
  {
    MappedInputIgnoresHistory(MappedInput(m, pressed), m, pressed);
  }

  /** After the mapping, the force rule may index every action, even when the
      map started empty as `ActionContext::default` leaves it. */
  lemma MappedInputHasAllActions(m: map<PlayerAction, bool>, pressed: set<KeyCode>)
    ensures HasAllActions(MappedInput(m, pressed))
  {
  }

  /** Opposite directions are mapped independently: both may be requested. */
  lemma OppositeFlagsBothRequested(m: map<PlayerAction, bool>)
    ensures MappedInput(m, {KeyCode.W, KeyCode.S})[MoveNorth]
    ensures MappedInput(m, {KeyCode.W, KeyCode.S})[MoveSouth]
  {
  }

  /** Holding F1 down over two frames, after it was up, toggles the option once. */
  lemma F1HeldTogglesOnce(drawColliders: bool, first: InputContext, second: InputContext)
    requires KeyCode.F1 !in first.lastPressedKeys
    requires KeyCode.F1 in first.pressedKeys && KeyCode.F1 in second.pressedKeys
    requires second.lastPressedKeys == first.pressedKeys
    ensures ToggledDrawColliders(ToggledDrawColliders(drawColliders, first), second) == !drawColliders
  {
  }
}
