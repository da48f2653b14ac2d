/** The action system: every Player receives a force built from the four
    action flags. The call that hands the force to the rigid-body set is
    external; the system here yields the force each player would receive. */
module ActionSystem {
  import opened Resources
  import opened Components
  import InputSystem

  /** A two-dimensional vector; y grows downwards, so north is negative y. */
  datatype Vector2 = Vector2(x: real, y: real)

  /** The force for one player: north beats south on the y axis, east beats
      west on the x axis, and an axis with no flag set stays zero. Each
      component is the speed, its negation or zero. */
  function Force(actions: map<PlayerAction, bool>, player: Player): (f: Vector2)
    requires HasAllActions(actions)
    ensures var s := player.movementSpeed;
            (f.x == -s || f.x == 0.0 || f.x == s) && (f.y == -s || f.y == 0.0 || f.y == s)
  {
    var speed := player.movementSpeed;
    Vector2(if actions[MoveEast] then speed else if actions[MoveWest] then -speed else 0.0,
            if actions[MoveNorth] then -speed else if actions[MoveSouth] then speed else 0.0)
  }

  /** With no flag set there is no force. */
  lemma NoActionNoForce(actions: map<PlayerAction, bool>, player: Player)
    requires HasAllActions(actions)
    requires forall a :: a in actions ==> !actions[a]
    ensures Force(actions, player) == Vector2(0.0, 0.0)
  {
  }

  /** North overrides south: a northward request gives -speed on y whatever
      the south flag says, and south acts only without north. */
  lemma NorthOverridesSouth(actions: map<PlayerAction, bool>, player: Player)
    requires HasAllActions(actions)
    ensures actions[MoveNorth] ==> Force(actions, player).y == -player.movementSpeed
    ensures !actions[MoveNorth] && actions[MoveSouth] ==> Force(actions, player).y == player.movementSpeed
    ensures !actions[MoveNorth] && !actions[MoveSouth] ==> Force(actions, player).y == 0.0
  {
  }

  /** East overrides west: an eastward request gives +speed on x whatever the
      west flag says, and west acts only without east. */
  lemma EastOverridesWest(actions: map<PlayerAction, bool>, player: Player)
    requires HasAllActions(actions)
    ensures actions[MoveEast] ==> Force(actions, player).x == player.movementSpeed
    ensures !actions[MoveEast] && actions[MoveWest] ==> Force(actions, player).x == -player.movementSpeed
    ensures !actions[MoveEast] && !actions[MoveWest] ==> Force(actions, player).x == 0.0
  {
  }

  /** The axes are decided independently: y depends only on the north and
      south flags, x only on the east and west flags. */
  lemma AxesIndependent(a1: map<PlayerAction, bool>, a2: map<PlayerAction, bool>, player: Player)
    requires HasAllActions(a1) && HasAllActions(a2)
    ensures a1[MoveNorth] == a2[MoveNorth] && a1[MoveSouth] == a2[MoveSouth]
            ==> Force(a1, player).y == Force(a2, player).y
    ensures a1[MoveEast] == a2[MoveEast] && a1[MoveWest] == a2[MoveWest]
            ==> Force(a1, player).x == Force(a2, player).x
  {
  }

  /** A force that has both a non-zero x and a non-zero y is possible: pressing
      W and D moves a player with non-zero speed diagonally. */
  lemma DiagonalForce(m: map<PlayerAction, bool>, player: Player)
    requires player.movementSpeed != 0.0
    ensures var f := Force(InputSystem.MappedInput(m, {KeyCode.W, KeyCode.D}), player);
            f.x != 0.0 && f.y != 0.0
  {
  }

  /** From keys to force: after the input system has run on `pressed`, the
      force on y is -speed when Up or W is down, else +speed when Down or S is
      down, else zero; on x it is +speed for Right or D, else -speed for Left
      or A, else zero. */
  lemma ForceFromKeys(m: map<PlayerAction, bool>, pressed: set<KeyCode>, player: Player)
    ensures var f, s := Force(InputSystem.MappedInput(m, pressed), player), player.movementSpeed;
            && f.y == (if KeyCode.Up in pressed || KeyCode.W in pressed then -s
                       else if KeyCode.Down in pressed || KeyCode.S in pressed then s else 0.0)
            && f.x == (if KeyCode.Right in pressed || KeyCode.D in pressed then s
                       else if KeyCode.Left in pressed || KeyCode.A in pressed then -s else 0.0)
  {
  }

  /** `ActionSystem::run`, over the Player components of the joined entities
      in join order: the i-th result is the force for the i-th player. */
  method Run(players: seq<Player>, actionContext: ActionContext) returns (forces: seq<Vector2>)
    requires |players| > 0 ==> HasAllActions(actionContext.playerActionMap)
    ensures |forces| == |players|
    ensures forall i :: 0 <= i < |players| ==> forces[i] == Force(actionContext.playerActionMap, players[i])
  {
    forces := [];
    for i := 0 to |players|
      invariant |forces| == i
      invariant forall k :: 0 <= k < i ==> forces[k] == Force(actionContext.playerActionMap, players[k])
    {
      forces := forces + [Force(actionContext.playerActionMap, players[i])];
    }
  }
}
