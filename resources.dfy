/** The shared resources of the simulation: the keys the input collaborator
    reports, the player's action map, the game options and the frame time. */
module Resources {

  /** The keys the core looks at; every other key of the keyboard is `Other`. */
  datatype KeyCode = Up | Down | Left | Right | W | A | S | D | F1 | Other(code: nat)

  datatype PlayerAction = MoveNorth | MoveSouth | MoveWest | MoveEast

  const AllActions: set<PlayerAction> := {MoveNorth, MoveSouth, MoveWest, MoveEast}

  /** `AllActions` is the whole enumeration. */
  lemma AllActionsComplete(a: PlayerAction)
    ensures a in AllActions
  {
  }

  /** The seconds elapsed since the previous frame. */
  datatype DeltaTime = DeltaTime(seconds: real)

  /** The derived `Default` of DeltaTime: zero seconds. */
  function DefaultDeltaTime(): (d: DeltaTime)
    ensures d.seconds == 0.0
  {
    DeltaTime(0.0)
  }

  /** The keys down in this frame and in the previous frame. */
  datatype InputContext = InputContext(pressedKeys: set<KeyCode>, lastPressedKeys: set<KeyCode>)

  /** The map that collecting a list of pairs into a hash map produces: the
      pairs are inserted in order, so a key seen twice keeps its last value. */
  function CollectActionMap(pairs: seq<(PlayerAction, bool)>): (m: map<PlayerAction, bool>)
    ensures |m| <= |pairs|
  {
    if |pairs| == 0 then map[]
    else CollectActionMap(pairs[..|pairs| - 1])[pairs[|pairs| - 1].0 := pairs[|pairs| - 1].1]
  }

  /** The keys of a collected map are exactly the first components of the pairs. */
  lemma {:induction false} CollectActionMapKeys(pairs: seq<(PlayerAction, bool)>, a: PlayerAction)
    ensures a in CollectActionMap(pairs) <==> exists i :: 0 <= i < |pairs| && pairs[i].0 == a
  {
    if |pairs| > 0 {
      var init := pairs[..|pairs| - 1];
      CollectActionMapKeys(init, a);
      if a in CollectActionMap(init) {
        var i :| 0 <= i < |init| && init[i].0 == a;
        assert pairs[i].0 == a;
      }
      if exists i :: 0 <= i < |pairs| && pairs[i].0 == a {
        var i :| 0 <= i < |pairs| && pairs[i].0 == a;
        if i < |init| {
          assert init[i].0 == a;
        }
      }
    }
  }

  /** A pair whose key does not occur later in the list gives the collected
      map its value for that key. */
  lemma {:induction false} CollectActionMapLastWins(pairs: seq<(PlayerAction, bool)>, i: nat)
    requires i < |pairs|
    requires forall j :: i < j < |pairs| ==> pairs[j].0 != pairs[i].0
    ensures pairs[i].0 in CollectActionMap(pairs)
    ensures CollectActionMap(pairs)[pairs[i].0] == pairs[i].1
  {
    if i < |pairs| - 1 {
      var init := pairs[..|pairs| - 1];
      assert init[i] == pairs[i];
      forall j | i < j < |init| ensures init[j].0 != init[i].0 {
        assert init[j] == pairs[j];
      }
      CollectActionMapLastWins(init, i);
    }
  }

  /** The action map of `ActionContext::new`. */
  function NewActionMap(): (m: map<PlayerAction, bool>)
    ensures m.Keys == AllActions
    ensures forall a: PlayerAction :: a in m && !m[a]
  {
    var pairs := [(MoveNorth, false), (MoveSouth, false), (MoveWest, false), (MoveEast, false)];
    var m := CollectActionMap(pairs);
    forall a: PlayerAction ensures a in m && !m[a] {
      var i := match a case MoveNorth => 0 case MoveSouth => 1 case MoveWest => 2 case MoveEast => 3;
      CollectActionMapLastWins(pairs, i);
    }
    forall a | a in m ensures a in AllActions {
      AllActionsComplete(a);
    }
    m
  }

  /** An action map that the force rule can index for every action. */
  predicate HasAllActions(m: map<PlayerAction, bool>)
  {
    AllActions <= m.Keys
  }

  /** The map of the "currently requested" flag of every player action. */
  class ActionContext {
    var playerActionMap: map<PlayerAction, bool>

    /** `ActionContext::new`: every action present and not requested. */
    constructor New()
      ensures playerActionMap == NewActionMap()
      ensures HasAllActions(playerActionMap)
      ensures forall a: PlayerAction :: !playerActionMap[a]
    {
      playerActionMap := NewActionMap();
    }

    /** The derived `Default`: an empty map, which holds no action. */
    constructor Default()
      ensures playerActionMap == map[]
      ensures !HasAllActions(playerActionMap)
    {
      playerActionMap := map[];
      new;
      assert MoveNorth !in playerActionMap;
    }
  }

  /** The debug options the input system can toggle. */
  class GameOptions {
    var drawColliders: bool

    /** The derived `Default`: colliders are not drawn. */
    constructor Default()
      ensures !drawColliders
    {
      drawColliders := false;
    }
  }

  /** `ActionContext::new` and the derived `Default` differ: only the first can
      be indexed by every action. */
  lemma NewIsNotDefault()
    ensures NewActionMap() != map[]
    ensures HasAllActions(NewActionMap()) && !HasAllActions(map[])
  {
  }
}
