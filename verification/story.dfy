/**
 * The story graph: the scenes of the island, which scene may follow which,
 * and which scene may end the game how.
 */
module Story {

  /** One scene function of the game; the treasure room carries the number of
      keys it was entered with (`treasure_room_scene(keys)`). */
  datatype Scene =
    | Beach | Jungle | Mountain | CaveEntrance | DeepCave | CavePuzzle
    | Valley | Temple | TempleInterior | Guardian | HiddenPath
    | TreasureRoom(keys: int)

  /** How a playthrough ends: `game_over(..., is_win=True)`, `game_over(...)`
      with the default `is_win=False`, or the input ran out. */
  datatype Ending = Won | Lost | OutOfInput

  /** What a scene function returns: the next scene, or `None` after the
      game's end was announced. */
  datatype Step = Next(scene: Scene) | Over(ending: Ending)

  /** The treasure room with 1, 2 or 3 keys opens the chest at once. */
  predicate OpensWithKeys(keys: int) {
    keys == 1 || keys == 2 || keys == 3
  }

  /** The scene graph: `Edge(from, to)` when scene `from` may return `to`. */
  predicate Edge(from: Scene, to: Scene) {
    match from
    case Beach => to == Jungle || to == CaveEntrance || to == Mountain
    case Jungle => to == HiddenPath || to == CaveEntrance
    case Mountain => to == Temple || to == Valley
    case CaveEntrance => to == DeepCave || to == Valley
    case DeepCave => to == CavePuzzle || to == Temple
    case CavePuzzle => to == TreasureRoom(0) || to == Mountain
    case Valley => to == Temple || to == Mountain
    case Temple => to == TempleInterior
    case TempleInterior => to == Guardian || to == TempleInterior
    case Guardian => to.TreasureRoom? && OpensWithKeys(to.keys)
    case HiddenPath => to == Valley || to == Temple
    case TreasureRoom(_) => false
  }

  /** The endings each scene may announce. Every scene but the treasure room
      with keys reads input, so any of them may run out of it. */
  predicate Final(s: Scene, e: Ending) {
    match e
    case Won => s.TreasureRoom?
    case Lost =>
      || s == Jungle || s == Mountain || s == DeepCave || s == Temple || s == TempleInterior
      || (s.TreasureRoom? && !OpensWithKeys(s.keys))
    case OutOfInput => !(s.TreasureRoom? && OpensWithKeys(s.keys))
  }

  /** A sequence of scenes in which each one may follow the one before. */
  predicate IsPath(t: seq<Scene>) {
    forall i :: 0 <= i < |t| - 1 ==> Edge(t[i], t[i + 1])
  }

  /** A step along an edge in front of a path is a path. */
  lemma PathCons(s: Scene, t: seq<Scene>)
    requires t != [] && Edge(s, t[0]) && IsPath(t)
    ensures IsPath([s] + t)
  {
    forall i | 0 <= i < |t|
      ensures Edge(([s] + t)[i], ([s] + t)[i + 1])
    {
      if i > 0 {
        assert ([s] + t)[i] == t[i - 1];
      }
    }
  }

  /** A route through the game: starts at the beach and follows the graph. */
  predicate IsRoute(t: seq<Scene>) {
    t != [] && t[0] == Beach && IsPath(t)
  }

  /** The temple interior and the guardian are only reached through the temple
      door, whose riddle is the only way in. */
  lemma {:induction false} TempleDoorFirst(t: seq<Scene>, i: nat)
    requires IsRoute(t) && i < |t|
    requires t[i] == TempleInterior || t[i] == Guardian
    ensures exists j :: 0 <= j < i && t[j] == Temple
  {
    assert i > 0;
    assert Edge(t[i - 1], t[i]);
    if t[i - 1] != Temple {
      TempleDoorFirst(t, i - 1);
    }
  }

  /** A won game ends in the treasure room, entered straight from the cave
      slab with no keys or from the guardian with one to three keys, in which
      case the temple door was passed earlier. */
  lemma WinningRoutes(t: seq<Scene>)
    requires IsRoute(t) && Final(t[|t| - 1], Won)
    ensures |t| >= 2
    ensures var room := t[|t| - 1];
      || (t[|t| - 2] == CavePuzzle && room == TreasureRoom(0))
      || (t[|t| - 2] == Guardian && OpensWithKeys(room.keys)
          && exists j :: 0 <= j < |t| - 2 && t[j] == Temple)
  {
    var n := |t|;
    assert n >= 2;
    assert Edge(t[n - 2], t[n - 1]);
    if t[n - 2] == Guardian {
      TempleDoorFirst(t, n - 2);
    }
  }

  /** A scene with no successor is exactly the treasure room: every other
      scene has somewhere to go, so the game cannot get stuck. */
  lemma NoDeadEnds(s: Scene)
    ensures !s.TreasureRoom? <==> exists to :: Edge(s, to)
  {
    if !s.TreasureRoom? {
      var to := match s
        case Beach => Jungle
        case Jungle => CaveEntrance
        case Mountain => Temple
        case CaveEntrance => Valley
        case DeepCave => Temple
        case CavePuzzle => Mountain
        case Valley => Temple
        case Temple => TempleInterior
        case TempleInterior => Guardian
        case Guardian => TreasureRoom(1)
        case HiddenPath => Valley
        case TreasureRoom(_) => Beach;
      assert Edge(s, to);
    }
  }
}
