/**
 * The scenes that route on menu choices and random events: the beach, the
 * jungle, the mountain, the cave entrance, the deep cave, the valley, the
 * hidden path and the treasure room.
 */
module Scenes {
  import opened Common
  import opened Io
  import opened Prompts
  import opened Players
  import opened Story

  const MenuAB: seq<string> := ["A", "B"]
  const MenuABC: seq<string> := ["A", "B", "C"]
  const MenuABCD: seq<string> := ["A", "B", "C", "D"]

  const AncientKey := Item("古老的钥匙", "一把看起来非常古老的钥匙，不知道能打开什么", 10)

  /** Everything a scene can change: the input still to be read, how many
      generator values have been used, and the player's inventory, health
      and riddle count. */
  datatype World = World(lines: seq<string>, drawn: nat, inventory: seq<Item>, health: int, riddles: nat)

  /** What one scene does: the step it returns and the world it leaves. */
  datatype Moved = Moved(step: Step, world: World)

  /** The world as the player and the console hold it. */
  function State(p: Player, io: Console): World
    reads p, io
  {
    World(io.lines, io.drawn, p.inventory, p.health, p.riddlesSolved)
  }

  /** The move `m` of scene `scene` from the world `w` fits the story: a
      next scene is one the graph allows and costs at least one input line,
      an ending is one the scene may announce, running out of input leaves
      none, and no scene gives input back. */
  predicate Follows(scene: Scene, w: World, m: Moved) {
    && (m.step.Next? ==> Edge(scene, m.step.scene) && |m.world.lines| < |w.lines|)
    && (m.step.Over? ==> Final(scene, m.step.ending))
    && (m.step == Over(OutOfInput) ==> m.world.lines == [])
    && |m.world.lines| <= |w.lines|
  }

  /** The move `m` from the world `w` keeps the player's invariants: items
      are never lost, solved riddles never forgotten, health never rises
      above 100, and it drops to zero or below only in a lost game. */
  predicate Keeps(w: World, m: Moved) {
    && w.inventory <= m.world.inventory
    && w.riddles <= m.world.riddles
    && (w.health > 0 && m.world.health <= 0 ==> m.step == Over(Lost))
    && (w.health <= 100 ==> m.world.health <= 100)
  }

  /** `beach_scene`: three paths into the jungle. */
  method BeachScene(io: Console) returns (step: Step)
    modifies io`lines
    ensures match Choose(old(io.lines), MenuABC)
      case None => step == Over(OutOfInput) && io.lines == []
      case Some(c) =>
        && io.lines == old(io.lines)[c.used..]
        && step == Next(if c.value == "A" then Jungle else if c.value == "B" then CaveEntrance else Mountain)
  {
    var choice := GetValidInput(io, MenuABC);
    if choice.None? {
      return Over(OutOfInput);
    }
    if choice.value == "A" {
      step := Next(Jungle);
    } else if choice.value == "B" {
      step := Next(CaveEntrance);
    } else {
      step := Next(Mountain);
    }
  }

  /** `jungle_scene`: picking up the glowing object is a coin toss between
      the compass and the snake. */
  method JungleScene(io: Console) returns (step: Step)
    modifies io
    ensures match Choose(old(io.lines), MenuAB)
      case None => step == Over(OutOfInput) && io.lines == [] && io.drawn == old(io.drawn)
      case Some(c) =>
        && io.lines == old(io.lines)[c.used..]
        && if c.value == "A" then
             && io.drawn == old(io.drawn) + 1
             && step == if Random(io.rng(old(io.drawn))) < 0.5 then Next(HiddenPath) else Over(Lost)
           else io.drawn == old(io.drawn) && step == Next(CaveEntrance)
  {
    var choice := GetValidInput(io, MenuAB);
    if choice.None? {
      return Over(OutOfInput);
    }
    if choice.value == "A" {
      var d := io.Draw();
      if Random(d) < 0.5 {
        step := Next(HiddenPath);
      } else {
        step := Over(Lost);
      }
    } else {
      step := Next(CaveEntrance);
    }
  }

  /** `mountain_scene`: on to the temple, or down to the valley with a 30%
      chance of a fatal fall. */
  method MountainScene(io: Console) returns (step: Step)
    modifies io
    ensures match Choose(old(io.lines), MenuAB)
      case None => step == Over(OutOfInput) && io.lines == [] && io.drawn == old(io.drawn)
      case Some(c) =>
        && io.lines == old(io.lines)[c.used..]
        && if c.value == "A" then io.drawn == old(io.drawn) && step == Next(Temple)
           else
             && io.drawn == old(io.drawn) + 1
             && step == if Random(io.rng(old(io.drawn))) < 0.3 then Over(Lost) else Next(Valley)
  {
    var choice := GetValidInput(io, MenuAB);
    if choice.None? {
      return Over(OutOfInput);
    }
    if choice.value == "A" {
      step := Next(Temple);
    } else {
      var d := io.Draw();
      if Random(d) < 0.3 {
        step := Over(Lost);
      } else {
        step := Next(Valley);
      }
    }
  }

  /** `cave_entrance_scene`: going in needs a number from 1 to 10, asked
      until one is given, that must equal a draw of `randint(1, 10)`. */
  method CaveEntranceScene(io: Console) returns (step: Step)
    modifies io
    ensures match Choose(old(io.lines), MenuAB)
      case None => step == Over(OutOfInput) && io.lines == [] && io.drawn == old(io.drawn)
      case Some(c) =>
        if c.value == "A" then
          match PickNumber(old(io.lines)[c.used..])
          case None => step == Over(OutOfInput) && io.lines == [] && io.drawn == old(io.drawn)
          case Some(n) =>
            && io.lines == old(io.lines)[c.used..][n.used..]
            && io.drawn == old(io.drawn) + 1
            && step == if n.value == RandInt(1, 10, io.rng(old(io.drawn))) then Next(DeepCave) else Next(Valley)
        else
          io.lines == old(io.lines)[c.used..] && io.drawn == old(io.drawn) && step == Next(Valley)
  {
    var choice := GetValidInput(io, MenuAB);
    if choice.None? {
      return Over(OutOfInput);
    }
    if choice.value == "A" {
      var num := ReadParsed(io, InRange);
      if num.None? {
        return Over(OutOfInput);
      }
      var d := io.Draw();
      if num.value == RandInt(1, 10, d) {
        step := Next(DeepCave);
      } else {
        step := Next(Valley);
      }
    } else {
      step := Next(Valley);
    }
  }

  /** `deep_cave_scene` on the world `w`. */
  function DeepCaveTurn(w: World): (m: Moved)
    ensures Follows(DeepCave, w, m)
    ensures Keeps(w, m)
  {
    match Choose(w.lines, MenuAB)
    case None => Moved(Over(OutOfInput), w.(lines := []))
    case Some(c) =>
      var rest := w.lines[c.used..];
      if c.value == "A" then Moved(Over(Lost), w.(lines := rest))
      else
        var keyed := w.(inventory := w.inventory + [AncientKey]);
        (match Choose(rest, MenuAB)
         case None => Moved(Over(OutOfInput), keyed.(lines := []))
         case Some(d) => Moved(Next(if d.value == "A" then CavePuzzle else Temple), keyed.(lines := rest[d.used..])))
  }

  /** `deep_cave_scene`: opening the chest at once is fatal; checking it first
      yields the ancient key and a second choice. */
  method DeepCaveScene(p: Player, io: Console) returns (step: Step)
    modifies p`inventory, io`lines
    ensures Moved(step, State(p, io)) == DeepCaveTurn(old(State(p, io)))
    ensures match Choose(old(io.lines), MenuAB)
      case None => step == Over(OutOfInput) && io.lines == [] && p.inventory == old(p.inventory)
      case Some(c) =>
        if c.value == "A" then
          step == Over(Lost) && io.lines == old(io.lines)[c.used..] && p.inventory == old(p.inventory)
        else
          && p.inventory == old(p.inventory) + [AncientKey]
          && match Choose(old(io.lines)[c.used..], MenuAB)
             case None => step == Over(OutOfInput) && io.lines == []
             case Some(d) =>
               && io.lines == old(io.lines)[c.used..][d.used..]
               && step == Next(if d.value == "A" then CavePuzzle else Temple)
  {
    var choice := GetValidInput(io, MenuAB);
    if choice.None? {
      return Over(OutOfInput);
    }
    if choice.value == "A" {
      return Over(Lost);
    }
    p.AddItem(AncientKey);
    choice := GetValidInput(io, MenuAB);
    if choice.None? {
      return Over(OutOfInput);
    }
    if choice.value == "A" {
      step := Next(CavePuzzle);
    } else {
      step := Next(Temple);
    }
  }

  /** `valley_scene`: the old man sends the player to the temple (his staff is
      only mentioned, never added to the inventory). */
  method ValleyScene(io: Console) returns (step: Step)
    modifies io`lines
    ensures match Choose(old(io.lines), MenuAB)
      case None => step == Over(OutOfInput) && io.lines == []
      case Some(c) =>
        && io.lines == old(io.lines)[c.used..]
        && step == Next(if c.value == "A" then Temple else Mountain)
  {
    var choice := GetValidInput(io, MenuAB);
    if choice.None? {
      return Over(OutOfInput);
    }
    if choice.value == "A" {
      step := Next(Temple);
    } else {
      step := Next(Mountain);
    }
  }

  /** `hidden_path_scene`: a fork towards the valley or the temple. */
  method HiddenPathScene(io: Console) returns (step: Step)
    modifies io`lines
    ensures match Choose(old(io.lines), MenuAB)
      case None => step == Over(OutOfInput) && io.lines == []
      case Some(c) =>
        && io.lines == old(io.lines)[c.used..]
        && step == Next(if c.value == "A" then Valley else Temple)
  {
    var choice := GetValidInput(io, MenuAB);
    if choice.None? {
      return Over(OutOfInput);
    }
    if choice.value == "A" {
      step := Next(Valley);
    } else {
      step := Next(Temple);
    }
  }

  /** `treasure_room_scene(keys)`: one, two or three keys open the chest and
      win; any other count asks whether to force the chest (a loss) or to
      search the room (a win). The game always ends here. */
  method TreasureRoomScene(keys: int, io: Console) returns (step: Step)
    modifies io`lines
    ensures step.Over?
    ensures OpensWithKeys(keys) ==> step == Over(Won) && io.lines == old(io.lines)
    ensures !OpensWithKeys(keys) ==>
      match Choose(old(io.lines), MenuAB)
      case None => step == Over(OutOfInput) && io.lines == []
      case Some(c) =>
        && io.lines == old(io.lines)[c.used..]
        && step == Over(if c.value == "A" then Lost else Won)
  {
    if keys == 3 {
      step := Over(Won);
    } else if keys == 2 {
      step := Over(Won);
    } else if keys == 1 {
      step := Over(Won);
    } else {
      var choice := GetValidInput(io, MenuAB);
      if choice.None? {
        return Over(OutOfInput);
      }
      if choice.value == "A" {
        step := Over(Lost);
      } else {
        step := Over(Won);
      }
    }
  }
}
