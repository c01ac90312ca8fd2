/**
 * The riddle scenes: the stone slab in the cave, the temple door, the three
 * trials inside the temple and the guardian's three shuffled riddles.
 */
module Puzzles {
  import opened Common
  import opened Text
  import opened Numbers
  import opened Io
  import opened Prompts
  import opened Players
  import opened Story
  import opened Scenes

  /* ---------------------------------------------------------------- data */

  const SlabAnswers: seq<string> := ["天地水火风", "空地水火风"]
  const DoorAnswers: seq<string> := ["地图", "map"]
  const DollAnswers: seq<string> := ["娃娃", "洋娃娃", "人偶", "玩偶", "doll"]
  const LightAnswers: seq<string> := ["阳光", "光", "光线", "太阳光", "light", "sunlight"]
  const ShadowAnswers: seq<string> := ["影子", "影", "shadow"]

  /** The cave slab and the temple door each take at most this many tries. */
  const PuzzleTries: nat := 3

  const ElementKey := Item("元素之钥", "一把由五行元素力量形成的钥匙", 20)
  const WisdomBook := Item("智慧之书", "一本包含古代智慧的书籍", 50)
  const CalmCrystal := Item("平静水晶", "一个能带来内心平静的水晶", 40)
  const CopperKey := Item("铜钥匙", "一把简陋的钥匙，似乎只能打开基本的宝藏", 5)

  /** The `k`-th key the guardian hands out. */
  function TreasureKey(k: nat): Item {
    Item("宝藏钥匙" + Show(k), "开启宝藏室的第" + Show(k) + "把钥匙", 30)
  }

  /** The keys handed out after `n` correct answers, in order: the `k`-th
      one handed out is the key numbered `k + 1`. */
  function KeyItems(n: nat): seq<Item> {
    seq(n, k requires 0 <= k => TreasureKey(k + 1))
  }

  lemma KeyItemsNext(given: seq<Item>, n: nat)
    ensures given + KeyItems(n) + [TreasureKey(n + 1)] == given + KeyItems(n + 1)
  {
    assert KeyItems(n + 1) == KeyItems(n) + [TreasureKey(n + 1)];
  }

  /** Distinct key numbers give distinct key names, because `Show` is
      inverted by `ParseInt`. */
  lemma TreasureKeyNamesDistinct(a: nat, b: nat)
    requires a != b
    ensures TreasureKey(a).name != TreasureKey(b).name
  {
    var prefix := "宝藏钥匙";
    if TreasureKey(a).name == TreasureKey(b).name {
      assert (prefix + Show(a))[|prefix|..] == Show(a);
      assert (prefix + Show(b))[|prefix|..] == Show(b);
      ParseShow(a);
      ParseShow(b);
      assert false;
    }
  }

  /* ------------------------------------------------------- the cave slab */

  /** `cave_puzzle_scene` on the world `w`, with `tries` attempts at the
      slab. */
  function CavePuzzleTurn(w: World, tries: nat): (m: Moved)
    requires tries > 0
    ensures Follows(CavePuzzle, w, m)
    ensures Keeps(w, m)
  {
    match Attempts(w.lines, SlabAnswers, Strip, tries)
    case Solved(u) =>
      Moved(Next(TreasureRoom(0)),
            w.(lines := w.lines[u..], inventory := w.inventory + [ElementKey], riddles := w.riddles + 1))
    case Exhausted(u) => Moved(Next(Mountain), w.(lines := w.lines[u..]))
    case NoAnswer => Moved(Over(OutOfInput), w.(lines := []))
  }

  /** `cave_puzzle_scene`: three tries to place the five elements; the input
      is only stripped, not lower-cased. Solving it gives the element key and
      opens the treasure room without keys; failing falls back to the
      mountain. */
  method CavePuzzleScene(p: Player, io: Console) returns (step: Step)
    modifies p`inventory, p`riddlesSolved, io`lines
    ensures Moved(step, State(p, io)) == CavePuzzleTurn(old(State(p, io)), PuzzleTries)
    ensures match Attempts(old(io.lines), SlabAnswers, Strip, PuzzleTries)
      case Solved(u) =>
        && step == Next(TreasureRoom(0)) && io.lines == old(io.lines)[u..]
        && p.riddlesSolved == old(p.riddlesSolved) + 1
        && p.inventory == old(p.inventory) + [ElementKey]
      case Exhausted(u) =>
        && step == Next(Mountain) && io.lines == old(io.lines)[u..]
        && p.riddlesSolved == old(p.riddlesSolved) && p.inventory == old(p.inventory)
      case NoAnswer =>
        && step == Over(OutOfInput) && io.lines == []
        && p.riddlesSolved == old(p.riddlesSolved) && p.inventory == old(p.inventory)
  {
    var a := Ask(io, SlabAnswers, Strip, PuzzleTries);
    match a
    case Solved(_) =>
      p.riddlesSolved := p.riddlesSolved + 1;
      p.AddItem(ElementKey);
      step := Next(TreasureRoom(0));
    case Exhausted(_) =>
      step := Next(Mountain);
    case NoAnswer =>
      step := Over(OutOfInput);
  }

  /** The canonical order of the elements opens the slab on the first try. */
  lemma SlabFirstTry(rest: seq<string>)
    ensures Attempts(["天地水火风"] + rest, SlabAnswers, Strip, PuzzleTries) == Solved(1)
  {
    var s := "天地水火风";
    assert !IsSpace(s[0]) && !IsSpace(s[|s| - 1]);
    assert TrimLeft(s) == s;
    assert Strip(s) == s;
  }

  /* ----------------------------------------------------- the temple door */

  /** `temple_scene`: three tries at the door riddle; a right answer opens
      the temple, three wrong ones drop the player into a pit. */
  method TempleScene(io: Console) returns (step: Step)
    modifies io`lines
    ensures match Attempts(old(io.lines), DoorAnswers, AnswerKey, PuzzleTries)
      case Solved(u) => step == Next(TempleInterior) && io.lines == old(io.lines)[u..]
      case Exhausted(u) => step == Over(Lost) && io.lines == old(io.lines)[u..]
      case NoAnswer => step == Over(OutOfInput) && io.lines == []
  {
    var a := Ask(io, DoorAnswers, AnswerKey, PuzzleTries);
    match a
    case Solved(_) => step := Next(TempleInterior);
    case Exhausted(_) => step := Over(Lost);
    case NoAnswer => step := Over(OutOfInput);
  }

  /** The door accepts "MAP" typed in capitals and padded with spaces. */
  lemma DoorIgnoresCase(rest: seq<string>)
    ensures Attempts([" MAP "] + rest, DoorAnswers, AnswerKey, PuzzleTries) == Solved(1)
  {
    var s := " MAP ";
    assert TrimLeft(s) == "MAP ";
    assert TrimRight("MAP ") == "MAP";
    assert Strip(s) == "MAP";
    assert Lower("MAP") == "map";
  }

  /* ------------------------------------------------ the temple's trials */

  /** How one trial inside the temple ends. */
  datatype Trial = Passed | NotPassed | Fatal | NoInput

  /** The answers accepted for the red, blue and green scrolls. */
  function ScrollAnswers(scroll: string): seq<string> {
    if scroll == "A" then DollAnswers
    else if scroll == "B" then LightAnswers
    else ShadowAnswers
  }

  /** How the trial of wisdom ends on the input `lines`: the chosen scroll's
      riddle gets a single answer. */
  function WisdomOutcome(lines: seq<string>): Trial {
    match Choose(lines, MenuABC)
    case None => NoInput
    case Some(c) =>
      match Attempts(lines[c.used..], ScrollAnswers(c.value), AnswerKey, 1)
      case Solved(_) => Passed
      case Exhausted(_) => NotPassed
      case NoAnswer => NoInput
  }

  /** How the trial of courage ends: only a failed crossing of the bridge
      with at most 15 health left is fatal; every other way passes. */
  function CourageOutcome(lines: seq<string>, rng: nat -> nat, drawn: nat, health: int): Trial {
    match Choose(lines, MenuABC)
    case None => NoInput
    case Some(c) =>
      if c.value == "A" && RollDice(20, rng(drawn)) <= 12 && health - 15 <= 0 then Fatal else Passed
  }

  /** How the trial of choice ends: the book or nothing passes. */
  function ChoiceOutcome(lines: seq<string>): Trial {
    match Choose(lines, MenuABCD)
    case None => NoInput
    case Some(c) => if c.value == "B" || c.value == "C" then Passed else NotPassed
  }

  /** How the trial behind corridor `hall` ends, for the input after the
      corridor was chosen, the generator and the player's health. */
  function HallOutcome(hall: string, lines: seq<string>, rng: nat -> nat, drawn: nat, health: int): Trial {
    if hall == "A" then WisdomOutcome(lines)
    else if hall == "B" then CourageOutcome(lines, rng, drawn, health)
    else ChoiceOutcome(lines)
  }

  /** The bridge gives way under the player: they chose to cross it and the
      d20 shows 12 or less. */
  predicate BridgeFalls(lines: seq<string>, rng: nat -> nat, drawn: nat) {
    Choose(lines, MenuABC).Some? && Choose(lines, MenuABC).value.value == "A" && RollDice(20, rng(drawn)) <= 12
  }

  /** The riddles the trial behind `hall` solves: one for a right answer to
      the chosen scroll, none otherwise. */
  function HallRiddles(hall: string, lines: seq<string>): nat {
    if hall == "A" && WisdomOutcome(lines) == Passed then 1 else 0
  }

  /** The player's health after the trial behind `hall`: 15 less after a fall
      from the bridge, 100 after taking nothing at the altar, unchanged
      otherwise. */
  function HallHealth(hall: string, lines: seq<string>, rng: nat -> nat, drawn: nat, health: int): int {
    if hall == "A" then health
    else if hall == "B" then (if BridgeFalls(lines, rng, drawn) then health - 15 else health)
    else if Choose(lines, MenuABCD).Some? && Choose(lines, MenuABCD).value.value == "C" then 100
    else health
  }

  /** The items the trial behind `hall` hands out: the book for taking only
      the book, the crystal for taking nothing, none otherwise. */
  function HallItems(hall: string, lines: seq<string>): seq<Item> {
    if hall == "A" || hall == "B" || Choose(lines, MenuABCD).None? then []
    else if Choose(lines, MenuABCD).value.value == "B" then [WisdomBook]
    else if Choose(lines, MenuABCD).value.value == "C" then [CalmCrystal]
    else []
  }

  /** The input left after the trial behind `hall`: what follows the chosen
      scroll and its one answer, or the chosen way, or the chosen treasure;
      nothing once the input has run out. */
  function HallRest(hall: string, lines: seq<string>): (r: seq<string>)
    ensures |r| <= |lines|
  {
    if hall == "A" then
      match Choose(lines, MenuABC)
      case None => []
      case Some(c) =>
        match Attempts(lines[c.used..], ScrollAnswers(c.value), AnswerKey, 1)
        case Solved(u) => lines[c.used..][u..]
        case Exhausted(u) => lines[c.used..][u..]
        case NoAnswer => []
    else
      match Choose(lines, if hall == "B" then MenuABC else MenuABCD)
      case None => []
      case Some(c) => lines[c.used..]
  }

  /** The generator values the trial behind `hall` uses: one d20 throw when
      the player crosses the bridge, none otherwise. */
  function HallDraws(hall: string, lines: seq<string>): nat {
    if hall == "B" && Choose(lines, MenuABC).Some? && Choose(lines, MenuABC).value.value == "A" then 1 else 0
  }

  /** The scene the temple interior moves on to after a trial. */
  function TrialStep(t: Trial): Step {
    match t
    case Passed => Next(Guardian)
    case NotPassed => Next(TempleInterior)
    case Fatal => Over(Lost)
    case NoInput => Over(OutOfInput)
  }

  /** A trial sends the player back to the hall exactly on a wrong answer to
      the chosen scroll, or on greed (the crown, or both treasures). */
  lemma HallNotPassed(hall: string, lines: seq<string>, rng: nat -> nat, drawn: nat, health: int)
    ensures HallOutcome(hall, lines, rng, drawn, health) == NotPassed
        <==> || (&& hall == "A" && Choose(lines, MenuABC).Some?
                 && Choose(lines, MenuABC).value.used < |lines|
                 && AnswerKey(lines[Choose(lines, MenuABC).value.used])
                      !in ScrollAnswers(Choose(lines, MenuABC).value.value))
             || (&& hall != "A" && hall != "B" && Choose(lines, MenuABCD).Some?
                 && Choose(lines, MenuABCD).value.value in ["A", "D"])
  {
    var w := Choose(lines, MenuABC);
    if hall == "A" && w.Some? {
      var rest := lines[w.value.used..];
      AttemptsMeaning(rest, ScrollAnswers(w.value.value), AnswerKey, 1);
      if rest != [] {
        assert rest[0] == lines[w.value.used];
      }
    }
  }

  /** A trial is fatal exactly when the bridge is crossed, the d20 shows 12
      or less, and the 15 points of damage leave no health. */
  lemma HallFatal(hall: string, lines: seq<string>, rng: nat -> nat, drawn: nat, health: int)
    ensures HallOutcome(hall, lines, rng, drawn, health) == Fatal
        <==> && hall == "B" && Choose(lines, MenuABC).Some? && Choose(lines, MenuABC).value.value == "A"
             && RollDice(20, rng(drawn)) <= 12 && health <= 15
  {
  }

  /** The trial of wisdom: pick a scroll, then one answer to its riddle. */
  method WisdomTrial(p: Player, io: Console) returns (t: Trial)
    modifies p`riddlesSolved, io`lines
    ensures t == WisdomOutcome(old(io.lines))
    ensures match Choose(old(io.lines), MenuABC)
      case None => t == NoInput && io.lines == [] && p.riddlesSolved == old(p.riddlesSolved)
      case Some(c) =>
        match Attempts(old(io.lines)[c.used..], ScrollAnswers(c.value), AnswerKey, 1)
        case Solved(u) =>
          && t == Passed && p.riddlesSolved == old(p.riddlesSolved) + 1
          && io.lines == old(io.lines)[c.used..][u..]
        case Exhausted(u) =>
          && t == NotPassed && p.riddlesSolved == old(p.riddlesSolved)
          && io.lines == old(io.lines)[c.used..][u..]
        case NoAnswer =>
          t == NoInput && p.riddlesSolved == old(p.riddlesSolved) && io.lines == []
  {
    var scroll := GetValidInput(io, MenuABC);
    if scroll.None? {
      return NoInput;
    }
    var a := Ask(io, ScrollAnswers(scroll.value), AnswerKey, 1);
    match a
    case Solved(_) =>
      p.riddlesSolved := p.riddlesSolved + 1;
      t := Passed;
    case Exhausted(_) =>
      t := NotPassed;
    case NoAnswer =>
      t := NoInput;
  }

  /** The trial of courage: crossing the bridge needs a d20 roll above 12 or
      costs 15 health, fatal at zero; the other two ways pass outright. */
  method CourageTrial(p: Player, io: Console) returns (t: Trial)
    modifies p`health, io
    ensures t == CourageOutcome(old(io.lines), io.rng, old(io.drawn), old(p.health))
    ensures match Choose(old(io.lines), MenuABC)
      case None =>
        t == NoInput && io.lines == [] && io.drawn == old(io.drawn) && p.health == old(p.health)
      case Some(c) =>
        && io.lines == old(io.lines)[c.used..]
        && if c.value == "A" then
             && io.drawn == old(io.drawn) + 1
             && if RollDice(20, io.rng(old(io.drawn))) > 12 then t == Passed && p.health == old(p.health)
                else p.health == old(p.health) - 15 && t == (if p.health <= 0 then Fatal else Passed)
           else t == Passed && io.drawn == old(io.drawn) && p.health == old(p.health)
  {
    var way := GetValidInput(io, MenuABC);
    if way.None? {
      return NoInput;
    }
    if way.value == "A" {
      var d := io.Draw();
      if RollDice(20, d) > 12 {
        t := Passed;
      } else {
        p.health := p.health - 15;
        if p.health <= 0 {
          return Fatal;
        }
        t := Passed;
      }
    } else {
      t := Passed;
    }
  }

  /** The trial of choice: taking only the book, or nothing (which brings the
      crystal and full health), passes; greed does not. */
  method ChoiceTrial(p: Player, io: Console) returns (t: Trial)
    modifies p`inventory, p`health, io`lines
    ensures t == ChoiceOutcome(old(io.lines))
    ensures match Choose(old(io.lines), MenuABCD)
      case None =>
        t == NoInput && io.lines == [] && p.inventory == old(p.inventory) && p.health == old(p.health)
      case Some(c) =>
        && io.lines == old(io.lines)[c.used..]
        && if c.value == "B" then
             t == Passed && p.inventory == old(p.inventory) + [WisdomBook] && p.health == old(p.health)
           else if c.value == "C" then
             t == Passed && p.inventory == old(p.inventory) + [CalmCrystal] && p.health == 100
           else
             t == NotPassed && p.inventory == old(p.inventory) && p.health == old(p.health)
  {
    var selection := GetValidInput(io, MenuABCD);
    if selection.None? {
      return NoInput;
    }
    if selection.value == "B" || selection.value == "C" {
      t := Passed;
      if selection.value == "B" {
        p.AddItem(WisdomBook);
      } else {
        p.AddItem(CalmCrystal);
        p.health := 100;
      }
    } else {
      t := NotPassed;
    }
  }

  /** Walks down the corridor `hall` names and undergoes its trial. Only the
      wisdom corridor solves a riddle, only the courage corridor can hurt,
      only the choice corridor hands out items; a trial that is not passed
      leaves the player as they were. */
  method EnterHall(hall: string, p: Player, io: Console) returns (t: Trial)
    modifies p`inventory, p`health, p`riddlesSolved, io
    ensures t == HallOutcome(hall, old(io.lines), io.rng, old(io.drawn), old(p.health))
    ensures p.riddlesSolved == old(p.riddlesSolved) + HallRiddles(hall, old(io.lines))
    ensures p.health == HallHealth(hall, old(io.lines), io.rng, old(io.drawn), old(p.health))
    ensures p.inventory == old(p.inventory) + HallItems(hall, old(io.lines))
    ensures io.lines == HallRest(hall, old(io.lines))
    ensures io.drawn == old(io.drawn) + HallDraws(hall, old(io.lines))
    ensures t == NoInput ==> io.lines == []
    ensures |io.lines| <= |old(io.lines)|
    ensures t == Fatal ==> hall == "B" && p.health == old(p.health) - 15 && p.health <= 0
    ensures p.health != old(p.health) && p.health <= 0 ==> t == Fatal
    ensures t == NotPassed ==>
      p.inventory == old(p.inventory) && p.health == old(p.health) && p.riddlesSolved == old(p.riddlesSolved)
    ensures p.inventory == old(p.inventory)
         || p.inventory == old(p.inventory) + [WisdomBook]
         || (p.inventory == old(p.inventory) + [CalmCrystal] && p.health == 100)
    ensures p.inventory == old(p.inventory) + [CalmCrystal] || p.health in {old(p.health), old(p.health) - 15}
    ensures p.health <= old(p.health) || p.health == 100
    ensures p.riddlesSolved in {old(p.riddlesSolved), old(p.riddlesSolved) + 1}
    ensures p.riddlesSolved == old(p.riddlesSolved) + 1 ==> t == Passed
    ensures hall != "A" ==> p.riddlesSolved == old(p.riddlesSolved)
    ensures hall != "B" ==> p.health == old(p.health) || p.health == 100
    ensures hall in {"A", "B"} ==> p.inventory == old(p.inventory)
    ensures hall == "B" ==> t != NotPassed
  {
    if hall == "A" {
      t := WisdomTrial(p, io);
    } else if hall == "B" {
      t := CourageTrial(p, io);
    } else {
      t := ChoiceTrial(p, io);
    }
  }

  /** `temple_interior_scene` on the world `w`: a corridor, then its trial. */
  function TempleInteriorTurn(w: World, rng: nat -> nat): (m: Moved)
    ensures Follows(TempleInterior, w, m)
    ensures Keeps(w, m)
  {
    match Choose(w.lines, MenuABC)
    case None => Moved(Over(OutOfInput), w.(lines := []))
    case Some(h) =>
      var rest := w.lines[h.used..];
      Moved(TrialStep(HallOutcome(h.value, rest, rng, w.drawn, w.health)),
            World(HallRest(h.value, rest), w.drawn + HallDraws(h.value, rest),
                  w.inventory + HallItems(h.value, rest),
                  HallHealth(h.value, rest, rng, w.drawn, w.health),
                  w.riddles + HallRiddles(h.value, rest)))
  }

  /** The temple interior's turn, assembled from what the menu and the hall
      do. */
  lemma TempleInteriorTurnParts(w: World, rng: nat -> nat, m: Moved)
    requires match Choose(w.lines, MenuABC)
      case None => m == Moved(Over(OutOfInput), w.(lines := []))
      case Some(h) =>
        var rest := w.lines[h.used..];
        && m.step == TrialStep(HallOutcome(h.value, rest, rng, w.drawn, w.health))
        && m.world.lines == HallRest(h.value, rest)
        && m.world.drawn == w.drawn + HallDraws(h.value, rest)
        && m.world.inventory == w.inventory + HallItems(h.value, rest)
        && m.world.health == HallHealth(h.value, rest, rng, w.drawn, w.health)
        && m.world.riddles == w.riddles + HallRiddles(h.value, rest)
    ensures m == TempleInteriorTurn(w, rng)
  {
  }

  /** `temple_interior_scene`: one of three corridors, each a trial; passing
      it opens the guardian's door, failing it sends the player back to the
      hall. */
  method TempleInteriorScene(p: Player, io: Console) returns (step: Step)
    modifies p`inventory, p`health, p`riddlesSolved, io
    ensures step.Next? ==> step.scene in {Guardian, TempleInterior} && |io.lines| < |old(io.lines)|
    ensures step.Over? ==> step.ending in {Lost, OutOfInput}
    ensures step == Over(OutOfInput) ==> io.lines == []
    ensures |io.lines| <= |old(io.lines)|
    ensures step == Over(Lost) ==> p.health == old(p.health) - 15 && p.health <= 0
    ensures p.health != old(p.health) && p.health <= 0 ==> step == Over(Lost)
    ensures step == Next(TempleInterior) ==>
      p.inventory == old(p.inventory) && p.health == old(p.health) && p.riddlesSolved == old(p.riddlesSolved)
    ensures p.inventory == old(p.inventory)
         || p.inventory == old(p.inventory) + [WisdomBook]
         || (p.inventory == old(p.inventory) + [CalmCrystal] && p.health == 100)
    ensures p.inventory == old(p.inventory) + [CalmCrystal] || p.health in {old(p.health), old(p.health) - 15}
    ensures p.health <= old(p.health) || p.health == 100
    ensures p.riddlesSolved in {old(p.riddlesSolved), old(p.riddlesSolved) + 1}
    ensures p.riddlesSolved == old(p.riddlesSolved) + 1 ==> step == Next(Guardian)
    ensures match Choose(old(io.lines), MenuABC)
      case None =>
        && step == Over(OutOfInput) && io.lines == [] && io.drawn == old(io.drawn)
        && p.riddlesSolved == old(p.riddlesSolved) && p.health == old(p.health) && p.inventory == old(p.inventory)
      case Some(h) =>
        var rest := old(io.lines)[h.used..];
        var t := HallOutcome(h.value, rest, io.rng, old(io.drawn), old(p.health));
        && p.riddlesSolved == old(p.riddlesSolved) + HallRiddles(h.value, rest)
        && p.health == HallHealth(h.value, rest, io.rng, old(io.drawn), old(p.health))
        && p.inventory == old(p.inventory) + HallItems(h.value, rest)
        && io.lines == HallRest(h.value, rest)
        && io.drawn == old(io.drawn) + HallDraws(h.value, rest)
        && step == TrialStep(t)
        && (step == Next(Guardian) <==> t == Passed)
        && (step == Next(TempleInterior) <==> t == NotPassed)
        && (step == Over(Lost) <==> t == Fatal)
        && (step == Over(OutOfInput) <==> t == NoInput)
        && (h.value != "A" ==> p.riddlesSolved == old(p.riddlesSolved))
        && (h.value != "B" ==> p.health == old(p.health) || p.health == 100)
        && (h.value != "C" ==> p.inventory == old(p.inventory))
        && (h.value == "B" ==> step != Next(TempleInterior))
  {
    var hall := GetValidInput(io, MenuABC);
    if hall.None? {
      step := Over(OutOfInput);
    } else {
      var trialsPassed := 0;
      var t := EnterHall(hall.value, p, io);
      if t == Fatal {
        step := Over(Lost);
      } else if t == NoInput {
        step := Over(OutOfInput);
      } else {
        if t == Passed {
          trialsPassed := trialsPassed + 1;
        }
        if trialsPassed >= 1 {
          step := Next(Guardian);
        } else {
          step := Next(TempleInterior);
        }
      }
    }
  }

  /* -------------------------------------------------- the guardian quiz */

  datatype Riddle = Riddle(question: string, answers: seq<string>)

  /** Each riddle takes at most this many answers. */
  const RiddleTries: nat := 2

  const AirRiddle := Riddle("我无形无色却能填满任何容器，我对生命至关重要但却能带来死亡，我是什么？", ["空气", "气", "air"])
  const StampRiddle := Riddle("我能够在一天内环游世界，却始终留在角落里。我是什么？", ["邮票", "stamp"])
  const PuzzleRiddle := Riddle("我被发明出来就是为了打败现在的我。我是什么？", ["谜语", "谜题", "puzzle", "riddle"])

  /** The guardian's riddles in the order they are written down. */
  const GuardianRiddles: seq<Riddle> := [AirRiddle, StampRiddle, PuzzleRiddle]

  /** `s` with the elements at `i` and `j` exchanged. */
  function Swap<T>(s: seq<T>, i: nat, j: nat): seq<T>
    requires i < |s| && j < |s|
  {
    s[i := s[j]][j := s[i]]
  }

  lemma SwapPermutes<T>(s: seq<T>, i: nat, j: nat)
    requires i < |s| && j < |s|
    ensures multiset(Swap(s, i, j)) == multiset(s)
  {
    var t := s[i := s[j]];
    assert multiset(t) == multiset(s) - multiset{s[i]} + multiset{s[j]};
    assert t[j] == if i == j then s[j] else s[j];
    assert multiset(t[j := s[i]]) == multiset(t) - multiset{t[j]} + multiset{s[i]};
  }

  /** Fisher-Yates from the back, as `random.shuffle` does it: for `k` from
      the length down to 2, swap position `k - 1` with a drawn position
      below `k`. */
  function ShuffleFrom<T>(s: seq<T>, k: nat, rng: nat -> nat, drawn: nat): (r: seq<T>)
    requires k <= |s|
    decreases k
  {
    if k <= 1 then s
    else ShuffleFrom(Swap(s, k - 1, rng(drawn) % k), k - 1, rng, drawn + 1)
  }

  function Shuffled<T>(s: seq<T>, rng: nat -> nat, drawn: nat): seq<T> {
    ShuffleFrom(s, |s|, rng, drawn)
  }

  /** One pass of the shuffle. */
  lemma ShuffleFromStep<T>(s: seq<T>, k: nat, rng: nat -> nat, drawn: nat)
    requires 1 < k <= |s|
    ensures ShuffleFrom(s, k, rng, drawn) == ShuffleFrom(Swap(s, k - 1, rng(drawn) % k), k - 1, rng, drawn + 1)
  {}

  lemma {:induction false} ShuffleFromPermutes<T>(s: seq<T>, k: nat, rng: nat -> nat, drawn: nat)
    requires k <= |s|
    ensures |ShuffleFrom(s, k, rng, drawn)| == |s|
    ensures multiset(ShuffleFrom(s, k, rng, drawn)) == multiset(s)
    decreases k
  {
    if k > 1 {
      SwapPermutes(s, k - 1, rng(drawn) % k);
      ShuffleFromPermutes(Swap(s, k - 1, rng(drawn) % k), k - 1, rng, drawn + 1);
    }
  }

  /** Whatever the draws, shuffling only reorders. */
  lemma ShuffledPermutes<T>(s: seq<T>, rng: nat -> nat, drawn: nat)
    ensures |Shuffled(s, rng, drawn)| == |s|
    ensures multiset(Shuffled(s, rng, drawn)) == multiset(s)
  {
    ShuffleFromPermutes(s, |s|, rng, drawn);
  }

  /** `random.shuffle` on an array, one draw per position from the last down
      to the second. */
  method Shuffle<T>(a: array<T>, io: Console)
    modifies a, io`drawn
    ensures a[..] == Shuffled(old(a[..]), io.rng, old(io.drawn))
    ensures io.drawn == old(io.drawn) + if a.Length == 0 then 0 else a.Length - 1
  {
    var k := a.Length;
    while k > 1
      invariant 0 <= k <= a.Length
      invariant a.Length > 0 ==> k >= 1
      invariant io.drawn == old(io.drawn) + (a.Length - k)
      invariant ShuffleFrom(a[..], k, io.rng, io.drawn) == Shuffled(old(a[..]), io.rng, old(io.drawn))
    {
      ghost var before := a[..];
      ShuffleFromStep(before, k, io.rng, io.drawn);
      var d := io.Draw();
      var j := d % k;
      a[k - 1], a[j] := a[j], a[k - 1];
      assert a[..] == Swap(before, k - 1, j);
      k := k - 1;
    }
  }

  /** The guardian's quiz after the first `i` riddles: how many keys were
      won, how many input lines that took, and whether the input lasted. */
  datatype Tally = Tally(keys: nat, used: nat, complete: bool)

  /** Riddle after riddle in order, two tries each, answers normalised by
      `key`; once the input has ended nothing more is asked. */
  function Asked(lines: seq<string>, riddles: seq<Riddle>, key: string -> string, i: nat): (t: Tally)
    requires i <= |riddles|
    ensures t.used <= |lines| && t.keys <= i
    ensures !t.complete ==> t.used == |lines|
    decreases i
  {
    if i == 0 then Tally(0, 0, true)
    else
      var t := Asked(lines, riddles, key, i - 1);
      if !t.complete then t
      else
        match Attempts(lines[t.used..], riddles[i - 1].answers, key, RiddleTries)
        case NoAnswer => Tally(t.keys, |lines|, false)
        case Solved(u) => Tally(t.keys + 1, t.used + u, true)
        case Exhausted(u) => Tally(t.keys, t.used + u, true)
  }

  /** The whole quiz on `lines`. */
  function Quiz(lines: seq<string>, riddles: seq<Riddle>, key: string -> string): Tally {
    Asked(lines, riddles, key, |riddles|)
  }

  /** Riddle `i` asked while the input lasts: a right answer wins one key,
      and the input ending first ends the quiz. */
  lemma AskedNext(lines: seq<string>, riddles: seq<Riddle>, key: string -> string,
                  i: nat, keys: nat, used: nat, a: Answer)
    requires i < |riddles| && Asked(lines, riddles, key, i) == Tally(keys, used, true)
    requires a == Attempts(lines[used..], riddles[i].answers, key, RiddleTries)
    ensures a.NoAnswer? ==> Asked(lines, riddles, key, i + 1) == Tally(keys, |lines|, false)
    ensures !a.NoAnswer? ==>
      Asked(lines, riddles, key, i + 1) == Tally(keys + (if a.Solved? then 1 else 0), used + a.used, true)
  {
  }

  /** A quiz whose input ran out stays where it stopped ... */
  lemma AskedHalted(lines: seq<string>, riddles: seq<Riddle>, key: string -> string, t: Tally, i: nat)
    requires i < |riddles| && Asked(lines, riddles, key, i) == t && !t.complete
    ensures Asked(lines, riddles, key, i + 1) == t
  {}

  /** ... whatever riddles come after. */
  lemma {:induction false} AskedStays(lines: seq<string>, riddles: seq<Riddle>, key: string -> string,
                                      t: Tally, i: nat, j: nat)
    requires i <= j <= |riddles| && Asked(lines, riddles, key, i) == t && !t.complete
    ensures Asked(lines, riddles, key, j) == t
    decreases j - i
  {
    if i < j {
      AskedHalted(lines, riddles, key, t, i);
      AskedStays(lines, riddles, key, t, i + 1, j);
    }
  }

  /** Once every riddle was posed or the input ran out, the quiz's outcome is
      the tally so far. */
  lemma QuizEnded(lines: seq<string>, riddles: seq<Riddle>, key: string -> string, i: nat)
    requires i <= |riddles|
    requires i == |riddles| || !Asked(lines, riddles, key, i).complete
    ensures Quiz(lines, riddles, key) == Asked(lines, riddles, key, i)
  {
    if i < |riddles| {
      AskedStays(lines, riddles, key, Asked(lines, riddles, key, i), i, |riddles|);
    }
  }

  /** Riddle `k` was reached with input left and answered right. */
  predicate SolvedAt(lines: seq<string>, riddles: seq<Riddle>, key: string -> string, k: nat)
    requires k < |riddles|
  {
    var t := Asked(lines, riddles, key, k);
    t.complete && Attempts(lines[t.used..], riddles[k].answers, key, RiddleTries).Solved?
  }

  /** Riddle `k` wins a key exactly when it is answered right. */
  lemma AskedCounts(lines: seq<string>, riddles: seq<Riddle>, key: string -> string, k: nat)
    requires k < |riddles|
    ensures Asked(lines, riddles, key, k + 1).keys
         == Asked(lines, riddles, key, k).keys + (if SolvedAt(lines, riddles, key, k) then 1 else 0)
  {
  }

  /** Which of the first `i` riddles were answered right. */
  function Wins(lines: seq<string>, riddles: seq<Riddle>, key: string -> string, i: nat): seq<bool>
    requires i <= |riddles|
  {
    seq(i, k requires 0 <= k < i => SolvedAt(lines, riddles, key, k))
  }

  /** The number of `true` entries. */
  function CountTrue(bs: seq<bool>): (n: nat)
    ensures n <= |bs|
  {
    if bs == [] then 0 else CountTrue(bs[..|bs| - 1]) + (if bs[|bs| - 1] then 1 else 0)
  }

  /** Every entry is `true` exactly when all of them are counted ... */
  lemma {:induction false} CountTrueAll(bs: seq<bool>)
    ensures CountTrue(bs) == |bs| <==> forall k :: 0 <= k < |bs| ==> bs[k]
  {
    if bs != [] {
      var init := bs[..|bs| - 1];
      CountTrueAll(init);
      assert forall k :: 0 <= k < |init| ==> init[k] == bs[k];
    }
  }

  /** ... and some entry is exactly when the count is not zero. */
  lemma {:induction false} CountTrueSome(bs: seq<bool>)
    ensures CountTrue(bs) > 0 <==> exists k :: 0 <= k < |bs| && bs[k]
  {
    if bs != [] {
      var init := bs[..|bs| - 1];
      CountTrueSome(init);
      assert forall k :: 0 <= k < |init| ==> init[k] == bs[k];
    }
  }

  /** The keys won are the riddles answered right. */
  lemma {:induction false} AskedWins(lines: seq<string>, riddles: seq<Riddle>, key: string -> string, i: nat)
    requires i <= |riddles|
    ensures Asked(lines, riddles, key, i).keys == CountTrue(Wins(lines, riddles, key, i))
    decreases i
  {
    if i > 0 {
      AskedWins(lines, riddles, key, i - 1);
      AskedCounts(lines, riddles, key, i - 1);
      assert Wins(lines, riddles, key, i)[..i - 1] == Wins(lines, riddles, key, i - 1);
    }
  }

  /** The quiz wins a key for every riddle exactly when every riddle is
      answered right ... */
  lemma QuizAllKeys(lines: seq<string>, riddles: seq<Riddle>, key: string -> string)
    ensures Quiz(lines, riddles, key).keys == |riddles|
        <==> forall k :: 0 <= k < |riddles| ==> SolvedAt(lines, riddles, key, k)
  {
    var w := Wins(lines, riddles, key, |riddles|);
    AskedWins(lines, riddles, key, |riddles|);
    CountTrueAll(w);
    assert forall k :: 0 <= k < |riddles| ==> (w[k] <==> SolvedAt(lines, riddles, key, k));
  }

  /** ... and no key exactly when no riddle is. */
  lemma QuizNoKey(lines: seq<string>, riddles: seq<Riddle>, key: string -> string)
    ensures Quiz(lines, riddles, key).keys == 0
        <==> forall k :: 0 <= k < |riddles| ==> !SolvedAt(lines, riddles, key, k)
  {
    var w := Wins(lines, riddles, key, |riddles|);
    AskedWins(lines, riddles, key, |riddles|);
    CountTrueSome(w);
    assert forall k :: 0 <= k < |riddles| ==> (w[k] <==> SolvedAt(lines, riddles, key, k));
  }

  /** Line `k` of the input, once normalised, answers riddle `k`. */
  predicate RightAt(lines: seq<string>, riddles: seq<Riddle>, key: string -> string, k: nat)
    requires k < |lines| && k < |riddles|
  {
    key(lines[k]) in riddles[k].answers
  }

  /** After `i` riddles each answered right at the first try, a right answer
      on the next line solves riddle `i` too. */
  lemma AskedRightNext(lines: seq<string>, riddles: seq<Riddle>, key: string -> string, i: nat)
    requires i < |riddles| && i < |lines| && Asked(lines, riddles, key, i) == Tally(i, i, true)
    requires RightAt(lines, riddles, key, i)
    ensures Asked(lines, riddles, key, i + 1) == Tally(i + 1, i + 1, true)
  {
    AttemptsFirstRight(lines[i..], riddles[i].answers, key, RiddleTries);
    AskedNext(lines, riddles, key, i, i, i, Attempts(lines[i..], riddles[i].answers, key, RiddleTries));
  }

  /** The line a player types who knows the riddle's first accepted answer. */
  function FirstAnswer(r: Riddle): string {
    if r.answers == [] then "" else r.answers[0]
  }

  /** The lines of a player who types each riddle's first answer in turn. */
  function FirstAnswers(riddles: seq<Riddle>): seq<string> {
    seq(|riddles|, k requires 0 <= k < |riddles| => FirstAnswer(riddles[k]))
  }

  /** Input whose first `i` lines are right answers to the first `i` riddles
      answers each of them at the first try, one line each. */
  lemma {:induction false} RightAnswersSolve(lines: seq<string>, riddles: seq<Riddle>, key: string -> string, i: nat)
    requires i <= |riddles| && i <= |lines|
    requires forall k :: 0 <= k < i ==> RightAt(lines, riddles, key, k)
    ensures Asked(lines, riddles, key, i) == Tally(i, i, true)
    decreases i
  {
    if i > 0 {
      RightAnswersSolve(lines, riddles, key, i - 1);
      AskedRightNext(lines, riddles, key, i - 1);
    }
  }

  /** Typing each riddle's first answer, when the normalisation keeps it
      acceptable, answers every riddle right at the first try. */
  lemma FirstAnswersSolveAll(riddles: seq<Riddle>, key: string -> string, rest: seq<string>)
    requires forall k :: 0 <= k < |riddles| ==> key(FirstAnswer(riddles[k])) in riddles[k].answers
    ensures Quiz(FirstAnswers(riddles) + rest, riddles, key) == Tally(|riddles|, |riddles|, true)
  {
    var lines := FirstAnswers(riddles) + rest;
    forall k | 0 <= k < |riddles|
      ensures RightAt(lines, riddles, key, k)
    {
      assert lines[k] == FirstAnswer(riddles[k]);
    }
    RightAnswersSolve(lines, riddles, key, |riddles|);
  }

  /** Normalising leaves an answer without whitespace or capitals alone. */
  lemma AnswerKeyKeeps(s: string)
    requires forall k :: 0 <= k < |s| ==> !IsSpace(s[k]) && !('A' <= s[k] <= 'Z')
    ensures AnswerKey(s) == s
  {
    NoSpaceUnchanged(s);
  }

  /** Shuffling the guardian's riddles yields three riddles, each one of the
      guardian's own. */
  lemma ShuffledGuardian(rng: nat -> nat, drawn: nat)
    ensures |Shuffled(GuardianRiddles, rng, drawn)| == 3
    ensures forall k :: 0 <= k < 3 ==> Shuffled(GuardianRiddles, rng, drawn)[k] in GuardianRiddles
  {
    var riddles := Shuffled(GuardianRiddles, rng, drawn);
    ShuffledPermutes(GuardianRiddles, rng, drawn);
    forall k | 0 <= k < 3 ensures riddles[k] in GuardianRiddles {
      assert riddles[k] in multiset(riddles);
    }
  }

  /** Each guardian riddle accepts its own first answer once normalised. */
  lemma GuardianFirstAnswers(r: Riddle)
    requires r in GuardianRiddles
    ensures AnswerKey(FirstAnswer(r)) in r.answers
  {
    AnswerKeyKeeps(FirstAnswer(AirRiddle));
    AnswerKeyKeeps(FirstAnswer(StampRiddle));
    AnswerKeyKeeps(FirstAnswer(PuzzleRiddle));
  }

  /** However the guardian's riddles are shuffled, a player who types each
      one's first listed answer solves all three and earns the three keys
      that open the treasure room. */
  lemma GuardianAllRight(rng: nat -> nat, drawn: nat, rest: seq<string>)
    ensures var riddles := Shuffled(GuardianRiddles, rng, drawn);
      var q := Quiz(FirstAnswers(riddles) + rest, riddles, AnswerKey);
      q == Tally(3, 3, true) && OpensWithKeys(q.keys)
  {
    var riddles := Shuffled(GuardianRiddles, rng, drawn);
    ShuffledGuardian(rng, drawn);
    forall k | 0 <= k < |riddles| ensures AnswerKey(FirstAnswer(riddles[k])) in riddles[k].answers {
      GuardianFirstAnswers(riddles[k]);
    }
    FirstAnswersSolveAll(riddles, AnswerKey, rest);
  }

  /** One of the guardian's riddles: two tries, answers normalised by `key`;
      a right answer solves one more riddle and hands out the key numbered
      `keys + 1`. */
  method PoseOne(riddles: seq<Riddle>, i: nat, key: string -> string, keys: nat, p: Player, io: Console,
                 ghost all: seq<string>, ghost used: nat, ghost given: seq<Item>) returns (a: Answer)
    requires i < |riddles| && Asked(all, riddles, key, i) == Tally(keys, used, true)
    requires io.lines == all[used..]
    requires p.inventory == given + KeyItems(keys)
    modifies p`inventory, p`riddlesSolved, io`lines
    ensures Asked(all, riddles, key, i + 1)
      == Tally(keys + (if a.Solved? then 1 else 0), if a.NoAnswer? then |all| else used + a.used, !a.NoAnswer?)
    ensures io.lines == all[(if a.NoAnswer? then |all| else used + a.used)..]
    ensures p.riddlesSolved == old(p.riddlesSolved) + (if a.Solved? then 1 else 0)
    ensures p.inventory == given + KeyItems(keys + (if a.Solved? then 1 else 0))
  {
    a := Ask(io, riddles[i].answers, key, RiddleTries);
    AskedNext(all, riddles, key, i, keys, used, a);
    if !a.NoAnswer? {
      DropDrop(all, used, a.used);
    }
    if a.Solved? {
      p.riddlesSolved := p.riddlesSolved + 1;
      p.AddItem(TreasureKey(keys + 1));
      KeyItemsNext(given, keys);
    }
  }

  /** The guardian's question loop over the (already shuffled) riddles: two
      tries each, answers normalised by `key`, and every right answer hands
      out the next numbered key. */
  method PoseRiddles(riddles: seq<Riddle>, key: string -> string, p: Player, io: Console)
    returns (keys: nat, complete: bool)
    modifies p`inventory, p`riddlesSolved, io`lines
    ensures
      var q := Quiz(old(io.lines), riddles, key);
      && keys == q.keys && complete == q.complete
      && io.lines == old(io.lines)[q.used..]
      && p.riddlesSolved == old(p.riddlesSolved) + keys
      && p.inventory == old(p.inventory) + KeyItems(keys)
  {
    ghost var all := io.lines;
    ghost var given := p.inventory;
    ghost var used: nat := 0;
    keys := 0;
    complete := true;
    var i := 0;
    while i < |riddles| && complete
      invariant i <= |riddles|
      invariant Asked(all, riddles, key, i) == Tally(keys, used, complete)
      invariant io.lines == all[used..]
      invariant p.riddlesSolved == old(p.riddlesSolved) + keys
      invariant p.inventory == given + KeyItems(keys)
    {
      var a := PoseOne(riddles, i, key, keys, p, io, all, used, given);
      keys := keys + (if a.Solved? then 1 else 0);
      used := if a.NoAnswer? then |all| else used + a.used;
      complete := !a.NoAnswer?;
      i := i + 1;
    }
    QuizEnded(all, riddles, key, i);
  }

  /** `guardian_puzzle_scene` on the world `w`: two generator values for the
      shuffle, then the quiz. */
  function GuardianTurn(w: World, rng: nat -> nat): (m: Moved)
    ensures Follows(Guardian, w, m)
    ensures Keeps(w, m)
  {
    var q := Quiz(w.lines, Shuffled(GuardianRiddles, rng, w.drawn), AnswerKey);
    var after := w.(lines := w.lines[q.used..], drawn := w.drawn + 2,
                    inventory := w.inventory + KeyItems(q.keys), riddles := w.riddles + q.keys);
    if !q.complete then Moved(Over(OutOfInput), after)
    else if q.keys > 0 then Moved(Next(TreasureRoom(q.keys)), after)
    else Moved(Next(TreasureRoom(1)), after.(inventory := after.inventory + [CopperKey]))
  }

  /** `guardian_puzzle_scene`: the three riddles in shuffled order. Any key
      opens the treasure room with that many keys; none brings the copper
      key and one key's worth of treasure. */
  method GuardianScene(p: Player, io: Console) returns (step: Step)
    modifies p`inventory, p`riddlesSolved, io
    ensures Moved(step, State(p, io)) == GuardianTurn(old(State(p, io)), io.rng)
    ensures io.drawn == old(io.drawn) + 2
    ensures
      var riddles := Shuffled(GuardianRiddles, io.rng, old(io.drawn));
      var q := Quiz(old(io.lines), riddles, AnswerKey);
      var keys := q.keys;
      && keys <= 3 && keys == CountTrue(Wins(old(io.lines), riddles, AnswerKey, |riddles|))
      && io.lines == old(io.lines)[q.used..]
      && p.riddlesSolved == old(p.riddlesSolved) + keys
      && (q.complete ==>
            && step == Next(TreasureRoom(if keys > 0 then keys else 1))
            && p.inventory == old(p.inventory) + KeyItems(keys) + (if keys > 0 then [] else [CopperKey]))
      && (!q.complete ==>
            step == Over(OutOfInput) && p.inventory == old(p.inventory) + KeyItems(keys))
  {
    ghost var w := State(p, io);
    var riddles := new Riddle[|GuardianRiddles|](k requires 0 <= k < |GuardianRiddles| => GuardianRiddles[k]);
    assert riddles[..] == GuardianRiddles;
    Shuffle(riddles, io);
    assert riddles[..] == Shuffled(GuardianRiddles, io.rng, w.drawn);
    ghost var q := Quiz(w.lines, riddles[..], AnswerKey);
    var keys, complete := PoseRiddles(riddles[..], AnswerKey, p, io);
    ghost var after := w.(lines := w.lines[q.used..], drawn := w.drawn + 2,
                          inventory := w.inventory + KeyItems(keys), riddles := w.riddles + keys);
    assert State(p, io) == after;
    if !complete {
      step := Over(OutOfInput);
    } else if keys > 0 {
      step := Next(TreasureRoom(keys));
    } else {
      p.AddItem(CopperKey);
      assert State(p, io) == after.(inventory := after.inventory + [CopperKey]);
      step := Next(TreasureRoom(1));
    }
    assert Moved(step, State(p, io)) == GuardianTurn(w, io.rng);
    AskedWins(w.lines, riddles[..], AnswerKey, riddles.Length);
  }
}
