/**
 * The game loop: run the current scene, follow the scene it returns, and stop
 * when a scene ends the game; then offer a new game.
 */
module Engine {
  import opened Common
  import opened Text
  import opened Io
  import opened Prompts
  import opened Players
  import opened Story
  import opened Scenes
  import opened Puzzles

  /** A scene that only asks for a menu choice: the option chosen picks the
      step, or the input runs out. */
  function MenuTurn(w: World, options: seq<string>, next: string -> Step): (m: Moved)
    ensures m.world.drawn == w.drawn && m.world.inventory == w.inventory
    ensures m.world.health == w.health && m.world.riddles == w.riddles
    ensures Choose(w.lines, options).None? ==> m.step == Over(OutOfInput) && m.world.lines == []
    ensures Choose(w.lines, options).Some? ==> m.step == next(Choose(w.lines, options).value.value) && |m.world.lines| < |w.lines|
  {
    match Choose(w.lines, options)
    case None => Moved(Over(OutOfInput), w.(lines := []))
    case Some(c) => Moved(next(c.value), w.(lines := w.lines[c.used..]))
  }

  /** `jungle_scene` on the world `w`. */
  function JungleTurn(w: World, rng: nat -> nat): (m: Moved)
    ensures Follows(Jungle, w, m)
    ensures Keeps(w, m)
  {
    match Choose(w.lines, MenuAB)
    case None => Moved(Over(OutOfInput), w.(lines := []))
    case Some(c) =>
      var rest := w.lines[c.used..];
      if c.value == "A" then
        Moved(if Random(rng(w.drawn)) < 0.5 then Next(HiddenPath) else Over(Lost), w.(lines := rest, drawn := w.drawn + 1))
      else Moved(Next(CaveEntrance), w.(lines := rest))
  }

  /** `mountain_scene` on the world `w`. */
  function MountainTurn(w: World, rng: nat -> nat): (m: Moved)
    ensures Follows(Mountain, w, m)
    ensures Keeps(w, m)
  {
    match Choose(w.lines, MenuAB)
    case None => Moved(Over(OutOfInput), w.(lines := []))
    case Some(c) =>
      var rest := w.lines[c.used..];
      if c.value == "A" then Moved(Next(Temple), w.(lines := rest))
      else Moved(if Random(rng(w.drawn)) < 0.3 then Over(Lost) else Next(Valley), w.(lines := rest, drawn := w.drawn + 1))
  }

  /** `cave_entrance_scene` on the world `w`. */
  function CaveEntranceTurn(w: World, rng: nat -> nat): (m: Moved)
    ensures Follows(CaveEntrance, w, m)
    ensures Keeps(w, m)
  {
    match Choose(w.lines, MenuAB)
    case None => Moved(Over(OutOfInput), w.(lines := []))
    case Some(c) =>
      var rest := w.lines[c.used..];
      if c.value == "A" then
        (match PickNumber(rest)
         case None => Moved(Over(OutOfInput), w.(lines := []))
         case Some(n) =>
           Moved(if n.value == RandInt(1, 10, rng(w.drawn)) then Next(DeepCave) else Next(Valley),
                 w.(lines := rest[n.used..], drawn := w.drawn + 1)))
      else Moved(Next(Valley), w.(lines := rest))
  }

  /** `temple_scene` on the world `w`, with `tries` attempts at the door. */
  function TempleTurn(w: World, tries: nat): (m: Moved)
    requires tries > 0
    ensures Follows(Temple, w, m)
    ensures Keeps(w, m)
  {
    match Attempts(w.lines, DoorAnswers, AnswerKey, tries)
    case Solved(u) => Moved(Next(TempleInterior), w.(lines := w.lines[u..]))
    case Exhausted(u) => Moved(Over(Lost), w.(lines := w.lines[u..]))
    case NoAnswer => Moved(Over(OutOfInput), w.(lines := []))
  }

  /** What the scene function for `scene` does to the world `w` when the
      generator yields `rng`. */
  function Turn(scene: Scene, w: World, rng: nat -> nat): (m: Moved)
    ensures Follows(scene, w, m)
    ensures Keeps(w, m)
  {
    match scene
    case Beach => MenuTurn(w, MenuABC, c => Next(if c == "A" then Jungle else if c == "B" then CaveEntrance else Mountain))
    case Jungle => JungleTurn(w, rng)
    case Mountain => MountainTurn(w, rng)
    case CaveEntrance => CaveEntranceTurn(w, rng)
    case DeepCave => DeepCaveTurn(w)
    case CavePuzzle => CavePuzzleTurn(w, PuzzleTries)
    case Valley => MenuTurn(w, MenuAB, c => Next(if c == "A" then Temple else Mountain))
    case Temple => TempleTurn(w, PuzzleTries)
    case TempleInterior => TempleInteriorTurn(w, rng)
    case Guardian => GuardianTurn(w, rng)
    case HiddenPath => MenuTurn(w, MenuAB, c => Next(if c == "A" then Valley else Temple))
    case TreasureRoom(keys) =>
      if OpensWithKeys(keys) then Moved(Over(Won), w)
      else MenuTurn(w, MenuAB, c => Over(if c == "A" then Lost else Won))
  }

  /** Runs a scene that only reads input and draws random numbers: it does
      to the console what `Turn` says and leaves the player alone. */
  method RunPassage(scene: Scene, p: Player, io: Console) returns (step: Step)
    requires scene !in {DeepCave, CavePuzzle, TempleInterior, Guardian}
    modifies io
    ensures Turn(scene, old(State(p, io)), io.rng) == Moved(step, State(p, io))
  {
    match scene {
      case Beach => step := BeachScene(io);
      case Jungle => step := JungleScene(io);
      case Mountain => step := MountainScene(io);
      case CaveEntrance => step := CaveEntranceScene(io);
      case Valley => step := ValleyScene(io);
      case Temple => step := TempleScene(io);
      case HiddenPath => step := HiddenPathScene(io);
      case TreasureRoom(keys) => step := TreasureRoomScene(keys, io);
    }
  }

  /** Runs the temple interior: it does to the player and the console what
      `Turn` says. */
  method RunTempleInterior(p: Player, io: Console) returns (step: Step)
    modifies p`inventory, p`health, p`riddlesSolved, io
    ensures Turn(TempleInterior, old(State(p, io)), io.rng) == Moved(step, State(p, io))
  {
    ghost var w := State(p, io);
    step := TempleInteriorScene(p, io);
    TempleInteriorTurnParts(w, io.rng, Moved(step, State(p, io)));
    TempleInteriorIsTurn(w, io.rng);
  }

  /** In the temple interior, `Turn` is the temple interior's turn. */
  lemma TempleInteriorIsTurn(w: World, rng: nat -> nat)
    ensures Turn(TempleInterior, w, rng) == TempleInteriorTurn(w, rng)
  {
  }

  /** Runs the guardian's riddles: it does to the player and the console
      what `Turn` says. */
  method RunGuardian(p: Player, io: Console) returns (step: Step)
    modifies p`inventory, p`riddlesSolved, io
    ensures Turn(Guardian, old(State(p, io)), io.rng) == Moved(step, State(p, io))
  {
    ghost var w := State(p, io);
    step := GuardianScene(p, io);
    GuardianIsTurn(w, io.rng);
  }

  /** On the guardian's scene, `Turn` is the guardian's turn. */
  lemma GuardianIsTurn(w: World, rng: nat -> nat)
    ensures Turn(Guardian, w, rng) == GuardianTurn(w, rng)
  {
  }

  /** Runs a scene that changes the player: it does to the player and the
      console what `Turn` says. */
  method RunQuest(scene: Scene, p: Player, io: Console) returns (step: Step)
    requires scene in {DeepCave, CavePuzzle, TempleInterior, Guardian}
    modifies p`inventory, p`health, p`riddlesSolved, io
    ensures Turn(scene, old(State(p, io)), io.rng) == Moved(step, State(p, io))
  {
    match scene {
      case DeepCave => step := DeepCaveScene(p, io);
      case CavePuzzle => step := CavePuzzleScene(p, io);
      case TempleInterior => step := RunTempleInterior(p, io);
      case Guardian => step := RunGuardian(p, io);
    }
  }

  /** Calls the scene function for `scene`, whichever it is. */
  method RunScene(scene: Scene, p: Player, io: Console) returns (step: Step)
    modifies p`inventory, p`health, p`riddlesSolved, io
    ensures Turn(scene, old(State(p, io)), io.rng) == Moved(step, State(p, io))
    ensures step.Next? ==> Edge(scene, step.scene) && |io.lines| < |old(io.lines)|
    ensures step.Over? ==> Final(scene, step.ending)
    ensures step == Over(OutOfInput) ==> io.lines == []
    ensures |io.lines| <= |old(io.lines)|
    ensures old(p.inventory) <= p.inventory
    ensures old(p.riddlesSolved) <= p.riddlesSolved
    ensures old(p.health) > 0 && p.health <= 0 ==> step == Over(Lost)
    ensures old(p.health) <= 100 ==> p.health <= 100
  {
    if scene in {DeepCave, CavePuzzle, TempleInterior, Guardian} {
      step := RunQuest(scene, p, io);
    } else {
      step := RunPassage(scene, p, io);
    }
  }

  /* ------------------------------------------------ whole playthroughs */

  /** A run of scenes: how it ended, the scenes visited, and the world left. */
  datatype Run = Run(ending: Ending, trace: seq<Scene>, world: World)

  /** The main loop from `scene` on: run the scene, follow the scene it
      returns, and stop at the first one that ends the game. */
  function Journey(scene: Scene, w: World, rng: nat -> nat): (r: Run)
    ensures |r.world.lines| <= |w.lines|
    decreases |w.lines|
  {
    var m := Turn(scene, w, rng);
    match m.step
    case Over(e) => Run(e, [scene], m.world)
    case Next(s) =>
      var r := Journey(s, m.world, rng);
      Run(r.ending, [scene] + r.trace, r.world)
  }

  /** A journey is its first scene's turn followed by the journey from the
      scene that turn leads to. */
  lemma JourneyStep(scene: Scene, w: World, rng: nat -> nat, m: Moved)
    requires Turn(scene, w, rng) == m
    ensures m.step.Over? ==> Journey(scene, w, rng) == Run(m.step.ending, [scene], m.world)
    ensures m.step.Next? ==> var r := Journey(m.step.scene, m.world, rng);
      Journey(scene, w, rng) == Run(r.ending, [scene] + r.trace, r.world)
  {
  }

  /** Every journey is a path of the story graph from where it started,
      with at most one scene more than there are input lines, ended the way
      its last scene may end the game; it keeps the player's invariants. */
  lemma {:induction false} JourneyFacts(scene: Scene, w: World, rng: nat -> nat)
    ensures var r := Journey(scene, w, rng);
      && r.trace != [] && r.trace[0] == scene && IsPath(r.trace)
      && Final(r.trace[|r.trace| - 1], r.ending)
      && |r.trace| <= |w.lines| + 1
      && (r.ending == OutOfInput ==> r.world.lines == [])
      && w.inventory <= r.world.inventory && w.riddles <= r.world.riddles
      && (0 < w.health <= 100 ==> r.world.health <= 100 && (r.world.health <= 0 ==> r.ending == Lost))
    decreases |w.lines|
  {
    var m := Turn(scene, w, rng);
    if m.step.Next? {
      var r := Journey(m.step.scene, m.world, rng);
      JourneyFacts(m.step.scene, m.world, rng);
      JourneyStep(scene, w, rng, m);
      PathCons(scene, r.trace);
    } else {
      JourneyStep(scene, w, rng, m);
    }
  }

  /** One playthrough on the world `w`: the intro waits for a line, then the
      journey starts on the beach. */
  function Playthrough(w: World, rng: nat -> nat): (r: Run)
    ensures |r.world.lines| <= |w.lines|
    ensures w.lines != [] ==> |r.world.lines| < |w.lines|
  {
    if w.lines == [] then Run(OutOfInput, [], w)
    else Journey(Beach, w.(lines := w.lines[1..]), rng)
  }

  /** A playthrough is a route of the story graph, one input line at least
      per scene, and ends the way its last scene may end the game; items and
      solved riddles are kept, and health drops to zero only in a lost game. */
  lemma PlaythroughFacts(w: World, rng: nat -> nat)
    ensures var r := Playthrough(w, rng);
      && (w.lines == [] ==> r.ending == OutOfInput && r.trace == [])
      && (w.lines != [] ==> IsRoute(r.trace) && Final(r.trace[|r.trace| - 1], r.ending))
      && |r.trace| <= |w.lines|
      && (r.ending == OutOfInput ==> r.world.lines == [])
      && w.inventory <= r.world.inventory && w.riddles <= r.world.riddles
      && (0 < w.health <= 100 ==> r.world.health <= 100 && (r.world.health <= 0 ==> r.ending == Lost))
  {
    if w.lines != [] {
      JourneyFacts(Beach, w.(lines := w.lines[1..]), rng);
    }
  }

  /** `main` for one playthrough: the intro waits for Enter, then scenes run
      from the beach until one of them ends the game. */
  method Play(p: Player, io: Console) returns (ending: Ending, trace: seq<Scene>)
    modifies p`inventory, p`health, p`riddlesSolved, io
    ensures Playthrough(old(State(p, io)), io.rng) == Run(ending, trace, State(p, io))
    ensures old(io.lines) == [] ==> ending == OutOfInput && trace == []
    ensures old(io.lines) != [] ==> IsRoute(trace) && Final(trace[|trace| - 1], ending)
    ensures |trace| <= |old(io.lines)|
    ensures ending == OutOfInput ==> io.lines == []
    ensures |io.lines| < |old(io.lines)| || old(io.lines) == []
    ensures old(p.inventory) <= p.inventory
    ensures old(p.riddlesSolved) <= p.riddlesSolved
    ensures 0 < old(p.health) <= 100 ==> p.health <= 100 && (p.health <= 0 ==> ending == Lost)
  {
    ghost var initial := State(p, io);
    var enter := io.ReadLine();
    if enter.None? {
      PlaythroughFacts(initial, io.rng);
      return OutOfInput, [];
    }
    ghost var start := State(p, io);
    var current: Option<Scene> := Some(Beach);
    trace := [];
    ending := OutOfInput;
    while current.Some?
      invariant current.Some? ==>
        var r := Journey(current.value, State(p, io), io.rng);
        Journey(Beach, start, io.rng) == Run(r.ending, trace + r.trace, r.world)
      invariant current.None? ==> Journey(Beach, start, io.rng) == Run(ending, trace, State(p, io))
      decreases |io.lines|, if current.Some? then 1 else 0
    {
      ghost var visited := trace;
      ghost var before := State(p, io);
      var step := RunScene(current.value, p, io);
      JourneyStep(current.value, before, io.rng, Moved(step, State(p, io)));
      if step.Next? {
        AppendAssoc(visited, [current.value], Journey(step.scene, State(p, io), io.rng).trace);
      }
      trace := trace + [current.value];
      if step.Over? {
        ending := step.ending;
        current := None;
      } else {
        current := Some(step.scene);
      }
    }
    PlaythroughFacts(initial, io.rng);
  }

  /* --------------------------------------------------------- the session */

  /** What a session records: the ending of every playthrough, and the world
      left at the end. */
  datatype Record = Record(endings: seq<Ending>, world: World)

  /** The answers to "play again?". */
  const YesNo: seq<string> := ["Y", "N"]

  /** The session on the world `w`: a playthrough, then, unless the input ran
      out, "play again?", and another session exactly when the answer is Y. */
  function Sessions(w: World, rng: nat -> nat): Record
    decreases |w.lines|
  {
    if w.lines == [] then Record([], w)
    else
      var g := Playthrough(w, rng);
      if g.ending == OutOfInput then Record([OutOfInput], g.world)
      else
        match Choose(g.world.lines, YesNo)
        case None => Record([g.ending], g.world.(lines := []))
        case Some(c) =>
          var after := g.world.(lines := g.world.lines[c.used..]);
          if c.value == "Y" then
            var more := Sessions(after, rng);
            Record([g.ending] + more.endings, more.world)
          else Record([g.ending], after)
  }

  /** A session has a playthrough when there is input and at most one per
      input line, only its last playthrough may run out of input, and items
      and solved riddles carry over from one playthrough to the next. */
  lemma {:induction false} SessionsFacts(w: World, rng: nat -> nat)
    ensures var r := Sessions(w, rng);
      && |r.endings| <= |w.lines|
      && (w.lines != [] ==> r.endings != [])
      && (forall k :: 0 <= k < |r.endings| - 1 ==> r.endings[k] != OutOfInput)
      && w.inventory <= r.world.inventory && w.riddles <= r.world.riddles
    decreases |w.lines|
  {
    if w.lines != [] {
      var g := Playthrough(w, rng);
      PlaythroughFacts(w, rng);
      if g.ending != OutOfInput {
        var c := Choose(g.world.lines, YesNo);
        if c.Some? && c.value.value == "Y" {
          var after := g.world.(lines := g.world.lines[c.value.used..]);
          SessionsFacts(after, rng);
          var more := Sessions(after, rng);
          assert Sessions(w, rng).endings == [g.ending] + more.endings;
        }
      }
    }
  }

  /** The whole session: a playthrough, then "play again?" (Y or N). The
      player object is shared by every playthrough and never reset. */
  method Session(p: Player, io: Console) returns (endings: seq<Ending>)
    modifies p`inventory, p`health, p`riddlesSolved, io
    ensures Sessions(old(State(p, io)), io.rng) == Record(endings, State(p, io))
    ensures |endings| <= |old(io.lines)|
    ensures old(io.lines) != [] ==> endings != []
    ensures forall k :: 0 <= k < |endings| - 1 ==> endings[k] != OutOfInput
    ensures old(p.inventory) <= p.inventory
    ensures old(p.riddlesSolved) <= p.riddlesSolved
  {
    ghost var initial := State(p, io);
    endings := [];
    var again := true;
    while again && io.lines != []
      invariant again ==>
        var more := Sessions(State(p, io), io.rng);
        Sessions(old(State(p, io)), io.rng) == Record(endings + more.endings, more.world)
      invariant !again ==> Sessions(old(State(p, io)), io.rng) == Record(endings, State(p, io))
      decreases |io.lines|
    {
      ghost var before := endings;
      var ending, _ := Play(p, io);
      endings := endings + [ending];
      if ending == OutOfInput {
        again := false;
      } else {
        var answer := GetValidInput(io, YesNo);
        again := answer == Some("Y");
        if again {
          AppendAssoc(before, [ending], Sessions(State(p, io), io.rng).endings);
        }
      }
    }
    SessionsFacts(initial, io.rng);
  }
}
