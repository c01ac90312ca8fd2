# Island adventure — a verified model of the game core

`Adventure_game.py` is a console text adventure. The player lands on a beach and
moves from scene to scene by typing menu letters. Some scenes roll dice or ask
riddles. The game ends with a win in the treasure room, a death or trap, or a
loss at the treasure chest. Each scene is a function that returns the next scene
function, or `None` once `game_over` has been announced. `main` runs the intro,
loops over scenes, and then offers to play again.

This project models that core in Dafny:

- `common.dfy`: `Option` and a slice lemma.
- `text.dfy`: `str.strip()`, `str.upper()` and `str.lower()`, and the two
  normalisations the game applies to what the player types:
  - `strip().upper()` for menu choices;
  - `strip().lower()` for riddle answers.
- `numbers.dfy`: `int(s)` and `str(n)`, and the round trip `int(str(n)) == n`.
- `io.dfy`: the console, as a class holding the input lines still unread and
  the stream of raw generator values. Also `random.random`, `random.randint`
  and `roll_dice`.
- `prompts.dfy`: the three ways the game reads input, each as a function over
  the input lines and a loop method proved equal to it:
  - `get_valid_input`, which re-asks until a menu letter is valid;
  - the cave entrance's number prompt, which re-asks until `int()` succeeds
    with a value in 1..10;
  - the riddle prompt with a fixed number of attempts.
- `player.dfy`: `Item` and the mutable `Player` (inventory, health, riddles
  solved), with `add_item` and `has_item`.
- `story.dfy`: the scene graph (which scene function may return which),
  the endings each scene may announce, and lemmas about routes through the
  game.
- `scenes.dfy`: the scenes that only ask menu questions and roll dice:
  - beach, jungle, mountain, cave entrance and deep cave;
  - valley, hidden path and treasure room.
- `puzzles.dfy`: the scenes with riddles and trials:
  - the cave slab and the temple door;
  - the three trials of the temple interior;
  - the guardian's three shuffled riddles, each right answer earning a
    numbered treasure key.
- `engine.dfy`: the main loop that runs scenes until one ends the game, and the
  play-again session.

Each scene is a method over the shared `Player` and `Console` objects. Its
postcondition gives the step it returns and the new state exactly:
- the input lines left and the generator values drawn;
- the player's inventory, health and riddles solved.

Each is a function of the old state, written once per scene as a turn function
over a `World` value (`DeepCaveTurn`, `GuardianTurn`, `JungleTurn`, ...).
`Engine.Turn` gathers them, one case per scene. For the temple interior the
step also depends on the player's health, since a fall from the bridge is fatal
only at low health. Every turn is proved to follow the scene graph and to read
at least one line per move. It is also proved to keep the player invariants:
- items and solved riddles are never lost;
- health stays at most 100;
- health drops to zero only in a lost game.

`Engine.Journey` repeats turns until one ends the game. `Engine.Playthrough`
adds the intro line, and `Engine.Sessions` adds the play-again question. The
methods `RunScene`, `Play` and `Session` are proved to do exactly what these
functions say. Lemmas about the functions carry the graph and player facts over
to whole playthroughs and sessions.

As written, the cave slab returns `treasure_room_scene` itself, so the treasure
room is entered with its default of zero keys. Solving the slab therefore leads
to the "no keys" choice at the chest, not to a win on arrival. The model keeps
this, as `TreasureRoom(0)`. Similarly, a player with no guardian keys gets the
copper key and enters the treasure room with one key.

## Model

| member | source | states |
|---|---|---|
| Text.Strip | Adventure_game.py:46 | `str.strip()`; `StripIsSlice` and `StripIdempotent` state what it returns |
| Text.TrimLeftSuffix | Adventure_game.py:46 | what the left half of `strip()` removes is exactly the leading whitespace, and the rest is a suffix of the input that starts with a non-space |
| Text.TrimRightPrefix | Adventure_game.py:46 | what the right half of `strip()` removes is exactly the trailing whitespace, and the rest is a prefix that ends with a non-space |
| Text.StripIsSlice | Adventure_game.py:46 | `strip()` returns a slice of its input with only whitespace outside it and no whitespace at either end |
| Text.StripIdempotent | Adventure_game.py:46 | stripping twice is stripping once |
| Text.Upper | Adventure_game.py:46 | `upper()` keeps the length, leaves no ASCII lower-case letter, and keeps every character up to case |
| Text.Lower | Adventure_game.py:500 | `lower()` keeps the length, leaves no ASCII upper-case letter, and keeps every character up to case |
| Text.UpperIdempotent | Adventure_game.py:46 | upper-casing twice is upper-casing once |
| Text.LowerIdempotent | Adventure_game.py:500 | lower-casing twice is lower-casing once |
| Text.MenuKeyIdempotent | Adventure_game.py:46 | normalising a menu choice twice gives the same key as once |
| Text.AnswerKeyIdempotent | Adventure_game.py:500 | normalising a riddle answer twice gives the same key as once |
| Numbers.ShowNat | Adventure_game.py:732 | `str(n)` of a natural number is a non-empty string of digits with no leading zero |
| Numbers.ShowNatValue | Adventure_game.py:732 | the digits `str(n)` writes have the value `n` |
| Numbers.Show | Adventure_game.py:732 | `str(n)` is never empty; `ParseShow` states that `int()` reads `n` back |
| Numbers.ParseInt | Adventure_game.py:354 | `int()` on a line; `ParseShow` and `ParseIgnoresSpaces` state what it reads |
| Numbers.ParseShow | Adventure_game.py:354 | `int(str(n)) == n` for every integer `n` (CPython 3.11 and later refuse conversions of more than 4300 digits; the game only reads numbers typed at the cave entrance) |
| Numbers.ParseIgnoresSpaces | Adventure_game.py:354 | `int()` reads the same number whether or not the line was stripped first |
| Io.Console.ReadLine | Adventure_game.py:46 | `input()` returns the first unread line and consumes it, or reports end of input and changes nothing |
| Io.Console.Draw | Adventure_game.py:284 | one generator call returns the next raw value and advances the stream by one |
| Io.Random | Adventure_game.py:284 | `random.random()` lies in [0, 1) |
| Io.RandInt | Adventure_game.py:359 | `random.randint(lo, hi)` lies in [lo, hi] |
| Io.RandIntOnto | Adventure_game.py:359 | every value in [lo, hi] is produced by some draw |
| Io.RollDice | Adventure_game.py:166-168 | `roll_dice(sides)` lies in 1..sides |
| Prompts.Choose | Adventure_game.py:33-52 | what `get_valid_input` returns for the input lines; `FirstKeyMeaning` states that it is the first valid line |
| Prompts.FirstKey | Adventure_game.py:42-52 | a pick is one of the options and took between one line and all of them |
| Prompts.FirstKeyMeaning | Adventure_game.py:42-52 | the chosen line is the first one whose normalised form is a valid option, and every line before it was invalid; with no valid line, no line was valid |
| Prompts.ReadChoice | Adventure_game.py:42-52 | the re-prompt loop returns exactly `FirstKey` of the input and consumes the lines up to and including the valid one, or all of them |
| Prompts.GetValidInput | Adventure_game.py:33-60 | `get_valid_input` returns the first valid `strip().upper()` choice and consumes exactly the lines read to find it |
| Prompts.FirstParsed | Adventure_game.py:351-375 | a value read took between one line and all of them |
| Prompts.FirstParsedMeaning | Adventure_game.py:351-375 | the value read comes from the first line the parser accepts, and every earlier line was rejected; with nothing read, every line was rejected |
| Prompts.PickNumberInRange | Adventure_game.py:351-375 | the cave entrance's number is what `int()` reads from that line and lies in 1..10; every earlier line was rejected |
| Prompts.ReadParsed | Adventure_game.py:351-375 | the number prompt loop returns exactly `FirstParsed` of the input and consumes the lines read |
| Prompts.Attempts | Adventure_game.py:432-456 | a solved riddle took 1..budget lines; an exhausted one took exactly budget lines; an unanswered one had fewer than budget lines left |
| Prompts.AttemptsMeaning | Adventure_game.py:432-456 | solved means that attempt was accepted and every earlier one rejected; exhausted means all budget attempts were rejected; unanswered means every remaining line was rejected |
| Prompts.AttemptsFirstRight | Adventure_game.py:497-504 | an accepted first answer solves the riddle at the first attempt, whatever the budget |
| Prompts.Ask | Adventure_game.py:497-513 | the count-down attempt loop returns exactly `Attempts` of the input and consumes the lines it read |
| Players.Holds | Adventure_game.py:205-206 | `has_item` holds iff some carried item has that name |
| Players.HoldsAppend | Adventure_game.py:200-206 | after appending an item, a name is held iff it was held before or is the new item's name |
| Players.Player.HasItem | Adventure_game.py:205-206 | `has_item`; `Holds` and `AddItem` state when a name is held |
| Players.Player.constructor | Adventure_game.py:195-198 | a new player has an empty inventory, health 100 and no riddles solved |
| Players.Player.AddItem | Adventure_game.py:200-203 | `add_item` appends the item; the player then holds its name and still holds every name held before |
| Story.Edge | Adventure_game.py:236-826 | which scene function may return which; `NoDeadEnds`, `TempleDoorFirst` and `WinningRoutes` state its shape |
| Story.Final | Adventure_game.py:225-826 | which endings each scene may announce; `WinningRoutes` states where a game can be won |
| Story.TempleDoorFirst | Adventure_game.py:504 | on any route, the temple interior and the guardian come after the temple door |
| Story.WinningRoutes | Adventure_game.py:777-826 | a won game ends in the treasure room, entered from the cave slab or from the guardian after the temple door |
| Story.PathCons | Adventure_game.py:840-843 | a scene followed by a path that starts with a scene it may return is again a path |
| Story.NoDeadEnds | Adventure_game.py:236-826 | every scene but the treasure room returns some next scene, and the treasure room returns none |
| Scenes.BeachScene | Adventure_game.py:236-264 | A goes to the jungle, B to the cave entrance, C to the mountain; end of input ends the game |
| Scenes.JungleScene | Adventure_game.py:267-296 | A finds the hidden path when `random()` < 0.5 and is lost otherwise; B goes to the cave entrance |
| Scenes.MountainScene | Adventure_game.py:298-328 | A goes to the temple; B is lost when `random()` < 0.3 and reaches the valley otherwise |
| Scenes.CaveEntranceScene | Adventure_game.py:330-378 | A reads a number in 1..10 and enters the deep cave iff it equals `randint(1, 10)`, else the valley; B goes to the valley |
| Scenes.DeepCaveTurn | Adventure_game.py:380-420 | the deep cave's turn follows the scene graph, reads a line per move and keeps the player invariants |
| Scenes.DeepCaveScene | Adventure_game.py:380-420 | does exactly `DeepCaveTurn`: A is lost; B adds the ancient key and then goes to the cave slab (A) or the temple (B) |
| Scenes.ValleyScene | Adventure_game.py:459-485 | A goes to the temple, B to the mountain |
| Scenes.HiddenPathScene | Adventure_game.py:754-775 | A goes to the valley, B to the temple |
| Scenes.TreasureRoomScene | Adventure_game.py:777-826 | 1, 2 or 3 keys win without reading input; otherwise forcing the chest (A) loses and searching (B) wins |
| Puzzles.TreasureKey | Adventure_game.py:732 | the item `宝藏钥匙{n}`; `TreasureKeyNamesDistinct` states that different numbers give different keys |
| Puzzles.KeyItemsNext | Adventure_game.py:730-732 | handing out one more key appends the next numbered key to the keys already given |
| Puzzles.TreasureKeyNamesDistinct | Adventure_game.py:732 | keys with different numbers have different names |
| Puzzles.CavePuzzleTurn | Adventure_game.py:422-456 | the cave slab's turn, for any number of tries, follows the scene graph, reads a line per move and keeps the player invariants |
| Puzzles.CavePuzzleScene | Adventure_game.py:422-456 | does exactly `CavePuzzleTurn` with 3 tries: within 3 attempts a stripped slab order from the list solves it: one more riddle, the element key, and the treasure room with 0 keys; 3 wrong orders lead to the mountain with the player unchanged |
| Puzzles.SlabFirstTry | Adventure_game.py:435-444 | typing the first accepted order solves the slab at the first attempt |
| Puzzles.TempleScene | Adventure_game.py:487-516 | within 3 attempts, `map` or `地图` (stripped, lower-cased) opens the temple interior; 3 wrong answers lose the game |
| Puzzles.DoorIgnoresCase | Adventure_game.py:500-504 | the door accepts ` MAP ` because of `strip().lower()` |
| Puzzles.WisdomTrial | Adventure_game.py:541-593 | its outcome is `WisdomOutcome` of the input; a scroll, then one answer; a right answer to that scroll's riddle passes and solves one more riddle, a wrong one does not pass |
| Puzzles.CourageTrial | Adventure_game.py:595-643 | its outcome is `CourageOutcome` of the input, draw and health; crossing passes on a d20 roll above 12, otherwise costs 15 health and is fatal at 0 or below; the other two ways pass |
| Puzzles.ChoiceTrial | Adventure_game.py:645-671 | its outcome is `ChoiceOutcome` of the input; the book (B) adds the wisdom book, nothing (C) adds the crystal and restores health to 100, both pass; greed (A, D) does not pass |
| Puzzles.EnterHall | Adventure_game.py:541-671 | the outcome is `HallOutcome` of the corridor, the input, the draw and the health; riddles solved grow by `HallRiddles` (one for a right answer to the scroll), health becomes `HallHealth` (15 less after a fall from the bridge, 100 after taking nothing at the altar), and the inventory gains `HallItems` (the book for B, the crystal for C at the altar); the input left is `HallRest` and the draws grow by `HallDraws` (one d20 roll when crossing the bridge); only the wisdom hall solves riddles, only the courage hall hurts, only the choice hall adds items; a trial not passed leaves the player as they were |
| Puzzles.HallNotPassed | Adventure_game.py:541-671 | a trial is not passed exactly on a wrong answer to the chosen scroll or on greed (A or D at the altar) |
| Puzzles.HallFatal | Adventure_game.py:607-628 | a trial is fatal exactly when the bridge is crossed, the d20 shows at most 12 and at most 15 health is left |
| Puzzles.HallRest | Adventure_game.py:541-671 | a corridor's trial leaves no more input than it was given |
| Puzzles.TempleInteriorTurn | Adventure_game.py:519-683 | the temple interior's turn follows the scene graph, reads a line per move and keeps the player invariants |
| Puzzles.TempleInteriorScene | Adventure_game.py:519-683 | after the corridor is chosen, the scene is the guardian exactly when the trial passed, the hall again exactly when it did not, a loss exactly when it was fatal, and out of input exactly when input ended; the player's riddles, health and inventory are those `HallRiddles`, `HallHealth` and `HallItems` give for that corridor and the rest of the input, the input left is `HallRest` and the draws grow by `HallDraws`; with no corridor chosen the input is used up and nothing else changes; a fatal trial leaves health at 0 or below, and a trial not passed leaves the player unchanged |
| Puzzles.SwapPermutes | Adventure_game.py:715 | a swap only reorders |
| Puzzles.ShuffleFromPermutes | Adventure_game.py:715 | the Fisher-Yates passes keep the length and the multiset of elements |
| Puzzles.Shuffled | Adventure_game.py:715 | `random.shuffle` as a function of the draws; `ShuffledPermutes` states that it only reorders |
| Puzzles.ShuffledPermutes | Adventure_game.py:715 | `random.shuffle` only reorders, whatever the draws |
| Puzzles.Shuffle | Adventure_game.py:715 | the in-place shuffle leaves the array equal to `Shuffled` of its old contents and makes one draw per position but the first |
| Puzzles.Asked | Adventure_game.py:711-739 | after the first `i` riddles the quiz has read no more lines than there are and won at most `i` keys; a quiz cut short by the end of input has read all of it |
| Puzzles.AskedNext | Adventure_game.py:724-739 | posing the next riddle while input lasts wins a key exactly on a right answer and moves past the lines read; input running out ends the quiz with the keys so far |
| Puzzles.AskedStays | Adventure_game.py:717-719 | once the quiz has stopped, later riddles change nothing |
| Puzzles.QuizEnded | Adventure_game.py:717-739 | when every riddle was posed or the quiz stopped, its outcome is the tally so far |
| Puzzles.AskedCounts | Adventure_game.py:728-731 | a riddle adds one to `keys_obtained` exactly when it is answered right, and nothing otherwise |
| Puzzles.AskedWins | Adventure_game.py:711-740 | `keys_obtained` is the number of riddles answered right |
| Puzzles.QuizAllKeys | Adventure_game.py:711-740 | the quiz wins one key per riddle exactly when every riddle is answered right |
| Puzzles.QuizNoKey | Adventure_game.py:742-751 | the quiz wins no key, the copper-key branch, exactly when no riddle is answered right |
| Puzzles.RightAnswersSolve | Adventure_game.py:725-733 | input whose first `i` lines are right answers (after normalisation) answers the first `i` riddles right at the first try, one line each |
| Puzzles.AskedRightNext | Adventure_game.py:724-733 | after `i` riddles each answered right at the first try, a right answer on the next line solves riddle `i` too |
| Puzzles.FirstAnswersSolveAll | Adventure_game.py:725-733 | typing each riddle's first listed answer answers every riddle right at the first try |
| Puzzles.ShuffledGuardian | Adventure_game.py:696-715 | shuffling the guardian's riddles gives three riddles, each one of the guardian's own |
| Puzzles.GuardianFirstAnswers | Adventure_game.py:696-726 | each guardian riddle accepts its own first answer after `strip().lower()` |
| Puzzles.GuardianAllRight | Adventure_game.py:685-751 | however the riddles are shuffled, typing each one's first answer earns all three keys with three lines, and three keys open the treasure room |
| Puzzles.PoseOne | Adventure_game.py:724-739 | one riddle, two attempts: the tally moves on as `Asked` says, and the input left matches; a right answer solves one more riddle and adds the next numbered key |
| Puzzles.PoseRiddles | Adventure_game.py:717-739 | the question loop's keys, riddles solved, inventory and remaining input are exactly those of `Quiz` on the input, and it stops early only when the input ends |
| Puzzles.GuardianTurn | Adventure_game.py:685-751 | the guardian's turn follows the scene graph, reads a line per move and keeps the player invariants |
| Puzzles.GuardianScene | Adventure_game.py:685-751 | does exactly `GuardianTurn`: shuffles, asks every riddle, and enters the treasure room with the number of right answers (at most 3), or with 1 and the copper key when there were none |
| Engine.MenuTurn | Adventure_game.py:236-264 | a scene that only asks a menu question leaves the player and the draws alone; it either reads the choice and takes the step it picks, or runs out of input |
| Engine.JungleTurn | Adventure_game.py:267-296 | the jungle's turn follows the scene graph, reads a line per move and keeps the player invariants |
| Engine.MountainTurn | Adventure_game.py:298-328 | the mountain's turn follows the scene graph, reads a line per move and keeps the player invariants |
| Engine.CaveEntranceTurn | Adventure_game.py:330-378 | the cave entrance's turn follows the scene graph, reads a line per move and keeps the player invariants |
| Engine.TempleTurn | Adventure_game.py:487-516 | the temple door's turn, for any number of tries, follows the scene graph, reads a line per move and keeps the player invariants |
| Engine.Turn | Adventure_game.py:840-843 | whatever the scene, its turn follows the scene graph, reads a line per move, ends the game only as that scene may, uses up the input when it runs out, and keeps the player invariants |
| Engine.RunPassage | Adventure_game.py:840-843 | a scene that does not touch the player does to the console exactly what `Turn` says for it |
| Engine.RunTempleInterior | Adventure_game.py:840-843 | running the temple interior does to the player and the console exactly what `Turn` says |
| Engine.RunGuardian | Adventure_game.py:840-843 | running the guardian's riddles does to the player and the console exactly what `Turn` says |
| Engine.RunQuest | Adventure_game.py:840-843 | a scene that changes the player does to the player and the console exactly what `Turn` says for it |
| Engine.RunScene | Adventure_game.py:840-843 | one turn of the main loop does exactly `Turn` of the scene on the old state; so it follows the scene graph and keeps the player invariants |
| Engine.Journey | Adventure_game.py:840-843 | the main loop from a scene on never adds input |
| Engine.JourneyFacts | Adventure_game.py:840-843 | every journey is a path of the scene graph from its first scene, with at most one scene more than input lines, ended as its last scene may end the game, with the input used up when it ran out; items and solved riddles are kept and health reaches zero only in a lost game |
| Engine.Playthrough | Adventure_game.py:828-843 | one playthrough reads the intro line and so leaves strictly less input when there was any |
| Engine.PlaythroughFacts | Adventure_game.py:828-843 | a playthrough is a route from the beach, at most one scene per input line, ended as its last scene may end the game; with no input there are no scenes and the game runs out of input; items and solved riddles are kept and health reaches zero only in a lost game |
| Engine.Play | Adventure_game.py:828-844 | the ending, the scenes visited and the state left are exactly `Playthrough` of the old state; so, after the intro line, the scenes form a route from the beach, the last one may end the game as it ended, and there is at most one scene per input line |
| Engine.SessionsFacts | Adventure_game.py:828-850 | a session has a playthrough when there is input and at most one per input line; only the last can run out of input; items and solved riddles carry over |
| Engine.Session | Adventure_game.py:828-850 | the endings and the state left are exactly `Sessions` of the old state, in which another playthrough follows exactly when the play-again answer is Y; so at least one playthrough when there is input, at most one per input line, only the last can run out of input, and items and solved riddles carry over |

## Left out

- Presentation is not modelled: `print_slow` and its delays, colours, ASCII art,
  `clear_screen`, `show_status`, and the messages of `game_over`.
- End of input is modelled as the `OutOfInput` ending. In the program, end of
  input behaves differently:
  - `input()` raises `EOFError`;
  - `get_valid_input` keeps reporting the error and re-asks forever;
  - the number prompt and the temple door do the same through their blanket
    `except Exception`;
  - other scenes end in `main`'s handler.
- `KeyboardInterrupt` and the handlers that print and exit are not modelled.
- Engine.Session: a restart is modelled as a loop, while `main` calls itself
  recursively. Like the program, it does not reset the global player. After a
  "Y" with no input left, the model ends the session without another
  playthrough. The program would start `intro()`, reach end of input there and
  end in `main`'s handler.
- Text.Upper and Text.Lower: only ASCII letters change case. Python also maps
  other Unicode letters, which no accepted answer or menu letter contains.
- Numbers.ParseInt: accepts ASCII digits only. Python's `int()` also accepts
  other Unicode decimal digits.
- Io.Random and Io.RandInt: the Mersenne Twister is not modelled. A raw draw is
  a natural number.
  - Io.Random reduces it modulo 2^53 and divides by 2^53. CPython's `random()`
    joins two 32-bit outputs `a` and `b` into `((a >> 5) * 2^26 + (b >> 6)) / 2^53`.
  - Io.RandInt reduces it modulo the size of the range. CPython's `randint`
    draws through `_randbelow`, which rejects out-of-range values and draws
    again. Io.RandInt still covers exactly [lo, hi].
- The guardian's `attempts_remain` flag is never cleared, so its `break` is
  dead code. The model's question loop has a flag of its own, which it clears
  only when the input ends.
- `Item.value` is kept but never read by the game.
- The old man in the valley "gives" a magic staff only in the narration. The
  program never adds it to the inventory, and the model does not either.
- `main_menu.py` and `hands_recognize.py` (menu and camera front end) are not
  part of this model.
