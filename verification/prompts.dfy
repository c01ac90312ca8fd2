/**
 * How the game reads the player: menu choices that are re-asked until valid
 * (`get_valid_input`), a number re-asked until it is in range, and riddle
 * answers with a bounded number of attempts.
 */
module Prompts {
  import opened Common
  import opened Text
  import opened Numbers
  import opened Io

  /** A value read from the input and the number of lines it took. */
  datatype Pick<T> = Pick(value: T, used: nat)

  function Later<T>(r: Option<Pick<T>>): Option<Pick<T>> {
    match r
    case None => None
    case Some(p) => Some(Pick(p.value, p.used + 1))
  }

  /** What `get_valid_input(prompt, options)` returns for the input `lines`:
      the first line whose `strip().upper()` is one of `options`, together
      with the number of lines read up to it; `None` if no line is valid. */
  function Choose(lines: seq<string>, options: seq<string>): Option<Pick<string>> {
    FirstKey(lines, options, MenuKey)
  }

  /** The first line whose normalised form `key(line)` is in `options`, and
      the number of lines up to and including it. */
  function FirstKey(lines: seq<string>, options: seq<string>, key: string -> string): (r: Option<Pick<string>>)
    ensures r.Some? ==> 1 <= r.value.used <= |lines| && r.value.value in options
  {
    if lines == [] then None
    else if key(lines[0]) in options then Some(Pick(key(lines[0]), 1))
    else Later(FirstKey(lines[1..], options, key))
  }

  /** The line `FirstKey` picks is the first valid one: it is valid, every
      line before it is not, and with no pick no line is valid. */
  lemma {:induction false} FirstKeyMeaning(lines: seq<string>, options: seq<string>, key: string -> string)
    ensures var r := FirstKey(lines, options, key);
      && (r.Some? ==>
            && r.value.value == key(lines[r.value.used - 1])
            && forall k :: 0 <= k < r.value.used - 1 ==> key(lines[k]) !in options)
      && (r.None? ==> forall k :: 0 <= k < |lines| ==> key(lines[k]) !in options)
    decreases |lines|
  {
    if lines != [] && key(lines[0]) !in options {
      FirstKeyMeaning(lines[1..], options, key);
      assert forall k :: 1 <= k < |lines| ==> lines[k] == lines[1..][k - 1];
    }
  }

  /** An invalid line moves from the input still to be read to the lines
      already skipped. */
  lemma FirstKeyStep(lines: seq<string>, options: seq<string>, key: string -> string, n: nat)
    requires lines != [] && key(lines[0]) !in options
    ensures Delay(FirstKey(lines, options, key), n) == Delay(FirstKey(lines[1..], options, key), n + 1)
  {
    assert FirstKey(lines, options, key) == Later(FirstKey(lines[1..], options, key));
    DelayLater(FirstKey(lines[1..], options, key), n);
  }

  /** `get_valid_input`: reads lines until one is a valid option; an invalid
      line is only reported and changes nothing. */
  method GetValidInput(io: Console, options: seq<string>) returns (choice: Option<string>)
    modifies io`lines
    ensures match Choose(old(io.lines), options)
      case None => choice == None && io.lines == []
      case Some(p) => choice == Some(p.value) && io.lines == old(io.lines)[p.used..]
  {
    choice := ReadChoice(io, options, MenuKey);
  }

  /** The re-prompt loop of `get_valid_input`, for a given normalisation. */
  method ReadChoice(io: Console, options: seq<string>, key: string -> string) returns (choice: Option<string>)
    modifies io`lines
    ensures match FirstKey(old(io.lines), options, key)
      case None => choice == None && io.lines == []
      case Some(p) => choice == Some(p.value) && io.lines == old(io.lines)[p.used..]
  {
    var skipped := 0;
    while true
      invariant skipped <= |old(io.lines)| && io.lines == old(io.lines)[skipped..]
      invariant FirstKey(old(io.lines), options, key) == Delay(FirstKey(io.lines, options, key), skipped)
      decreases |io.lines|
    {
      ghost var before := io.lines;
      var line := io.ReadLine();
      if line.None? {
        return None;
      }
      DropDrop(old(io.lines), skipped, 1);
      var k := key(line.value);
      if k in options {
        return Some(k);
      }
      FirstKeyStep(before, options, key, skipped);
      skipped := skipped + 1;
    }
  }

  function Delay<T>(r: Option<Pick<T>>, n: nat): Option<Pick<T>> {
    match r
    case None => None
    case Some(p) => Some(Pick(p.value, p.used + n))
  }

  lemma DelayLater<T>(r: Option<Pick<T>>, n: nat)
    ensures Delay(Later(r), n) == Delay(r, n + 1)
  {
  }

  /** Whether a line is a number the cave entrance accepts: `int(line.strip())`
      succeeds and lies in 1..10. */
  function InRange(line: string): Option<int> {
    match ParseInt(Strip(line))
    case Some(n) => if 1 <= n <= 10 then Some(n) else None
    case None => None
  }

  /** The first line that `parse` accepts, what it reads there, and how many
      lines it took. */
  function FirstParsed<T>(lines: seq<string>, parse: string -> Option<T>): (r: Option<Pick<T>>)
    ensures r.Some? ==> 1 <= r.value.used <= |lines|
  {
    if lines == [] then None
    else match parse(lines[0])
      case Some(n) => Some(Pick(n, 1))
      case None => Later(FirstParsed(lines[1..], parse))
  }

  /** The value `FirstParsed` reads comes from the first line `parse`
      accepts; every earlier line, or every line when nothing is read, was
      rejected. */
  lemma {:induction false} FirstParsedMeaning<T>(lines: seq<string>, parse: string -> Option<T>)
    ensures var r := FirstParsed(lines, parse);
      && (r.Some? ==>
            && parse(lines[r.value.used - 1]) == Some(r.value.value)
            && forall k :: 0 <= k < r.value.used - 1 ==> parse(lines[k]).None?)
      && (r.None? ==> forall k :: 0 <= k < |lines| ==> parse(lines[k]).None?)
    decreases |lines|
  {
    if lines != [] && parse(lines[0]).None? {
      FirstParsedMeaning(lines[1..], parse);
      assert forall k :: 1 <= k < |lines| ==> lines[k] == lines[1..][k - 1];
    }
  }

  /** A rejected line moves from the input still to be read to the lines
      already skipped. */
  lemma FirstParsedStep<T>(lines: seq<string>, parse: string -> Option<T>, n: nat)
    requires lines != [] && parse(lines[0]).None?
    ensures Delay(FirstParsed(lines, parse), n) == Delay(FirstParsed(lines[1..], parse), n + 1)
  {
    assert FirstParsed(lines, parse) == Later(FirstParsed(lines[1..], parse));
    DelayLater(FirstParsed(lines[1..], parse), n);
  }

  /** The number the cave entrance ends up reading from `lines`. */
  function PickNumber(lines: seq<string>): Option<Pick<int>> {
    FirstParsed(lines, InRange)
  }

  /** Every number the cave entrance reads is one `int()` accepts, from 1 to
      10; every line before it was rejected and re-asked. */
  lemma PickNumberInRange(lines: seq<string>)
    ensures match PickNumber(lines)
      case Some(p) =>
        && 1 <= p.value <= 10 && 1 <= p.used <= |lines|
        && ParseInt(lines[p.used - 1]) == Some(p.value)
        && forall k :: 0 <= k < p.used - 1 ==> InRange(lines[k]).None?
      case None => forall k :: 0 <= k < |lines| ==> InRange(lines[k]).None?
  {
    var r := PickNumber(lines);
    FirstParsedMeaning(lines, InRange);
    if r.Some? {
      var line := lines[r.value.used - 1];
      ParseIgnoresSpaces(line);
      assert InRange(line) == Some(r.value.value);
    }
  }

  /** The re-prompt loop of the cave entrance: read until `parse` accepts. */
  method ReadParsed<T>(io: Console, parse: string -> Option<T>) returns (value: Option<T>)
    modifies io`lines
    ensures match FirstParsed(old(io.lines), parse)
      case None => value == None && io.lines == []
      case Some(p) => value == Some(p.value) && io.lines == old(io.lines)[p.used..]
  {
    var skipped := 0;
    while true
      invariant skipped <= |old(io.lines)| && io.lines == old(io.lines)[skipped..]
      invariant FirstParsed(old(io.lines), parse) == Delay(FirstParsed(io.lines, parse), skipped)
      decreases |io.lines|
    {
      ghost var before := io.lines;
      var line := io.ReadLine();
      if line.None? {
        return None;
      }
      DropDrop(old(io.lines), skipped, 1);
      var v := parse(line.value);
      if v.Some? {
        return v;
      }
      FirstParsedStep(before, parse, skipped);
      skipped := skipped + 1;
    }
  }

  /** How a riddle with a bounded number of attempts ends. */
  datatype Answer =
    | Solved(used: nat)     // the `used`-th answer was accepted
    | Exhausted(used: nat)  // every allowed attempt was wrong
    | NoAnswer              // the input ended before either

  function Shift(a: Answer, n: nat): Answer {
    match a
    case Solved(u) => Solved(u + n)
    case Exhausted(u) => Exhausted(u + n)
    case NoAnswer => NoAnswer
  }

  /** The outcome of asking a riddle at most `budget` times, reading one
      line per attempt. */
  function Attempts(lines: seq<string>, accepted: seq<string>, key: string -> string, budget: nat): (a: Answer)
    ensures a.Solved? ==> 1 <= a.used <= budget && a.used <= |lines|
    ensures a.Exhausted? ==> a.used == budget <= |lines|
    ensures a.NoAnswer? ==> |lines| < budget
    decreases budget
  {
    if budget == 0 then Exhausted(0)
    else if lines == [] then NoAnswer
    else if key(lines[0]) in accepted then Solved(1)
    else Shift(Attempts(lines[1..], accepted, key, budget - 1), 1)
  }

  /** The first normalised answer in `accepted` solves the riddle; `budget`
      wrong answers exhaust it; input that ends first leaves it unanswered. */
  lemma {:induction false} AttemptsMeaning(lines: seq<string>, accepted: seq<string>, key: string -> string, budget: nat)
    ensures var a := Attempts(lines, accepted, key, budget);
      && (a.Solved? ==>
            && key(lines[a.used - 1]) in accepted
            && forall k :: 0 <= k < a.used - 1 ==> key(lines[k]) !in accepted)
      && (a.Exhausted? ==> forall k :: 0 <= k < budget ==> key(lines[k]) !in accepted)
      && (a.NoAnswer? ==> forall k :: 0 <= k < |lines| ==> key(lines[k]) !in accepted)
    decreases budget
  {
    if budget > 0 && lines != [] && key(lines[0]) !in accepted {
      AttemptsMeaning(lines[1..], accepted, key, budget - 1);
      assert forall k :: 1 <= k < |lines| ==> lines[k] == lines[1..][k - 1];
    }
  }

  /** An accepted first line solves the riddle on the first attempt. */
  lemma AttemptsFirstRight(lines: seq<string>, accepted: seq<string>, key: string -> string, budget: nat)
    requires budget > 0 && lines != [] && key(lines[0]) in accepted
    ensures Attempts(lines, accepted, key, budget) == Solved(1)
  {
  }

  /** Lines an answer consumes from input of length `n`. */
  function Consumed(a: Answer, n: nat): nat {
    match a
    case Solved(u) => u
    case Exhausted(u) => u
    case NoAnswer => n
  }

  /** A rejected answer moves one line from the input still to be read to
      the lines already used. */
  lemma AttemptsStep(lines: seq<string>, accepted: seq<string>, key: string -> string, budget: nat, n: nat)
    requires budget > 0 && lines != [] && key(lines[0]) !in accepted
    ensures Shift(Attempts(lines, accepted, key, budget), n)
         == Shift(Attempts(lines[1..], accepted, key, budget - 1), n + 1)
  {
    var a := Attempts(lines[1..], accepted, key, budget - 1);
    assert Attempts(lines, accepted, key, budget) == Shift(a, 1);
    ShiftShift(a, 1, n);
  }

  lemma ShiftShift(a: Answer, m: nat, n: nat)
    ensures Shift(Shift(a, m), n) == Shift(a, m + n)
  {
  }

  /** The riddle protocol: ask up to `budget` times, counting the attempts
      down, and stop at the first accepted answer. */
  method Ask(io: Console, accepted: seq<string>, key: string -> string, budget: nat) returns (a: Answer)
    modifies io`lines
    ensures a == Attempts(old(io.lines), accepted, key, budget)
    ensures Consumed(a, |old(io.lines)|) <= |old(io.lines)|
    ensures io.lines == old(io.lines)[Consumed(a, |old(io.lines)|)..]
  {
    var attempts := budget;
    ghost var tried: nat := 0;
    while attempts > 0
      invariant 0 <= attempts <= budget && tried + attempts == budget
      invariant tried <= |old(io.lines)| && io.lines == old(io.lines)[tried..]
      invariant Attempts(old(io.lines), accepted, key, budget)
        == Shift(Attempts(io.lines, accepted, key, attempts), tried)
    {
      ghost var before := io.lines;
      var line := io.ReadLine();
      if line.None? {
        assert Attempts(before, accepted, key, attempts) == NoAnswer;
        return NoAnswer;
      }
      if key(line.value) in accepted {
        AttemptsFirstRight(before, accepted, key, attempts);
        return Solved(budget - attempts + 1);
      }
      AttemptsStep(before, accepted, key, attempts, tried);
      DropDrop(old(io.lines), tried, 1);
      attempts := attempts - 1;
      tried := tried + 1;
    }
    assert Attempts(io.lines, accepted, key, 0) == Exhausted(0);
    a := Exhausted(budget);
  }
}
