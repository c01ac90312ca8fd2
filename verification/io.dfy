/**
 * The game's two sources of nondeterminism, made explicit: the lines the
 * player types (`input()`) and the values of the random generator
 * (`random.random`, `random.randint`, `random.shuffle`).
 */
module Io {
  import opened Common

  /** The console: the input lines still to be read and the stream of raw
      generator values, of which the first `drawn` have been used. */
  class Console {
    var lines: seq<string>
    const rng: nat -> nat
    var drawn: nat

    constructor (input: seq<string>, rng: nat -> nat)
      ensures lines == input && this.rng == rng && drawn == 0
    {
      lines := input;
      this.rng := rng;
      drawn := 0;
    }

    /** `input()`: the next line, or `None` at end of input. */
    method ReadLine() returns (line: Option<string>)
      modifies this`lines
      ensures old(lines) == [] ==> line == None && lines == []
      ensures old(lines) != [] ==> line == Some(old(lines)[0]) && lines == old(lines)[1..]
    {
      if lines == [] {
        line := None;
      } else {
        line := Some(lines[0]);
        lines := lines[1..];
      }
    }

    /** One call to the generator: the next raw value. */
    method Draw() returns (d: nat)
      modifies this`drawn
      ensures d == rng(old(drawn)) && drawn == old(drawn) + 1
    {
      d := rng(drawn);
      drawn := drawn + 1;
    }
  }

  /** `random.random()` produces a multiple of 2^-53 in [0, 1). */
  const Resolution: nat := 0x20_0000_0000_0000

  /** `random.random()` for the raw value `d`. */
  function Random(d: nat): (u: real)
    ensures 0.0 <= u < 1.0
  {
    (d % Resolution) as real / Resolution as real
  }

  /** `random.randint(lo, hi)` for the raw value `d`. */
  function RandInt(lo: int, hi: int, d: nat): (r: int)
    requires lo <= hi
    ensures lo <= r <= hi
  {
    lo + d % (hi - lo + 1)
  }

  /** Every value of the range is drawn by some raw value, so the range of
      `randint` is exactly [lo, hi]. */
  lemma RandIntOnto(lo: int, hi: int, v: int)
    requires lo <= v <= hi
    ensures RandInt(lo, hi, v - lo) == v
  {
  }

  /** `roll_dice(sides)`: a throw of a die with `sides` faces. */
  function RollDice(sides: int, d: nat): (r: int)
    requires sides >= 1
    ensures 1 <= r <= sides
  {
    RandInt(1, sides, d)
  }
}
