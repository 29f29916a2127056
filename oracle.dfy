/** The program's `System.Random`, replaced by an injected, seedable source:
    a tape of raw draws that `Next` consumes one at a time. Any sequence of
    answers the real generator could give is some tape. */
module Oracle {

  /** The value `Next(lo, hi)` answers for the raw draws `tape`. */
  function Draw(tape: seq<nat>, lo: int, hi: int): (r: int)
    requires lo < hi
    ensures lo <= r < hi
  {
    if tape == [] then lo else lo + tape[0] % (hi - lo)
  }

  /** The tape left after one draw. */
  function Rest(tape: seq<nat>): seq<nat> {
    if tape == [] then [] else tape[1..]
  }

  class Random {
    var tape: seq<nat>

    constructor (seed: seq<nat>)
      ensures tape == seed
    {
      tape := seed;
    }

    /** `Next(lo, hi)`: a value in [lo, hi). */
    method Next(lo: int, hi: int) returns (r: int)
      requires lo < hi
      modifies this
      ensures lo <= r < hi
      ensures r == Draw(old(tape), lo, hi) && tape == Rest(old(tape))
    {
      r := Draw(tape, lo, hi);
      tape := Rest(tape);
    }
  }
}
