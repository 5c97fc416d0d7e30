/**
 * `System.Random` as the programs use it: a stream of `NextDouble()` values,
 * each in [0, 1), consumed left to right. The seed (`new Random()` takes the clock)
 * is not modelled; the stream is a parameter.
 */
module Randomness {

  class Rng {
    /** The value the n-th call of `NextDouble` returns. */
    const stream: nat -> real
    /** How many values have been drawn so far. */
    var drawn: nat

    /** The `NextDouble` contract: every value lies in [0, 1). */
    ghost predicate Valid()
    {
      forall n: nat :: 0.0 <= stream(n) < 1.0
    }

    constructor (stream: nat -> real)
      ensures this.stream == stream && drawn == 0
    {
      this.stream := stream;
      drawn := 0;
    }

    method NextDouble() returns (u: real)
      requires Valid()
      modifies this
      ensures u == stream(old(drawn)) && drawn == old(drawn) + 1
      ensures 0.0 <= u < 1.0
    {
      u := stream(drawn);
      drawn := drawn + 1;
    }

    /** `n` calls of `NextDouble` in a row, as an argument list evaluated left to right makes them. */
    method NextDoubles(n: nat) returns (us: seq<real>)
      requires Valid()
      modifies this
      ensures |us| == n && drawn == old(drawn) + n
      ensures forall i :: 0 <= i < n ==> us[i] == stream(old(drawn) + i) && 0.0 <= us[i] < 1.0
    {
      us := [];
      while |us| < n
        invariant |us| <= n && drawn == old(drawn) + |us|
        invariant forall i :: 0 <= i < |us| ==> us[i] == stream(old(drawn) + i) && 0.0 <= us[i] < 1.0
      {
        var u := NextDouble();
        us := us + [u];
      }
    }
  }
}
