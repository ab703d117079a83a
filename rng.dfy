/** `Math.random()` as an injectable source: a fixed stream of draws and the
    index of the next one. Each call returns the next draw and advances. */
module Rng {

  /** The contract of `Math.random()`: every draw lies in [0, 1). */
  ghost predicate UnitDraws(draws: nat -> real)
  {
    forall k: nat :: 0.0 <= draws(k) < 1.0
  }

  class Random {
    const draws: nat -> real
    var index: nat

    constructor (draws: nat -> real)
      ensures this.draws == draws && index == 0
    {
      this.draws := draws;
      index := 0;
    }

    /** One call of `Math.random()`. */
    method Next() returns (u: real)
      modifies this
      ensures u == draws(old(index)) && index == old(index) + 1
    {
      u := draws(index);
      index := index + 1;
    }
  }
}
