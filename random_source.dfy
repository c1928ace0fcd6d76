/**
 * The one pseudo-random source every rule draws from (Python's module-level `random`).
 * The generator itself is not modelled: its output is an arbitrary but fixed stream,
 * and each call consumes the next position of that stream, so the ORDER and NUMBER of
 * draws made by the simulation are part of every contract that draws.
 */
module RandomSource {

  /** A value of `random.random()`: a real in [0, 1). */
  type Unit = r: real | 0.0 <= r < 1.0

  /** The value `randint(lo, hi)` takes from a raw stream entry: always in [lo, hi]. */
  function RandIntValue(raw: nat, lo: int, hi: int): (n: int)
    requires lo <= hi
    ensures lo <= n <= hi
  {
    lo + raw % (hi - lo + 1)
  }

  /** The value `gauss(mu, sigma)` takes from a standard normal deviate `z`. */
  function GaussValue(mu: real, sigma: real, z: real): real
  {
    mu + sigma * z
  }

  class Random {
    /** `uniform(i)` is what `random()` returns when it is the i-th draw. */
    const uniform: nat -> Unit
    /** `integer(i)` is the raw entry `randint` reduces when it is the i-th draw. */
    const integer: nat -> nat
    /** `normal(i)` is the standard normal deviate `gauss` scales when it is the i-th draw. */
    const normal: nat -> real
    /** Number of draws made so far. */
    var pos: nat

    constructor (uniform: nat -> Unit, integer: nat -> nat, normal: nat -> real)
      ensures this.uniform == uniform && this.integer == integer && this.normal == normal
      ensures pos == 0
    {
      this.uniform := uniform;
      this.integer := integer;
      this.normal := normal;
      pos := 0;
    }

    /** `random.random()` */
    method Uniform() returns (r: real)
      modifies this
      ensures r == uniform(old(pos)) && pos == old(pos) + 1
      ensures 0.0 <= r < 1.0
    {
      r := uniform(pos);
      pos := pos + 1;
    }

    /** `random.randint(lo, hi)` */
    method RandInt(lo: int, hi: int) returns (n: int)
      requires lo <= hi
      modifies this
      ensures n == RandIntValue(integer(old(pos)), lo, hi) && pos == old(pos) + 1
    {
      n := RandIntValue(integer(pos), lo, hi);
      pos := pos + 1;
    }

    /** `random.gauss(mu, sigma)` */
    method Gauss(mu: real, sigma: real) returns (x: real)
      modifies this
      ensures x == GaussValue(mu, sigma, normal(old(pos))) && pos == old(pos) + 1
    {
      x := GaussValue(mu, sigma, normal(pos));
      pos := pos + 1;
    }
  }
}
