/** The process-wide random generator behind `random::<f32>()`, modelled as an
    injected stream of draws: `draw(k)` is the k-th value the generator yields
    and `pos` is how many values have been taken so far. */
module Oracle {

  class Rng {
    const draw: nat -> real
    var pos: nat

    /** Every draw lies in [0, 1), as `random::<f32>()` promises. */
    ghost predicate Valid() {
      forall k: nat :: 0.0 <= draw(k) < 1.0
    }

    constructor (draw: nat -> real, start: nat)
      requires forall k: nat :: 0.0 <= draw(k) < 1.0
      ensures Valid() && this.draw == draw && pos == start
    {
      this.draw := draw;
      pos := start;
    }

    /** Takes the next value of the stream. */
    method Next() returns (r: real)
      modifies this
      ensures pos == old(pos) + 1
      ensures r == draw(old(pos))
      ensures Valid() ==> 0.0 <= r < 1.0
    {
      r := draw(pos);
      pos := pos + 1;
    }
  }

  /** The `n` values the stream yields from position `start` on. */
  function Draws(draw: nat -> real, start: nat, n: nat): (r: seq<real>)
    ensures |r| == n && forall k :: 0 <= k < n ==> r[k] == draw(start + k)
  {
    seq(n, k requires 0 <= k < n => draw(start + k))
  }
}
