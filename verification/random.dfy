/**
 * The seeded pseudo-random generator the core draws from
 * (numpy's `default_rng(seed)`), as an injected stream of draws.
 *
 * Every primitive draw (`random`, `uniform`, `normal`, `integers`) consumes
 * one position of the stream; a vector or matrix draw consumes one position
 * per cell, in row-major order.  What a draw is made of is left abstract: a
 * `Draw` is seen through the three standard distributions the core uses.
 */
module Random {
  import opened Wrappers

  /** A real in [0, 1): numpy's `random()`. */
  type Unit = r: real | 0.0 <= r < 1.0 witness 0.0

  /** One output of the bit generator, seen as a standard uniform, a
    * standard normal and an unbounded integer. */
  datatype Draw = Draw(unit: Unit, gauss: real, word: nat)

  /** The draws a generator yields, by position. */
  type Stream = nat -> Draw

  /** The stream `default_rng(seed)` yields for each seed. */
  type Family = int -> Stream

  /** The stream a generator built from an optional seed uses: the seeded one,
    * or fresh entropy when no seed is given. */
  function StreamFor(family: Family, seed: Option<int>, entropy: Stream): Stream {
    match seed
    case Some(s) => family(s)
    case None => entropy
  }

  /** `uniform(lo, hi)` drawn at position `p`. */
  function UniformAt(s: Stream, p: nat, lo: real, hi: real): (x: real)
    ensures lo <= hi ==> lo <= x <= hi
    ensures lo < hi ==> x < hi
  {
    var w, u := hi - lo, s(p).unit;
    UnitScale(w, u);
    lo + w * u
  }

  lemma UnitScale(w: real, u: Unit)
    ensures w >= 0.0 ==> 0.0 <= w * u <= w
    ensures w > 0.0 ==> w * u < w
  {
    if w > 0.0 {
      assert w * u < w * 1.0;
    }
  }

  /** `normal(mu, sigma)` drawn at position `p`. */
  function NormalAt(s: Stream, p: nat, mu: real, sigma: real): real {
    mu + sigma * s(p).gauss
  }

  /** `integers(lo, hi)` (upper bound exclusive) drawn at position `p`. */
  function IntegersAt(s: Stream, p: nat, lo: int, hi: int): (k: int)
    requires lo < hi
    ensures lo <= k < hi
  {
    lo + s(p).word % (hi - lo)
  }

  /** `uniform(lo, hi, size=n)` drawn from position `p` on. */
  function UniformsAt(s: Stream, p: nat, lo: real, hi: real, n: nat): (xs: seq<real>)
    ensures |xs| == n
    ensures forall i :: 0 <= i < n ==> xs[i] == UniformAt(s, p + i, lo, hi)
  {
    seq(n, i requires 0 <= i < n => UniformAt(s, p + i, lo, hi))
  }

  /** `random(n)` drawn from position `p` on. */
  function UnitsAt(s: Stream, p: nat, n: nat): (us: seq<real>)
    ensures |us| == n
    ensures forall i :: 0 <= i < n ==> us[i] == s(p + i).unit
  {
    seq(n, i requires 0 <= i < n => s(p + i).unit as real)
  }

  /** `normal(0, sigma, size=cols)` drawn from position `p` on. */
  function NormalRowAt(s: Stream, p: nat, sigma: real, cols: nat): (r: seq<real>)
    ensures |r| == cols
    ensures forall i :: 0 <= i < cols ==> r[i] == NormalAt(s, p + i, 0.0, sigma)
  {
    seq(cols, i requires 0 <= i < cols => NormalAt(s, p + i, 0.0, sigma))
  }

  /** `normal(0, sigma, size=(rows, cols))` drawn from position `p` on, row
    * after row. */
  function NormalMatrixAt(s: Stream, p: nat, sigma: real, rows: nat, cols: nat): (m: seq<seq<real>>)
    ensures |m| == rows
    ensures forall t :: 0 <= t < rows ==> |m[t]| == cols
    ensures forall t, i :: 0 <= t < rows && 0 <= i < cols ==> m[t][i] == NormalAt(s, p + t * cols + i, 0.0, sigma)
  {
    var m := seq(rows, t requires 0 <= t < rows => NormalRowAt(s, RowStart(p, t, cols), sigma, cols));
    assert forall t :: 0 <= t < rows ==> m[t] == NormalRowAt(s, RowStart(p, t, cols), sigma, cols);
    m
  }

  /** Where row `t` of a `cols`-wide matrix drawn from `p` starts. */
  function RowStart(p: nat, t: nat, cols: nat): nat {
    p + t * cols
  }

  /** A generator object: its stream and how far it has been consumed. */
  class Rng {
    const stream: Stream
    var pos: nat

    constructor (s: Stream)
      ensures stream == s && pos == 0
    {
      stream := s;
      pos := 0;
    }

    method Uniform(lo: real, hi: real) returns (x: real)
      modifies this
      ensures x == UniformAt(stream, old(pos), lo, hi)
      ensures pos == old(pos) + 1
    {
      x := UniformAt(stream, pos, lo, hi);
      pos := pos + 1;
    }

    method Normal(mu: real, sigma: real) returns (x: real)
      modifies this
      ensures x == NormalAt(stream, old(pos), mu, sigma)
      ensures pos == old(pos) + 1
    {
      x := NormalAt(stream, pos, mu, sigma);
      pos := pos + 1;
    }

    method Integers(lo: int, hi: int) returns (k: int)
      requires lo < hi
      modifies this
      ensures k == IntegersAt(stream, old(pos), lo, hi)
      ensures pos == old(pos) + 1
    {
      k := IntegersAt(stream, pos, lo, hi);
      pos := pos + 1;
    }

    method Uniforms(lo: real, hi: real, n: nat) returns (xs: seq<real>)
      modifies this
      ensures xs == UniformsAt(stream, old(pos), lo, hi, n)
      ensures pos == old(pos) + n
    {
      xs := UniformsAt(stream, pos, lo, hi, n);
      pos := pos + n;
    }

    method Units(n: nat) returns (us: seq<real>)
      modifies this
      ensures us == UnitsAt(stream, old(pos), n)
      ensures pos == old(pos) + n
    {
      us := UnitsAt(stream, pos, n);
      pos := pos + n;
    }

    method NormalMatrix(sigma: real, rows: nat, cols: nat) returns (m: seq<seq<real>>)
      modifies this
      ensures m == NormalMatrixAt(stream, old(pos), sigma, rows, cols)
      ensures pos == old(pos) + rows * cols
    {
      m := NormalMatrixAt(stream, pos, sigma, rows, cols);
      pos := pos + rows * cols;
    }
  }
}
