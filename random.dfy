/*
 * The numpy random draws the generator scripts make. The source seeds a
 * global generator and draws in program order; here every draw is taken
 * from an arbitrary random source, indexed by the generated row and by
 * the call site within the row, so that every property proved holds for
 * every possible outcome of the draws.
 */
module Random {

  /** An integer draw and a real draw for each (row, call site). */
  datatype Rng = Rng(index: (nat, nat) -> nat, draw: (nat, nat) -> real)

  /** `k % n` for a natural `k`, by repeated subtraction. */
  function Wrap(k: nat, n: nat): (r: nat)
    requires n > 0
    ensures r < n
    decreases k
  {
    if k < n then k else Wrap(k - n, n)
  }

  /** `np.random.randint(lo, hi)`: an integer of the half-open range `[lo, hi)`. */
  function RandInt(rng: Rng, row: nat, site: nat, lo: int, hi: int): (r: int)
    requires lo < hi
    ensures lo <= r < hi
  {
    lo + Wrap(rng.index(row, site), hi - lo)
  }

  /** `df.sample(1)`: the position of one of `n` rows. */
  function SampleRow(rng: Rng, row: nat, site: nat, n: nat): (r: nat)
    requires n > 0
    ensures r < n
  {
    Wrap(rng.index(row, site), n)
  }

  /** `np.random.choice(options)`: one of the options (the weights are not modelled). */
  function Choice<T>(rng: Rng, row: nat, site: nat, options: seq<T>): (r: T)
    requires |options| > 0
    ensures r in options
  {
    options[Wrap(rng.index(row, site), |options|)]
  }

  /** `np.clip(x, lo, hi)`. */
  function Clip(x: real, lo: real, hi: real): (r: real)
    requires lo <= hi
    ensures lo <= r <= hi
    ensures lo <= x <= hi ==> r == x
    ensures x < lo ==> r == lo
    ensures hi < x ==> r == hi
  {
    if x < lo then lo else if hi < x then hi else x
  }

  /** `np.clip` on an integer. */
  function ClipInt(x: int, lo: int, hi: int): (r: int)
    requires lo <= hi
    ensures lo <= r <= hi
    ensures lo <= x <= hi ==> r == x
  {
    if x < lo then lo else if hi < x then hi else x
  }

  /** `np.random.uniform(lo, hi)`: a real of the range. */
  function Uniform(rng: Rng, row: nat, site: nat, lo: real, hi: real): (r: real)
    requires lo <= hi
    ensures lo <= r <= hi
  {
    Clip(rng.draw(row, site), lo, hi)
  }

  /** Python's `int()` on a float: truncation toward zero. */
  function Trunc(x: real): (r: int)
    ensures x >= 0.0 ==> r as real <= x < r as real + 1.0
    ensures x < 0.0 ==> r as real - 1.0 < x <= r as real
  {
    if x >= 0.0 then x.Floor else -((-x).Floor)
  }

  /** A whole number truncates to itself. */
  lemma TruncWhole(k: int)
    ensures Trunc(k as real) == k
  {
  }

  /** `round(x, 1)`: the nearest tenth (a tie goes up). */
  function Round1(x: real): (r: real)
    ensures x - 0.05 < r <= x + 0.05
  {
    (x * 10.0 + 0.5).Floor as real / 10.0
  }

  /** A bound that is a whole number of tenths. */
  predicate Tenths(a: real)
  {
    (a * 10.0).Floor as real == a * 10.0
  }

  lemma FloorMonotone(x: real, y: real)
    requires x <= y
    ensures x.Floor <= y.Floor
  {
  }

  /** Rounding to tenths keeps a value inside a range whose ends are whole tenths. */
  lemma Round1Within(x: real, lo: real, hi: real)
    requires lo <= x <= hi && Tenths(lo) && Tenths(hi)
    ensures lo <= Round1(x) <= hi
  {
    var k, m := (lo * 10.0).Floor, (hi * 10.0).Floor;
    FloorMonotone(lo * 10.0 + 0.5, x * 10.0 + 0.5);
    FloorMonotone(x * 10.0 + 0.5, hi * 10.0 + 0.5);
    assert (lo * 10.0 + 0.5).Floor >= k;
    assert (hi * 10.0 + 0.5).Floor == m;
  }

  /** `round(np.random.uniform(lo, hi), 1)` for bounds that are whole tenths: stays within the bounds. */
  function Round1Uniform(rng: Rng, row: nat, site: nat, lo: real, hi: real): (r: real)
    requires lo <= hi && Tenths(lo) && Tenths(hi)
    ensures lo <= r <= hi
  {
    Round1Within(Uniform(rng, row, site, lo, hi), lo, hi);
    Round1(Uniform(rng, row, site, lo, hi))
  }
}
