/** Shared vocabulary: the numeric constants and the browser's `Math` object as the model sees it. */
module Common {

  /** `Math.PI`. */
  const PI: real := 3.141592653589793

  datatype Option<T> = None | Some(value: T)

  /**
   * The transcendental functions of `Math` the program calls. They are inputs to the model:
   * nothing is assumed about them beyond what `Sound` states.
   */
  datatype MathOps = MathOps(
    sin: real -> real,
    cos: real -> real,
    acos: real -> real,
    sqrt: real -> real,
    exp: real -> real,
    atan2: (real, real) -> real)

  /**
   * The only facts about sine and cosine the proofs rely on. Each is stated pointwise by its own
   * predicate, so a proof sees a fact only at the angles where it asks for it (the lemmas below).
   */
  ghost predicate Sound(m: MathOps)
  {
    && m.sin(0.0) == 0.0
    && m.cos(0.0) == 1.0
    && (forall t :: Bounded(m, t))
    && (forall t :: Pythagorean(m, t))
    && (forall t, u :: HalfTurn(m, t, u))
  }

  /** `sin t` and `cos t` lie in [-1, 1]. */
  ghost predicate Bounded(m: MathOps, t: real)
  {
    -1.0 <= m.sin(t) <= 1.0 && -1.0 <= m.cos(t) <= 1.0
  }

  ghost predicate Pythagorean(m: MathOps, t: real)
  {
    m.sin(t) * m.sin(t) + m.cos(t) * m.cos(t) == 1.0
  }

  /** Turning by `PI` negates both sine and cosine. */
  ghost predicate HalfTurn(m: MathOps, t: real, u: real)
  {
    u == t + PI ==> m.sin(u) == -m.sin(t) && m.cos(u) == -m.cos(t)
  }

  lemma SinCosBounds(m: MathOps, t: real)
    requires Sound(m)
    ensures -1.0 <= m.sin(t) <= 1.0 && -1.0 <= m.cos(t) <= 1.0
  {
    assert Bounded(m, t);
  }

  /** For a sound `m`, `sin t` and `cos t` lie on the unit circle. */
  lemma UnitCircle(m: MathOps, t: real)
    requires Sound(m)
    ensures m.sin(t) * m.sin(t) + m.cos(t) * m.cos(t) == 1.0
  {
    assert Pythagorean(m, t);
  }

  lemma ShiftByPi(m: MathOps, t: real)
    requires Sound(m)
    ensures m.sin(t + PI) == -m.sin(t) && m.cos(t + PI) == -m.cos(t)
  {
    assert HalfTurn(m, t, t + PI);
  }

  /** The values successive calls of `Math.random()` return during one computation: the n-th call gives `rnd(n)`. */
  type Oracle = nat -> real

  /** `Math.random()` returns values in [0, 1). */
  ghost predicate UnitOracle(rnd: Oracle)
  {
    forall n: nat :: 0.0 <= rnd(n) < 1.0
  }

  predicate UnitDraws(d: seq<real>)
  {
    forall j :: 0 <= j < |d| ==> 0.0 <= d[j] < 1.0
  }

  /** The `k` draws starting with call number `start`; drawn from `Math.random()`, each lies in [0, 1). */
  function Draws(rnd: Oracle, start: nat, k: nat): (d: seq<real>)
    ensures UnitOracle(rnd) ==> UnitDraws(d)
  {
    seq(k, j requires 0 <= j < k => rnd(start + j))
  }

  /** A point `(r cos, r sin)` on a unit direction has squared length `r * r`. */
  lemma CircleRadius(r: real, c: real, s: real)
    requires s * s + c * c == 1.0
    ensures (r * c) * (r * c) + (r * s) * (r * s) == r * r
  {
    assert (r * c) * (r * c) == (r * r) * (c * c);
    assert (r * s) * (r * s) == (r * r) * (s * s);
    assert (r * r) * (c * c) + (r * r) * (s * s) == (r * r) * (s * s + c * c);
  }

  /** `Math.min` and `Math.max` on finite numbers. */
  function Min(a: real, b: real): real
  {
    if a <= b then a else b
  }

  function Max(a: real, b: real): real
  {
    if a >= b then a else b
  }

  /** `Math.abs`. */
  function Abs(x: real): real
  {
    if x < 0.0 then -x else x
  }

  /** `i / n` in JavaScript for a loop index below a positive count is a fraction in [0, 1). */
  lemma FractionInUnit(i: nat, n: nat)
    requires i < n
    ensures 0.0 <= i as real / n as real < 1.0
  {
    var q := i as real / n as real;
    assert q * n as real == i as real;
  }
}
