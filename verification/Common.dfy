/** Small helpers shared by the model: options, bounded arithmetic, sums over sequences. */
module Common {

  datatype Option<+T> = None | Some(value: T)

  const I32_MAX: int := 0x7FFF_FFFF

  function Min(a: int, b: int): int { if a <= b then a else b }

  function Max(a: int, b: int): int { if a >= b then a else b }

  /** Rust's integer division: the quotient is rounded toward zero. */
  function TruncDiv(a: int, b: int): int
    requires b > 0
  {
    if a >= 0 then a / b else -((-a) / b)
  }

  predicate Distinct<T(==)>(xs: seq<T>) {
    forall i, j :: 0 <= i < j < |xs| ==> xs[i] != xs[j]
  }

  function SetOf<T>(xs: seq<T>): set<T> { set x | x in xs }

  lemma HeadIsMember<T>(xs: seq<T>)
    ensures xs != [] ==> xs[0] in xs
  {}

  function RemoveAt<T>(xs: seq<T>, k: nat): (ys: seq<T>)
    requires k < |xs|
  {
    xs[..k] + xs[k + 1..]
  }

  function Sum(xs: seq<nat>): nat {
    if xs == [] then 0 else xs[0] + Sum(xs[1..])
  }

  lemma {:induction false} SumAppend(xs: seq<nat>, ys: seq<nat>)
    ensures Sum(xs + ys) == Sum(xs) + Sum(ys)
  {
    if xs == [] {
      assert xs + ys == ys;
    } else {
      assert (xs + ys)[1..] == xs[1..] + ys;
      SumAppend(xs[1..], ys);
    }
  }

  lemma SumSnoc(xs: seq<nat>, x: nat)
    ensures Sum(xs + [x]) == Sum(xs) + x
  {
    SumAppend(xs, [x]);
  }

  lemma SumRemoveAt(xs: seq<nat>, k: nat)
    requires k < |xs|
    ensures Sum(RemoveAt(xs, k)) + xs[k] == Sum(xs)
  {
    assert xs == xs[..k] + ([xs[k]] + xs[k + 1..]);
    SumAppend(xs[..k], [xs[k]] + xs[k + 1..]);
    SumAppend(xs[..k], xs[k + 1..]);
  }

  /** Truncating division by a positive divisor: a quotient of at least k means k whole divisors fit. */
  lemma TruncDivFits(a: int, b: int, k: int)
    requires b > 0 && k > 0
    ensures k <= TruncDiv(a, b) <==> k * b <= a
  {
    if a >= 0 {
      var q, r := a / b, a % b;
      assert a == q * b + r;
      if k <= q {
        assert k * b <= q * b;
      } else {
        assert k * b >= (q + 1) * b == q * b + b;
      }
    } else {
      assert k * b > 0;
      assert (-a) / b >= 0;
    }
  }

  lemma MulMono(m: nat, n: nat, a: nat)
    requires m <= n
    ensures m * a <= n * a
  {}

  lemma MulNat(n: nat, a: nat)
    ensures n * a >= 0
  {}
}
