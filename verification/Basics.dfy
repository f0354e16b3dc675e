/** What several models share. */
module Basics {
  datatype Option<+T> = None | Some(value: T)

  // items with the one at index i taken out.
  function Without<T>(items: seq<T>, i: nat): seq<T>
    requires i < |items|
  {
    items[..i] + items[i + 1..]
  }

  // The remainder of x by n, without division.
  function Wrap(x: nat, n: nat): (w: nat)
    requires n > 0
    ensures w < n
    ensures x < n ==> w == x
    ensures n <= x < 2 * n ==> w == x - n
  {
    if x < n then x else Wrap(x - n, n)
  }

  // Adding is the same before and after wrapping.
  lemma {:induction false} WrapAdd(x: nat, i: nat, n: nat)
    requires n > 0
    ensures Wrap(x + i, n) == Wrap(Wrap(x, n) + i, n)
  {
    if x >= n {
      WrapAdd(x - n, i, n);
    }
  }

  lemma {:induction false} StepWrap(x: nat, n: nat)
    requires n > 0
    ensures Wrap(x + 1, n) == if Wrap(x, n) + 1 == n then 0 else Wrap(x, n) + 1
  {
    if x >= n {
      StepWrap(x - n, n);
    }
  }

  lemma {:induction false} WrapIsMod(x: nat, n: nat)
    requires n > 0
    ensures x % n == Wrap(x, n)
  {
    if x < n {
      ModOf(0, x, n);
    } else {
      WrapIsMod(x - n, n);
      var q, m := (x - n) / n, (x - n) % n;
      assert x - n == q * n + m;
      Distribute(q, 1, n);
      ModOf(q + 1, m, n);
    }
  }

  lemma Distribute(a: int, b: int, n: int)
    ensures (a + b) * n == a * n + b * n
  {
  }

  lemma MulLe(a: int, b: int, n: nat)
    ensures a <= b ==> a * n <= b * n
  {
    Distribute(a, b - a, n);
  }

  lemma ModOf(q: int, m: nat, n: nat)
    requires m < n
    ensures (q * n + m) % n == m && (q * n + m) / n == q
  {
    var x := q * n + m;
    var e := x / n;
    assert x == e * n + x % n;
    Distribute(q, 1, n);
    Distribute(e, 1, n);
    MulLe(q + 1, e, n);
    MulLe(e + 1, q, n);
  }

  // n durations of length d.
  function Times(n: nat, d: int): (t: int)
    ensures d >= 0 ==> t >= 0
  {
    if n == 0 then 0 else Times(n - 1, d) + d
  }

  lemma {:induction false} TimesAdd(m: nat, n: nat, d: int)
    ensures Times(m + n, d) == Times(m, d) + Times(n, d)
  {
    if n > 0 {
      TimesAdd(m, n - 1, d);
    }
  }

  lemma {:induction false} TimesIsProduct(n: nat, d: int)
    ensures Times(n, d) == n * d
  {
    if n > 0 {
      TimesIsProduct(n - 1, d);
      Distribute(n - 1, 1, d);
    }
  }

  lemma TimesGrows(m: nat, n: nat, d: nat)
    requires m <= n
    ensures Times(m, d) <= Times(n, d)
  {
    TimesAdd(m, n - m, d);
  }
}
