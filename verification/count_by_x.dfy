/**
 * The CountByX contract: `countBy(x, n)` returns the first `n` multiples of
 * `x`, `[x, 2x, ..., nx]`, and reverts when `n` is negative. Integers are
 * unbounded here (no 256-bit overflow).
 */
module CountByX {
  import opened Wrappers

  /** The first `n` multiples of `x`, built one element at a time. */
  function Multiples(x: int, n: nat): (r: seq<int>)
    ensures |r| == n
    ensures forall i :: 0 <= i < n ==> r[i] == (i + 1) * x
  {
    if n == 0 then [] else Multiples(x, n - 1) + [n * x]
  }

  /** `countBy(x, n)`; `None` is a revert. */
  function CountBy(x: int, n: int): (r: Option<seq<int>>)
    ensures r.None? <==> n < 0
    ensures r.Some? ==> |r.value| == n
    ensures r.Some? ==> forall i :: 0 <= i < |r.value| ==> r.value[i] == (i + 1) * x
  {
    if n < 0 then None else Some(Multiples(x, n))
  }

  /**
   * `countBy` the way a contract returning a memory array computes it:
   * allocate `n` slots and fill slot `i` with `(i + 1) * x`.
   */
  method CountByFill(x: int, n: int) returns (r: Option<seq<int>>)
    ensures r == CountBy(x, n)
  {
    if n < 0 {
      return None;
    }
    var a := new int[n];
    for i := 0 to n
      invariant forall k :: 0 <= k < i ==> a[k] == (k + 1) * x
    {
      a[i] := (i + 1) * x;
    }
    assert a[..] == Multiples(x, n);
    r := Some(a[..]);
  }

  /** The result starts at `x` and each element is the previous one plus `x`. */
  lemma CountByProgression(x: int, n: int)
    requires n >= 0
    ensures var r := CountBy(x, n).value;
      && (n > 0 ==> r[0] == x)
      && (forall i :: 0 <= i < n - 1 ==> r[i + 1] == r[i] + x)
  {
  }

  /** Along a sequence that steps by `x`, order follows the sign of `x`. */
  lemma {:induction false} StepOrder(r: seq<int>, x: int, i: int, j: int)
    requires forall k :: 0 <= k < |r| - 1 ==> r[k + 1] == r[k] + x
    requires 0 <= i < j < |r|
    ensures x > 0 ==> r[i] < r[j]
    ensures x < 0 ==> r[i] > r[j]
    ensures x == 0 ==> r[i] == r[j]
    decreases j - i
  {
    if j > i + 1 {
      StepOrder(r, x, i, j - 1);
    }
  }

  /**
   * Order of the result: strictly increasing for positive `x`, strictly
   * decreasing and all negative for negative `x`, all zeros for `x == 0`.
   */
  lemma CountByOrder(x: int, n: int)
    requires n >= 0
    ensures var r := CountBy(x, n).value;
      && (x > 0 ==> forall i, j :: 0 <= i < j < n ==> r[i] < r[j])
      && (x < 0 ==> forall i, j :: 0 <= i < j < n ==> r[i] > r[j])
      && (x < 0 ==> forall i :: 0 <= i < n ==> r[i] < 0)
      && (x == 0 ==> forall i :: 0 <= i < n ==> r[i] == 0)
  {
    var r := CountBy(x, n).value;
    CountByProgression(x, n);
    forall i, j | 0 <= i < j < n
      ensures x > 0 ==> r[i] < r[j]
      ensures x < 0 ==> r[i] > r[j]
    {
      StepOrder(r, x, i, j);
    }
    forall i | 0 < i < n
      ensures r[i] < r[0] || x >= 0
      ensures r[i] == r[0] || x != 0
    {
      StepOrder(r, x, 0, i);
    }
  }

  /** The values the test suite checks. */
  lemma CountByExamples()
    ensures CountBy(5, 3) == Some([5, 10, 15])
    ensures CountBy(5, 0) == Some([])
    ensures CountBy(-4, 3) == Some([-4, -8, -12])
    ensures CountBy(0, 1) == Some([0])
    ensures CountBy(5, -2) == None
    ensures CountBy(1_000_000_000_000, 2) == Some([1_000_000_000_000, 2_000_000_000_000])
  {
    var r := CountBy(5, 3).value;
    assert r[0] == 5 && r[1] == 10 && r[2] == 15;
    assert r == [5, 10, 15];
    r := CountBy(-4, 3).value;
    assert r[0] == -4 && r[1] == -8 && r[2] == -12;
    assert r == [-4, -8, -12];
    r := CountBy(0, 1).value;
    assert r[0] == 0;
    assert r == [0];
    r := CountBy(1_000_000_000_000, 2).value;
    assert r[0] == 1_000_000_000_000 && r[1] == 2_000_000_000_000;
    assert r == [1_000_000_000_000, 2_000_000_000_000];
  }
}
