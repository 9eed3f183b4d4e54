/**
 The arithmetic of a ring buffer's index.
 */
module RingIndex {

  lemma MultipleOf(n: nat, d: int)
    requires n > 0
    ensures d >= 1 ==> n * d >= n
    ensures d <= 0 ==> n * d <= 0
  {
  }

  /** Two positions less than a full turn apart never share a cell. */
  lemma CellsApart(i: nat, j: nat, n: nat)
    requires n > 0 && i < j < i + n
    ensures i % n != j % n
  {
    MultipleOf(n, j / n - i / n);
    assert j - i == n * (j / n) - n * (i / n) + j % n - i % n;
    assert n * (j / n - i / n) == n * (j / n) - n * (i / n);
  }

  /** Within two turns the remainder is one comparison. */
  lemma WrapOnce(x: nat, n: nat)
    requires n > 0 && x < 2 * n
    ensures x % n == if x < n then x else x - n
  {
    MultipleOf(n, x / n);
    MultipleOf(n, x / n - 1);
    assert n * (x / n - 1) == n * (x / n) - n;
    MultipleOf(n, x / n - 2);
    assert n * (x / n - 2) == n * (x / n) - 2 * n;
  }
}
