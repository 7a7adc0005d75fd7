/**
 * The image index arithmetic shared by the listing card and the listing
 * detail carousel: the next and previous image wrap around the gallery.
 */
module ImageIndex {

  /** `(i + 1) % n` for an index in range: the following image, wrapping to the first. */
  function Next(i: int, n: int): (r: int)
    requires 0 <= i < n
    ensures 0 <= r < n
    ensures r == if i == n - 1 then 0 else i + 1
  {
    (i + 1) % n
  }

  /** `(i - 1 + n) % n` for an index in range: the preceding image, wrapping to the last. */
  function Prev(i: int, n: int): (r: int)
    requires 0 <= i < n
    ensures 0 <= r < n
    ensures r == if i == 0 then n - 1 else i - 1
  {
    (i - 1 + n) % n
  }

  /** Going back undoes going forward, and going forward undoes going back. */
  lemma PrevUndoesNext(i: int, n: int)
    requires 0 <= i < n
    ensures Prev(Next(i, n), n) == i
    ensures Next(Prev(i, n), n) == i
  {
  }

  /** `k` presses of the forward arrow. */
  function NextTimes(i: int, n: int, k: nat): (r: int)
    requires 0 <= i < n
    ensures 0 <= r < n
  {
    if k == 0 then i else Next(NextTimes(i, n, k - 1), n)
  }

  /** Pressing `a` times and then `b` times is pressing `a + b` times. */
  lemma {:induction false} NextTimesAdd(i: int, n: int, a: nat, b: nat)
    requires 0 <= i < n
    ensures NextTimes(i, n, a + b) == NextTimes(NextTimes(i, n, a), n, b)
  {
    if b > 0 {
      NextTimesAdd(i, n, a, b - 1);
    }
  }

  /** Before the end of the gallery, `k` forward presses move exactly `k` images on. */
  lemma {:induction false} NextTimesBelowEnd(i: int, n: int, k: nat)
    requires 0 <= i < n && i + k < n
    ensures NextTimes(i, n, k) == i + k
  {
    if k > 0 {
      NextTimesBelowEnd(i, n, k - 1);
    }
  }

  /** A full turn of forward presses comes back to the image it started from. */
  lemma FullTurn(i: int, n: int)
    requires 0 <= i < n
    ensures NextTimes(i, n, n) == i
  {
    NextTimesBelowEnd(i, n, n - 1 - i);
    assert NextTimes(i, n, n - i) == 0;
    NextTimesAdd(i, n, n - i, i);
    if i > 0 {
      NextTimesBelowEnd(0, n, i);
    }
  }
}
