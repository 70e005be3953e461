/**
  Flat buffers built by pushing fixed-size chunks one after another, the way the
  mesh builders fill their `position`, `uv`, `index` and `normal` arrays and the
  shelf unit fills its slot list.
 */
module Layout {

  /**
    Where chunk `k` starts when every chunk is `width` long: the sum of the
    widths before it (`OffsetIsProduct`: width * k).
   */
  function Offset(width: nat, k: nat): nat
  {
    if k == 0 then 0 else Offset(width, k - 1) + width
  }

  lemma {:induction false} OffsetIsProduct(width: nat, k: nat)
    ensures Offset(width, k) == width * k
  {
    if k > 0 {
      OffsetIsProduct(width, k - 1);
      assert width * k == width * (k - 1) + width;
    }
  }

  /** A chunk that starts before chunk `m` also ends before it. */
  lemma {:induction false} OffsetMonotone(width: nat, k: nat, m: nat)
    requires k < m
    ensures Offset(width, k) + width <= Offset(width, m)
    decreases m
  {
    if k < m - 1 {
      OffsetMonotone(width, k, m - 1);
    }
  }

  /** A slice that lies in the front of a buffer is unaffected by what is pushed after it. */
  lemma SliceOfFront<T>(front: seq<T>, back: seq<T>, lo: nat, hi: nat)
    requires lo <= hi <= |front|
    ensures (front + back)[lo..hi] == front[lo..hi]
  {
    assert forall k :: 0 <= k < hi - lo ==> (front + back)[lo..hi][k] == front[lo..hi][k];
  }

  /** The slice just past the front of a buffer is what was pushed after it. */
  lemma SliceOfBack<T>(front: seq<T>, back: seq<T>, lo: nat, hi: nat)
    requires lo == |front| && hi == lo + |back|
    ensures (front + back)[lo..hi] == back
  {
  }
}
