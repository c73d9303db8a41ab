/**
 * Page arithmetic shared by the two paged views: how many pages of a fixed
 * size a text needs, and where a page starts.
 */
module Pages {

  /** The ceiling of `n / size`, in integer arithmetic. */
  function CeilDiv(n: nat, size: nat): (k: nat)
    requires size > 0
    ensures k * size >= n
    ensures k > 0 ==> (k - 1) * size < n
    ensures k == 0 <==> n == 0
  {
    var k := (n + size - 1) / size;
    assert k * size + (n + size - 1) % size == n + size - 1;
    assert (k - 1) * size == k * size - size;
    k
  }

  /** Every page from the first to the last starts inside the text. */
  lemma PageStartInside(n: nat, size: nat, p: int)
    requires size > 0 && 1 <= p <= CeilDiv(n, size)
    ensures 0 <= (p - 1) * size < n
  {
    var k := CeilDiv(n, size);
    assert (k - 1) * size - (p - 1) * size == (k - p) * size;
  }

}
