/**
  The server's cyclic connection-id counter.  Each allocation pre-increments
  the counter and wraps it to 0 once it reaches 2^30, so a fresh server hands
  out 1, 2, ..., 2^30 - 1 and then 0.
 */
module ConnIds {

  /** FS_MAX_CONNID = 1 << 30 */
  const MaxConnId: nat := 0x4000_0000

  /** The counter's value after one allocation, which is also the id returned. */
  function NextConnId(last: nat): (id: nat)
    requires last < MaxConnId
    ensures id < MaxConnId
    ensures id == (last + 1) % MaxConnId
  {
    if last + 1 >= MaxConnId then 0 else last + 1
  }

  /** The counter after `n` allocations on a fresh server (whose counter starts at 0). */
  function IdAfter(n: nat): (id: nat)
    ensures id < MaxConnId
  {
    if n == 0 then 0 else NextConnId(IdAfter(n - 1))
  }

  /** The n-th id handed out is n modulo 2^30. */
  lemma {:induction false} IdAfterIsModulo(n: nat)
    ensures IdAfter(n) == n % MaxConnId
  {
    if n > 0 {
      IdAfterIsModulo(n - 1);
      ModuloStep(n - 1);
    }
  }

  lemma ModuloStep(k: nat)
    ensures (k % MaxConnId + 1) % MaxConnId == (k + 1) % MaxConnId
  {
  }

  /** Only every 2^30-th allocation yields 0, the id the server refuses to use. */
  lemma IdAfterIsZeroOnlyAtWrap(n: nat)
    ensures IdAfter(n) == 0 <==> n % MaxConnId == 0
  {
    IdAfterIsModulo(n);
  }

  /** Any 2^30 consecutive allocations hand out pairwise distinct ids. */
  lemma IdsDistinctWithinCycle(i: nat, j: nat)
    requires i < j < i + MaxConnId
    ensures IdAfter(i) != IdAfter(j)
  {
    IdAfterIsModulo(i);
    IdAfterIsModulo(j);
    var k := j / MaxConnId - i / MaxConnId;
    assert j - i == k * MaxConnId + (j % MaxConnId - i % MaxConnId);
    if k <= 0 {
      assert k == 0;
      assert j % MaxConnId - i % MaxConnId == j - i;
    } else {
      assert k * MaxConnId == (k - 1) * MaxConnId + MaxConnId;
      assert (k - 1) * MaxConnId >= 0;
      assert j % MaxConnId - i % MaxConnId < 0;
    }
  }
}
