/** Tables of counts. */
module Tables {

  function At<K>(counts: map<K, nat>, k: K): nat {
    if k in counts then counts[k] else 0
  }

  /** The sum of all entries. */
  ghost function Total<K>(counts: map<K, nat>): nat
    decreases |counts|
  {
    if counts == map[] then 0 else
    var k :| k in counts;
    counts[k] + Total(counts - {k})
  }

  /** Any entry can be taken out first. */
  lemma {:induction false} TotalWithout<K>(counts: map<K, nat>, k: K)
    requires k in counts
    ensures Total(counts) == counts[k] + Total(counts - {k})
    decreases |counts|
  {
    var j :| j in counts && Total(counts) == counts[j] + Total(counts - {j});
    if j != k {
      TotalWithout(counts - {j}, k);
      TotalWithout(counts - {k}, j);
      assert counts - {j} - {k} == counts - {k} - {j};
    }
  }

  lemma TotalIncrement<K>(counts: map<K, nat>, k: K)
    ensures Total(counts[k := At(counts, k) + 1]) == Total(counts) + 1
  {
    var more := counts[k := At(counts, k) + 1];
    TotalWithout(more, k);
    assert more - {k} == counts - {k};
    if k in counts {
      TotalWithout(counts, k);
    } else {
      assert counts - {k} == counts;
    }
  }
}
