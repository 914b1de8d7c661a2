// Python's sum(d.values()) over a dictionary of counts, and d.get(k, 0).

module MapSum {

  /** d[k] of a defaultdict(int): 0 for an absent key. */
  function Stat(m: map<string, nat>, t: string): nat {
    if t in m then m[t] else 0
  }

  /** sum(m.values()). */
  ghost function ValuesSum(m: map<string, nat>): nat
    decreases |m.Keys|
  {
    if m == map[] then 0
    else
      var k :| k in m;
      assert (m - {k}).Keys < m.Keys;
      m[k] + ValuesSum(m - {k})
  }

  /** The sum does not depend on the order the values are taken in. */
  lemma {:induction false} ValuesSumRemove(m: map<string, nat>, k: string)
    requires k in m
    ensures ValuesSum(m) == m[k] + ValuesSum(m - {k})
    decreases |m.Keys|
  {
    var j :| j in m && ValuesSum(m) == m[j] + ValuesSum(m - {j});
    if j != k {
      assert (m - {j}).Keys < m.Keys && (m - {k}).Keys < m.Keys;
      ValuesSumRemove(m - {j}, k);
      ValuesSumRemove(m - {k}, j);
      assert m - {j} - {k} == m - {k} - {j};
    }
  }

  /** Adding c to the count of one key adds c to the sum. */
  lemma ValuesSumAdd(m: map<string, nat>, t: string, c: nat)
    ensures ValuesSum(m[t := Stat(m, t) + c]) == ValuesSum(m) + c
  {
    var m' := m[t := Stat(m, t) + c];
    ValuesSumRemove(m', t);
    assert m' - {t} == m - {t};
    if t in m {
      ValuesSumRemove(m, t);
    } else {
      assert m - {t} == m;
    }
  }

  /** The sum of the dictionary's values, taken key by key. */
  method SumValues(m: map<string, nat>) returns (total: nat)
    ensures total == ValuesSum(m)
  {
    total := 0;
    var rest := m;
    while rest != map[]
      invariant total + ValuesSum(rest) == ValuesSum(m)
      decreases |rest.Keys|
    {
      var k :| k in rest;
      ValuesSumRemove(rest, k);
      total := total + rest[k];
      assert (rest - {k}).Keys < rest.Keys;
      rest := rest - {k};
    }
  }
}
