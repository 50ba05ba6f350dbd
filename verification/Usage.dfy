/** Usage amounts, and tables of them by key. */
module Usage {
  /** A usage record, or a sum of them with the number of sessions summed. */
  datatype Amount = Amount(
    input: int, output: int, cacheRead: int, cacheWrite: int, tokens: int, cost: real, sessions: int)

  const ZERO := Amount(0, 0, 0, 0, 0, 0.0, 0)

  function Plus(a: Amount, b: Amount): Amount {
    Amount(a.input + b.input, a.output + b.output, a.cacheRead + b.cacheRead, a.cacheWrite + b.cacheWrite,
           a.tokens + b.tokens, a.cost + b.cost, a.sessions + b.sessions)
  }

  lemma PlusSwaps(a: Amount, b: Amount, c: Amount)
    ensures Plus(a, Plus(b, c)) == Plus(b, Plus(a, c))
    ensures Plus(Plus(a, b), c) == Plus(a, Plus(b, c))
    ensures Plus(a, b) == Plus(b, a)
    ensures Plus(a, ZERO) == a
  {}

  type Table<K(==)> = map<K, Amount>

  function Get<K>(m: Table<K>, k: K): Amount {
    if k in m then m[k] else ZERO
  }

  function AddTo<K>(m: Table<K>, k: K, u: Amount): Table<K> {
    m[k := Plus(Get(m, k), u)]
  }

  /** The sum of a table. */
  ghost function Sum<K>(m: Table<K>): Amount
    decreases |m|
  {
    if m == map[] then ZERO
    else
      var k :| k in m;
      Plus(m[k], Sum(m - {k}))
  }

  /** Any key may be taken out first. */
  lemma {:induction false} SumTakes<K>(m: Table<K>, k: K)
    requires k in m
    ensures Sum(m) == Plus(m[k], Sum(m - {k}))
    decreases |m|
  {
    var j :| j in m && Sum(m) == Plus(m[j], Sum(m - {j}));
    if j != k {
      SumTakes(m - {j}, k);
      SumTakes(m - {k}, j);
      assert m - {j} - {k} == m - {k} - {j};
      assert (m - {j})[k] == m[k] && (m - {k})[j] == m[j];
      PlusSwaps(m[j], m[k], Sum(m - {j} - {k}));
    }
  }

  lemma SumAdds<K>(m: Table<K>, k: K, u: Amount)
    ensures Sum(AddTo(m, k, u)) == Plus(Sum(m), u)
  {
    var n := AddTo(m, k, u);
    SumTakes(n, k);
    assert n - {k} == m - {k};
    if k in m {
      SumTakes(m, k);
    } else {
      assert m - {k} == m;
    }
  }

  lemma GetAfterAdd<K>(m: Table<K>, k: K, u: Amount, j: K)
    ensures Get(AddTo(m, k, u), j) == if j == k then Plus(Get(m, k), u) else Get(m, j)
  {}
}
