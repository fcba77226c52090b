/** Options, results of fallible operations, and sums over finite maps. */

module Wrappers {

  datatype Option<+T> = None | Some(value: T)

  /** How an operation of the Arch program can fail.  A `Panic` aborts the
      transaction just as an error return does. */
  datatype Error =
    | Custom(code: nat)
    | InvalidInstructionData
    | InvalidRealloc
    | Panic

  datatype Result<+T> = Ok(value: T) | Err(error: Error) {
    predicate IsFailure() {
      Err?
    }

    function PropagateFailure<U>(): Result<U>
      requires Err?
    {
      Err(error)
    }

    function Extract(): T
      requires Ok?
    {
      value
    }
  }
}

module Sequences {
  lemma Joined<T>(a: seq<T>, b: seq<T>, c: seq<T>)
    ensures (a + b) + c == a + (b + c)
  {
  }
}

/** The sum of a weight over the entries of a finite map, independent of any
    order in which the entries are visited. */
module Sums {

  ghost function Total<K, V>(m: map<K, V>, weight: (K, V) -> nat): nat
    decreases |m|
  {
    if m == map[] then 0 else
    var k :| k in m;
    weight(k, m[k]) + Total(m - {k}, weight)
  }

  lemma {:induction false} TotalSplit<K, V>(m: map<K, V>, weight: (K, V) -> nat, k: K)
    requires k in m
    ensures Total(m, weight) == weight(k, m[k]) + Total(m - {k}, weight)
    decreases |m|
  {
    var j :| j in m && Total(m, weight) == weight(j, m[j]) + Total(m - {j}, weight);
    if j != k {
      TotalSplit(m - {j}, weight, k);
      TotalSplit(m - {k}, weight, j);
      assert m - {j} - {k} == m - {k} - {j};
    }
  }

  /** Storing one entry moves the sum by exactly the change in that entry. */
  lemma TotalUpdate<K, V>(m: map<K, V>, weight: (K, V) -> nat, k: K, v: V)
    ensures Total(m[k := v], weight)
         == Total(m, weight) - (if k in m then weight(k, m[k]) else 0) + weight(k, v)
  {
    var m' := m[k := v];
    TotalSplit(m', weight, k);
    if k in m {
      TotalSplit(m, weight, k);
      assert m' - {k} == m - {k};
    } else {
      assert m' - {k} == m;
    }
  }

  lemma EntryAtMostTotal<K, V>(m: map<K, V>, weight: (K, V) -> nat, k: K)
    requires k in m
    ensures weight(k, m[k]) <= Total(m, weight)
  {
    TotalSplit(m, weight, k);
  }

  /** What one key contributes. */
  ghost function Share<K, V>(m: map<K, V>, weight: (K, V) -> nat, k: K): nat {
    if k in m then weight(k, m[k]) else 0
  }

  lemma {:induction false} TotalMonotone<K(!new), V>(m: map<K, V>, m': map<K, V>, weight: (K, V) -> nat)
    requires forall k: K :: Share(m, weight, k) <= Share(m', weight, k)
    ensures Total(m, weight) <= Total(m', weight)
    decreases |m|
  {
    if m != map[] {
      var k :| k in m;
      TotalSplit(m, weight, k);
      assert Share(m, weight, k) <= Share(m', weight, k);
      forall j: K ensures Share(m - {k}, weight, j) <= Share(m' - {k}, weight, j) {
        assert Share(m, weight, j) <= Share(m', weight, j);
      }
      TotalMonotone(m - {k}, m' - {k}, weight);
      if k in m' {
        TotalSplit(m', weight, k);
      } else {
        assert m' - {k} == m';
      }
    }
  }
}
