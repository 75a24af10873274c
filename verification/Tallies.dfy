/** Totals over a finite table, and how one row change moves them. */
module Tallies {

  datatype Amount = Amount(calls: int, bytes: int, objects: int) {
    function Plus(a: Amount): Amount { Amount(calls + a.calls, bytes + a.bytes, objects + a.objects) }
    function Minus(a: Amount): Amount { Amount(calls - a.calls, bytes - a.bytes, objects - a.objects) }
  }

  datatype Marks = Marks(debt: int, overruns: int, open: int, admitted: int) {
    function Plus(m: Marks): Marks {
      Marks(debt + m.debt, overruns + m.overruns, open + m.open, admitted + m.admitted)
    }

    function Minus(m: Marks): Marks {
      Marks(debt - m.debt, overruns - m.overruns, open - m.open, admitted - m.admitted)
    }
  }

  /** Budget and guard quantities of one row, or of every row in a scope. */
  datatype Tally = Tally(held: Amount, used: Amount, marks: Marks) {
    const heldCalls := held.calls
    const heldBytes := held.bytes
    const heldObjects := held.objects
    const usedCalls := used.calls
    const usedBytes := used.bytes
    const usedObjects := used.objects
    const debt := marks.debt
    const overruns := marks.overruns
    const open := marks.open
    const admitted := marks.admitted

    function Plus(t: Tally): Tally { Tally(held.Plus(t.held), used.Plus(t.used), marks.Plus(t.marks)) }
    function Minus(t: Tally): Tally { Tally(held.Minus(t.held), used.Minus(t.used), marks.Minus(t.marks)) }
  }

  const NOTHING := Amount(0, 0, 0)
  const ZERO := Tally(NOTHING, NOTHING, Marks(0, 0, 0, 0))

  /** The components that can never be negative in a legal row. */
  predicate NonNegative(t: Tally) {
    && t.heldCalls >= 0 && t.heldObjects >= 0 && t.usedObjects >= 0
    && t.debt >= 0 && t.overruns >= 0 && t.open >= 0 && t.admitted >= 0
  }

  /** The sum of `f` over every row of `m`. */
  ghost function Sum<K, V>(m: map<K, V>, f: V -> Tally): Tally {
    if m == map[] then ZERO
    else
      var k :| k in m;
      f(m[k]).Plus(Sum(m - {k}, f))
  }

  /** Any row may be taken out first. */
  lemma {:induction false} SumTakeOut<K, V>(m: map<K, V>, f: V -> Tally, k: K)
    requires k in m
    ensures Sum(m, f) == f(m[k]).Plus(Sum(m - {k}, f))
    decreases |m|
  {
    var j :| j in m && Sum(m, f) == f(m[j]).Plus(Sum(m - {j}, f));
    if j != k {
      SumTakeOut(m - {j}, f, k);
      SumTakeOut(m - {k}, f, j);
      assert Sum(m, f) == f(m[j]).Plus(Sum(m - {j}, f));
      var rest := Sum(m - {j} - {k}, f);
      assert m - {j} - {k} == m - {k} - {j};
      assert Sum(m - {j}, f) == f(m[k]).Plus(rest);
      assert Sum(m - {k}, f) == f(m[j]).Plus(rest);
    }
  }

  /** Inserting a row adds its share. */
  lemma SumInsert<K, V>(m: map<K, V>, f: V -> Tally, k: K, v: V)
    requires k !in m
    ensures Sum(m[k := v], f) == Sum(m, f).Plus(f(v))
  {
    SumTakeOut(m[k := v], f, k);
    assert m[k := v] - {k} == m;
  }

  /** Replacing a row moves the sum by the difference of its two shares. */
  lemma SumReplace<K, V>(m: map<K, V>, f: V -> Tally, k: K, v: V)
    requires k in m
    ensures Sum(m[k := v], f) == Sum(m, f).Minus(f(m[k])).Plus(f(v))
  {
    SumTakeOut(m[k := v], f, k);
    SumTakeOut(m, f, k);
    assert m[k := v] - {k} == m - {k};
  }

  lemma SumEmpty<K, V>(m: map<K, V>, f: V -> Tally)
    requires m == map[]
    ensures Sum(m, f) == ZERO
  {
  }

  /** Rows without a share add nothing. */
  lemma {:induction false} SumZero<K, V>(m: map<K, V>, f: V -> Tally)
    requires forall k :: k in m ==> f(m[k]) == ZERO
    ensures Sum(m, f) == ZERO
    decreases |m|
  {
    hide Sum;
    if m == map[] {
      SumEmpty(m, f);
    } else {
      var k :| k in m;
      SumTakeOut(m, f, k);
      SumZero(m - {k}, f);
    }
  }

  /** Non-negative shares have a non-negative sum. */
  lemma {:induction false} SumNonNegative<K, V>(m: map<K, V>, f: V -> Tally)
    requires forall k :: k in m ==> NonNegative(f(m[k]))
    ensures NonNegative(Sum(m, f))
    decreases |m|
  {
    hide Sum;
    if m == map[] {
      SumEmpty(m, f);
    } else {
      var k :| k in m;
      SumTakeOut(m, f, k);
      SumNonNegative(m - {k}, f);
    }
  }

  /** No single non-negative share exceeds the sum. */
  lemma SumCovers<K, V>(m: map<K, V>, f: V -> Tally, k: K)
    requires k in m
    requires forall j :: j in m ==> NonNegative(f(m[j]))
    ensures NonNegative(Sum(m, f).Minus(f(m[k])))
  {
    SumTakeOut(m, f, k);
    SumNonNegative(m - {k}, f);
  }

  ghost function OpenKeys<K, V>(m: map<K, V>, f: V -> Tally): set<K> {
    set k | k in m && f(m[k]).open == 1
  }

  ghost function AdmittedKeys<K, V>(m: map<K, V>, f: V -> Tally): set<K> {
    set k | k in m && f(m[k]).admitted == 1
  }

  lemma SizeWithout<K>(keys: set<K>, k: K)
    ensures |keys| == |keys - {k}| + (if k in keys then 1 else 0)
  {
    if k in keys {
      assert keys == (keys - {k}) + {k};
    } else {
      assert keys == keys - {k};
    }
  }

  lemma {:induction false} SumCountsOpen<K, V>(m: map<K, V>, f: V -> Tally)
    requires forall k :: k in m ==> 0 <= f(m[k]).open <= 1
    ensures Sum(m, f).open == |OpenKeys(m, f)|
    decreases |m|
  {
    hide Sum;
    if m == map[] {
      SumEmpty(m, f);
      assert OpenKeys(m, f) == {};
    } else {
      var k :| k in m;
      SumTakeOut(m, f, k);
      SumCountsOpen(m - {k}, f);
      assert OpenKeys(m - {k}, f) == OpenKeys(m, f) - {k};
      SizeWithout(OpenKeys(m, f), k);
    }
  }

  lemma {:induction false} SumCountsAdmitted<K, V>(m: map<K, V>, f: V -> Tally)
    requires forall k :: k in m ==> 0 <= f(m[k]).admitted <= 1
    ensures Sum(m, f).admitted == |AdmittedKeys(m, f)|
    decreases |m|
  {
    hide Sum;
    if m == map[] {
      SumEmpty(m, f);
      assert AdmittedKeys(m, f) == {};
    } else {
      var k :| k in m;
      SumTakeOut(m, f, k);
      SumCountsAdmitted(m - {k}, f);
      assert AdmittedKeys(m - {k}, f) == AdmittedKeys(m, f) - {k};
      SizeWithout(AdmittedKeys(m, f), k);
    }
  }

  /** Where `open` and `admitted` are 0 or 1 in every share, their sums count rows. */
  lemma SumCounts<K, V>(m: map<K, V>, f: V -> Tally)
    requires forall k :: k in m ==> 0 <= f(m[k]).open <= 1 && 0 <= f(m[k]).admitted <= 1
    ensures Sum(m, f).open == |OpenKeys(m, f)| && Sum(m, f).admitted == |AdmittedKeys(m, f)|
  {
    SumCountsOpen(m, f);
    SumCountsAdmitted(m, f);
  }
}
