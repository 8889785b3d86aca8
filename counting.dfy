/**
 * Counting values the way `create_google_doc.py` does with a dict: a Python
 * dict remembers the order in which its keys were first inserted, so a count
 * dict built over a column is an association list in first-occurrence order.
 */
module Counting {
  import opened Wrappers

  /** How many entries of the column equal `v`. */
  function Occurs(col: seq<string>, v: string): nat {
    if col == [] then 0
    else Occurs(col[..|col| - 1], v) + (if col[|col| - 1] == v then 1 else 0)
  }

  lemma {:induction false} OccursAbsent(col: seq<string>, v: string)
    requires v !in col
    ensures Occurs(col, v) == 0
    decreases |col|
  {
    if col != [] {
      OccursAbsent(col[..|col| - 1], v);
    }
  }

  /** The position of the first entry equal to `x`. */
  function FirstIndex(col: seq<string>, x: string): (r: nat)
    requires x in col
    ensures r < |col| && col[r] == x && forall j :: 0 <= j < r ==> col[j] != x
  {
    if col[0] == x then 0
    else
      assert x in col[1..] by {
        var i :| 0 <= i < |col| && col[i] == x;
        assert col[1..][i - 1] == x;
      }
      FirstIndex(col[1..], x) + 1
  }

  /** The distinct entries of the column, in order of first occurrence. */
  function Distinct(col: seq<string>): seq<string> {
    if col == [] then []
    else
      var d := Distinct(col[..|col| - 1]);
      if col[|col| - 1] in d then d else d + [col[|col| - 1]]
  }

  lemma {:induction false} DistinctMembers(col: seq<string>)
    ensures forall x :: x in Distinct(col) <==> x in col
    decreases |col|
  {
    if col != [] {
      var init := col[..|col| - 1];
      DistinctMembers(init);
      assert col == init + [col[|col| - 1]];
    }
  }

  lemma {:induction false} DistinctNoRepeats(col: seq<string>)
    ensures NoRepeats(Distinct(col))
    decreases |col|
  {
    if col != [] {
      var init := col[..|col| - 1];
      DistinctNoRepeats(init);
    }
  }

  lemma FirstIndexSnoc(init: seq<string>, y: string, x: string)
    requires x in init
    ensures x in init + [y] && FirstIndex(init + [y], x) == FirstIndex(init, x)
  {
    var col := init + [y];
    var a, b := FirstIndex(col, x), FirstIndex(init, x);
    assert col[b] == x;
    assert a <= b;
    assert init[a] == x;
  }

  /** Ordered by first occurrence in `col`. */
  predicate InFirstOrder(col: seq<string>, d: seq<string>) {
    forall i, j :: 0 <= i < j < |d| && d[i] in col && d[j] in col ==> FirstIndex(col, d[i]) < FirstIndex(col, d[j])
  }

  /** Appending a value not seen before keeps the order of first occurrences. */
  lemma OrderStep(col: seq<string>, d: seq<string>)
    requires col != []
    requires forall x :: x in d ==> x in col[..|col| - 1]
    requires InFirstOrder(col[..|col| - 1], d)
    requires col[|col| - 1] !in col[..|col| - 1]
    ensures InFirstOrder(col, d + [col[|col| - 1]])
  {
    var init, last := col[..|col| - 1], col[|col| - 1];
    assert col == init + [last];
    var e := d + [last];
    assert FirstIndex(col, last) == |init|;
    forall i, j | 0 <= i < j < |e| && e[i] in col && e[j] in col
      ensures FirstIndex(col, e[i]) < FirstIndex(col, e[j])
    {
      assert e[i] == d[i] && d[i] in d;
      FirstIndexSnoc(init, last, d[i]);
      if j < |d| {
        assert e[j] == d[j] && d[j] in d;
        FirstIndexSnoc(init, last, d[j]);
      }
    }
  }

  /** Appending a value seen before keeps the order of first occurrences. */
  lemma OrderKeep(col: seq<string>, d: seq<string>)
    requires col != []
    requires forall x :: x in d ==> x in col[..|col| - 1]
    requires InFirstOrder(col[..|col| - 1], d)
    ensures InFirstOrder(col, d)
  {
    var init, last := col[..|col| - 1], col[|col| - 1];
    assert col == init + [last];
    forall i, j | 0 <= i < j < |d| && d[i] in col && d[j] in col
      ensures FirstIndex(col, d[i]) < FirstIndex(col, d[j])
    {
      assert d[i] in d && d[j] in d;
      FirstIndexSnoc(init, last, d[i]);
      FirstIndexSnoc(init, last, d[j]);
    }
  }

  lemma {:induction false} DistinctOrder(col: seq<string>)
    ensures InFirstOrder(col, Distinct(col))
    decreases |col|
  {
    if col != [] {
      var init := col[..|col| - 1];
      DistinctOrder(init);
      DistinctMembers(init);
      if col[|col| - 1] in Distinct(init) {
        OrderKeep(col, Distinct(init));
      } else {
        OrderStep(col, Distinct(init));
      }
    }
  }

  /** `Distinct` lists every value of the column once, in the order of the
      values' first occurrences. */
  lemma DistinctFacts(col: seq<string>)
    ensures var d := Distinct(col);
      && (forall x :: x in d <==> x in col)
      && (forall i, j :: 0 <= i < j < |d| ==> d[i] != d[j])
      && (forall i, j :: 0 <= i < j < |d| ==> FirstIndex(col, d[i]) < FirstIndex(col, d[j]))
  {
    DistinctMembers(col);
    DistinctNoRepeats(col);
    DistinctOrder(col);
  }

  /** The entry for key `k`, if the association list has one. */
  function KeyIndex(counts: seq<(string, nat)>, k: string): (r: Option<nat>)
    ensures r.Some? ==> r.value < |counts| && counts[r.value].0 == k
    ensures r.None? ==> forall j :: 0 <= j < |counts| ==> counts[j].0 != k
  {
    if counts == [] then None
    else if counts[|counts| - 1].0 == k then Some(|counts| - 1)
    else KeyIndex(counts[..|counts| - 1], k)
  }

  /** `counts[k] = counts.get(k, 0) + 1` on an insertion-ordered dict. */
  function Bump(counts: seq<(string, nat)>, k: string): seq<(string, nat)> {
    match KeyIndex(counts, k)
    case Some(j) => counts[j := (k, counts[j].1 + 1)]
    case None => counts + [(k, 1)]
  }

  /** The count dict after counting every entry of the column in order. */
  function Tallied(col: seq<string>): seq<(string, nat)> {
    if col == [] then [] else Bump(Tallied(col[..|col| - 1]), col[|col| - 1])
  }

  function Keys(counts: seq<(string, nat)>): (r: seq<string>)
    ensures |r| == |counts| && forall i :: 0 <= i < |counts| ==> r[i] == counts[i].0
  {
    if counts == [] then [] else Keys(counts[..|counts| - 1]) + [counts[|counts| - 1].0]
  }

  /** The sum of the counts. */
  function Total(counts: seq<(string, nat)>): nat {
    if counts == [] then 0 else Total(counts[..|counts| - 1]) + counts[|counts| - 1].1
  }

  lemma {:induction false} TotalUpdate(counts: seq<(string, nat)>, j: nat, e: (string, nat))
    requires j < |counts|
    ensures Total(counts[j := e]) + counts[j].1 == Total(counts) + e.1
    decreases |counts|
  {
    var n := |counts| - 1;
    if j < n {
      assert counts[j := e][..n] == counts[..n][j := e];
      TotalUpdate(counts[..n], j, e);
    } else {
      assert counts[j := e][..n] == counts[..n];
    }
  }

  lemma {:induction false} TalliedKeys(col: seq<string>)
    ensures Keys(Tallied(col)) == Distinct(col)
    decreases |col|
  {
    if col != [] {
      var init := col[..|col| - 1];
      var k := col[|col| - 1];
      TalliedKeys(init);
      var before := Tallied(init);
      match KeyIndex(before, k) {
        case Some(j) =>
          assert Keys(before)[j] == k;
          assert Keys(Tallied(col)) == Keys(before);
        case None =>
          assert k !in Distinct(init) by {
            forall i | 0 <= i < |Distinct(init)|
              ensures Distinct(init)[i] != k
            {
              assert Keys(before)[i] == before[i].0;
            }
          }
          assert Keys(Tallied(col)) == Keys(before) + [k];
      }
    }
  }

  lemma {:induction false} TalliedTotal(col: seq<string>)
    ensures Total(Tallied(col)) == |col|
    decreases |col|
  {
    if col != [] {
      var init := col[..|col| - 1];
      var k := col[|col| - 1];
      TalliedTotal(init);
      var before := Tallied(init);
      match KeyIndex(before, k) {
        case Some(j) =>
          TotalUpdate(before, j, (k, before[j].1 + 1));
        case None =>
          assert (before + [(k, 1)])[..|before|] == before;
      }
    }
  }

  lemma OccursSnoc(col: seq<string>, k: string, x: string)
    ensures Occurs(col + [k], x) == Occurs(col, x) + (if k == x then 1 else 0)
  {
    assert (col + [k])[..|col|] == col;
  }

  /** Bumping a key already present keeps every count right. */
  lemma BumpPresent(counts: seq<(string, nat)>, col: seq<string>, k: string, j: nat, after: seq<(string, nat)>)
    requires j < |counts| && counts[j].0 == k
    requires after == counts[j := (k, counts[j].1 + 1)]
    requires NoRepeats(Keys(counts))
    requires forall i :: 0 <= i < |counts| ==> counts[i].1 == Occurs(col, counts[i].0)
    ensures forall i :: 0 <= i < |after| ==> after[i].1 == Occurs(col + [k], after[i].0)
  {
    forall i | 0 <= i < |after|
      ensures after[i].1 == Occurs(col + [k], after[i].0)
    {
      OccursSnoc(col, k, after[i].0);
      if i != j {
        assert Keys(counts)[i] != Keys(counts)[j];
      }
    }
  }

  /** Adding a key not yet present, with count one, keeps every count right. */
  lemma BumpAbsent(counts: seq<(string, nat)>, col: seq<string>, k: string)
    requires k !in col
    requires forall i :: 0 <= i < |counts| ==> counts[i].0 != k
    requires forall i :: 0 <= i < |counts| ==> counts[i].1 == Occurs(col, counts[i].0)
    ensures forall i :: 0 <= i < |counts| + 1 ==> (counts + [(k, 1)])[i].1 == Occurs(col + [k], (counts + [(k, 1)])[i].0)
  {
    var after := counts + [(k, 1)];
    OccursAbsent(col, k);
    forall i | 0 <= i < |after|
      ensures after[i].1 == Occurs(col + [k], after[i].0)
    {
      OccursSnoc(col, k, after[i].0);
    }
  }

  /** Counting one more entry keeps the counts of a dict keyed by the
      distinct entries right. */
  lemma BumpCounts(counts: seq<(string, nat)>, col: seq<string>, k: string)
    requires Keys(counts) == Distinct(col)
    requires forall i :: 0 <= i < |counts| ==> counts[i].1 == Occurs(col, counts[i].0)
    ensures forall i :: 0 <= i < |Bump(counts, k)| ==> Bump(counts, k)[i].1 == Occurs(col + [k], Bump(counts, k)[i].0)
  {
    match KeyIndex(counts, k) {
      case Some(j) =>
        DistinctNoRepeats(col);
        BumpPresent(counts, col, k, j, Bump(counts, k));
      case None =>
        DistinctMembers(col);
        assert forall i :: 0 <= i < |Keys(counts)| ==> Keys(counts)[i] != k;
        assert k !in Keys(counts);
        BumpAbsent(counts, col, k);
    }
  }

  lemma {:induction false} TalliedCounts(col: seq<string>)
    ensures forall j :: 0 <= j < |Tallied(col)| ==> Tallied(col)[j].1 == Occurs(col, Tallied(col)[j].0)
    decreases |col|
  {
    if col != [] {
      var init := col[..|col| - 1];
      var k := col[|col| - 1];
      TalliedCounts(init);
      TalliedKeys(init);
      BumpCounts(Tallied(init), init, k);
      assert col == init + [k];
    }
  }

  /** The count dict has the column's distinct values as its keys, in
      first-occurrence order, each with its number of occurrences, and the
      counts add up to the length of the column. */
  lemma TalliedFacts(col: seq<string>)
    ensures Keys(Tallied(col)) == Distinct(col)
    ensures forall j :: 0 <= j < |Tallied(col)| ==> Tallied(col)[j].1 == Occurs(col, Tallied(col)[j].0)
    ensures Total(Tallied(col)) == |col|
  {
    TalliedKeys(col);
    TalliedCounts(col);
    TalliedTotal(col);
  }

  /** The occurrences in the column of each of `keys`, added up. */
  function SumOver(col: seq<string>, keys: seq<string>): nat {
    if keys == [] then 0 else SumOver(col, keys[..|keys| - 1]) + Occurs(col, keys[|keys| - 1])
  }

  predicate NoRepeats(keys: seq<string>) {
    forall i, j :: 0 <= i < j < |keys| ==> keys[i] != keys[j]
  }

  lemma {:induction false} SumOverSnoc(col: seq<string>, x: string, keys: seq<string>)
    requires NoRepeats(keys)
    ensures SumOver(col + [x], keys) == SumOver(col, keys) + (if x in keys then 1 else 0)
    decreases |keys|
  {
    if keys != [] {
      var init := keys[..|keys| - 1];
      assert (col + [x])[..|col|] == col;
      SumOverSnoc(col, x, init);
      assert x in keys <==> x in init || x == keys[|keys| - 1];
      if x in init {
        var i :| 0 <= i < |init| && init[i] == x;
        assert keys[i] == x;
      }
    }
  }

  /** When every entry is one of `keys` and no key repeats, the counts of the
      keys add up to the length of the column. */
  lemma {:induction false} SumOverAll(col: seq<string>, keys: seq<string>)
    requires NoRepeats(keys)
    requires forall i :: 0 <= i < |col| ==> col[i] in keys
    ensures SumOver(col, keys) == |col|
    decreases |col|
  {
    if col == [] {
      SumOverEmpty(keys);
    } else {
      var init := col[..|col| - 1];
      assert col == init + [col[|col| - 1]];
      SumOverAll(init, keys);
      SumOverSnoc(init, col[|col| - 1], keys);
    }
  }

  lemma {:induction false} SumOverEmpty(keys: seq<string>)
    ensures SumOver([], keys) == 0
    decreases |keys|
  {
    if keys != [] {
      SumOverEmpty(keys[..|keys| - 1]);
    }
  }
}
