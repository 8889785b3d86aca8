/**
 * `sorted(category_counts.items(), key=lambda x: x[1], reverse=True)[:5]`
 * (create_google_doc.py:132): a stable sort by count, largest first, cut to
 * five entries. Python's sort keeps entries with equal keys in their original
 * order even with `reverse=True`.
 */
module Ranking {

  type Entry = (string, nat)

  predicate SortedDesc(s: seq<Entry>) {
    forall i, j :: 0 <= i < j < |s| ==> s[i].1 >= s[j].1
  }

  /** The entries with count `c`, in order. */
  function WithCount(s: seq<Entry>, c: nat): seq<Entry> {
    if s == [] then [] else (if s[0].1 == c then [s[0]] else []) + WithCount(s[1..], c)
  }

  /** Places `x` after every entry whose count is at least its own. */
  function Insert(x: Entry, s: seq<Entry>): seq<Entry> {
    if s == [] then [x]
    else if s[0].1 >= x.1 then [s[0]] + Insert(x, s[1..])
    else [x] + s
  }

  /** Insertion sort, inserting the entries in their order. */
  function SortByCount(items: seq<Entry>): seq<Entry> {
    if items == [] then [] else Insert(items[|items| - 1], SortByCount(items[..|items| - 1]))
  }

  /** The five largest counts, ties in the original order. */
  function Top(items: seq<Entry>): seq<Entry> {
    var sorted := SortByCount(items);
    if |sorted| <= 5 then sorted else sorted[..5]
  }

  lemma {:induction false} WithCountAppend(a: seq<Entry>, b: seq<Entry>, c: nat)
    ensures WithCount(a + b, c) == WithCount(a, c) + WithCount(b, c)
    decreases |a|
  {
    if a == [] {
      assert a + b == b;
    } else {
      var head := if a[0].1 == c then [a[0]] else [];
      assert (a + b)[0] == a[0] && (a + b)[1..] == a[1..] + b;
      assert WithCount(a + b, c) == head + WithCount(a[1..] + b, c);
      WithCountAppend(a[1..], b, c);
      assert head + (WithCount(a[1..], c) + WithCount(b, c)) == (head + WithCount(a[1..], c)) + WithCount(b, c);
    }
  }

  lemma {:induction false} WithCountNone(s: seq<Entry>, c: nat)
    requires forall i :: 0 <= i < |s| ==> s[i].1 < c
    ensures WithCount(s, c) == []
    decreases |s|
  {
    if s != [] {
      WithCountNone(s[1..], c);
    }
  }

  /** Inserting adds exactly `x`. */
  lemma {:induction false} InsertPermutes(x: Entry, s: seq<Entry>)
    ensures multiset(Insert(x, s)) == multiset(s) + multiset{x}
    decreases |s|
  {
    if s != [] && s[0].1 >= x.1 {
      InsertPermutes(x, s[1..]);
      assert s == [s[0]] + s[1..];
    }
  }

  /** Inserting into a sorted list keeps it sorted. */
  lemma {:induction false} InsertSorted(x: Entry, s: seq<Entry>)
    requires SortedDesc(s)
    ensures SortedDesc(Insert(x, s))
    decreases |s|
  {
    if s != [] && s[0].1 >= x.1 {
      var rest := Insert(x, s[1..]);
      InsertSorted(x, s[1..]);
      InsertPermutes(x, s[1..]);
      var r := [s[0]] + rest;
      forall i, j | 0 <= i < j < |r|
        ensures r[i].1 >= r[j].1
      {
        if i == 0 {
          assert r[j] == rest[j - 1];
          assert r[j] in multiset(s[1..]) + multiset{x};
          if r[j] != x {
            assert r[j] in s[1..];
          }
        } else {
          assert r[i] == rest[i - 1] && r[j] == rest[j - 1];
        }
      }
    }
  }

  lemma WithCountCons(e: Entry, s: seq<Entry>, c: nat)
    ensures WithCount([e] + s, c) == (if e.1 == c then [e] else []) + WithCount(s, c)
  {
    assert ([e] + s)[1..] == s;
  }

  lemma SortedTail(s: seq<Entry>)
    requires s != [] && SortedDesc(s)
    ensures SortedDesc(s[1..])
  {
    forall i, j | 0 <= i < j < |s[1..]|
      ensures s[1..][i].1 >= s[1..][j].1
    {
      assert s[1..][i] == s[i + 1] && s[1..][j] == s[j + 1];
    }
  }

  /** An entry larger than the head of a sorted list goes in front, and no
      entry of its count follows it. */
  lemma InsertFront(x: Entry, s: seq<Entry>, c: nat)
    requires s != [] && SortedDesc(s) && s[0].1 < x.1
    ensures WithCount(Insert(x, s), c) == WithCount(s, c) + (if x.1 == c then [x] else [])
  {
    WithCountCons(x, s, c);
    if x.1 == c {
      assert forall i :: 0 <= i < |s| ==> s[i].1 <= s[0].1;
      WithCountNone(s, c);
    }
  }

  /** Inserting into a sorted list puts `x` after the entries that share its
      count and moves no other entry of any count out of order. */
  lemma {:induction false} InsertStable(x: Entry, s: seq<Entry>, c: nat)
    requires SortedDesc(s)
    ensures WithCount(Insert(x, s), c) == WithCount(s, c) + (if x.1 == c then [x] else [])
    decreases |s|
  {
    if s == [] {
      WithCountCons(x, [], c);
      assert [x] + [] == [x];
    } else if s[0].1 >= x.1 {
      var tail: seq<Entry> := if x.1 == c then [x] else [];
      var head: seq<Entry> := if s[0].1 == c then [s[0]] else [];
      SortedTail(s);
      InsertStable(x, s[1..], c);
      WithCountCons(s[0], Insert(x, s[1..]), c);
      WithCountCons(s[0], s[1..], c);
      assert s == [s[0]] + s[1..];
      assert head + (WithCount(s[1..], c) + tail) == (head + WithCount(s[1..], c)) + tail;
    } else {
      InsertFront(x, s, c);
    }
  }

  lemma {:induction false} SortSorted(items: seq<Entry>)
    ensures SortedDesc(SortByCount(items))
    decreases |items|
  {
    if items != [] {
      var init := items[..|items| - 1];
      SortSorted(init);
      InsertSorted(items[|items| - 1], SortByCount(init));
    }
  }

  lemma {:induction false} SortPermutes(items: seq<Entry>)
    ensures multiset(SortByCount(items)) == multiset(items)
    decreases |items|
  {
    if items != [] {
      var init := items[..|items| - 1];
      var x := items[|items| - 1];
      SortPermutes(init);
      InsertPermutes(x, SortByCount(init));
      assert items == init + [x];
    }
  }

  lemma {:induction false} SortStable(items: seq<Entry>, c: nat)
    ensures WithCount(SortByCount(items), c) == WithCount(items, c)
    decreases |items|
  {
    if items != [] {
      var init := items[..|items| - 1];
      var x := items[|items| - 1];
      SortStable(init, c);
      SortSorted(init);
      InsertStable(x, SortByCount(init), c);
      WithCountAppend(init, [x], c);
      var single: seq<Entry> := [x];
      assert single[1..] == [];
      assert items == init + [x];
    }
  }

  /** The sort orders by count, largest first, is a permutation of its input,
      and keeps entries of equal count in their input order. */
  lemma SortFacts(items: seq<Entry>)
    ensures SortedDesc(SortByCount(items))
    ensures multiset(SortByCount(items)) == multiset(items)
    ensures forall c :: WithCount(SortByCount(items), c) == WithCount(items, c)
  {
    SortSorted(items);
    SortPermutes(items);
    forall c
      ensures WithCount(SortByCount(items), c) == WithCount(items, c)
    {
      SortStable(items, c);
    }
  }

  /** The first `k` entries of a list sorted largest first. */
  lemma CutFacts(sorted: seq<Entry>, k: nat)
    requires SortedDesc(sorted) && k <= |sorted|
    ensures SortedDesc(sorted[..k])
    ensures multiset(sorted[..k]) <= multiset(sorted)
    ensures forall i, j :: 0 <= i < k <= j < |sorted| ==> sorted[j].1 <= sorted[..k][i].1
  {
    assert sorted == sorted[..k] + sorted[k..];
    assert multiset(sorted) == multiset(sorted[..k]) + multiset(sorted[k..]);
  }

  /** At most five entries are listed, largest first, drawn from the input,
      and no entry left out has a larger count than one listed. */
  lemma TopFacts(items: seq<Entry>)
    ensures |Top(items)| == if |items| <= 5 then |items| else 5
    ensures SortedDesc(Top(items))
    ensures multiset(Top(items)) <= multiset(items)
    ensures forall i, j :: 0 <= i < |Top(items)| <= j < |SortByCount(items)| ==>
      SortByCount(items)[j].1 <= Top(items)[i].1
  {
    var sorted := SortByCount(items);
    SortSorted(items);
    SortPermutes(items);
    assert |sorted| == |multiset(sorted)| == |items|;
    CutFacts(sorted, if |sorted| <= 5 then |sorted| else 5);
    assert sorted[..|sorted|] == sorted;
  }
}
