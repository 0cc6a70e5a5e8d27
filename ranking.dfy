/** The model-comparison table of the evaluation view and the ordering applied to it:
    `comparison.sort(key=lambda x: x['acc'], reverse=True)`, a stable sort by accuracy, descending. */
module Ranking {

  /** One comparison row: accuracy in percent, precision, recall and F1 as fractions. */
  datatype Row = Row(name: string, acc: real, prec: real, recall: real, f1: real)

  predicate SortedByAccDesc(s: seq<Row>) {
    forall i, j :: 0 <= i < j < |s| ==> s[i].acc >= s[j].acc
  }

  /** Places r, which came before every row of s in the input, in front of the first row of s
      whose accuracy is not larger than its own, so that equal rows keep their input order. */
  function InsertByAcc(r: Row, s: seq<Row>): seq<Row> {
    if s == [] || s[0].acc <= r.acc then [r] + s else [s[0]] + InsertByAcc(r, s[1..])
  }

  /** Python's list.sort with reverse=True, which stays stable: ties keep their original order. */
  function SortByAccDesc(s: seq<Row>): seq<Row> {
    if s == [] then [] else InsertByAcc(s[0], SortByAccDesc(s[1..]))
  }

  /** The rows whose accuracy is v, in their order in s. */
  function WithAcc(s: seq<Row>, v: real): seq<Row> {
    if s == [] then [] else (if s[0].acc == v then [s[0]] else []) + WithAcc(s[1..], v)
  }

  function Names(s: seq<Row>): (names: seq<string>)
    ensures |names| == |s|
    ensures forall i :: 0 <= i < |s| ==> names[i] == s[i].name
  {
    if s == [] then [] else [s[0].name] + Names(s[1..])
  }

  lemma {:induction false} InsertKeepsSorted(r: Row, s: seq<Row>)
    requires SortedByAccDesc(s)
    ensures SortedByAccDesc(InsertByAcc(r, s))
    ensures |InsertByAcc(r, s)| == |s| + 1
    ensures s != [] ==> InsertByAcc(r, s)[0] == (if s[0].acc <= r.acc then r else s[0])
  {
    if s != [] && s[0].acc > r.acc {
      InsertKeepsSorted(r, s[1..]);
      var t := InsertByAcc(r, s[1..]);
      assert InsertByAcc(r, s) == [s[0]] + t;
      forall j | 0 <= j < |t| ensures s[0].acc >= t[j].acc {
        if s[1..] != [] && t[0] != r {
          assert t[0] == s[1];
        }
        assert t[0].acc <= s[0].acc;
      }
    }
  }

  lemma {:induction false} InsertIsPermutation(r: Row, s: seq<Row>)
    ensures multiset(InsertByAcc(r, s)) == multiset{r} + multiset(s)
  {
    if s != [] && s[0].acc > r.acc {
      InsertIsPermutation(r, s[1..]);
      assert s == [s[0]] + s[1..];
    }
  }

  lemma {:induction false} WithAccAppend(a: seq<Row>, b: seq<Row>, v: real)
    ensures WithAcc(a + b, v) == WithAcc(a, v) + WithAcc(b, v)
  {
    if a == [] {
      assert a + b == b;
    } else {
      var head := if a[0].acc == v then [a[0]] else [];
      assert (a + b)[0] == a[0];
      assert (a + b)[1..] == a[1..] + b;
      WithAccAppend(a[1..], b, v);
      calc {
        WithAcc(a + b, v);
        head + WithAcc(a[1..] + b, v);
        head + (WithAcc(a[1..], v) + WithAcc(b, v));
        (head + WithAcc(a[1..], v)) + WithAcc(b, v);
      }
    }
  }

  lemma {:induction false} InsertWithAcc(r: Row, s: seq<Row>, v: real)
    ensures WithAcc(InsertByAcc(r, s), v) == (if r.acc == v then [r] else []) + WithAcc(s, v)
  {
    if s == [] || s[0].acc <= r.acc {
      WithAccAppend([r], s, v);
    } else {
      InsertWithAcc(r, s[1..], v);
      WithAccAppend([s[0]], InsertByAcc(r, s[1..]), v);
      if s[0].acc == v {
        assert r.acc != v;
      }
    }
  }

  /** The sorted table is ordered by accuracy, descending. */
  lemma {:induction false} SortIsSorted(s: seq<Row>)
    ensures SortedByAccDesc(SortByAccDesc(s))
    ensures |SortByAccDesc(s)| == |s|
  {
    if s != [] {
      SortIsSorted(s[1..]);
      InsertKeepsSorted(s[0], SortByAccDesc(s[1..]));
    }
  }

  /** The sorted table holds exactly the rows it was given. */
  lemma {:induction false} SortIsPermutation(s: seq<Row>)
    ensures multiset(SortByAccDesc(s)) == multiset(s)
  {
    if s != [] {
      SortIsPermutation(s[1..]);
      InsertIsPermutation(s[0], SortByAccDesc(s[1..]));
      assert s == [s[0]] + s[1..];
    }
  }

  /** Stability: for each accuracy value, the rows with that value appear in their input order. */
  lemma {:induction false} SortIsStable(s: seq<Row>, v: real)
    ensures WithAcc(SortByAccDesc(s), v) == WithAcc(s, v)
  {
    if s != [] {
      SortIsStable(s[1..], v);
      InsertWithAcc(s[0], SortByAccDesc(s[1..]), v);
    }
  }

  /** A table that is already in descending order comes out of the sort unchanged. */
  lemma {:induction false} SortFixesSorted(s: seq<Row>)
    requires SortedByAccDesc(s)
    ensures SortByAccDesc(s) == s
  {
    if s != [] {
      assert SortedByAccDesc(s[1..]);
      SortFixesSorted(s[1..]);
      assert s == [s[0]] + s[1..];
    }
  }

  /** Sorting twice is sorting once. */
  lemma SortIdempotent(s: seq<Row>)
    ensures SortByAccDesc(SortByAccDesc(s)) == SortByAccDesc(s)
  {
    SortIsSorted(s);
    SortFixesSorted(SortByAccDesc(s));
  }

  lemma {:induction false} InsertKeepsNames(r: Row, s: seq<Row>)
    ensures multiset(Names(InsertByAcc(r, s))) == multiset{r.name} + multiset(Names(s))
  {
    if s != [] && s[0].acc > r.acc {
      InsertKeepsNames(r, s[1..]);
      assert Names(InsertByAcc(r, s)) == [s[0].name] + Names(InsertByAcc(r, s[1..]));
      assert Names(s) == [s[0].name] + Names(s[1..]);
    } else {
      assert Names(InsertByAcc(r, s)) == [r.name] + Names(s);
    }
  }

  /** The sorted table names the same models, each as often, as the unsorted one. */
  lemma {:induction false} SortKeepsNames(s: seq<Row>)
    ensures multiset(Names(SortByAccDesc(s))) == multiset(Names(s))
  {
    if s != [] {
      SortKeepsNames(s[1..]);
      InsertKeepsNames(s[0], SortByAccDesc(s[1..]));
      assert Names(s) == [s[0].name] + Names(s[1..]);
    }
  }
}
