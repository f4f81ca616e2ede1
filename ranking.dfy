/** The top-10 ranking of the relay: a stable sort of the ledger's entries, in
    the document's order, by the key (-play_count, title), cut to ten, and the
    ordered key list that decides whether anything must be republished. */
module Ranking {
  import opened Songs

  /** Number of ranks the relay publishes. */
  const TopN: nat := 10

  /** Python's `<` on str: lexicographic by code point, a proper prefix first. */
  predicate TitleLess(a: string, b: string)
    decreases |a|
  {
    |b| > 0 && (|a| == 0 || a[0] < b[0] || (a[0] == b[0] && TitleLess(a[1..], b[1..])))
  }

  lemma {:induction false} TitleLessIrreflexive(a: string)
    ensures !TitleLess(a, a)
  {
    if |a| > 0 {
      TitleLessIrreflexive(a[1..]);
    }
  }

  lemma {:induction false} TitleLessTransitive(a: string, b: string, c: string)
    requires TitleLess(a, b) && TitleLess(b, c)
    ensures TitleLess(a, c)
  {
    if |a| > 0 && a[0] == b[0] && b[0] == c[0] {
      TitleLessTransitive(a[1..], b[1..], c[1..]);
    }
  }

  lemma {:induction false} TitleLessTotal(a: string, b: string)
    ensures a == b || TitleLess(a, b) || TitleLess(b, a)
  {
    if |a| > 0 && |b| > 0 && a[0] == b[0] {
      TitleLessTotal(a[1..], b[1..]);
      if a[1..] == b[1..] {
        assert a == [a[0]] + a[1..] && b == [b[0]] + b[1..];
      }
    }
  }

  /** x sorts strictly before y under the sort key (-play_count, title). */
  predicate Precedes(x: Entry, y: Entry)
  {
    x.playCount > y.playCount || (x.playCount == y.playCount && TitleLess(x.title, y.title))
  }

  /** x and y have the same sort key; the sort keeps such entries in input order. */
  predicate SameRankKey(x: Entry, y: Entry)
  {
    x.playCount == y.playCount && x.title == y.title
  }

  lemma PrecedesIrreflexive(x: Entry)
    ensures !Precedes(x, x)
  {
    TitleLessIrreflexive(x.title);
  }

  lemma PrecedesTransitive(x: Entry, y: Entry, z: Entry)
    requires Precedes(x, y) && Precedes(y, z)
    ensures Precedes(x, z)
  {
    if x.playCount == y.playCount == z.playCount {
      TitleLessTransitive(x.title, y.title, z.title);
    }
  }

  lemma PrecedesAsymmetric(x: Entry, y: Entry)
    requires Precedes(x, y)
    ensures !Precedes(y, x)
  {
    if Precedes(y, x) {
      PrecedesTransitive(x, y, x);
      PrecedesIrreflexive(x);
    }
  }

  /** The sort key is a total order: any two entries tie or one precedes the other. */
  lemma PrecedesTotal(x: Entry, y: Entry)
    ensures SameRankKey(x, y) || Precedes(x, y) || Precedes(y, x)
  {
    TitleLessTotal(x.title, y.title);
  }

  /** "Not after" is transitive, so a sequence sorted pairwise is sorted. */
  lemma NotAfterTransitive(x: Entry, y: Entry, z: Entry)
    requires !Precedes(y, x) && !Precedes(z, y)
    ensures !Precedes(z, x)
  {
    if Precedes(z, x) {
      PrecedesTotal(x, y);
      if Precedes(x, y) {
        PrecedesTransitive(z, x, y);
      }
    }
  }

  /** No later entry sorts strictly before an earlier one. */
  ghost predicate Sorted(s: seq<Entry>)
  {
    forall i, j :: 0 <= i < j < |s| ==> !Precedes(s[j], s[i])
  }

  /** Inserts x before the first entry that does not precede it, that is, before
      every entry with the same sort key: the step of a stable insertion sort. */
  function Insert(x: Entry, s: seq<Entry>): (r: seq<Entry>)
    ensures multiset(r) == multiset(s) + multiset{x}
    ensures |r| == |s| + 1
  {
    if |s| == 0 then [x]
    else if Precedes(s[0], x) then
      assert s == [s[0]] + s[1..];
      [s[0]] + Insert(x, s[1..])
    else [x] + s
  }

  /** Python's stable `sorted` with key (-play_count, title). */
  function Sort(s: seq<Entry>): (r: seq<Entry>)
    ensures multiset(r) == multiset(s)
    ensures |r| == |s|
  {
    if |s| == 0 then []
    else
      assert s == [s[0]] + s[1..];
      Insert(s[0], Sort(s[1..]))
  }

  /** The top ten of the ledger's entries, given in the document's order. */
  function Rank(data: seq<Entry>): (r: seq<Entry>)
    ensures |r| == if |data| < TopN then |data| else TopN
    ensures multiset(r) <= multiset(data)
  {
    var sorted := Sort(data);
    var n := if |sorted| < TopN then |sorted| else TopN;
    assert sorted == sorted[..n] + sorted[n..];
    sorted[..n]
  }

  /** The `title::artist::album` keys of a ranking, rank by rank. */
  function TopKeys(r: seq<Entry>): (keys: seq<string>)
    ensures |keys| == |r|
    ensures forall i :: 0 <= i < |r| ==> keys[i] == EntryKey(r[i])
  {
    seq(|r|, i requires 0 <= i < |r| => EntryKey(r[i]))
  }

  lemma {:induction false} InsertSorted(x: Entry, s: seq<Entry>)
    requires Sorted(s)
    ensures Sorted(Insert(x, s))
  {
    if |s| == 0 {
    } else if Precedes(s[0], x) {
      var rest := Insert(x, s[1..]);
      InsertSorted(x, s[1..]);
      PrecedesAsymmetric(s[0], x);
      forall j | 0 <= j < |rest|
        ensures !Precedes(rest[j], s[0])
      {
        assert rest[j] in multiset(rest);
        assert rest[j] == x || rest[j] in multiset(s[1..]);
        if rest[j] != x {
          var k :| 0 <= k < |s[1..]| && s[1..][k] == rest[j];
          assert s[k + 1] == rest[j];
        }
      }
      var r := [s[0]] + rest;
      forall i, j | 0 <= i < j < |r|
        ensures !Precedes(r[j], r[i])
      {
        if i > 0 {
          assert r[i] == rest[i - 1] && r[j] == rest[j - 1];
        } else {
          assert r[j] == rest[j - 1];
        }
      }
    } else {
      var r := [x] + s;
      forall i, j | 0 <= i < j < |r|
        ensures !Precedes(r[j], r[i])
      {
        if i == 0 {
          assert r[j] == s[j - 1];
          if j > 1 {
            NotAfterTransitive(x, s[0], s[j - 1]);
          }
        }
      }
    }
  }

  lemma {:induction false} SortSorted(s: seq<Entry>)
    ensures Sorted(Sort(s))
  {
    if |s| > 0 {
      SortSorted(s[1..]);
      InsertSorted(s[0], Sort(s[1..]));
    }
  }

  /** The ranking is ordered by play_count descending, then title ascending. */
  lemma RankSorted(data: seq<Entry>)
    ensures Sorted(Rank(data))
  {
    SortSorted(data);
  }

  /** Top-k: no entry left out of the ranking sorts strictly before one that is in it. */
  lemma RankIsTopK(data: seq<Entry>)
    ensures forall i, e :: 0 <= i < |Rank(data)| && e in multiset(data) - multiset(Rank(data))
              ==> !Precedes(e, Rank(data)[i])
  {
    var sorted := Sort(data);
    var r := Rank(data);
    var n := |r|;
    SortSorted(data);
    assert sorted == r + sorted[n..];
    assert multiset(data) - multiset(r) == multiset(sorted[n..]);
    forall i, e | 0 <= i < n && e in multiset(data) - multiset(r)
      ensures !Precedes(e, r[i])
    {
      assert e in multiset(sorted[n..]);
      var k :| 0 <= k < |sorted[n..]| && sorted[n..][k] == e;
      assert sorted[n + k] == e && sorted[i] == r[i];
    }
  }

  /** The entries of s that share e's sort key, in the order s has them. */
  function KeyClass(s: seq<Entry>, e: Entry): seq<Entry>
  {
    if |s| == 0 then []
    else (if SameRankKey(s[0], e) then [s[0]] else []) + KeyClass(s[1..], e)
  }

  lemma {:induction false} KeyClassAppend(a: seq<Entry>, b: seq<Entry>, e: Entry)
    ensures KeyClass(a + b, e) == KeyClass(a, e) + KeyClass(b, e)
  {
    if |a| > 0 {
      assert (a + b)[1..] == a[1..] + b;
      KeyClassAppend(a[1..], b, e);
    } else {
      assert a + b == b;
    }
  }

  lemma {:induction false} KeyClassInsert(x: Entry, t: seq<Entry>, e: Entry)
    ensures KeyClass(Insert(x, t), e) == if SameRankKey(x, e) then [x] + KeyClass(t, e) else KeyClass(t, e)
  {
    if |t| == 0 {
    } else if Precedes(t[0], x) {
      assert ([t[0]] + Insert(x, t[1..]))[1..] == Insert(x, t[1..]);
      KeyClassInsert(x, t[1..], e);
      if SameRankKey(x, e) && SameRankKey(t[0], e) {
        PrecedesIrreflexive(x);
      }
    } else {
      assert ([x] + t)[1..] == t;
    }
  }

  lemma {:induction false} SortStable(s: seq<Entry>, e: Entry)
    ensures KeyClass(Sort(s), e) == KeyClass(s, e)
  {
    if |s| > 0 {
      SortStable(s[1..], e);
      KeyClassInsert(s[0], Sort(s[1..]), e);
    }
  }

  /** Stability: the ranked entries sharing one sort key are the first of that
      key's entries in the document, in the document's order. */
  lemma RankStable(data: seq<Entry>, e: Entry)
    ensures exists rest :: KeyClass(data, e) == KeyClass(Rank(data), e) + rest
  {
    var sorted := Sort(data);
    var n := |Rank(data)|;
    assert sorted == sorted[..n] + sorted[n..];
    KeyClassAppend(sorted[..n], sorted[n..], e);
    SortStable(data, e);
    assert KeyClass(data, e) == KeyClass(Rank(data), e) + KeyClass(sorted[n..], e);
  }

  /** The sorting step of ScenarioTiesByTitle. */
  lemma SortTiesByTitle()
    ensures Sort([Entry("a", "r", "s", "", 5), Entry("b", "r", "s", "", 2), Entry("a", "q", "s", "", 2)])
      == [Entry("a", "r", "s", "", 5), Entry("a", "q", "s", "", 2), Entry("b", "r", "s", "", 2)]
  {
    var a5 := Entry("a", "r", "s", "", 5);
    var b2 := Entry("b", "r", "s", "", 2);
    var a2 := Entry("a", "q", "s", "", 2);
    assert TitleLess("a", "b");
    assert Sort([a2]) == [a2];
    assert [b2, a2][1..] == [a2];
    assert Insert(b2, [a2]) == [a2] + Insert(b2, []) == [a2, b2];
    assert Sort([b2, a2]) == [a2, b2];
    assert [a5, b2, a2][1..] == [b2, a2];
    assert Insert(a5, [a2, b2]) == [a5, a2, b2];
  }

  /** The higher play_count ranks first, and entries tied on play_count are
      ranked by ascending title, whatever their order in the document. */
  lemma ScenarioTiesByTitle()
    ensures Rank([Entry("a", "r", "s", "", 5), Entry("b", "r", "s", "", 2), Entry("a", "q", "s", "", 2)])
      == [Entry("a", "r", "s", "", 5), Entry("a", "q", "s", "", 2), Entry("b", "r", "s", "", 2)]
  {
    var d := [Entry("a", "r", "s", "", 5), Entry("b", "r", "s", "", 2), Entry("a", "q", "s", "", 2)];
    SortTiesByTitle();
    assert Rank(d) == Sort(d)[..3];
  }

  /** A play_count that grows without reordering the ranking leaves the key
      list as it was, so nothing is republished. */
  lemma ScenarioCountChangeKeepsKeys()
    ensures var x3 := Entry("x", "r", "s", "", 3);
      var x4 := Entry("x", "r", "s", "", 4);
      var y1 := Entry("y", "r", "s", "", 1);
      && Rank([x3, y1]) != Rank([x4, y1])
      && TopKeys(Rank([x3, y1])) == TopKeys(Rank([x4, y1]))
  {
    var x3 := Entry("x", "r", "s", "", 3);
    var x4 := Entry("x", "r", "s", "", 4);
    var y1 := Entry("y", "r", "s", "", 1);
    assert Sort([y1]) == [y1];
    assert Insert(x3, [y1]) == [x3, y1];
    assert Insert(x4, [y1]) == [x4, y1];
    assert Rank([x3, y1]) == [x3, y1];
    assert Rank([x4, y1]) == [x4, y1];
  }
}
