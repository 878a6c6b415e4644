/** `sorted(entries, key=lambda e: e.time_period)`, used three times in
    agents/diary/diary_nodes.py. Python's sort is stable, so the result is
    fully determined: it is ordered by time, and among entries with the same
    time the original order is kept. The model sorts by insertion, placing
    each entry after every earlier one whose time is not later, and proves
    that any ordering with those two properties is this one. */
module TimeSort {
  import opened Models

  function Key(e: DiaryEntry): nat {
    TimeKey(e.timePeriod)
  }

  ghost predicate SortedByTime(s: seq<DiaryEntry>) {
    forall i, j :: 0 <= i < j < |s| ==> Key(s[i]) <= Key(s[j])
  }

  /** The entries of `s` whose time has key `k`, in their order in `s`. */
  function WithKey(s: seq<DiaryEntry>, k: nat): seq<DiaryEntry>
    decreases |s|
  {
    if s == [] then []
    else WithKey(s[..|s| - 1], k) + (if Key(s[|s| - 1]) == k then [s[|s| - 1]] else [])
  }

  /** Stability: for every time, the entries at that time appear in the same
      relative order in `t` as in `s`. */
  ghost predicate SameOrderPerTime(s: seq<DiaryEntry>, t: seq<DiaryEntry>) {
    forall k :: WithKey(s, k) == WithKey(t, k)
  }

  lemma {:induction false} WithKeyAppend(a: seq<DiaryEntry>, b: seq<DiaryEntry>, k: nat)
    ensures WithKey(a + b, k) == WithKey(a, k) + WithKey(b, k)
    decreases |b|
  {
    if b == [] {
      assert a + b == a;
    } else {
      var c := b[..|b| - 1];
      assert (a + b)[..|a + b| - 1] == a + c;
      WithKeyAppend(a, c, k);
    }
  }

  /** Puts `x` right after the last entry whose time is not later than its own. */
  function Insert(s: seq<DiaryEntry>, x: DiaryEntry): (r: seq<DiaryEntry>)
    ensures |r| == |s| + 1
    decreases |s|
  {
    if s == [] || Key(s[|s| - 1]) <= Key(x) then s + [x]
    else Insert(s[..|s| - 1], x) + [s[|s| - 1]]
  }

  /** Insertion adds `x` and loses nothing. */
  lemma {:induction false} InsertPermutes(s: seq<DiaryEntry>, x: DiaryEntry)
    ensures multiset(Insert(s, x)) == multiset(s) + multiset{x}
    decreases |s|
  {
    if s != [] && Key(s[|s| - 1]) > Key(x) {
      InsertPermutes(s[..|s| - 1], x);
      assert s == s[..|s| - 1] + [s[|s| - 1]];
    }
  }

  /** Inserting keeps every key under a bound that all keys already meet. */
  lemma {:induction false} InsertBounded(s: seq<DiaryEntry>, x: DiaryEntry, b: nat)
    requires forall i :: 0 <= i < |s| ==> Key(s[i]) <= b
    requires Key(x) <= b
    ensures forall i :: 0 <= i < |Insert(s, x)| ==> Key(Insert(s, x)[i]) <= b
    decreases |s|
  {
    if s != [] && Key(s[|s| - 1]) > Key(x) {
      InsertBounded(s[..|s| - 1], x, b);
    }
  }

  lemma {:induction false} InsertSorted(s: seq<DiaryEntry>, x: DiaryEntry)
    requires SortedByTime(s)
    ensures SortedByTime(Insert(s, x))
    decreases |s|
  {
    if s != [] && Key(s[|s| - 1]) > Key(x) {
      var init, last := s[..|s| - 1], s[|s| - 1];
      InsertSorted(init, x);
      InsertBounded(init, x, Key(last));
      var r := Insert(init, x);
      var res := r + [last];
      assert Insert(s, x) == res;
      forall i, j | 0 <= i < j < |res| ensures Key(res[i]) <= Key(res[j]) {
        assert res[i] == r[i];
        if j < |r| {
          assert res[j] == r[j];
        }
      }
    }
  }

  /** Filtering a list with one more entry at the end. */
  lemma WithKeySnoc(r: seq<DiaryEntry>, y: DiaryEntry, k: nat)
    ensures WithKey(r + [y], k) == WithKey(r, k) + (if Key(y) == k then [y] else [])
  {
    assert (r + [y])[..|r|] == r;
  }

  lemma {:induction false} InsertKeepsOrderPerTime(s: seq<DiaryEntry>, x: DiaryEntry, k: nat)
    ensures WithKey(Insert(s, x), k) == WithKey(s, k) + WithKey([x], k)
    decreases |s|
  {
    WithKeySnoc([], x, k);
    assert [] + [x] == [x];
    if s == [] || Key(s[|s| - 1]) <= Key(x) {
      WithKeySnoc(s, x, k);
    } else {
      var init, last := s[..|s| - 1], s[|s| - 1];
      InsertKeepsOrderPerTime(init, x, k);
      var r := Insert(init, x);
      assert Insert(s, x) == r + [last];
      WithKeySnoc(r, last, k);
      assert s == init + [last];
      WithKeySnoc(init, last, k);
      // `x` sorts strictly before `last`, so at most one of them has key `k`.
    }
  }

  /** The stable sort by time of day. */
  function SortByTime(s: seq<DiaryEntry>): (r: seq<DiaryEntry>)
    ensures |r| == |s|
    decreases |s|
  {
    if s == [] then [] else Insert(SortByTime(s[..|s| - 1]), s[|s| - 1])
  }

  /** One step of the sort: if sorting `init` kept the entries at time `k`
      in order, inserting `last` keeps them in order too. */
  lemma SortStepKeepsOrder(init: seq<DiaryEntry>, last: DiaryEntry, k: nat)
    requires WithKey(init, k) == WithKey(SortByTime(init), k)
    ensures WithKey(init + [last], k) == WithKey(SortByTime(init + [last]), k)
  {
    var s := init + [last];
    assert s[..|s| - 1] == init && s[|s| - 1] == last;
    assert SortByTime(s) == Insert(SortByTime(init), last);
    InsertKeepsOrderPerTime(SortByTime(init), last, k);
    assert WithKey([last], k) == (if Key(last) == k then [last] else []) by {
      assert [last][..0] == [];
    }
  }

  /** The sorted list is ordered by time, is a permutation of the input, and
      keeps the input order among entries with equal times. */
  lemma {:induction false} SortByTimeCorrect(s: seq<DiaryEntry>)
    ensures SortedByTime(SortByTime(s))
    ensures multiset(SortByTime(s)) == multiset(s)
    ensures SameOrderPerTime(s, SortByTime(s))
    decreases |s|
  {
    if s != [] {
      var init, last := s[..|s| - 1], s[|s| - 1];
      SortByTimeCorrect(init);
      InsertSorted(SortByTime(init), last);
      InsertPermutes(SortByTime(init), last);
      assert s == init + [last];
      forall k ensures WithKey(s, k) == WithKey(SortByTime(s), k) {
        SortStepKeepsOrder(init, last, k);
      }
    }
  }

  /** Two time-ordered lists that agree, time by time, on which entries occur
      and in what order are the same list. */
  lemma {:induction false} SortedUnique(t: seq<DiaryEntry>, u: seq<DiaryEntry>)
    requires SortedByTime(t) && SortedByTime(u)
    requires SameOrderPerTime(t, u)
    ensures t == u
    decreases |t| + |u|
  {
    if t == [] && u == [] {
    } else if t == [] || u == [] {
      // the last entry of the non-empty list is missing from the other
      var w := if t == [] then u else t;
      LastHasItsKey(w);
      assert false;
    } else {
      var kt, ku := Key(t[|t| - 1]), Key(u[|u| - 1]);
      MaxKeyBound(t, ku);
      MaxKeyBound(u, kt);
      assert kt == ku;
      var t', u' := t[..|t| - 1], u[..|u| - 1];
      var tl, ul := t[|t| - 1], u[|u| - 1];
      assert tl == ul by {
        var wt, wu := WithKey(t, kt), WithKey(u, kt);
        assert wt == WithKey(t', kt) + [tl];
        assert wu == WithKey(u', kt) + [ul];
        assert wt[|wt| - 1] == tl && wu[|wu| - 1] == ul;
      }
      forall k ensures WithKey(t', k) == WithKey(u', k) {
        var c := if Key(tl) == k then [tl] else [];
        var w := WithKey(t, k);
        assert w == WithKey(t', k) + c;
        assert w == WithKey(u', k) + c;
        assert WithKey(t', k) == w[..|w| - |c|];
        assert WithKey(u', k) == w[..|w| - |c|];
      }
      assert SortedByTime(t') && SortedByTime(u');
      SortedUnique(t', u');
    }
  }

  lemma LastHasItsKey(s: seq<DiaryEntry>)
    requires s != []
    ensures WithKey(s, Key(s[|s| - 1])) != []
  {
  }

  /** In a time-ordered list, an entry with key `k` exists only if the last
      entry's key is at least `k`. */
  lemma MaxKeyBound(s: seq<DiaryEntry>, k: nat)
    requires SortedByTime(s) && s != []
    requires WithKey(s, k) != []
    ensures k <= Key(s[|s| - 1])
  {
    var i := WithKeyMember(s, k);
  }

  /** A non-empty filter has a witness in the list. */
  lemma {:induction false} WithKeyMember(s: seq<DiaryEntry>, k: nat) returns (i: nat)
    requires WithKey(s, k) != []
    ensures i < |s| && Key(s[i]) == k
    decreases |s|
  {
    if Key(s[|s| - 1]) == k {
      i := |s| - 1;
    } else {
      i := WithKeyMember(s[..|s| - 1], k);
    }
  }

  /** Hence `SortByTime` is exactly the stable sort: any time-ordered list
      that keeps the input order among equal times is its result. */
  lemma StableSortIsSortByTime(s: seq<DiaryEntry>, t: seq<DiaryEntry>)
    requires SortedByTime(t) && SameOrderPerTime(s, t)
    ensures t == SortByTime(s)
  {
    SortByTimeCorrect(s);
    SortedUnique(t, SortByTime(s));
  }

  /** Sorting keeps every entry valid. */
  lemma SortKeepsValid(s: seq<DiaryEntry>)
    requires AllValid(s)
    ensures AllValid(SortByTime(s))
  {
    var r := SortByTime(s);
    SortByTimeCorrect(s);
    forall i | 0 <= i < |r| ensures ValidEntry(r[i]) {
      assert r[i] in multiset(s);
      var j :| 0 <= j < |s| && s[j] == r[i];
    }
  }
}
