/** Ordering by date, newest first: the order of the dashboard's date groups and
    of the diary index (`orderBy('date', 'desc')`). */
module DateOrder {
  import opened Common

  /** No element is on an earlier day than an element after it. */
  predicate NewestFirst<T>(s: seq<T>, key: T -> Date)
  {
    forall j, k :: 0 <= j < k < |s| ==> !Earlier(key(s[j]), key(s[k]))
  }

  /** Puts `x` in front of the first element that is not newer than it. */
  function Insert<T>(x: T, s: seq<T>, key: T -> Date): seq<T>
  {
    if s == [] then [x]
    else if !Earlier(key(x), key(s[0])) then [x] + s
    else [s[0]] + Insert(x, s[1..], key)
  }

  /** Insertion sort, newest first; of two elements on the same day the one that
      came first stays first. */
  function SortNewestFirst<T>(s: seq<T>, key: T -> Date): seq<T>
  {
    if s == [] then [] else Insert(s[0], SortNewestFirst(s[1..], key), key)
  }

  lemma {:induction false} InsertPermutes<T>(x: T, s: seq<T>, key: T -> Date)
    ensures multiset(Insert(x, s, key)) == multiset(s) + multiset{x}
  {
    if s != [] && Earlier(key(x), key(s[0])) {
      InsertPermutes(x, s[1..], key);
      assert s == [s[0]] + s[1..];
    }
  }

  lemma {:induction false} InsertKeepsOrder<T>(x: T, s: seq<T>, key: T -> Date)
    requires NewestFirst(s, key)
    ensures NewestFirst(Insert(x, s, key), key)
  {
    if s == [] {
    } else if !Earlier(key(x), key(s[0])) {
      var r := [x] + s;
      forall j, k | 0 <= j < k < |r| ensures !Earlier(key(r[j]), key(r[k])) {
        if j == 0 {
          EarlierIsStrictTotalOrder(key(s[0]), key(x), key(s[k - 1]));
          EarlierIsStrictTotalOrder(key(x), key(s[0]), key(s[k - 1]));
        }
      }
    } else {
      var t := Insert(x, s[1..], key);
      InsertKeepsOrder(x, s[1..], key);
      InsertPermutes(x, s[1..], key);
      var r := [s[0]] + t;
      forall j, k | 0 <= j < k < |r| ensures !Earlier(key(r[j]), key(r[k])) {
        if j == 0 {
          var y := t[k - 1];
          assert y in multiset(t);
          if y == x {
            EarlierIsStrictTotalOrder(key(x), key(s[0]), key(s[0]));
          } else {
            assert y in s[1..];
            var i :| 0 <= i < |s[1..]| && s[1..][i] == y;
            assert s[i + 1] == y;
          }
        }
      }
    }
  }

  lemma {:induction false} InsertKeepsDistinct<T>(x: T, s: seq<T>, key: T -> Date)
    requires Distinct(s) && x !in s
    ensures Distinct(Insert(x, s, key))
  {
    if s != [] && Earlier(key(x), key(s[0])) {
      var t := Insert(x, s[1..], key);
      assert forall i :: 0 <= i < |s[1..]| ==> s[1..][i] == s[i + 1];
      InsertKeepsDistinct(x, s[1..], key);
      InsertPermutes(x, s[1..], key);
      assert s[0] !in multiset(t);
      var r := [s[0]] + t;
      forall j, k | 0 <= j < k < |r| ensures r[j] != r[k] {
        if j == 0 {
          assert r[k] == t[k - 1];
        }
      }
    }
  }

  /** The sort returns a permutation of its input, newest first, and keeps
      distinct elements distinct. */
  lemma {:induction false} SortNewestFirstCorrect<T>(s: seq<T>, key: T -> Date)
    ensures multiset(SortNewestFirst(s, key)) == multiset(s)
    ensures NewestFirst(SortNewestFirst(s, key), key)
    ensures Distinct(s) ==> Distinct(SortNewestFirst(s, key))
  {
    if s != [] {
      var t := SortNewestFirst(s[1..], key);
      SortNewestFirstCorrect(s[1..], key);
      InsertPermutes(s[0], t, key);
      InsertKeepsOrder(s[0], t, key);
      assert s == [s[0]] + s[1..];
      if Distinct(s) {
        assert forall i :: 0 <= i < |s[1..]| ==> s[1..][i] == s[i + 1];
        assert Distinct(s[1..]);
        assert s[0] !in multiset(t);
        InsertKeepsDistinct(s[0], t, key);
      }
    }
  }
}
