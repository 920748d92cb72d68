/** The two sorts the pages call on arrays: the default `Array.prototype.sort()` of strings
    (lexicographic), and `sort` by a numeric key, descending (`(a, b) => key(b) - key(a)`).
    Both are library code; they are modelled by insertion sorts that produce the order the
    comparator demands. */
module Sorting {
  import opened Common

  /** The default string order of `sort()`: lexicographic by character, a proper prefix first. */
  predicate LexLess(a: string, b: string)
    decreases |a|
  {
    b != [] && (a == [] || a[0] < b[0] || (a[0] == b[0] && LexLess(a[1..], b[1..])))
  }

  lemma {:induction false} LexIrreflexive(a: string)
    ensures !LexLess(a, a)
    decreases |a|
  {
    if a != [] {
      LexIrreflexive(a[1..]);
    }
  }

  lemma {:induction false} LexTransitive(a: string, b: string, c: string)
    requires LexLess(a, b) && LexLess(b, c)
    ensures LexLess(a, c)
    decreases |a|
  {
    if a != [] && a[0] == b[0] && b[0] == c[0] {
      LexTransitive(a[1..], b[1..], c[1..]);
    }
  }

  lemma {:induction false} LexTotal(a: string, b: string)
    requires a != b
    ensures LexLess(a, b) || LexLess(b, a)
    decreases |a|
  {
    if a != [] && b != [] && a[0] == b[0] {
      assert a == [a[0]] + a[1..] && b == [b[0]] + b[1..];
      LexTotal(a[1..], b[1..]);
    }
  }

  predicate StrictlyAscending(s: seq<string>) {
    forall i, j :: 0 <= i < j < |s| ==> LexLess(s[i], s[j])
  }

  function InsertAsc(x: string, s: seq<string>): seq<string>
    decreases |s|
  {
    if s == [] || !LexLess(s[0], x) then [x] + s else [s[0]] + InsertAsc(x, s[1..])
  }

  /** `keys.sort()`. */
  function SortAsc(s: seq<string>): seq<string>
    decreases |s|
  {
    if s == [] then [] else InsertAsc(s[0], SortAsc(s[1..]))
  }

  lemma {:induction false} InsertAscSpec(x: string, s: seq<string>)
    requires StrictlyAscending(s) && x !in s
    ensures StrictlyAscending(InsertAsc(x, s))
    ensures multiset(InsertAsc(x, s)) == multiset(s) + multiset{x}
  {
    InsertAscSorted(x, s);
    InsertAscPerm(x, s);
  }

  lemma {:induction false} InsertAscPerm(x: string, s: seq<string>)
    ensures multiset(InsertAsc(x, s)) == multiset(s) + multiset{x}
    decreases |s|
  {
    if s != [] && LexLess(s[0], x) {
      InsertAscPerm(x, s[1..]);
      assert s == [s[0]] + s[1..];
    }
  }

  /** Inserting above a bound every entry already exceeds keeps every entry above it. */
  lemma {:induction false} InsertAscBounded(x: string, s: seq<string>, b: string)
    requires LexLess(b, x)
    requires forall k :: 0 <= k < |s| ==> LexLess(b, s[k])
    ensures forall k :: 0 <= k < |InsertAsc(x, s)| ==> LexLess(b, InsertAsc(x, s)[k])
    decreases |s|
  {
    if s != [] && LexLess(s[0], x) {
      InsertAscBounded(x, s[1..], b);
      assert InsertAsc(x, s) == [s[0]] + InsertAsc(x, s[1..]);
    }
  }

  lemma AscendingCons(x: string, t: seq<string>)
    requires StrictlyAscending(t)
    requires forall k :: 0 <= k < |t| ==> LexLess(x, t[k])
    ensures StrictlyAscending([x] + t)
  {
    var u := [x] + t;
    forall i, j | 0 <= i < j < |u| ensures LexLess(u[i], u[j]) {
      assert u[j] == t[j - 1];
      if i > 0 {
        assert u[i] == t[i - 1];
      }
    }
  }

  lemma {:induction false} InsertAscSorted(x: string, s: seq<string>)
    requires StrictlyAscending(s) && x !in s
    ensures StrictlyAscending(InsertAsc(x, s))
    decreases |s|
  {
    if s == [] || !LexLess(s[0], x) {
      if s != [] {
        assert x != s[0];
        LexTotal(x, s[0]);
        forall k | 0 <= k < |s| ensures LexLess(x, s[k]) {
          if k > 0 {
            LexTransitive(x, s[0], s[k]);
          }
        }
      }
      AscendingCons(x, s);
    } else {
      assert s == [s[0]] + s[1..];
      InsertAscSorted(x, s[1..]);
      assert forall k :: 0 <= k < |s[1..]| ==> LexLess(s[0], s[1..][k]) by {
        forall k | 0 <= k < |s[1..]| ensures LexLess(s[0], s[1..][k]) {
          assert s[1..][k] == s[k + 1];
        }
      }
      InsertAscBounded(x, s[1..], s[0]);
      AscendingCons(s[0], InsertAsc(x, s[1..]));
    }
  }

  /** Sorting distinct keys yields them in strictly ascending order, none lost or added. */
  lemma {:induction false} SortAscSpec(s: seq<string>)
    requires NoDuplicates(s)
    ensures StrictlyAscending(SortAsc(s))
    ensures multiset(SortAsc(s)) == multiset(s)
    decreases |s|
  {
    if s != [] {
      SortAscSpec(s[1..]);
      assert s == [s[0]] + s[1..];
      assert s[0] !in multiset(s[1..]);
      InsertAscSpec(s[0], SortAsc(s[1..]));
    }
  }

  /** The last `n` entries of an ascending sequence are ascending, and every entry outside them
      is below each of them: the last `n` are the `n` greatest. */
  lemma LastAreGreatest(s: seq<string>, n: nat)
    requires StrictlyAscending(s) && n <= |s|
    ensures StrictlyAscending(s[|s| - n..])
    ensures forall x, y :: x in s && x !in s[|s| - n..] && y in s[|s| - n..] ==> LexLess(x, y)
  {
    var t := s[|s| - n..];
    forall i, j | 0 <= i < j < |t| ensures LexLess(t[i], t[j]) {
      assert t[i] == s[|s| - n + i] && t[j] == s[|s| - n + j];
    }
    forall k | |s| - n <= k < |s| ensures s[k] in t {
      assert t[k - (|s| - n)] == s[k];
    }
    forall x, y | x in s && x !in t && y in t ensures LexLess(x, y) {
      var i :| 0 <= i < |s| && s[i] == x;
      var j :| 0 <= j < |t| && t[j] == y;
      assert s[|s| - n + j] == y;
    }
  }

  predicate Descending<T>(s: seq<T>, key: T -> int) {
    forall i, j :: 0 <= i < j < |s| ==> key(s[i]) >= key(s[j])
  }

  function InsertDesc<T>(x: T, s: seq<T>, key: T -> int): seq<T>
    decreases |s|
  {
    if s == [] || key(x) >= key(s[0]) then [x] + s else [s[0]] + InsertDesc(x, s[1..], key)
  }

  /** `xs.sort((a, b) => key(b) - key(a))`. */
  function SortDesc<T>(s: seq<T>, key: T -> int): seq<T>
    decreases |s|
  {
    if s == [] then [] else InsertDesc(s[0], SortDesc(s[1..], key), key)
  }

  lemma {:induction false} InsertDescSpec<T>(x: T, s: seq<T>, key: T -> int)
    requires Descending(s, key)
    ensures Descending(InsertDesc(x, s, key), key)
    ensures multiset(InsertDesc(x, s, key)) == multiset(s) + multiset{x}
  {
    InsertDescSorted(x, s, key);
    InsertDescPerm(x, s, key);
  }

  lemma {:induction false} InsertDescPerm<T>(x: T, s: seq<T>, key: T -> int)
    ensures multiset(InsertDesc(x, s, key)) == multiset(s) + multiset{x}
    decreases |s|
  {
    if s != [] && key(x) < key(s[0]) {
      InsertDescPerm(x, s[1..], key);
      assert s == [s[0]] + s[1..];
    }
  }

  /** Inserting under a bound every entry already respects keeps every entry under it. */
  lemma {:induction false} InsertDescBounded<T>(x: T, s: seq<T>, key: T -> int, b: int)
    requires key(x) <= b
    requires forall k :: 0 <= k < |s| ==> key(s[k]) <= b
    ensures forall k :: 0 <= k < |InsertDesc(x, s, key)| ==> key(InsertDesc(x, s, key)[k]) <= b
    decreases |s|
  {
    if s != [] && key(x) < key(s[0]) {
      InsertDescBounded(x, s[1..], key, b);
      var t := InsertDesc(x, s[1..], key);
      assert InsertDesc(x, s, key) == [s[0]] + t;
    }
  }

  lemma {:induction false} InsertDescSorted<T>(x: T, s: seq<T>, key: T -> int)
    requires Descending(s, key)
    ensures Descending(InsertDesc(x, s, key), key)
    decreases |s|
  {
    if s == [] || key(x) >= key(s[0]) {
      DescendingCons(x, s, key);
    } else {
      var t := InsertDesc(x, s[1..], key);
      InsertDescSorted(x, s[1..], key);
      assert forall k :: 0 <= k < |s[1..]| ==> key(s[1..][k]) <= key(s[0]) by {
        forall k | 0 <= k < |s[1..]| ensures key(s[1..][k]) <= key(s[0]) {
          assert s[1..][k] == s[k + 1];
        }
      }
      InsertDescBounded(x, s[1..], key, key(s[0]));
      DescendingCons(s[0], t, key);
    }
  }

  lemma DescendingCons<T>(x: T, t: seq<T>, key: T -> int)
    requires Descending(t, key)
    requires forall k :: 0 <= k < |t| ==> key(x) >= key(t[k])
    ensures Descending([x] + t, key)
  {
    var u := [x] + t;
    forall i, j | 0 <= i < j < |u| ensures key(u[i]) >= key(u[j]) {
      assert u[j] == t[j - 1];
      if i > 0 {
        assert u[i] == t[i - 1];
      }
    }
  }

  /** The sort is a permutation that puts larger keys first. */
  lemma {:induction false} SortDescSpec<T>(s: seq<T>, key: T -> int)
    ensures Descending(SortDesc(s, key), key)
    ensures multiset(SortDesc(s, key)) == multiset(s)
    decreases |s|
  {
    if s != [] {
      SortDescSpec(s[1..], key);
      InsertDescSpec(s[0], SortDesc(s[1..], key), key);
      assert s == [s[0]] + s[1..];
    }
  }

  lemma SortDescLength<T>(s: seq<T>, key: T -> int)
    ensures |SortDesc(s, key)| == |s|
  {
    SortDescSpec(s, key);
    assert |multiset(SortDesc(s, key))| == |multiset(s)|;
  }

  /** `xs.sort(byKeyDesc).slice(0, n)` keeps `min(n, |xs|)` entries of the input, in descending
      order, and every entry it drops has a key no larger than any entry it keeps. */
  lemma TopN<T>(s: seq<T>, key: T -> int, n: nat)
    ensures |Take(SortDesc(s, key), n)| == Min(n, |s|)
    ensures Descending(Take(SortDesc(s, key), n), key)
    ensures multiset(Take(SortDesc(s, key), n)) <= multiset(s)
    ensures forall x, y ::
              (x in multiset(s) - multiset(Take(SortDesc(s, key), n)) && y in Take(SortDesc(s, key), n))
              ==> key(x) <= key(y)
  {
    SortDescSpec(s, key);
    TopOfSorted(SortDesc(s, key), s, key, n);
  }

  /** The same facts for the first `n` entries of any descending arrangement of `s`. */
  lemma TopOfSorted<T>(sorted: seq<T>, s: seq<T>, key: T -> int, n: nat)
    requires Descending(sorted, key) && multiset(sorted) == multiset(s)
    ensures |Take(sorted, n)| == Min(n, |s|)
    ensures Descending(Take(sorted, n), key)
    ensures multiset(Take(sorted, n)) <= multiset(s)
    ensures forall x, y :: (x in multiset(s) - multiset(Take(sorted, n)) && y in Take(sorted, n))
              ==> key(x) <= key(y)
  {
    assert |sorted| == |s| by {
      assert |multiset(sorted)| == |multiset(s)|;
    }
    var top := Take(sorted, n);
    var m := |top|;
    assert top == sorted[..m];
    assert sorted == top + sorted[m..];
    assert multiset(s) - multiset(top) == multiset(sorted[m..]) by {
      assert multiset(s) == multiset(top) + multiset(sorted[m..]);
    }
    DescendingPrefix(sorted, m, key);
    DescendingSplit(sorted, m, key);
  }

  lemma DescendingPrefix<T>(s: seq<T>, m: nat, key: T -> int)
    requires Descending(s, key) && m <= |s|
    ensures Descending(s[..m], key)
  {
    forall i, j | 0 <= i < j < m ensures key(s[..m][i]) >= key(s[..m][j]) {
      assert s[..m][i] == s[i] && s[..m][j] == s[j];
    }
  }

  /** Cut a descending sequence anywhere: nothing after the cut has a larger key than anything
      before it. */
  lemma DescendingSplit<T>(s: seq<T>, m: nat, key: T -> int)
    requires Descending(s, key) && m <= |s|
    ensures forall x, y :: x in multiset(s[m..]) && y in s[..m] ==> key(x) <= key(y)
  {
    forall x, y | x in multiset(s[m..]) && y in s[..m] ensures key(x) <= key(y) {
      var j :| 0 <= j < |s[m..]| && s[m..][j] == x;
      var i :| 0 <= i < m && s[..m][i] == y;
      assert s[m + j] == x && s[i] == y;
    }
  }
}
