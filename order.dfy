/**
  The ordering Swift's `sorted()` uses on strings, taken here as lexicographic
  order on characters, and the two sorted traversals the tool performs: over the
  keys of a dictionary (a set) and over an array of language codes (a sequence
  that may repeat).
*/
module StringOrder {

  /** `a < b` on strings. */
  predicate Less(a: string, b: string)
    decreases |a|
  {
    if |a| == 0 then |b| > 0
    else if |b| == 0 then false
    else if a[0] == b[0] then Less(a[1..], b[1..])
    else a[0] < b[0]
  }

  predicate LessEq(a: string, b: string) {
    a == b || Less(a, b)
  }

  lemma {:induction false} LessIrreflexive(a: string)
    ensures !Less(a, a)
    decreases |a|
  {
    if |a| > 0 { LessIrreflexive(a[1..]); }
  }

  lemma {:induction false} LessTransitive(a: string, b: string, c: string)
    requires Less(a, b) && Less(b, c)
    ensures Less(a, c)
    decreases |a|
  {
    if |a| > 0 && |b| > 0 && |c| > 0 && a[0] == b[0] && b[0] == c[0] {
      LessTransitive(a[1..], b[1..], c[1..]);
    }
  }

  lemma {:induction false} LessTotal(a: string, b: string)
    requires a != b
    ensures Less(a, b) || Less(b, a)
    decreases |a|
  {
    if |a| > 0 && |b| > 0 && a[0] == b[0] {
      assert a == [a[0]] + a[1..] && b == [b[0]] + b[1..];
      LessTotal(a[1..], b[1..]);
    }
  }

  lemma LessAsymmetric(a: string, b: string)
    requires Less(a, b)
    ensures !Less(b, a)
  {
    if Less(b, a) {
      LessTransitive(a, b, a);
      LessIrreflexive(a);
    }
  }

  /** `m` is the smallest element of `s`. */
  predicate IsLeast(m: string, s: set<string>) {
    m in s && forall k :: k in s ==> LessEq(m, k)
  }

  lemma {:induction false} LeastExists(s: set<string>)
    requires s != {}
    ensures exists m :: IsLeast(m, s)
    decreases |s|
  {
    var x :| x in s;
    if s == {x} {
      assert IsLeast(x, s);
    } else {
      LeastExists(s - {x});
      var m :| IsLeast(m, s - {x});
      if Less(x, m) {
        forall k | k in s ensures LessEq(x, k) {
          if k != x && k != m {
            assert k in s - {x};
            LessTransitive(x, m, k);
          }
        }
        assert IsLeast(x, s);
      } else {
        if x != m { LessTotal(x, m); }
        assert IsLeast(m, s);
      }
    }
  }

  lemma LeastUnique(m1: string, m2: string, s: set<string>)
    requires IsLeast(m1, s) && IsLeast(m2, s)
    ensures m1 == m2
  {
    if m1 != m2 {
      LessAsymmetric(m1, m2);
    }
  }

  ghost function Least(s: set<string>): (m: string)
    requires s != {}
    ensures IsLeast(m, s)
  {
    LeastExists(s);
    var m :| IsLeast(m, s); m
  }

  /** The keys of a dictionary in the order `keys.sorted()` lists them. */
  ghost function InOrder(s: set<string>): seq<string>
    decreases |s|
  {
    if s == {} then [] else
      var m := Least(s);
      [m] + InOrder(s - {m})
  }

  predicate StrictlyIncreasing(ks: seq<string>) {
    forall i, j :: 0 <= i < j < |ks| ==> Less(ks[i], ks[j])
  }

  /** Listing a set in order yields each element once, in strictly increasing order. */
  lemma {:induction false} InOrderSorted(s: set<string>)
    ensures StrictlyIncreasing(InOrder(s))
    ensures forall k :: k in InOrder(s) <==> k in s
    ensures |InOrder(s)| == |s|
    decreases |s|
  {
    if s != {} {
      var m := Least(s);
      var rest := InOrder(s - {m});
      InOrderSorted(s - {m});
      assert InOrder(s) == [m] + rest;
      forall i, j | 0 <= i < j < |InOrder(s)| ensures Less(InOrder(s)[i], InOrder(s)[j]) {
        if i == 0 {
          assert InOrder(s)[j] == rest[j - 1];
          assert rest[j - 1] in s - {m};
        } else {
          assert InOrder(s)[i] == rest[i - 1] && InOrder(s)[j] == rest[j - 1];
        }
      }
    }
  }

  /** Swift's `sorted()` on an array of strings (insertion sort). */
  function Insert(x: string, s: seq<string>): (r: seq<string>)
    ensures multiset(r) == multiset(s) + multiset{x}
    ensures |r| == |s| + 1
  {
    if s == [] then [x]
    else if LessEq(x, s[0]) then [x] + s
    else
      assert s == [s[0]] + s[1..];
      [s[0]] + Insert(x, s[1..])
  }

  function Sort(s: seq<string>): (r: seq<string>)
    ensures multiset(r) == multiset(s)
    ensures |r| == |s|
  {
    if s == [] then [] else
      assert s == [s[0]] + s[1..];
      Insert(s[0], Sort(s[1..]))
  }

  predicate Sorted(s: seq<string>) {
    forall i, j :: 0 <= i < j < |s| ==> LessEq(s[i], s[j])
  }

  lemma {:induction false} InsertSorted(x: string, s: seq<string>)
    requires Sorted(s)
    ensures Sorted(Insert(x, s))
    decreases |s|
  {
    if s == [] {
    } else if LessEq(x, s[0]) {
      var r := [x] + s;
      forall i, j | 0 <= i < j < |r| ensures LessEq(r[i], r[j]) {
        if i == 0 && x != s[0] && s[0] != r[j] {
          assert LessEq(s[0], s[j - 1]);
          LessTransitive(x, s[0], r[j]);
        } else if i > 0 {
          assert r[i] == s[i - 1] && r[j] == s[j - 1];
        }
      }
    } else {
      InsertSorted(x, s[1..]);
      var r := Insert(x, s);
      var tail := Insert(x, s[1..]);
      assert r == [s[0]] + tail;
      if x != s[0] { LessTotal(x, s[0]); }
      forall k | 0 <= k < |tail| ensures LessEq(s[0], tail[k]) {
        assert tail[k] in multiset(tail);
        assert tail[k] == x || tail[k] in multiset(s[1..]);
        if tail[k] != x {
          var j :| 0 <= j < |s[1..]| && s[1..][j] == tail[k];
          assert s[j + 1] == tail[k];
        }
      }
      forall i, j | 0 <= i < j < |r| ensures LessEq(r[i], r[j]) {
        if i == 0 { assert r[j] == tail[j - 1]; }
        else { assert r[i] == tail[i - 1] && r[j] == tail[j - 1]; }
      }
    }
  }

  /** `languages.sorted()` is ordered and is a permutation of its input. */
  lemma {:induction false} SortSorted(s: seq<string>)
    ensures Sorted(Sort(s))
    ensures multiset(Sort(s)) == multiset(s)
    decreases |s|
  {
    if s != [] {
      SortSorted(s[1..]);
      InsertSorted(s[0], Sort(s[1..]));
    }
  }
}
