/**
 * `ksort` on an array whose keys are non-numeric strings: PHP compares
 * such keys byte by byte (`strcmp`), and on UTF-8 text the byte order is
 * the order of the characters' code points, which is what `StrLeq` uses.
 */
module Ksort {

  /** Lexicographic order on strings by character code; a prefix comes first. */
  predicate StrLeq(a: string, b: string)
    decreases |a|
  {
    a == [] || (b != [] && (a[0] < b[0] || (a[0] == b[0] && StrLeq(a[1..], b[1..]))))
  }

  lemma {:induction false} StrLeqTotal(a: string, b: string)
    ensures StrLeq(a, b) || StrLeq(b, a)
    decreases |a|
  {
    if a != [] && b != [] && a[0] == b[0] {
      StrLeqTotal(a[1..], b[1..]);
    }
  }

  lemma {:induction false} StrLeqTransitive(a: string, b: string, c: string)
    requires StrLeq(a, b) && StrLeq(b, c)
    ensures StrLeq(a, c)
    decreases |a|
  {
    if a != [] && a[0] == b[0] && b[0] == c[0] {
      StrLeqTransitive(a[1..], b[1..], c[1..]);
    }
  }

  lemma {:induction false} StrLeqAntisymmetric(a: string, b: string)
    requires StrLeq(a, b) && StrLeq(b, a)
    ensures a == b
    decreases |a|
  {
    if a != [] {
      StrLeqAntisymmetric(a[1..], b[1..]);
    }
  }

  ghost predicate Sorted(s: seq<string>) {
    forall i, j :: 0 <= i < j < |s| ==> StrLeq(s[i], s[j])
  }

  function Insert(x: string, s: seq<string>): (r: seq<string>)
    ensures |r| == |s| + 1
    ensures multiset(r) == multiset(s) + multiset{x}
  {
    if s == [] then [x]
    else if StrLeq(x, s[0]) then [x] + s
    else (assert s == [s[0]] + s[1..]; [s[0]] + Insert(x, s[1..]))
  }

  /** The keys in ascending order (an insertion sort stands for PHP's sort). */
  function KeySort(s: seq<string>): seq<string> {
    if s == [] then [] else Insert(s[0], KeySort(s[1..]))
  }

  lemma {:induction false} InsertSorted(x: string, s: seq<string>)
    requires Sorted(s)
    ensures Sorted(Insert(x, s))
  {
    if s != [] {
      if StrLeq(x, s[0]) {
        forall j | 0 < j < |s| + 1 ensures StrLeq(x, ([x] + s)[j]) {
          if j > 1 {
            StrLeqTransitive(x, s[0], s[j - 1]);
          }
        }
      } else {
        StrLeqTotal(x, s[0]);
        InsertSorted(x, s[1..]);
        var r := Insert(x, s[1..]);
        forall j | 0 <= j < |r| ensures StrLeq(s[0], r[j]) {
          assert r[j] in multiset(r);
          assert r[j] in multiset(s[1..]) || r[j] == x;
          if r[j] != x {
            var k :| 0 <= k < |s[1..]| && s[1..][k] == r[j];
            assert s[k + 1] == r[j];
          }
        }
      }
    }
  }

  /** The sorted keys are in ascending order... */
  lemma {:induction false} KeySortSorted(s: seq<string>)
    ensures Sorted(KeySort(s))
  {
    if s != [] {
      KeySortSorted(s[1..]);
      InsertSorted(s[0], KeySort(s[1..]));
    }
  }

  /** ...and are exactly the keys given, each as often as given. */
  lemma {:induction false} KeySortPermutes(s: seq<string>)
    ensures multiset(KeySort(s)) == multiset(s)
  {
    if s != [] {
      KeySortPermutes(s[1..]);
      assert s == [s[0]] + s[1..];
    }
  }
}
