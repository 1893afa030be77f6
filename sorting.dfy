/**
 * `Stream.sorted()` on strings: the natural order of `String.compareTo`,
 * an insertion sort, and the facts that make its result depend only on
 * which strings are sorted, never on the order they arrive in. Also the
 * iteration order of a `HashSet`, which Java leaves unspecified.
 */
module Sorting {

  /**
   * `a.compareTo(b) <= 0`: compare character by character at the first
   * difference; when one is a prefix of the other, the shorter comes first.
   */
  predicate LexLe(a: string, b: string)
  {
    if a == [] then true
    else if b == [] then false
    else if a[0] != b[0] then a[0] < b[0]
    else LexLe(a[1..], b[1..])
  }

  lemma {:induction false} LexReflexive(a: string)
    ensures LexLe(a, a)
  {
    if a != [] { LexReflexive(a[1..]); }
  }

  lemma {:induction false} LexTotal(a: string, b: string)
    ensures LexLe(a, b) || LexLe(b, a)
  {
    if a != [] && b != [] && a[0] == b[0] {
      LexTotal(a[1..], b[1..]);
    }
  }

  lemma {:induction false} LexAntisymmetric(a: string, b: string)
    requires LexLe(a, b) && LexLe(b, a)
    ensures a == b
  {
    if a != [] && b != [] {
      LexAntisymmetric(a[1..], b[1..]);
      assert a == [a[0]] + a[1..] && b == [b[0]] + b[1..];
    }
  }

  lemma {:induction false} LexTransitive(a: string, b: string, c: string)
    requires LexLe(a, b) && LexLe(b, c)
    ensures LexLe(a, c)
  {
    if a != [] && b != [] && c != [] && a[0] == b[0] && b[0] == c[0] {
      LexTransitive(a[1..], b[1..], c[1..]);
    }
  }

  /** Ascending in the `compareTo` order. */
  predicate Sorted(s: seq<string>)
  {
    forall i, j | 0 <= i < j < |s| :: LexLe(s[i], s[j])
  }

  /** Put `x` in front of the first element it does not exceed. */
  function Insert(x: string, s: seq<string>): seq<string>
  {
    if s == [] then [x]
    else if LexLe(x, s[0]) then [x] + s
    else [s[0]] + Insert(x, s[1..])
  }

  lemma {:induction false} InsertPermutes(x: string, s: seq<string>)
    ensures multiset(Insert(x, s)) == multiset(s) + multiset{x}
  {
    if s != [] && !LexLe(x, s[0]) {
      InsertPermutes(x, s[1..]);
      assert s == [s[0]] + s[1..];
    }
  }

  lemma InsertMember(x: string, s: seq<string>, e: string)
    requires e in Insert(x, s)
    ensures e == x || e in s
  {
    InsertPermutes(x, s);
    assert e in multiset(Insert(x, s));
  }

  /** The first element of an ascending sequence is below every later one. */
  lemma SortedFirstBelow(s: seq<string>, e: string)
    requires Sorted(s) && s != [] && e in s[1..]
    ensures LexLe(s[0], e)
  {
    var k :| 0 <= k < |s[1..]| && s[1..][k] == e;
    assert s[k + 1] == e;
  }

  lemma {:induction false} InsertSorted(x: string, s: seq<string>)
    requires Sorted(s)
    ensures Sorted(Insert(x, s))
  {
    if s == [] {
    } else if LexLe(x, s[0]) {
      var r := [x] + s;
      forall i, j | 0 <= i < j < |r| ensures LexLe(r[i], r[j]) {
        if i == 0 && j > 1 { LexTransitive(x, s[0], s[j - 1]); }
      }
    } else {
      LexTotal(x, s[0]);
      var tail := Insert(x, s[1..]);
      SortedTail(s);
      InsertSorted(x, s[1..]);
      var r := [s[0]] + tail;
      forall i, j | 0 <= i < j < |r| ensures LexLe(r[i], r[j]) {
        if i == 0 {
          var e := tail[j - 1];
          InsertMember(x, s[1..], e);
          if e != x { SortedFirstBelow(s, e); }
        } else {
          assert r[i] == tail[i - 1] && r[j] == tail[j - 1];
        }
      }
    }
  }

  /** What `sorted()` returns for a stream whose elements arrive as `s`. */
  function Sort(s: seq<string>): seq<string>
  {
    if s == [] then [] else Insert(s[0], Sort(s[1..]))
  }

  /** The result is ascending and holds exactly the input strings. */
  lemma {:induction false} SortCorrect(s: seq<string>)
    ensures Sorted(Sort(s)) && multiset(Sort(s)) == multiset(s)
  {
    if s != [] {
      SortCorrect(s[1..]);
      InsertSorted(s[0], Sort(s[1..]));
      InsertPermutes(s[0], Sort(s[1..]));
      assert s == [s[0]] + s[1..];
    }
  }

  /** The head of an ascending sequence is below every element of it. */
  lemma SortedHeadLeast(a: seq<string>, e: string)
    requires Sorted(a) && e in a
    ensures LexLe(a[0], e)
  {
    var j :| 0 <= j < |a| && a[j] == e;
    if j == 0 { LexReflexive(e); }
  }

  lemma SortedTail(a: seq<string>)
    requires Sorted(a) && a != []
    ensures Sorted(a[1..])
  {
    forall i, j | 0 <= i < j < |a| - 1 ensures LexLe(a[1..][i], a[1..][j]) {
      assert a[1..][i] == a[i + 1] && a[1..][j] == a[j + 1];
    }
  }

  /** Two ascending arrangements of one multiset start with the same string. */
  lemma SortedHeadsEqual(a: seq<string>, b: seq<string>)
    requires Sorted(a) && Sorted(b) && multiset(a) == multiset(b) && a != []
    ensures b != [] && a[0] == b[0]
  {
    assert a[0] in multiset(b);
    assert b != [] && b[0] in multiset(a);
    SortedHeadLeast(b, a[0]);
    SortedHeadLeast(a, b[0]);
    LexAntisymmetric(a[0], b[0]);
  }

  lemma TailMultiset(a: seq<string>)
    requires a != []
    ensures multiset(a[1..]) == multiset(a) - multiset{a[0]}
  {
    assert a == [a[0]] + a[1..];
  }

  /** There is only one ascending arrangement of a given multiset. */
  lemma {:induction false} SortedUnique(a: seq<string>, b: seq<string>)
    requires Sorted(a) && Sorted(b) && multiset(a) == multiset(b)
    ensures a == b
  {
    if a != [] {
      SortedHeadsEqual(a, b);
      TailMultiset(a);
      TailMultiset(b);
      SortedTail(a);
      SortedTail(b);
      SortedUnique(a[1..], b[1..]);
      assert a == [a[0]] + a[1..] && b == [b[0]] + b[1..];
    } else {
      assert multiset(b) == multiset{};
    }
  }

  /** The order does not matter: rearranging the input leaves the result alone. */
  lemma SortIgnoresOrder(a: seq<string>, b: seq<string>)
    requires multiset(a) == multiset(b)
    ensures Sort(a) == Sort(b)
  {
    SortCorrect(a);
    SortCorrect(b);
    SortedUnique(Sort(a), Sort(b));
  }

  /** No element occurs twice. */
  predicate Distinct<T(==)>(s: seq<T>)
  {
    forall i, j | 0 <= i < j < |s| :: s[i] != s[j]
  }

  /** `s` lists the members of `S`, each once: one possible iteration order. */
  predicate Enumerates<T(==)>(s: seq<T>, S: set<T>)
  {
    Distinct(s) && (forall x | x in S :: x in s) && forall i | 0 <= i < |s| :: s[i] in S
  }

  /**
   * Some iteration order of `S`. Java promises no particular order for a
   * `HashSet`; this is an arbitrary fixed choice.
   */
  ghost function Enumerate<T>(S: set<T>): (r: seq<T>)
    ensures Enumerates(r, S)
    decreases |S|
  {
    if S == {} then []
    else
      var x :| x in S;
      var rest := Enumerate(S - {x});
      assert forall y :: y in [x] + rest ==> y == x || y in rest;
      [x] + rest
  }

  /** Two iteration orders of the same set are permutations of each other. */
  lemma EnumerationsPermute<T>(a: seq<T>, b: seq<T>, S: set<T>)
    requires Enumerates(a, S) && Enumerates(b, S)
    ensures multiset(a) == multiset(b)
  {
    forall x ensures multiset(a)[x] == multiset(b)[x] {
      DistinctCount(a, x);
      DistinctCount(b, x);
    }
  }

  lemma {:induction false} DistinctCount<T>(s: seq<T>, x: T)
    requires Distinct(s)
    ensures multiset(s)[x] == if x in s then 1 else 0
  {
    if s != [] {
      var init := s[..|s| - 1];
      assert s == init + [s[|s| - 1]];
      assert Distinct(init);
      DistinctCount(init, x);
      assert x == s[|s| - 1] ==> x !in init;
    }
  }

  /** `s.map(f)` for a stream. */
  function Map<T>(f: T -> string, s: seq<T>): (r: seq<string>)
    ensures |r| == |s| && forall i | 0 <= i < |s| :: r[i] == f(s[i])
  {
    seq(|s|, i requires 0 <= i < |s| => f(s[i]))
  }

  lemma MapAppend<T>(f: T -> string, a: seq<T>, b: seq<T>)
    ensures Map(f, a + b) == Map(f, a) + Map(f, b)
  {
  }

  /** Mapping a permutation gives a permutation. */
  lemma {:induction false} MapPermutes<T>(f: T -> string, a: seq<T>, b: seq<T>)
    requires multiset(a) == multiset(b)
    ensures multiset(Map(f, a)) == multiset(Map(f, b))
    decreases |a|
  {
    if a != [] {
      var n := |a| - 1;
      var x := a[n];
      assert a == a[..n] + [x];
      assert x in multiset(b);
      var k :| 0 <= k < |b| && b[k] == x;
      var front, back := b[..k], b[k + 1..];
      assert b == front + [x] + back;
      var b' := front + back;
      assert multiset(b) == multiset(front) + multiset{x} + multiset(back);
      assert multiset(b') == multiset(b) - multiset{x};
      assert multiset(a[..n]) == multiset(a) - multiset{x};
      MapPermutes(f, a[..n], b');
      MapAppend(f, a[..n], [x]);
      MapAppend(f, front + [x], back);
      MapAppend(f, front, [x]);
      MapAppend(f, front, back);
    }
  }
}
