/** Sorting by a total order is canonical: two lists sort alike exactly when they hold the same
    elements equally often. */
module Sorting {
  import opened Wrappers

  ghost predicate TotalOrder<T(!new)>(leq: (T, T) -> bool) {
    && (forall a, b :: leq(a, b) || leq(b, a))
    && (forall a, b :: leq(a, b) && leq(b, a) ==> a == b)
    && (forall a, b, c :: leq(a, b) && leq(b, c) ==> leq(a, c))
  }

  function Insert<T>(leq: (T, T) -> bool, x: T, s: seq<T>): seq<T> {
    if s == [] || leq(x, s[0]) then [x] + s else [s[0]] + Insert(leq, x, s[1..])
  }

  function Sort<T>(leq: (T, T) -> bool, s: seq<T>): seq<T> {
    if s == [] then [] else Insert(leq, s[0], Sort(leq, s[1..]))
  }

  ghost predicate Sorted<T>(leq: (T, T) -> bool, s: seq<T>) {
    forall i, j :: 0 <= i < j < |s| ==> leq(s[i], s[j])
  }

  lemma {:induction false} InsertPermutes<T>(leq: (T, T) -> bool, x: T, s: seq<T>)
    ensures multiset(Insert(leq, x, s)) == multiset{x} + multiset(s)
  {
    if !(s == [] || leq(x, s[0])) {
      InsertPermutes(leq, x, s[1..]);
      assert s == [s[0]] + s[1..];
    }
  }

  lemma {:induction false} InsertSorts<T(!new)>(leq: (T, T) -> bool, x: T, s: seq<T>)
    requires TotalOrder(leq) && Sorted(leq, s)
    ensures Sorted(leq, Insert(leq, x, s))
  {
    if !(s == [] || leq(x, s[0])) {
      InsertSorts(leq, x, s[1..]);
      InsertPermutes(leq, x, s[1..]);
      forall y | y in Insert(leq, x, s[1..])
        ensures leq(s[0], y)
      {
        assert y in multiset(Insert(leq, x, s[1..]));
      }
    }
  }

  lemma {:induction false} SortPermutes<T>(leq: (T, T) -> bool, s: seq<T>)
    ensures multiset(Sort(leq, s)) == multiset(s)
  {
    if s != [] {
      SortPermutes(leq, s[1..]);
      InsertPermutes(leq, s[0], Sort(leq, s[1..]));
      assert s == [s[0]] + s[1..];
    }
  }

  lemma {:induction false} SortSorts<T(!new)>(leq: (T, T) -> bool, s: seq<T>)
    requires TotalOrder(leq)
    ensures Sorted(leq, Sort(leq, s))
  {
    if s != [] {
      SortSorts(leq, s[1..]);
      InsertSorts(leq, s[0], Sort(leq, s[1..]));
    }
  }

  lemma LeastIsFirst<T(!new)>(leq: (T, T) -> bool, s: seq<T>, x: T)
    requires TotalOrder(leq) && Sorted(leq, s) && x in s
    ensures leq(s[0], x)
  {
    var i :| 0 <= i < |s| && s[i] == x;
    assert leq(s[0], s[0]) || i > 0;
  }

  lemma TailMultiset<T>(s: seq<T>)
    requires s != []
    ensures multiset(s[1..]) == multiset(s) - multiset{s[0]}
  {
    assert s == [s[0]] + s[1..];
  }

  lemma {:induction false} SortedIsUnique<T(!new)>(leq: (T, T) -> bool, a: seq<T>, b: seq<T>)
    requires TotalOrder(leq) && Sorted(leq, a) && Sorted(leq, b) && multiset(a) == multiset(b)
    ensures a == b
  {
    assert |a| == |multiset(a)| == |multiset(b)| == |b|;
    if a != [] {
      assert a[0] in multiset(b) && b[0] in multiset(a);
      LeastIsFirst(leq, a, b[0]);
      LeastIsFirst(leq, b, a[0]);
      TailMultiset(a);
      TailMultiset(b);
      SortedIsUnique(leq, a[1..], b[1..]);
      assert a == [a[0]] + a[1..] && b == [b[0]] + b[1..];
    }
  }

  lemma SortIsCanonical<T(!new)>(leq: (T, T) -> bool, a: seq<T>, b: seq<T>)
    requires TotalOrder(leq)
    ensures Sort(leq, a) == Sort(leq, b) <==> multiset(a) == multiset(b)
  {
    SortPermutes(leq, a);
    SortPermutes(leq, b);
    SortSorts(leq, a);
    SortSorts(leq, b);
    if multiset(a) == multiset(b) {
      SortedIsUnique(leq, Sort(leq, a), Sort(leq, b));
    }
  }

  // ----- Orders on compound keys -------------------------------------------------------------

  /** Lexicographic, a prefix first: the order of Rust strings and vectors. */
  predicate LexLeq<T(==)>(leq: (T, T) -> bool, a: seq<T>, b: seq<T>) {
    if a == [] then true
    else if b == [] then false
    else if a[0] == b[0] then LexLeq(leq, a[1..], b[1..])
    else leq(a[0], b[0])
  }

  function Lex<T(==)>(leq: (T, T) -> bool): (seq<T>, seq<T>) -> bool {
    (a, b) => LexLeq(leq, a, b)
  }

  lemma {:induction false} LexTotal<T(!new)>(leq: (T, T) -> bool, a: seq<T>, b: seq<T>)
    requires TotalOrder(leq)
    ensures LexLeq(leq, a, b) || LexLeq(leq, b, a)
    ensures LexLeq(leq, a, b) && LexLeq(leq, b, a) ==> a == b
  {
    if a != [] && b != [] {
      LexTotal(leq, a[1..], b[1..]);
      assert a == [a[0]] + a[1..] && b == [b[0]] + b[1..];
    }
  }

  lemma {:induction false} LexTransitive<T(!new)>(leq: (T, T) -> bool, a: seq<T>, b: seq<T>, c: seq<T>)
    requires TotalOrder(leq) && LexLeq(leq, a, b) && LexLeq(leq, b, c)
    ensures LexLeq(leq, a, c)
  {
    if a != [] && a[0] == b[0] == c[0] {
      LexTransitive(leq, a[1..], b[1..], c[1..]);
    }
  }

  lemma LexIsTotalOrder<T(!new)>(leq: (T, T) -> bool)
    requires TotalOrder(leq)
    ensures TotalOrder(Lex(leq))
  {
    var lex := Lex(leq);
    forall a, b
      ensures lex(a, b) || lex(b, a)
      ensures lex(a, b) && lex(b, a) ==> a == b
    {
      LexTotal(leq, a, b);
    }
    forall a, b, c | lex(a, b) && lex(b, c)
      ensures lex(a, c)
    {
      LexTransitive(leq, a, b, c);
    }
  }

  /** `None` first: the order of Rust options. */
  function Opt<T>(leq: (T, T) -> bool): (Option<T>, Option<T>) -> bool {
    (a: Option<T>, b: Option<T>) => a.None? || (b.Some? && leq(a.value, b.value))
  }

  lemma OptIsTotalOrder<T(!new)>(leq: (T, T) -> bool)
    requires TotalOrder(leq)
    ensures TotalOrder(Opt(leq))
  {
  }

  /** First components first. */
  function Pair<A(==), B>(first: (A, A) -> bool, second: (B, B) -> bool): ((A, B), (A, B)) -> bool {
    (a: (A, B), b: (A, B)) => if a.0 == b.0 then second(a.1, b.1) else first(a.0, b.0)
  }

  lemma PairIsTotalOrder<A(!new), B(!new)>(first: (A, A) -> bool, second: (B, B) -> bool)
    requires TotalOrder(first) && TotalOrder(second)
    ensures TotalOrder(Pair(first, second))
  {
    var leq := Pair(first, second);
    forall a: (A, B), b: (A, B)
      ensures leq(a, b) || leq(b, a)
      ensures leq(a, b) && leq(b, a) ==> a == b
    {
      assert first(a.0, b.0) || first(b.0, a.0);
      assert second(a.1, b.1) || second(b.1, a.1);
    }
    forall a: (A, B), b: (A, B), c: (A, B) | leq(a, b) && leq(b, c)
      ensures leq(a, c)
    {
      if a.0 == b.0 == c.0 {
        assert second(a.1, b.1) && second(b.1, c.1);
      } else if a.0 != b.0 && b.0 != c.0 {
        assert first(a.0, b.0) && first(b.0, c.0) && first(a.0, c.0);
      }
    }
  }

  predicate CharLeq(a: char, b: char) {
    a <= b
  }

  function Text(): (string, string) -> bool {
    Lex(CharLeq)
  }

  lemma TextIsTotalOrder()
    ensures TotalOrder(Text())
  {
    LexIsTotalOrder(CharLeq);
  }
}
