/** Lexicographic keys and insertion sort, with the fact everything else rests on: a list
    sorted under a total order is determined by its elements alone. */
module Ordering {

  ghost predicate Transitive<T(!new)>(le: (T, T) -> bool) {
    forall x, y, z :: le(x, y) && le(y, z) ==> le(x, z)
  }

  ghost predicate Total<T(!new)>(le: (T, T) -> bool) {
    forall x, y :: le(x, y) || le(y, x)
  }

  ghost predicate Antisymmetric<T(!new)>(le: (T, T) -> bool) {
    forall x, y :: le(x, y) && le(y, x) ==> x == y
  }

  ghost predicate TotalOrder<T(!new)>(le: (T, T) -> bool) {
    Transitive(le) && Total(le) && Antisymmetric(le)
  }

  predicate IntLe(x: int, y: int) {
    x <= y
  }

  /** Lexicographic order on sequences: the order Python uses for tuples and for strings. */
  predicate LexLe<T(==)>(le: (T, T) -> bool, a: seq<T>, b: seq<T>) {
    if a == [] then true
    else if b == [] then false
    else if a[0] == b[0] then LexLe(le, a[1..], b[1..])
    else le(a[0], b[0])
  }

  lemma {:induction false} LexTransitive<T(!new)>(le: (T, T) -> bool, a: seq<T>, b: seq<T>, c: seq<T>)
    requires TotalOrder(le)
    requires LexLe(le, a, b) && LexLe(le, b, c)
    ensures LexLe(le, a, c)
  {
    if a == [] || b == [] || c == [] {
    } else if a[0] == b[0] == c[0] {
      LexTransitive(le, a[1..], b[1..], c[1..]);
    }
  }

  lemma {:induction false} LexTotal<T(!new)>(le: (T, T) -> bool, a: seq<T>, b: seq<T>)
    requires TotalOrder(le)
    ensures LexLe(le, a, b) || LexLe(le, b, a)
  {
    if a != [] && b != [] && a[0] == b[0] {
      LexTotal(le, a[1..], b[1..]);
    }
  }

  lemma {:induction false} LexAntisymmetric<T(!new)>(le: (T, T) -> bool, a: seq<T>, b: seq<T>)
    requires TotalOrder(le)
    requires LexLe(le, a, b) && LexLe(le, b, a)
    ensures a == b
  {
    if a != [] && b != [] {
      assert a[0] == b[0];
      LexAntisymmetric(le, a[1..], b[1..]);
      assert a == [a[0]] + a[1..] && b == [b[0]] + b[1..];
    }
  }

  /** The lexicographic extension of a total order is a total order. */
  lemma LexIsTotalOrder<T(!new)>(le: (T, T) -> bool)
    requires TotalOrder(le)
    ensures TotalOrder((a: seq<T>, b: seq<T>) => LexLe(le, a, b))
  {
    var lex := (a: seq<T>, b: seq<T>) => LexLe(le, a, b);
    forall a, b, c | lex(a, b) && lex(b, c) ensures lex(a, c) {
      LexTransitive(le, a, b, c);
    }
    forall a, b ensures lex(a, b) || lex(b, a) {
      LexTotal(le, a, b);
    }
    forall a, b | lex(a, b) && lex(b, a) ensures a == b {
      LexAntisymmetric(le, a, b);
    }
  }

  ghost predicate Sorted<T>(le: (T, T) -> bool, xs: seq<T>) {
    forall i, j | 0 <= i < j < |xs| :: le(xs[i], xs[j])
  }

  function Insert<T>(le: (T, T) -> bool, x: T, xs: seq<T>): (r: seq<T>) {
    if xs == [] || le(x, xs[0]) then [x] + xs else [xs[0]] + Insert(le, x, xs[1..])
  }

  function Sort<T>(le: (T, T) -> bool, xs: seq<T>): (r: seq<T>) {
    if xs == [] then [] else Insert(le, xs[0], Sort(le, xs[1..]))
  }

  lemma {:induction false} InsertPermutes<T>(le: (T, T) -> bool, x: T, xs: seq<T>)
    ensures multiset(Insert(le, x, xs)) == multiset{x} + multiset(xs)
  {
    if xs != [] && !le(x, xs[0]) {
      InsertPermutes(le, x, xs[1..]);
      assert xs == [xs[0]] + xs[1..];
    }
  }

  lemma {:induction false} InsertSorted<T(!new)>(le: (T, T) -> bool, x: T, xs: seq<T>)
    requires Transitive(le) && Total(le)
    requires Sorted(le, xs)
    ensures Sorted(le, Insert(le, x, xs))
  {
    if xs != [] && !le(x, xs[0]) {
      InsertSorted(le, x, xs[1..]);
      InsertPermutes(le, x, xs[1..]);
      var rest := Insert(le, x, xs[1..]);
      forall j | 0 <= j < |rest| ensures le(xs[0], rest[j]) {
        assert rest[j] in multiset(rest);
        assert rest[j] == x || rest[j] in xs[1..];
      }
    } else if xs != [] {
      forall j | 0 <= j < |xs| ensures le(x, xs[j]) {
        assert j == 0 || le(xs[0], xs[j]);
      }
    }
  }

  /** Sorting permutes its input and puts it in order. */
  lemma {:induction false} SortCorrect<T(!new)>(le: (T, T) -> bool, xs: seq<T>)
    requires Transitive(le) && Total(le)
    ensures multiset(Sort(le, xs)) == multiset(xs)
    ensures Sorted(le, Sort(le, xs))
    ensures |Sort(le, xs)| == |xs|
  {
    if xs != [] {
      SortCorrect(le, xs[1..]);
      InsertPermutes(le, xs[0], Sort(le, xs[1..]));
      InsertSorted(le, xs[0], Sort(le, xs[1..]));
      assert xs == [xs[0]] + xs[1..];
      assert |multiset(Sort(le, xs))| == |multiset(xs)|;
    }
  }

  /** No two different elements tie. */
  ghost predicate Untied<T(!new)>(le: (T, T) -> bool, xs: seq<T>) {
    forall x, y | x in xs && y in xs && le(x, y) && le(y, x) :: x == y
  }

  /** Two sorted arrangements of the same elements coincide, provided no two different
      elements tie. */
  lemma {:induction false} SortedUnique<T(!new)>(le: (T, T) -> bool, xs: seq<T>, ys: seq<T>)
    requires Sorted(le, xs) && Sorted(le, ys)
    requires multiset(xs) == multiset(ys)
    requires Untied(le, xs)
    ensures xs == ys
  {
    hide Sorted;
    hide Untied;
    assert |multiset(xs)| == |xs| && |multiset(ys)| == |ys|;
    if xs != [] {
      HeadsAgree(le, xs, ys);
      TailSorted(le, xs);
      TailSorted(le, ys);
      UntiedTail(le, xs);
      SortedUnique(le, xs[1..], ys[1..]);
      assert xs == [xs[0]] + xs[1..] && ys == [ys[0]] + ys[1..];
    }
  }

  lemma UntiedTail<T(!new)>(le: (T, T) -> bool, xs: seq<T>)
    requires xs != [] && Untied(le, xs)
    ensures Untied(le, xs[1..])
  {
    forall x, y | x in xs[1..] && y in xs[1..] && le(x, y) && le(y, x) ensures x == y {
      assert x in xs && y in xs;
    }
  }

  lemma TailSorted<T>(le: (T, T) -> bool, xs: seq<T>)
    requires xs != [] && Sorted(le, xs)
    ensures Sorted(le, xs[1..]) && multiset(xs[1..]) == multiset(xs) - multiset{xs[0]}
  {
    assert xs == [xs[0]] + xs[1..];
  }

  lemma HeadsAgree<T(!new)>(le: (T, T) -> bool, xs: seq<T>, ys: seq<T>)
    requires xs != [] && ys != [] && Sorted(le, xs) && Sorted(le, ys) && multiset(xs) == multiset(ys)
    requires Untied(le, xs)
    ensures xs[0] == ys[0]
  {
    assert xs[0] in multiset(ys) && ys[0] in multiset(xs);
    var i :| 0 <= i < |ys| && ys[i] == xs[0];
    var j :| 0 <= j < |xs| && xs[j] == ys[0];
    if i != 0 && j != 0 {
      assert le(ys[0], ys[i]) && le(xs[0], xs[j]);
    }
  }

  /** Sorting forgets the order of its input. */
  lemma SortCanonical<T(!new)>(le: (T, T) -> bool, xs: seq<T>, ys: seq<T>)
    requires Transitive(le) && Total(le)
    requires multiset(xs) == multiset(ys)
    requires Untied(le, xs)
    ensures Sort(le, xs) == Sort(le, ys)
  {
    SortCorrect(le, xs);
    SortCorrect(le, ys);
    forall x | x in Sort(le, xs) ensures x in xs {
      assert x in multiset(Sort(le, xs));
    }
    SortedUnique(le, Sort(le, xs), Sort(le, ys));
  }
}
