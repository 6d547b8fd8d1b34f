/** Permission scopes: normal form and the authorisation preorder
    (backend/app/permissions/schemas.py, class PermissionScope). */
module Scopes {
  import opened Common
  import opened Ordering

  /** `resource_ids` and `operations` are lists, kept sorted by the validator. The SHA-256
      digest is taken to be injective, so a scope stands for its own digest. */
  datatype Scope = Scope(resourceType: string, resourceIds: seq<string>, operations: seq<string>)

  function Elements(xs: seq<string>): (s: set<string>) {
    set x | x in xs
  }

  function Codes(s: string): (r: seq<int>)
    ensures |r| == |s| && forall i | 0 <= i < |s| :: r[i] == s[i] as int
  {
    seq(|s|, i requires 0 <= i < |s| => s[i] as int)
  }

  predicate StringLe(a: string, b: string) {
    LexLe(IntLe, Codes(a), Codes(b))
  }

  /** `PermissionScope.authorizes` */
  predicate Authorizes(granted: Scope, requested: Scope) {
    && granted.resourceType == requested.resourceType
    && Elements(requested.operations) <= Elements(granted.operations)
    && if requested.resourceIds == [] then granted.resourceIds == []
       else granted.resourceIds != [] && Elements(requested.resourceIds) <= Elements(granted.resourceIds)
  }

  predicate Distinct(xs: seq<string>) {
    forall i, j | 0 <= i < j < |xs| :: xs[i] != xs[j]
  }

  /** `normalize_unique_values`: duplicates are rejected, the rest is sorted. */
  function Normalize(xs: seq<string>): (r: Option<seq<string>>) {
    if |Elements(xs)| != |xs| then None else Some(Sort(StringLe, xs))
  }

  /** The shape every stored or requested scope has: both lists are normalisation results. */
  ghost predicate Normal(s: Scope) {
    NormalList(s.resourceIds) && NormalList(s.operations)
  }

  ghost predicate NormalList(xs: seq<string>) {
    Distinct(xs) && Sorted(StringLe, xs)
  }

  lemma CodesInjective(a: string, b: string)
    requires Codes(a) == Codes(b)
    ensures a == b
  {
    forall i | 0 <= i < |a| ensures a[i] == b[i] {
      assert Codes(a)[i] == Codes(b)[i];
    }
  }

  lemma StringLeTotalOrder()
    ensures TotalOrder(StringLe)
  {
    LexIsTotalOrder(IntLe);
    var lex := (a: seq<int>, b: seq<int>) => LexLe(IntLe, a, b);
    forall x, y, z | StringLe(x, y) && StringLe(y, z) ensures StringLe(x, z) {
      assert lex(Codes(x), Codes(y)) && lex(Codes(y), Codes(z));
      assert lex(Codes(x), Codes(z));
    }
    forall x, y ensures StringLe(x, y) || StringLe(y, x) {
      assert lex(Codes(x), Codes(y)) || lex(Codes(y), Codes(x));
    }
    forall x, y | StringLe(x, y) && StringLe(y, x) ensures x == y {
      assert lex(Codes(x), Codes(y)) && lex(Codes(y), Codes(x));
      CodesInjective(x, y);
    }
  }

  lemma DistinctCons(xs: seq<string>)
    requires xs != []
    ensures Distinct(xs) <==> xs[0] !in xs[1..] && Distinct(xs[1..])
  {
    var rest := xs[1..];
    assert forall i | 0 <= i < |rest| :: rest[i] == xs[i + 1];
  }

  lemma {:induction false} ElementCount(xs: seq<string>)
    ensures |Elements(xs)| <= |xs|
    ensures |Elements(xs)| == |xs| <==> Distinct(xs)
  {
    if xs != [] {
      var rest := xs[1..];
      ElementCount(rest);
      assert xs == [xs[0]] + rest;
      DistinctCons(xs);
      hide Distinct;
      if xs[0] in rest {
        assert Elements(xs) == Elements(rest);
      } else {
        assert Elements(xs) == {xs[0]} + Elements(rest);
      }
    } else {
      assert Elements(xs) == {};
    }
  }

  lemma {:induction false} DistinctMultiset(xs: seq<string>, x: string)
    requires Distinct(xs)
    ensures multiset(xs)[x] == if x in xs then 1 else 0
  {
    if xs != [] {
      assert xs == [xs[0]] + xs[1..];
      DistinctMultiset(xs[1..], x);
    }
  }

  lemma {:induction false} CountedDistinct(xs: seq<string>)
    requires forall x :: multiset(xs)[x] <= 1
    ensures Distinct(xs)
  {
    if xs != [] {
      assert xs == [xs[0]] + xs[1..];
      assert forall x :: multiset(xs[1..])[x] <= multiset(xs)[x];
      CountedDistinct(xs[1..]);
      assert multiset(xs)[xs[0]] == 1 + multiset(xs[1..])[xs[0]];
    }
  }

  /** A value list is rejected exactly when it repeats an entry; otherwise the stored list is
      in normal form and has the same entries. */
  lemma NormalizeMeaning(xs: seq<string>)
    ensures Normalize(xs).None? <==> !Distinct(xs)
    ensures Normalize(xs).Some? ==> NormalList(Normalize(xs).value) && Elements(Normalize(xs).value) == Elements(xs)
  {
    ElementCount(xs);
    if Distinct(xs) {
      StringLeTotalOrder();
      SortCorrect(StringLe, xs);
      var r := Sort(StringLe, xs);
      forall x ensures multiset(r)[x] <= 1 && (x in r <==> x in xs) {
        DistinctMultiset(xs, x);
        assert x in r <==> x in multiset(r);
      }
      CountedDistinct(r);
    }
  }

  lemma NormalListUnique(xs: seq<string>, ys: seq<string>)
    requires NormalList(xs) && NormalList(ys) && Elements(xs) == Elements(ys)
    ensures xs == ys
  {
    StringLeTotalOrder();
    forall x ensures multiset(xs)[x] == multiset(ys)[x] {
      DistinctMultiset(xs, x);
      DistinctMultiset(ys, x);
      assert x in xs <==> x in Elements(xs);
      assert x in ys <==> x in Elements(ys);
    }
    assert multiset(xs) == multiset(ys);
    SortedUnique(StringLe, xs, ys);
  }

  /** On normal forms authorisation is a partial order: it is transitive, and scopes that
      authorise each other are the same scope, hence have the same digest. */
  lemma MutualAuthorization(a: Scope, b: Scope)
    requires Normal(a) && Normal(b)
    ensures Authorizes(a, b) && Authorizes(b, a) <==> a == b
    ensures forall c :: Authorizes(a, b) && Authorizes(b, c) ==> Authorizes(a, c)
  {
    if Authorizes(a, b) && Authorizes(b, a) {
      NormalListUnique(a.operations, b.operations);
      if a.resourceIds == [] {
        assert b.resourceIds == [];
      } else {
        NormalListUnique(a.resourceIds, b.resourceIds);
      }
    }
  }
}
