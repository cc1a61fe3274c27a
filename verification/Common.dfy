/** Vocabulary shared by every component of the gateway model. */
module Common {

  datatype Option<+T> = None | Some(value: T)

  datatype Result<+T, +E> = Ok(value: T) | Err(error: E)

  function MaxReal(a: real, b: real): real {
    if a < b then b else a
  }

  function MinReal(a: real, b: real): real {
    if a < b then a else b
  }

  lemma Spread(a: real, b: real, c: real)
    ensures a * (b + c) == a * b + a * c
  {
  }

  /** The set of indices or ids a predicate selects never outgrows the set an injection maps it into. */
  lemma {:induction false} InjectionBoundsCardinality<A, B>(domain: set<A>, codomain: set<B>, f: map<A, B>)
    requires domain <= f.Keys
    requires forall a :: a in domain ==> f[a] in codomain
    requires forall a, a' :: a in domain && a' in domain && f[a] == f[a'] ==> a == a'
    ensures |domain| <= |codomain|
  {
    if domain != {} {
      var a :| a in domain;
      InjectionBoundsCardinality(domain - {a}, codomain - {f[a]}, f);
    }
  }

  lemma {:induction false} SubsetCount<T>(a: set<T>, b: set<T>)
    requires a <= b
    ensures |a| <= |b|
  {
    if a != {} {
      var x :| x in a;
      SubsetCount(a - {x}, b - {x});
    }
  }

  /** A number no id has reached. */
  lemma {:induction false} Unused(ids: set<nat>) returns (id: nat)
    ensures forall other :: other in ids ==> other < id
  {
    if ids == {} {
      id := 0;
    } else {
      var x :| x in ids;
      var rest := Unused(ids - {x});
      id := if x < rest then rest else x + 1;
      forall other | other in ids ensures other < id {
        assert other == x || other in ids - {x};
      }
    }
  }
}
