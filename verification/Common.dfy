/** Vocabulary shared by every component model. */
module Common {

  /** A row identifier: a UUID for Patrice rows, a snowflake for Discord users and roles. */
  type Id = string

  datatype Option<+T> = None | Some(value: T)

  /** `lifecycle_state`. */
  datatype Lifecycle = Active | Deactivated | Retired

  function Init<T>(s: seq<T>): seq<T>
    requires s != []
  {
    s[..|s| - 1]
  }

  function Last<T>(s: seq<T>): T
    requires s != []
  {
    s[|s| - 1]
  }

  /** The concatenation of `f` over the elements of `s`, in order. */
  function FlatMap<S, T>(s: seq<S>, f: S -> seq<T>): seq<T> {
    if s == [] then [] else FlatMap(Init(s), f) + f(Last(s))
  }

  lemma FlatMapSnoc<S, T>(s: seq<S>, x: S, f: S -> seq<T>)
    ensures FlatMap(s + [x], f) == FlatMap(s, f) + f(x)
  {
  }

  lemma {:induction false} FlatMapMember<S, T>(s: seq<S>, f: S -> seq<T>, y: T)
    ensures y in FlatMap(s, f) <==> exists i :: 0 <= i < |s| && y in f(s[i])
  {
    if s != [] {
      FlatMapMember(Init(s), f, y);
      if i :| 0 <= i < |s| && y in f(s[i]) {
        assert i < |s| - 1 ==> Init(s)[i] == s[i];
      }
      if i :| 0 <= i < |Init(s)| && y in f(Init(s)[i]) {
        assert Init(s)[i] == s[i];
      }
    }
  }

  /** Two functions that agree on the elements of `s` flat-map it alike. */
  lemma {:induction false} FlatMapCongruence<S, T>(s: seq<S>, f: S -> seq<T>, g: S -> seq<T>)
    requires forall x <- s :: f(x) == g(x)
    ensures FlatMap(s, f) == FlatMap(s, g)
  {
    if s != [] {
      assert Last(s) in s;
      FlatMapCongruence(Init(s), f, g);
    }
  }

  /** The elements of `s` that satisfy `p`, in order. */
  function Filter<T>(s: seq<T>, p: T -> bool): seq<T> {
    if s == [] then [] else Filter(Init(s), p) + if p(Last(s)) then [Last(s)] else []
  }

  lemma {:induction false} FilterAppend<T>(a: seq<T>, b: seq<T>, p: T -> bool)
    ensures Filter(a + b, p) == Filter(a, p) + Filter(b, p)
  {
    if b == [] {
      assert a + b == a;
    } else {
      assert Init(a + b) == a + Init(b);
      FilterAppend(a, Init(b), p);
    }
  }

  lemma {:induction false} FilterMember<T>(s: seq<T>, p: T -> bool, x: T)
    ensures x in Filter(s, p) <==> x in s && p(x)
  {
    if s != [] {
      FilterMember(Init(s), p, x);
      assert s == Init(s) + [Last(s)];
    }
  }
}
