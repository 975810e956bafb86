/**
 * MongoDB's array update operators on a list of ids.  `$push` of a value or
 * of an array is concatenation (`s + xs`, written inline where it is used);
 * `$pull` removes every element equal to the given id and keeps the order of
 * the rest.
 */
module ArrayOps {
  import opened Models

  /** `$pull: { field: x }` */
  function Pull(s: seq<Id>, x: Id): (r: seq<Id>)
    ensures multiset(r) == multiset(s)[x := 0]
    ensures x !in r
    ensures forall y :: y in r <==> y in s && y != x
    ensures |r| <= |s|
  {
    if s == [] then []
    else
      assert s == [s[0]] + s[1..];
      if s[0] == x then Pull(s[1..], x) else [s[0]] + Pull(s[1..], x)
  }

  /** Pulling an id that is not there changes nothing. */
  lemma {:induction false} PullAbsent(s: seq<Id>, x: Id)
    requires x !in s
    ensures Pull(s, x) == s
  {
    if s != [] {
      PullAbsent(s[1..], x);
    }
  }

  /** `$pull` works element by element, so it distributes over concatenation. */
  lemma {:induction false} PullAppend(s: seq<Id>, t: seq<Id>, x: Id)
    ensures Pull(s + t, x) == Pull(s, x) + Pull(t, x)
  {
    if s == [] {
      assert s + t == t;
    } else {
      assert (s + t)[1..] == s[1..] + t;
      PullAppend(s[1..], t, x);
    }
  }

  /** Pulling an id after pushing it leaves what pulling it alone leaves. */
  lemma PullAfterPush(s: seq<Id>, xs: seq<Id>, x: Id)
    requires forall i :: 0 <= i < |xs| ==> xs[i] == x
    ensures Pull(s + xs, x) == Pull(s, x)
  {
    PullAppend(s, xs, x);
    PullOnly(xs, x);
  }

  /** A list made only of the pulled id becomes empty. */
  lemma {:induction false} PullOnly(xs: seq<Id>, x: Id)
    requires forall i :: 0 <= i < |xs| ==> xs[i] == x
    ensures Pull(xs, x) == []
  {
    if xs != [] {
      PullOnly(xs[1..], x);
    }
  }
}
