/**
  Book-keeping for coroutines that sit in lists: a map from coroutine to place, and
  the list of everybody at one place.
 */
module Places {
  import opened Lists

  /** s lists, once each, exactly the coroutines whose place is p. */
  ghost predicate Enumerates<P>(s: seq<Id>, place: seq<P>, p: P) {
    && Distinct(s)
    && (forall n :: n in s ==> n < |place|)
    && (forall n :: 0 <= n < |place| ==> (n in s <==> place[n] == p))
  }

  function Move<P>(place: seq<P>, s: seq<Id>, to: P): (r: seq<P>)
    ensures |r| == |place|
  {
    seq(|place|, i requires 0 <= i < |place| => if i in s then to else place[i])
  }

  lemma Unmoved<P>(s: seq<Id>, place: seq<P>, p: P, moved: seq<Id>, to: P)
    requires Enumerates(s, place, p) && to != p && (forall n :: n in moved ==> n !in s)
    ensures Enumerates(s, Move(place, moved, to), p)
  {
  }

  lemma MovedIn<P>(s: seq<Id>, place: seq<P>, p: P, n: Id)
    requires Enumerates(s, place, p) && n < |place| && n !in s
    ensures Enumerates([n] + s, Move(place, [n], p), p)
  {
    DistinctCons(n, s);
  }

  lemma MovedOut<P>(s: seq<Id>, place: seq<P>, p: P, to: P)
    requires Enumerates(s, place, p) && to != p && |s| > 0
    ensures Enumerates(s[1..], Move(place, [s[0]], to), p)
  {
    DistinctTail(s);
  }

  lemma MovedLast<P>(s: seq<Id>, place: seq<P>, p: P, n: Id)
    requires Enumerates(s, place, p) && n < |place| && n !in s
    ensures Enumerates(s + [n], Move(place, [n], p), p)
  {
    DistinctConcat(s, [n]);
  }

  lemma AllMoved<P>(s: seq<Id>, place: seq<P>, p: P, to: P)
    requires Enumerates(s, place, p) && Enumerates([], place, to) && to != p
    ensures Enumerates([], Move(place, s, to), p) && Enumerates(s, Move(place, s, to), to)
  {
  }

  lemma AllGone<P>(s: seq<Id>, place: seq<P>, p: P, to: P)
    requires Enumerates(s, place, p) && to != p
    ensures Enumerates([], Move(place, s, to), p)
  {
  }

  /** The same facts for a single coroutine that changes place. */
  lemma OneMoved<P>(s: seq<Id>, place: seq<P>, p: P, n: Id, to: P)
    requires Enumerates(s, place, p) && n < |place|
    ensures to != p && n !in s ==> Enumerates(s, place[n := to], p)
    ensures to == p && n !in s ==> Enumerates(s + [n], place[n := p], p)
    ensures to != p && |s| > 0 && n == s[0] ==> Enumerates(s[1..], place[n := to], p)
  {
    assert Move(place, [n], to) == place[n := to];
    if n !in s {
      if to == p { MovedLast(s, place, p, n); } else { Unmoved(s, place, p, [n], to); }
    } else if to != p && |s| > 0 && n == s[0] {
      MovedOut(s, place, p, to);
    }
  }
}
