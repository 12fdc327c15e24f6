/**
  Intrusive singly linked lists, as every waiter queue of the runtime uses them:
  a `next` field per node, a head pointer, and the sequence of nodes met by
  following `next` from that head until null.
 */
module Lists {
  /** A coroutine, and the awaiter object that lives in its frame. */
  type Id = nat

  datatype Ptr = Null | At(id: Id)

  datatype Option<+T> = None | Some(value: T)

  function HeadOf(s: seq<Id>): Ptr {
    if |s| == 0 then Null else At(s[0])
  }

  /** The pointer held by the `next` field of the i-th node of s. */
  function After(s: seq<Id>, i: nat): Ptr {
    if i + 1 < |s| then At(s[i + 1]) else Null
  }

  /** Following `next` from p meets exactly the nodes of s, then null. */
  ghost predicate Linked(next: seq<Ptr>, p: Ptr, s: seq<Id>) {
    && p == HeadOf(s)
    && (forall i :: 0 <= i < |s| ==> s[i] < |next|)
    && (forall i {:trigger next[s[i]]} :: 0 <= i < |s| ==> next[s[i]] == After(s, i))
  }

  /** No node occurs twice. */
  ghost predicate Distinct(s: seq<Id>) {
    forall i, j :: 0 <= i < j < |s| ==> s[i] != s[j]
  }

  lemma DistinctCons(n: Id, s: seq<Id>)
    requires Distinct(s) && n !in s
    ensures Distinct([n] + s)
  {
    var t := [n] + s;
    forall i, j | 0 <= i < j < |t| ensures t[i] != t[j] {
      assert t[j] == s[j - 1];
      if i > 0 { assert t[i] == s[i - 1]; }
    }
  }

  lemma DistinctTail(s: seq<Id>)
    requires Distinct(s) && |s| > 0
    ensures Distinct(s[1..]) && s[0] !in s[1..]
    ensures forall n :: n in s <==> n == s[0] || n in s[1..]
  {
    var t := s[1..];
    assert s == [s[0]] + t;
    forall i, j | 0 <= i < j < |t| ensures t[i] != t[j] {
      assert t[i] == s[i + 1] && t[j] == s[j + 1];
    }
  }

  /** The `next` field of the node p points to; null stays null. */
  function NextOf(next: seq<Ptr>, p: Ptr): Ptr {
    if p.At? && p.id < |next| then next[p.id] else Null
  }

  function Reverse<T>(s: seq<T>): (r: seq<T>)
    ensures |r| == |s|
  {
    if |s| == 0 then [] else Reverse(s[1..]) + [s[0]]
  }

  lemma {:induction false} ReverseMembers<T>(s: seq<T>)
    ensures forall n :: n in Reverse(s) <==> n in s
  {
    if |s| > 0 {
      ReverseMembers(s[1..]);
      assert s == [s[0]] + s[1..];
    }
  }

  lemma {:induction false} ReverseAt<T>(s: seq<T>, k: nat)
    requires k < |s|
    ensures Reverse(s)[k] == s[|s| - 1 - k]
  {
    if k < |s| - 1 {
      ReverseAt(s[1..], k);
    }
  }

  lemma {:induction false} ReverseDistinct(s: seq<Id>)
    requires Distinct(s)
    ensures Distinct(Reverse(s))
  {
    if |s| > 0 {
      DistinctTail(s);
      ReverseDistinct(s[1..]);
      ReverseMembers(s[1..]);
      DistinctConcat(Reverse(s[1..]), [s[0]]);
    }
  }

  lemma DistinctConcat(a: seq<Id>, b: seq<Id>)
    requires Distinct(a) && Distinct(b) && (forall n :: n in a ==> n !in b)
    ensures Distinct(a + b)
  {
    var t := a + b;
    forall i, j | 0 <= i < j < |t| ensures t[i] != t[j] {
      if i < |a| <= j { assert t[i] in a && t[j] in b; }
    }
  }

  lemma ReverseCons<T>(n: T, s: seq<T>)
    ensures Reverse([n] + s) == Reverse(s) + [n]
  {
    assert ([n] + s)[1..] == s;
  }

  lemma {:induction false} ReverseSnoc<T>(s: seq<T>, x: T)
    ensures Reverse(s + [x]) == [x] + Reverse(s)
  {
    if |s| > 0 {
      assert (s + [x])[1..] == s[1..] + [x];
      ReverseSnoc(s[1..], x);
    }
  }

  /** A write to the `next` field of a node outside the list leaves the list alone. */
  lemma LinkedFrame(next: seq<Ptr>, p: Ptr, s: seq<Id>, n: Id, q: Ptr)
    requires Linked(next, p, s) && n !in s && n < |next|
    ensures Linked(next[n := q], p, s)
  {
    forall i | 0 <= i < |s| ensures s[i] < |next| && next[n := q][s[i]] == After(s, i) {
      assert s[i] in s;
    }
  }

  lemma LinkedTail(next: seq<Ptr>, p: Ptr, s: seq<Id>)
    requires Linked(next, p, s) && |s| > 0
    ensures Linked(next, NextOf(next, p), s[1..])
  {
    var t := s[1..];
    assert s[0] < |next|;
    forall i | 0 <= i < |t| ensures t[i] < |next| && next[t[i]] == After(t, i) {
      assert t[i] == s[i + 1];
    }
  }

  /** Storing the head of a list in a node's `next` field puts that node in front. */
  lemma LinkedCons(next: seq<Ptr>, p: Ptr, s: seq<Id>, n: Id)
    requires Linked(next, p, s) && n !in s && n < |next|
    ensures Linked(next[n := p], At(n), [n] + s)
  {
    LinkedFrame(next, p, s, n, p);
    var t := [n] + s;
    forall i | 0 <= i < |t| ensures t[i] < |next| && next[n := p][t[i]] == After(t, i) {
      if i > 0 { assert t[i] == s[i - 1]; }
    }
  }

  lemma LinkedAppend(next: seq<Ptr>, p: Ptr, s: seq<Id>, n: Id)
    requires Linked(next, p, s) && Distinct(s) && |s| > 0 && n !in s
    requires n < |next| && next[n] == Null
    ensures Linked(next[s[|s| - 1] := At(n)], p, s + [n])
  {
    var last := s[|s| - 1];
    var t := s + [n];
    forall i | 0 <= i < |t| ensures t[i] < |next| && next[last := At(n)][t[i]] == After(t, i) {
      if i < |s| - 1 { assert t[i] == s[i] && s[i] != last; }
    }
  }

  /** A head pointer determines the list: no two sequences describe the same chain. */
  lemma {:induction false} LinkedUnique(next: seq<Ptr>, p: Ptr, s: seq<Id>, t: seq<Id>)
    requires Linked(next, p, s) && Linked(next, p, t)
    ensures s == t
    decreases |s|
  {
    if |s| > 0 {
      assert |t| > 0;
      LinkedTail(next, p, s);
      LinkedTail(next, p, t);
      LinkedUnique(next, NextOf(next, p), s[1..], t[1..]);
      assert s == [s[0]] + s[1..] && t == [t[0]] + t[1..];
    }
  }
}
