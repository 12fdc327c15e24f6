/**
  The ready queue of a worker: `reap_swap` behind a `spsc_cursor` with wrapping 32-bit
  ends (include/co_context/detail/spsc_cursor.hpp:23-66 and 169-183), and one round of
  `do_worker_part` (lib/co_context/io_context.cpp:75-84) over it.
 */
module ReadyQueue {
  import opened Word32

  type Handle = nat

  class Queue {
    const k: nat                       // the capacity is 2 to the k
    const mask: Word
    var head: Word
    var tail: Word
    const swap: array<Handle>
    ghost var pushed: seq<Handle>      // everything ever forwarded
    ghost var popped: nat

    ghost predicate Stored(p: nat)
      requires p < |pushed|
      reads this, swap
    {
      SlotAt(p, mask) < swap.Length && swap[SlotAt(p, mask)] == pushed[p]
    }

    ghost predicate Valid()
      reads this, swap
    {
      && k <= 31 && swap.Length == Pow2(k) < WORD && mask == Pow2(k) - 1
      && popped <= |pushed| <= popped + swap.Length
      && head == Wrap(popped) && tail == Wrap(|pushed|)
      && forall p: nat :: popped <= p < |pushed| ==> Stored(p)
    }

    ghost function Contents(): (s: seq<Handle>)
      requires Valid()
      reads this, swap
    {
      pushed[popped..]
    }

    constructor (k: nat)
      requires k <= 31
      ensures Valid() && Contents() == [] && swap.Length == Pow2(k) && fresh(swap)
    {
      Pow2Monotone(k, 31);
      WordIsPow2();
      var n: Word := Pow2(k);
      this.k, mask, head, tail := k, n - 1, 0, 0;
      swap := new Handle[n];
      pushed, popped := [], 0;
    }

    method Size() returns (n: Word)
      requires Valid()
      ensures n == |Contents()|
    {
      Difference(|pushed|, popped);
      n := Wrap(tail - head);
    }

    method IsEmpty() returns (b: bool)
      requires Valid()
      ensures b <==> Contents() == []
    {
      SameWord(|pushed|, popped);
      b := head == tail;
    }

    method AvailableNumber() returns (n: Word)
      requires Valid()
      ensures n == swap.Length - |Contents()|
    {
      Difference(|pushed|, popped);
      n := Wrap(swap.Length - Wrap(tail - head));
    }

    /** `forward_task`: the queue is not checked for room. */
    method ForwardTask(h: Handle)
      requires Valid() && |Contents()| < swap.Length
      modifies this`tail, this`pushed, swap
      ensures Valid() && Contents() == old(Contents()) + [h] && popped == old(popped)
    {
      ghost var at := |pushed|;
      SlotsApart(at, at, k);
      Increment(at);
      forall p: nat | popped <= p < at ensures SlotAt(p, mask) != SlotAt(at, mask) && SlotAt(p, mask) < swap.Length {
        SlotsApart(p, at, k);
        assert Stored(p);
      }
      swap[BitAnd(tail, mask)] := h;
      tail := Wrap(tail + 1);
      pushed := pushed + [h];
      forall p: nat | popped <= p < |pushed| ensures Stored(p) {
        assert p < at ==> old(Stored(p));
      }
    }

    /** `schedule`: its assertion, that the queue is not empty, is the precondition. */
    method Schedule() returns (h: Handle)
      requires Valid() && Contents() != []
      modifies this`head, this`popped
      ensures Valid() && [h] + Contents() == old(Contents())
    {
      assert Stored(popped);
      h := swap[BitAnd(head, mask)];
      Increment(popped);
      head := Wrap(head + 1);
      popped := popped + 1;
      forall p: nat | popped <= p < |pushed| ensures Stored(p) {
        assert old(Stored(p));
      }
    }

    method ForwardAll(tasks: seq<Handle>)
      requires Valid() && |Contents()| + |tasks| <= swap.Length
      modifies this`tail, this`pushed, swap
      ensures Valid() && Contents() == old(Contents()) + tasks && popped == old(popped)
    {
      var i := 0;
      while i < |tasks|
        invariant 0 <= i <= |tasks|
        invariant Valid() && Contents() == old(Contents()) + tasks[..i] && popped == old(popped)
      {
        ForwardTask(tasks[i]);
        i := i + 1;
      }
    }

    /** `work_once`: the oldest task is resumed, and forwards `tasks` while it runs. */
    method WorkOnce(tasks: seq<Handle>) returns (h: Handle)
      requires Valid() && Contents() != [] && |Contents()| - 1 + |tasks| <= swap.Length
      modifies this, swap
      ensures Valid() && h == old(Contents())[0] && Contents() == old(Contents())[1..] + tasks
    {
      h := Schedule();
      assert Contents() == old(Contents())[1..];
      ForwardAll(tasks);
    }

    /**
      One round.  Resuming the i-th task forwards spawns[i], which may name any tasks, itself
      included.  The round resumes exactly the tasks that were ready at its start, in order;
      the tasks forwarded meanwhile are ready for the next round, in the order of forwarding.
     */
    method DoWorkerPart(spawns: seq<seq<Handle>>) returns (resumed: seq<Handle>)
      requires Valid() && |spawns| == |Contents()| && Fits(|Contents()|, spawns, swap.Length)
      modifies this, swap
      ensures Valid() && resumed == old(Contents()) && Contents() == Concat(spawns)
    {
      var num: nat := Size();
      ghost var all := Contents();
      resumed := [];
      MidRoundStarts(all, spawns, swap.Length);
      while num > 0
        invariant Valid() && |resumed| + num == |all|
        invariant MidRound(all, spawns, resumed, Contents(), swap.Length)
      {
        MidRoundStep(all, spawns, resumed, Contents(), swap.Length);
        var h := WorkOnce(spawns[|resumed|]);
        resumed := resumed + [h];
        num := num - 1;
      }
      MidRoundEnds(all, spawns, resumed, Contents(), swap.Length);
    }
  }

  /** After some tasks of the round: the rest of it is queued, then what has been forwarded. */
  ghost predicate MidRound(
      all: seq<Handle>, spawns: seq<seq<Handle>>, resumed: seq<Handle>, contents: seq<Handle>, capacity: nat)
  {
    var i := |resumed|;
    && i <= |all| == |spawns| && resumed == all[..i]
    && contents == all[i..] + Concat(spawns[..i])
    && Fits(|contents|, spawns[i..], capacity)
  }

  lemma {:induction false} MidRoundStarts(all: seq<Handle>, spawns: seq<seq<Handle>>, capacity: nat)
    requires |all| == |spawns| && Fits(|all|, spawns, capacity)
    ensures MidRound(all, spawns, [], all, capacity)
  {
    assert spawns[0..] == spawns && all[0..] + Concat(spawns[..0]) == all;
  }

  lemma {:induction false} MidRoundStep(
      all: seq<Handle>, spawns: seq<seq<Handle>>, resumed: seq<Handle>, contents: seq<Handle>, capacity: nat)
    requires MidRound(all, spawns, resumed, contents, capacity) && |resumed| < |all|
    ensures var tasks := spawns[|resumed|];
      && contents != [] && |contents| - 1 + |tasks| <= capacity
      && MidRound(all, spawns, resumed + [contents[0]], contents[1..] + tasks, capacity)
  {
    var i := |resumed|;
    ConcatSnoc(spawns, i);
    OneFurther(all, i);
    OneFurther(spawns, i);
    HeadOfSum(all[i..], Concat(spawns[..i]), spawns[i]);
  }

  lemma OneFurther<T>(s: seq<T>, i: nat)
    requires i < |s|
    ensures s[..i] + [s[i]] == s[..i + 1] && s[i..] != [] && s[i..][0] == s[i] && s[i..][1..] == s[i + 1..]
  {
  }

  lemma HeadOfSum<T>(a: seq<T>, b: seq<T>, c: seq<T>)
    requires a != []
    ensures (a + b)[0] == a[0] && (a + b)[1..] + c == a[1..] + (b + c)
  {
  }

  lemma {:induction false} MidRoundEnds(
      all: seq<Handle>, spawns: seq<seq<Handle>>, resumed: seq<Handle>, contents: seq<Handle>, capacity: nat)
    requires MidRound(all, spawns, resumed, contents, capacity) && |resumed| == |all|
    ensures resumed == all && contents == Concat(spawns)
  {
    assert spawns[..|all|] == spawns && all[|all|..] + Concat(spawns) == Concat(spawns);
  }

  function Concat(s: seq<seq<Handle>>): seq<Handle> {
    if |s| == 0 then [] else s[0] + Concat(s[1..])
  }

  /** What the program owes the runtime: no more ready tasks than the capacity, at any time. */
  predicate Fits(size: nat, spawns: seq<seq<Handle>>, capacity: nat)
    decreases |spawns|
  {
    || |spawns| == 0
    || (&& size > 0 && size - 1 + |spawns[0]| <= capacity
        && Fits(size - 1 + |spawns[0]|, spawns[1..], capacity))
  }

  lemma {:induction false} ConcatSnoc(s: seq<seq<Handle>>, i: nat)
    requires i < |s|
    ensures Concat(s[..i + 1]) == Concat(s[..i]) + s[i]
  {
    if i == 0 {
      assert s[..1] == [s[0]] && Concat(s[..1][1..]) == [];
    } else {
      assert s[..i + 1][1..] == s[1..][..i] && s[..i][1..] == s[1..][..i - 1];
      ConcatSnoc(s[1..], i - 1);
    }
  }
}
