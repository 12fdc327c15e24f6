/**
  Draining the completion queue while the kernel keeps posting
  (extern/liburingcxx/include/uring/uring.hpp:178-190 and 478-509,
  lib/co_context/detail/worker_meta.cpp:166-184).

  The kernel is an adversary: it gets a turn before every read of `*ktail` and, inside
  the handler, right after the slot of the entry has been released.  What it posts is
  given by the caller, turn by turn; it stops when there is no free slot.
 */
module CompletionQueue {
  import opened Word32

  datatype Cqe = Cqe(userData: nat, res: int, flags: nat)

  class Queue {
    const k: nat                // ring_entries is 2 to the k
    const ringMask: Word
    var khead: Word             // written by the application
    var ktail: Word             // written by the kernel
    const cqes: array<Cqe>
    ghost var posted: seq<Cqe>  // everything the kernel ever posted
    ghost var reaped: nat       // behind khead

    ghost predicate Stored(p: nat)
      requires p < |posted|
      reads this, cqes
    {
      SlotAt(p, ringMask) < cqes.Length && cqes[SlotAt(p, ringMask)] == posted[p]
    }

    ghost predicate Counters()
      reads this
    {
      && k <= 31 && cqes.Length == Pow2(k) < WORD && ringMask == Pow2(k) - 1
      && reaped <= |posted| <= reaped + cqes.Length
      && khead == Wrap(reaped) && ktail == Wrap(|posted|)
    }

    ghost predicate Valid()
      reads this, cqes
    {
      Counters() && forall p: nat :: reaped <= p < |posted| ==> Stored(p)
    }

    constructor (k: nat)
      requires k <= 31
      ensures Valid() && posted == [] && reaped == 0 && fresh(cqes) && cqes.Length == Pow2(k)
    {
      Pow2Monotone(k, 31);
      WordIsPow2();
      var n: Word := Pow2(k);
      this.k, ringMask, khead, ktail := k, n - 1, 0, 0;
      cqes := new Cqe[n](_ => Cqe(0, 0, 0));
      posted, reaped := [], 0;
    }

    /** The kernel posts one entry. */
    method Post(c: Cqe)
      requires Valid() && |posted| < reaped + cqes.Length
      modifies this`ktail, this`posted, cqes
      ensures Valid() && posted == old(posted) + [c]
    {
      ghost var at := |posted|;
      SlotsApart(at, at, k);
      Increment(at);
      cqes[BitAnd(ktail, ringMask)] := c;
      ktail := Wrap(ktail + 1);
      posted := posted + [c];
      forall p: nat | reaped <= p < |posted| ensures Stored(p) {
        SlotsApart(p, at, k);
        assert p < at ==> old(Stored(p));
      }
    }

    /** A turn of the kernel: it posts the next batch, as far as there is room. */
    method KernelTurn(arrivals: seq<seq<Cqe>>) returns (left: seq<seq<Cqe>>)
      requires Valid()
      modifies this`ktail, this`posted, cqes
      ensures Valid() && old(posted) <= posted
      ensures arrivals == [] ==> left == [] && posted == old(posted)
      ensures arrivals != [] ==> left == arrivals[1..] && posted[|old(posted)|..] <= arrivals[0]
    {
      if arrivals == [] {
        return [];
      }
      var batch, room := arrivals[0], cqes.Length - Wrap(ktail - khead);
      Difference(|posted|, reaped);
      var i := 0;
      while i < |batch| && i < room
        invariant Valid() && 0 <= i <= |batch| && i <= room
        invariant room == cqes.Length - (|old(posted)| - reaped) && posted == old(posted) + batch[..i]
      {
        Post(batch[i]);
        i := i + 1;
      }
      left := arrivals[1..];
    }

    /** Lines 786-790 of uring.hpp, called by `seen_cq_entry` with 1. */
    method CqAdvance(num: Word)
      requires Valid() && 0 < num && reaped + num <= |posted|
      modifies this`khead, this`reaped
      ensures Valid() && reaped == old(reaped) + num
    {
      khead := Wrap(khead + num);
      reaped := reaped + num;
      WrapAdd(old(reaped), num);
      forall p: nat | reaped <= p < |posted| ensures Stored(p) {
        assert old(Stored(p));
      }
    }

    /** `handle_cq_entry`: the fields are copied, the slot is released, then the copies are used. */
    method Handle(slot: nat, arrivals: seq<seq<Cqe>>) returns (copy: Cqe, left: seq<seq<Cqe>>)
      requires Valid() && reaped < |posted| && slot == SlotAt(reaped, ringMask)
      modifies this, cqes
      ensures Valid() && old(posted) <= posted && reaped == old(reaped) + 1
      ensures copy == posted[old(reaped)]
      ensures left == if arrivals == [] then [] else arrivals[1..]
      ensures arrivals == [] ==> posted == old(posted)
    {
      assert Stored(reaped);
      copy := Cqe(cqes[slot].userData, cqes[slot].res, cqes[slot].flags);
      CqAdvance(1);
      left := KernelTurn(arrivals);
    }

    /** One pass of the loop of `for_each_cqe`: the handler, then the kernel before the next read of the tail. */
    method HandleNext(head: Word, arrivals: seq<seq<Cqe>>) returns (copy: Cqe, left: seq<seq<Cqe>>)
      requires Valid() && head == khead != ktail
      modifies this, cqes
      ensures Valid() && old(posted) <= posted && reaped == old(reaped) + 1 && khead == Wrap(head + 1)
      ensures copy == old(posted[reaped]) && old(reaped < |posted|)
      ensures |left| < |arrivals| || (left == arrivals && posted == old(posted))
    {
      SameWord(|posted|, reaped);
      SlotsApart(reaped, reaped, k);
      Increment(reaped);
      copy, left := Handle(BitAnd(head, ringMask), arrivals);
      left := KernelTurn(left);
    }

    /**
      `for_each_cqe` with that handler.  However the kernel posts in between, the handler
      gets every entry posted up to the last read of the tail, each once and in order.
     */
    method ForEachCqe(arrivals: seq<seq<Cqe>>) returns (count: Word, delivered: seq<Cqe>)
      requires Valid()
      modifies this, cqes
      ensures Valid() && old(posted) <= posted
      ensures reaped == |posted| && delivered == posted[old(reaped)..]
      ensures count == Wrap(|delivered|)
    {
      count, delivered := 0, [];
      var head: Word := khead;
      var left := KernelTurn(arrivals);
      while head != ktail
        invariant Valid() && old(posted) <= posted && head == khead
        invariant old(reaped) <= reaped && delivered == posted[old(reaped)..reaped] && count == Wrap(|delivered|)
        decreases |left|, |posted| - reaped
      {
        var copy;
        copy, left := HandleNext(head, left);
        head := Wrap(head + 1);
        Increment(|delivered|);
        assert posted[old(reaped)..reaped - 1] + [posted[reaped - 1]] == posted[old(reaped)..reaped];
        delivered := delivered + [copy];
        count := Wrap(count + 1);
      }
      SameWord(|posted|, reaped);
    }

    /** Lines 487-493: n entries are looked at, not released. */
    method Look(n: Word) returns (got: seq<Cqe>)
      requires Valid() && n <= |posted| - reaped
      ensures got == posted[reaped..reaped + n]
    {
      var head: Word, last: Word := khead, Wrap(khead + n);
      ghost var at, end := reaped, reaped + n;
      WrapAdd(reaped, n);
      SameWord(end, at);
      got := [];
      while head != last
        invariant reaped <= at <= end && head == Wrap(at) && (head == last <==> at == end)
        invariant got == posted[reaped..at]
        decreases end - at
      {
        assert Stored(at);
        Increment(at);
        got := got + [cqes[BitAnd(head, ringMask)]];
        head := Wrap(head + 1);
        at := at + 1;
        SameWord(end, at);
      }
    }

    /** Lines 477-509: the entries ready, at most `max`; an empty queue is flushed once. */
    method PeekBatch(max: Word, arrivals: seq<Cqe>) returns (got: seq<Cqe>)
      requires Valid()
      modifies this, cqes
      ensures Valid() && reaped == old(reaped) && old(posted) <= posted
      ensures |got| == if max < |posted| - reaped then max else |posted| - reaped
      ensures got == posted[reaped..reaped + |got|]
    {
      Difference(|posted|, reaped);
      var ready := Wrap(ktail - khead);
      if ready == 0 {
        var _ := KernelTurn([arrivals]);   // get_events() makes the kernel flush
        Difference(|posted|, reaped);
        ready := Wrap(ktail - khead);
      }
      got := Look(if max < ready then max else ready);
    }
  }
}
