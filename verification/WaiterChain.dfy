/**
  The in-place list surgery of the waiter queues, on heap nodes: the stack reversal
  shared by `mutex::unlock` and `counting_semaphore::try_release`, and steps 3 to 5
  of `condition_variable::notify_one`.
 */
module WaiterChain {
  import opened Lists

  /** An awaiter as the queues see it. */
  class Waiter {
    var next: Waiter?
  }

  function First(s: seq<Waiter>): Waiter? {
    if |s| == 0 then null else s[0]
  }

  ghost predicate Unique(s: seq<Waiter>) {
    forall i, j :: 0 <= i < j < |s| ==> s[i] != s[j]
  }

  /** Following `next` from p meets exactly the nodes of s, then null. */
  ghost predicate Chain(p: Waiter?, s: seq<Waiter>)
    reads s
  {
    && p == First(s)
    && forall i {:trigger s[i].next} :: 0 <= i < |s| ==> s[i].next == if i + 1 < |s| then s[i + 1] else null
  }

  /**
    The do-while loop of lib/co_context/co/mutex.cpp:43-48 and
    lib/co_context/co/semaphore.cpp:72-77, started with a null `resume_head`.
   */
  method ReverseStack(top: Waiter, ghost s: seq<Waiter>) returns (head: Waiter)
    requires Chain(top, s) && Unique(s)
    modifies s
    ensures Chain(head, Reverse(s))
  {
    var node: Waiter? := top;
    var resumeHead: Waiter? := null;
    ghost var k := 0;
    while node != null
      invariant 0 <= k <= |s|
      invariant node == if k < |s| then s[k] else null
      invariant resumeHead == if k > 0 then s[k - 1] else null
      invariant forall i {:trigger s[i].next} :: k <= i < |s| ==> s[i].next == if i + 1 < |s| then s[i + 1] else null
      invariant forall i {:trigger s[i].next} :: 0 <= i < k ==> s[i].next == if i > 0 then s[i - 1] else null
      decreases |s| - k
    {
      var tmp := node.next;
      node.next := resumeHead;
      resumeHead := node;
      node := tmp;
      k := k + 1;
    }
    head := resumeHead;
    BackwardsIsReverse(s);
  }

  /** A list whose nodes each point to their predecessor, read from the back. */
  lemma BackwardsIsReverse(s: seq<Waiter>)
    requires |s| > 0 && forall i {:trigger s[i].next} :: 0 <= i < |s| ==> s[i].next == if i > 0 then s[i - 1] else null
    ensures Chain(s[|s| - 1], Reverse(s))
  {
    var r := Reverse(s);
    forall i | 0 <= i < |r| ensures r[i].next == if i + 1 < |r| then r[i + 1] else null {
      ReverseAt(s, i);
      if i + 1 < |r| { ReverseAt(s, i + 1); }
    }
    ReverseAt(s, 0);
  }

  /**
    Step 3 of notify_one (lib/co_context/co/condition_variable.cpp:54-63): unlike the
    loop above it leaves the oldest node aside, so `head` does not lead to `succ`.
   */
  method FlipBatch(top: Waiter, ghost s: seq<Waiter>) returns (head: Waiter, succ: Waiter?, tail: Waiter)
    requires Chain(top, s) && Unique(s)
    modifies s
    ensures |s| > 0 && tail == s[0]
    ensures head == Reverse(s)[0] && Chain(head, [head])
    ensures Chain(succ, Reverse(s)[1..])
  {
    head, tail, succ := top, top, null;
    var pred := head.next;
    ghost var k := 0;
    while pred != null
      invariant 0 <= k < |s| && head == s[k]
      invariant pred == if k + 1 < |s| then s[k + 1] else null
      invariant succ == if k > 0 then s[k - 1] else null
      invariant forall i {:trigger s[i].next} :: k <= i < |s| ==> s[i].next == if i + 1 < |s| then s[i + 1] else null
      invariant forall i {:trigger s[i].next} :: 0 <= i < k ==> s[i].next == if i > 0 then s[i - 1] else null
      decreases |s| - k
    {
      head.next := succ;
      succ := head;
      head := pred;
      pred := pred.next;
      k := k + 1;
    }
    ReverseAt(s, 0);
    if k > 0 {
      assert s == s[..k] + [s[k]];
      ReverseSnoc(s[..k], s[k]);
      BackwardsIsReverse(s[..k]);
    }
  }

  /** `to_resume_head` and `to_resume_tail` of a condition variable. */
  class ResumeList {
    var head: Waiter?
    var tail: Waiter?
    ghost var waiting: seq<Waiter>

    ghost predicate Valid()
      reads this, waiting
    {
      && Chain(head, waiting) && Unique(waiting)
      && (|waiting| > 0 ==> tail == waiting[|waiting| - 1])
    }

    constructor ()
      ensures Valid() && waiting == []
    {
      head, tail, waiting := null, null, [];
    }

    /** Step 1 (and 2): the oldest waiter of the list, or null with the tail cleared. */
    method Pop() returns (w: Waiter?)
      requires Valid()
      modifies this
      ensures Valid()
      ensures w == First(old(waiting))
      ensures waiting == if |old(waiting)| == 0 then [] else old(waiting)[1..]
    {
      w := head;
      if w != null {
        head := w.next;
        waiting := waiting[1..];
      } else {
        tail := null;
      }
    }

    /**
      Steps 4 and 5 with a reversed batch, oldest first.  The list then holds every
      waiter but the one to notify, with a tail that fits, exactly when the list was
      empty or the batch has one waiter; otherwise it keeps the batch's oldest only.
     */
    method Merge(oldest: Waiter, succ: Waiter?, newest: Waiter, ghost batch: seq<Waiter>) returns (w: Waiter)
      requires Valid() && |batch| > 0 && Unique(waiting) && Unique(batch)
      requires forall i, j :: 0 <= i < |waiting| && 0 <= j < |batch| ==> waiting[i] != batch[j]
      requires oldest == batch[0] && newest == batch[|batch| - 1]
      requires Chain(oldest, [oldest]) && Chain(succ, batch[1..])
      modifies this, waiting
      ensures Chain(head, waiting) && tail == newest
      ensures |old(waiting)| == 0 ==> w == oldest && waiting == batch[1..]
      ensures |old(waiting)| > 0 ==> w == old(waiting)[0] && waiting == old(waiting)[1..] + [oldest]
      ensures |old(waiting)| == 0 || |batch| == 1 ==> Valid()
      ensures [w] + waiting == old(waiting) + batch <==> |old(waiting)| == 0 || |batch| == 1
    {
      ghost var was := waiting;
      if head == null {
        head := succ;
        tail := newest;
        w := oldest;
        waiting := batch[1..];
      } else {
        tail.next := oldest;
        w := head;
        head := head.next;
        tail := newest;
        waiting := was[1..] + [oldest];
        ChainAppended(was, oldest, head);
      }
      KeptAll(was, batch);
    }
  }

  lemma ChainAppended(was: seq<Waiter>, oldest: Waiter, head: Waiter?)
    requires |was| > 0 && was[|was| - 1].next == oldest && oldest.next == null
    requires forall i {:trigger was[i].next} :: 0 <= i < |was| - 1 ==> was[i].next == was[i + 1]
    requires head == was[0].next
    ensures Chain(head, was[1..] + [oldest])
  {
    var t := was[1..] + [oldest];
    forall i | 0 <= i < |t| ensures t[i].next == if i + 1 < |t| then t[i + 1] else null {
      if i + 1 < |was| { assert t[i] == was[i + 1]; }
      if i + 2 < |was| { assert t[i + 1] == was[i + 2]; }
    }
  }

  lemma KeptAll(was: seq<Waiter>, batch: seq<Waiter>)
    requires |batch| > 0
    ensures [batch[0]] + batch[1..] == batch
    ensures |was| > 0 ==> ([was[0]] + (was[1..] + [batch[0]]) == was + batch <==> |batch| == 1)
  {
    if |was| > 0 {
      assert |[was[0]] + (was[1..] + [batch[0]])| == |was| + 1;
      if |batch| == 1 { assert was == [was[0]] + was[1..] && batch == [batch[0]]; }
    }
  }
}
