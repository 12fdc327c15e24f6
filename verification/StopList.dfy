/**
  The doubly linked callback list of `stop_state_t`
  (include/co_context/co/stop_token.hpp:184-193, 246-250 and 257-277): the sections
  that run under the lock bit, on heap nodes.
 */
module StopList {

  class StopCb {
    var prev: StopCb?
    var next: StopCb?

    constructor ()
      ensures prev == null && next == null
    {
      prev, next := null, null;
    }
  }

  ghost predicate Unique(s: seq<StopCb>) {
    forall i, j :: 0 <= i < j < |s| ==> s[i] != s[j]
  }

  class CallbackList {
    var head: StopCb?
    ghost var list: seq<StopCb>

    /** m_head leads through list; each node points back to its predecessor, the first one to null. */
    ghost predicate Valid()
      reads this, list
    {
      && Unique(list)
      && head == (if |list| == 0 then null else list[0])
      && (forall i {:trigger list[i].next} :: 0 <= i < |list| ==>
            list[i].next == if i + 1 < |list| then list[i + 1] else null)
      && (forall i {:trigger list[i].prev} :: 0 <= i < |list| ==>
            list[i].prev == if i > 0 then list[i - 1] else null)
    }

    constructor ()
      ensures Valid() && list == []
    {
      head, list := null, [];
    }

    /** register_callback, lines 246-250. */
    method Register(cb: StopCb)
      requires Valid() && cb !in list && cb.prev == null
      modifies this, cb, list
      ensures Valid() && list == [cb] + old(list)
    {
      cb.next := head;
      if head != null {
        head.prev := cb;
      }
      head := cb;
      list := [cb] + list;
    }

    /** request_stop, lines 186-193: the popped callback keeps a null m_prev. */
    method Pop() returns (cb: StopCb, last: bool)
      requires Valid() && head != null
      modifies this, list
      ensures Valid() && [cb] + list == old(list)
      ensures last <==> list == []
      ensures cb.prev == null && cb !in list
    {
      cb := head;
      head := head.next;
      if head != null {
        head.prev := null;
        last := false;
      } else {
        last := true;
      }
      list := list[1..];
      assert old(list) == [cb] + list;
    }

    /** remove_callback, lines 268-275: cb is linked and not the head. */
    method Unlink(cb: StopCb, ghost k: nat)
      requires Valid() && 0 < k < |list| && list[k] == cb
      modifies this, list
      ensures Valid() && list == old(list)[..k] + old(list)[k + 1..]
    {
      ghost var was := list;
      assert cb.prev == was[k - 1] && cb.next == if k + 1 < |was| then was[k + 1] else null;
      cb.prev.next := cb.next;
      if cb.next != null {
        cb.next.prev := cb.prev;
      }
      list := was[..k] + was[k + 1..];
      assert forall i :: 0 <= i < |list| ==> list[i] == was[if i < k then i else i + 1];
    }

    /** remove_callback, lines 260-267: cb is the head. */
    method UnlinkHead()
      requires Valid() && head != null
      modifies this, list
      ensures Valid() && list == old(list)[1..] && old(list)[0] == old(head)
    {
      head := head.next;
      if head != null {
        head.prev := null;
      }
      list := list[1..];
    }

    /**
      remove_callback, lines 260-277: `found` unless request_stop has popped cb.  The
      test of m_prev decides correctly because every callback outside the list has a
      null m_prev.
     */
    method Remove(cb: StopCb) returns (found: bool, ghost k: nat)
      requires Valid() && (cb in list || cb.prev == null)
      modifies this, list
      ensures Valid()
      ensures found <==> cb in old(list)
      ensures found ==> k < |old(list)| && old(list)[k] == cb && list == old(list)[..k] + old(list)[k + 1..]
      ensures !found ==> list == old(list) && unchanged(this) && unchanged(list)
    {
      k := 0;
      PrevTells(cb);
      if cb == head {
        ghost var was := list;
        UnlinkHead();
        assert was[..0] + was[1..] == was[1..];
        found := true;
      } else if cb.prev != null {
        k :| 0 <= k < |list| && list[k] == cb;
        Unlink(cb, k);
        found := true;
      } else {
        found := false;
      }
    }

    /** What the tests of head and m_prev say about a callback that is listed or has a null m_prev. */
    lemma PrevTells(cb: StopCb)
      requires Valid() && (cb in list || cb.prev == null)
      ensures cb in list <==> cb == head || cb.prev != null
    {
      if cb in list && cb != head {
        InnerNodesPointBack(cb);
      }
    }

    lemma InnerNodesPointBack(cb: StopCb)
      requires Valid() && cb in list && cb != head
      ensures cb.prev != null
    {
      var i :| 0 <= i < |list| && list[i] == cb;
      assert list[i].prev == list[i - 1];
    }
  }
}
