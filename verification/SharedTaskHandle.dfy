/**
  The handles of a `shared_task` and its reference count
  (include/co_context/shared_task.hpp:68-71, 87-100, 285-331 and 384-390): the coroutine frame is
  destroyed exactly when the last handle lets go of it.
 */
module SharedTaskHandle {

  /** The promise in its coroutine frame. */
  class Frame {
    var refCount: nat
    var destroyed: bool

    constructor ()
      ensures refCount == 1 && !destroyed
    {
      refCount, destroyed := 1, false;
    }

    method AddRef()
      requires !destroyed
      modifies this`refCount
      ensures refCount == old(refCount) + 1
    {
      refCount := refCount + 1;
    }

    /** False if this was the last reference. */
    method TryDetach() returns (others: bool)
      requires !destroyed && refCount > 0
      modifies this`refCount
      ensures refCount == old(refCount) - 1 && (others <==> refCount > 0)
    {
      refCount := refCount - 1;
      others := refCount != 0;
    }

    method Destroy()
      requires !destroyed
      modifies this`destroyed
      ensures destroyed
    {
      destroyed := true;
    }
  }

  ghost function Holders(handles: set<Handle>, f: Frame): set<Handle>
    reads handles
  {
    set h | h in handles && h.coroutine == f
  }

  /** The count of every frame is the number of live handles on it; a frame nobody holds is gone. */
  ghost predicate Counted(handles: set<Handle>, frames: set<Frame>)
    reads handles, frames
  {
    && (forall h :: h in handles && h.coroutine != null ==> h.coroutine in frames)
    && (forall f :: f in frames ==> f.refCount == |Holders(handles, f)| && (f.destroyed <==> f.refCount == 0))
  }

  /** A live handle never points to a destroyed frame. */
  lemma NeverDangles(handles: set<Handle>, frames: set<Frame>, h: Handle)
    requires Counted(handles, frames) && h in handles && h.coroutine != null
    ensures !h.coroutine.destroyed && h.coroutine.refCount > 0
  {
    assert h in Holders(handles, h.coroutine);
  }

  /** shared_task: the handle itself. */
  class Handle {
    var coroutine: Frame?

    /** The empty handle of the default constructor. */
    constructor Empty()
      ensures coroutine == null
    {
      coroutine := null;
    }

    /** get_return_object: the new frame comes with the reference of its first handle. */
    constructor (ghost handles: set<Handle>, ghost frames: set<Frame>)
      requires Counted(handles, frames)
      ensures coroutine != null && fresh(coroutine) && coroutine !in frames
      ensures Counted(handles + {this}, frames + {coroutine})
    {
      coroutine := new Frame();
      new;
      assert Holders(handles + {this}, coroutine) == {this};
      forall f | f in frames ensures Holders(handles + {this}, f) == Holders(handles, f) {
      }
    }

    /** Lines 384-390; coroutine_ itself is left as it is. */
    method Destroy()
      requires coroutine != null ==> !coroutine.destroyed && coroutine.refCount > 0
      modifies coroutine
      ensures coroutine != null ==>
        coroutine.refCount == old(coroutine.refCount) - 1 && (coroutine.destroyed <==> coroutine.refCount == 0)
    {
      if coroutine != null {
        var others := coroutine.TryDetach();
        if !others {
          coroutine.Destroy();
        }
      }
    }

    /** The destructor: this handle is live no longer. */
    method Drop(ghost handles: set<Handle>, ghost frames: set<Frame>)
      requires this in handles && Counted(handles, frames)
      modifies coroutine
      ensures Counted(handles - {this}, frames)
      ensures coroutine != null ==> (coroutine.destroyed <==> old(Holders(handles, coroutine)) == {this})
    {
      ghost var f0 := coroutine;
      if f0 != null {
        NeverDangles(handles, frames, this);
        LessOne(handles, f0);
      }
      Destroy();
      forall f | f in frames
        ensures Holders(handles - {this}, f) == if f == f0 then Holders(handles, f) - {this} else Holders(handles, f)
      {
      }
    }

    lemma LessOne(handles: set<Handle>, f: Frame)
      requires this in handles && coroutine == f
      ensures |Holders(handles, f) - {this}| == |Holders(handles, f)| - 1
      ensures |Holders(handles, f)| == 1 <==> Holders(handles, f) == {this}
    {
      var s := Holders(handles, f);
      assert this in s && s == (s - {this}) + {this};
      if |s| == 1 {
        assert |s - {this}| == 0;
      }
    }

    /** coroutine_ = other.coroutine_; if (coroutine_) add_ref(); on a handle that counts for nothing yet. */
    method Share(other: Handle, ghost rest: set<Handle>, ghost frames: set<Frame>)
      requires this !in rest && other in rest && Counted(rest, frames)
      modifies this, other.coroutine
      ensures Counted(rest + {this}, frames) && coroutine == other.coroutine == old(other.coroutine)
    {
      ghost var f0 := other.coroutine;
      coroutine := other.coroutine;
      if coroutine != null {
        NeverDangles(rest, frames, other);
        coroutine.AddRef();
      }
      forall f | f in frames
        ensures |Holders(rest + {this}, f)| == |old(Holders(rest, f))| + if f == f0 then 1 else 0
      {
        ghost var s := old(Holders(rest, f));
        assert Holders(rest + {this}, f) == if f == f0 then s + {this} else s;
      }
    }

    /** coroutine_ = other.coroutine_; other.coroutine_ = nullptr; on a handle that counts for nothing yet. */
    method TakeOver(other: Handle, ghost rest: set<Handle>, ghost frames: set<Frame>)
      requires this !in rest && other in rest && Counted(rest, frames)
      modifies this, other
      ensures Counted(rest + {this}, frames) && coroutine == old(other.coroutine) && other.coroutine == null
    {
      ghost var f0 := other.coroutine;
      coroutine := other.coroutine;
      other.coroutine := null;
      forall f | f in frames
        ensures |Holders(rest + {this}, f)| == |old(Holders(rest, f))|
      {
        ghost var s := old(Holders(rest, f));
        if f == f0 {
          assert other in s && |s - {other}| == |s| - 1;
          assert Holders(rest + {this}, f) == s - {other} + {this};
        } else {
          assert Holders(rest + {this}, f) == s;
        }
      }
    }

    /** Lines 319-331. */
    method CopyAssign(other: Handle, ghost handles: set<Handle>, ghost frames: set<Frame>)
      requires this in handles && other in handles && Counted(handles, frames)
      modifies this, coroutine, other.coroutine
      ensures Counted(handles, frames)
      ensures coroutine == old(other.coroutine) == other.coroutine
      ensures old(coroutine) != null ==>
        (old(coroutine).destroyed <==> old(coroutine != other.coroutine && Holders(handles, coroutine) == {this}))
    {
      if coroutine != null {
        NeverDangles(handles, frames, this);
      }
      if coroutine != other.coroutine {
        Drop(handles, frames);
        Share(other, handles - {this}, frames);
        assert handles - {this} + {this} == handles;
      }
    }

    /** Lines 307-317. */
    method MoveAssign(other: Handle, ghost handles: set<Handle>, ghost frames: set<Frame>)
      requires this in handles && other in handles && Counted(handles, frames)
      modifies this, other, coroutine
      ensures Counted(handles, frames)
      ensures coroutine == old(other.coroutine) && (other != this ==> other.coroutine == null)
      ensures old(coroutine) != null ==>
        (old(coroutine).destroyed <==> other != this && old(Holders(handles, coroutine)) == {this})
    {
      if coroutine != null {
        NeverDangles(handles, frames, this);
      }
      if other != this {
        Drop(handles, frames);
        TakeOver(other, handles - {this}, frames);
        assert handles - {this} + {this} == handles;
      }
    }

    /** Lines 298-303: a new handle on the same frame. */
    constructor Copy(other: Handle, ghost handles: set<Handle>, ghost frames: set<Frame>)
      requires other in handles && Counted(handles, frames)
      modifies other.coroutine
      ensures coroutine == other.coroutine == old(other.coroutine)
      ensures Counted(handles + {this}, frames)
    {
      coroutine := null;
      new;
      Share(other, handles, frames);
    }

    /** Lines 294-296. */
    constructor Move(other: Handle, ghost handles: set<Handle>, ghost frames: set<Frame>)
      requires other in handles && Counted(handles, frames)
      modifies other
      ensures coroutine == old(other.coroutine) && other.coroutine == null
      ensures Counted(handles + {this}, frames)
    {
      coroutine := null;
      new;
      TakeOver(other, handles, frames);
    }
  }
}
