/**
  `generator` with `co_yield elements_of(...)` (include/co_context/generator.hpp): a
  tree of generator coroutines that is resumed through one pointer, `_Top`, kept in
  the promise of the root.

  A coroutine body is the tree of what it will still do.  The specification is plain
  flattening; the implementation is the promise objects with the fields `_Top`,
  `_Ptr` and `_Info`, rewritten at each suspend point.
 */
module Generator {
  import opened Lists

  /** The rest of a coroutine body. */
  datatype Body<V, E> =
    | Return
    | Yield(v: V, rest: Body<V, E>)
    | Throw(e: E)
    /** co_yield elements_of(child), in a try block if there is a handler; a moved-from child is None */
    | Nest(child: Option<Body<V, E>>, handler: Option<Body<V, E>>, rest: Body<V, E>)

  /** What a consumer sees: the values in order, then the end or an exception. */
  datatype Outcome<V, E> = Outcome(values: seq<V>, thrown: Option<E>)

  function Then<V, E>(a: Outcome<V, E>, b: Outcome<V, E>): Outcome<V, E> {
    if a.thrown.Some? then a else Outcome(a.values + b.values, b.thrown)
  }

  /** Flattening, with no notion of promises or of a current generator. */
  function Flatten<V, E>(b: Body<V, E>): Outcome<V, E> {
    match b
    case Return => Outcome([], None)
    case Yield(v, rest) => Then(Outcome([v], None), Flatten(rest))
    case Throw(e) => Outcome([], Some(e))
    case Nest(child, handler, rest) =>
      var inner := if child.Some? then Flatten(child.value) else Outcome([], None);
      var caught :=
        if inner.thrown.Some? && handler.Some?
        then Then(Outcome(inner.values, None), Flatten(handler.value)) else inner;
      Then(caught, Flatten(rest))
  }

  function Append<V, E>(a: Body<V, E>, b: Body<V, E>): Body<V, E> {
    match a
    case Return => b
    case Yield(v, rest) => Yield(v, Append(rest, b))
    case Throw(e) => a
    case Nest(child, handler, rest) => Nest(child, handler, Append(rest, b))
  }

  lemma {:induction false} FlattenAppend<V, E>(a: Body<V, E>, b: Body<V, E>)
    ensures Flatten(Append(a, b)) == Then(Flatten(a), Flatten(b))
  {
    match a
    case Return => assert [] + Flatten(b).values == Flatten(b).values;
    case Yield(v, rest) =>
      FlattenAppend(rest, b);
      ThenAssoc(Outcome([v], None), Flatten(rest), Flatten(b));
    case Throw(e) =>
    case Nest(child, handler, rest) =>
      FlattenAppend(rest, b);
      AppendNest(child, handler, rest, b);
  }

  lemma AppendNest<V, E>(child: Option<Body<V, E>>, handler: Option<Body<V, E>>, rest: Body<V, E>, b: Body<V, E>)
    requires Flatten(Append(rest, b)) == Then(Flatten(rest), Flatten(b))
    ensures Flatten(Nest(child, handler, Append(rest, b))) == Then(Flatten(Nest(child, handler, rest)), Flatten(b))
  {
    var inner := if child.Some? then Flatten(child.value) else Outcome([], None);
    var caught :=
      if inner.thrown.Some? && handler.Some?
      then Then(Outcome(inner.values, None), Flatten(handler.value)) else inner;
    ThenAssoc(caught, Flatten(rest), Flatten(b));
  }

  lemma ThenAssoc<V, E>(a: Outcome<V, E>, b: Outcome<V, E>, c: Outcome<V, E>)
    ensures Then(a, Then(b, c)) == Then(Then(a, b), c)
  {
    assert a.values + (b.values + c.values) == a.values + b.values + c.values;
  }

  // ----- a stack of suspended generators

  /** What is left of b, suspended at a nested co_yield whose child will still do `inner`. */
  function After<V, E>(b: Body<V, E>, inner: Outcome<V, E>): Outcome<V, E>
    requires b.Nest?
  {
    var caught :=
      if inner.thrown.Some? && b.handler.Some?
      then Then(Outcome(inner.values, None), Flatten(b.handler.value)) else inner;
    Then(caught, Flatten(b.rest))
  }

  ghost predicate AllNested<V, E>(outer: seq<Body<V, E>>) {
    forall i :: 0 <= i < |outer| ==> outer[i].Nest? && outer[i].child.Some?
  }

  /** The generators `outer`, root first, each waiting for the next; the innermost will do `inner`. */
  function Wrap<V, E>(outer: seq<Body<V, E>>, inner: Outcome<V, E>): Outcome<V, E> {
    if |outer| == 0 || !outer[|outer| - 1].Nest? then inner
    else Wrap(outer[..|outer| - 1], After(outer[|outer| - 1], inner))
  }

  lemma {:induction false} WrapYield<V, E>(outer: seq<Body<V, E>>, v: V, inner: Outcome<V, E>)
    requires AllNested(outer)
    ensures Wrap(outer, Outcome([v] + inner.values, inner.thrown)) ==
            Outcome([v] + Wrap(outer, inner).values, Wrap(outer, inner).thrown)
  {
    if |outer| > 0 {
      var b := outer[|outer| - 1];
      var more := Outcome([v] + inner.values, inner.thrown);
      var o, o' := After(b, inner), After(b, more);
      assert o' == Outcome([v] + o.values, o.thrown) by {
        var h := if b.handler.Some? then Flatten(b.handler.value) else Outcome([], None);
        assert [v] + inner.values + h.values == [v] + (inner.values + h.values);
        assert [v] + inner.values + Flatten(b.rest).values == [v] + (inner.values + Flatten(b.rest).values);
        assert [v] + (inner.values + h.values) + Flatten(b.rest).values
            == [v] + (inner.values + h.values + Flatten(b.rest).values);
      }
      WrapYield(outer[..|outer| - 1], v, o);
    }
  }

  /** A child that is over continues its parent: normally, in the handler, or by rethrowing. */
  function Continue<V, E>(parent: Body<V, E>, thrown: Option<E>): Body<V, E>
    requires parent.Nest?
  {
    if thrown.None? then parent.rest
    else if parent.handler.Some? then Append(parent.handler.value, parent.rest)
    else Throw(thrown.value)
  }

  lemma ContinueFlattens<V, E>(parent: Body<V, E>, thrown: Option<E>)
    requires parent.Nest?
    ensures Flatten(Continue(parent, thrown)) == After(parent, Outcome([], thrown))
  {
    if thrown.None? {
      assert [] + Flatten(parent.rest).values == Flatten(parent.rest).values;
    } else if parent.handler.Some? {
      FlattenAppend(parent.handler.value, parent.rest);
      assert [] + Flatten(parent.handler.value).values == Flatten(parent.handler.value).values;
    }
  }

  // ----- the promises

  /** `_Nest_info`, inside the `_Nested_awaitable` in the parent's frame. */
  class NestInfo<V, E> {
    var except: Option<E>
    var parent: Promise<V, E>
    var root: Promise<V, E>

    constructor (parent: Promise<V, E>, root: Promise<V, E>)
      ensures except == None && this.parent == parent && this.root == root
    {
      this.except, this.parent, this.root := None, parent, root;
    }
  }

  /** `_Gen_promise_base`, with what its coroutine will still do. */
  class Promise<V, E> {
    var top: Promise<V, E>
    var ptr: Option<V>
    var info: NestInfo?<V, E>
    var code: Body<V, E>
    var awaiting: NestInfo?<V, E>   // the awaitable it is suspended in, if any
    var done: bool                  // at its final suspend point

    constructor (body: Body<V, E>)
      ensures top == this && info == null && code == body && awaiting == null && !done
    {
      top, ptr, info, code, awaiting, done := this, None, null, body, null, false;
    }
  }

  function CodeSize<V, E>(b: Body<V, E>): nat {
    match b
    case Return => 0
    case Yield(_, rest) => 1 + CodeSize(rest)
    case Throw(_) => 1
    case Nest(child, handler, rest) =>
      2 + (if child.Some? then CodeSize(child.value) else 0)
        + (if handler.Some? then CodeSize(handler.value) else 0) + CodeSize(rest)
  }

  lemma {:induction false} AppendSize<V, E>(a: Body<V, E>, b: Body<V, E>)
    ensures CodeSize(Append(a, b)) <= CodeSize(a) + CodeSize(b)
  {
    match a
    case Yield(_, rest) => AppendSize(rest, b);
    case Nest(_, _, rest) => AppendSize(rest, b);
    case _ =>
  }

  /** Work left in a suspended parent, apart from the child it waits for. */
  function Waiting<V, E>(outer: seq<Body<V, E>>): nat {
    if |outer| == 0 then 0 else Waiting(outer[..|outer| - 1]) + WaitingSize(outer[|outer| - 1])
  }

  function WaitingSize<V, E>(b: Body<V, E>): nat {
    match b
    case Nest(_, handler, rest) => 1 + (if handler.Some? then CodeSize(handler.value) else 0) + CodeSize(rest)
    case _ => 0
  }

  lemma WaitingPush<V, E>(outer: seq<Body<V, E>>, b: Body<V, E>)
    ensures Waiting(outer + [b]) == Waiting(outer) + WaitingSize(b)
    ensures b.Nest? ==> forall o: Outcome<V, E> :: Wrap(outer + [b], o) == Wrap(outer, After(b, o))
  {
    assert (outer + [b])[..|outer|] == outer;
  }

  function Thrown<V, E>(b: Body<V, E>): Option<E> {
    if b.Throw? then Some(b.e) else None
  }

  lemma SkipKeeps<V, E>(b: Body<V, E>)
    requires b.Nest? && b.child.None?
    ensures Flatten(b.rest) == Flatten(b) && CodeSize(b.rest) < CodeSize(b)
  {
    assert [] + Flatten(b.rest).values == Flatten(b.rest).values;
  }

  lemma EnterKeeps<V, E>(outer: seq<Body<V, E>>, b: Body<V, E>)
    requires b.Nest? && b.child.Some?
    ensures Wrap(outer + [b], Flatten(b.child.value)) == Wrap(outer, Flatten(b))
    ensures Waiting(outer + [b]) + CodeSize(b.child.value) < Waiting(outer) + CodeSize(b)
  {
    WaitingPush(outer, b);
  }

  lemma LeaveKeeps<V, E>(outer: seq<Body<V, E>>, b: Body<V, E>)
    requires b.Return? || b.Throw?
    requires |outer| > 0 && outer[|outer| - 1].Nest?
    ensures var code := Continue(outer[|outer| - 1], Thrown(b));
            && Wrap(outer[..|outer| - 1], Flatten(code)) == Wrap(outer, Flatten(b))
            && Waiting(outer[..|outer| - 1]) + CodeSize(code) < Waiting(outer) + CodeSize(b)
  {
    var parent := outer[|outer| - 1];
    ContinueFlattens(parent, Thrown(b));
    if b.Throw? && parent.handler.Some? {
      AppendSize(parent.handler.value, parent.rest);
    }
  }

  /** A generator object: its own coroutine, and the chain of nested ones that are active. */
  class Tree<V, E> {
    const root: Promise<V, E>
    ghost var stack: seq<Promise<V, E>>    // root first, `_Top` last
    ghost var infos: seq<NestInfo<V, E>>   // infos[i] links stack[i + 1] to stack[i]

    /** The codes of the suspended parents. */
    ghost function Outer(): (r: seq<Body<V, E>>)
      requires |stack| > 0
      reads this, stack
      ensures |r| == |stack| - 1
    {
      seq(|stack| - 1, i requires 0 <= i < |stack| - 1 reads this, stack => stack[i].code)
    }

    /** Generator i waits in a nested co_yield for generator i + 1, and their links agree. */
    ghost predicate LinkOk(i: nat)
      requires i < |infos| && |stack| == |infos| + 1
      reads this, stack, infos
    {
      && stack[i + 1].info == infos[i] && stack[i].awaiting == infos[i]
      && infos[i].parent == stack[i] && infos[i].root == root && infos[i].except == None
      && stack[i].code.Nest? && stack[i].code.child.Some? && !stack[i].done
    }

    /** Following `_Parent` from `_Top` visits the chain back to the root, and every `_Root` is the root. */
    ghost predicate Linked()
      reads this, stack, infos
    {
      && |stack| == |infos| + 1
      && stack[0] == root && root.info == null
      && (forall i, j :: 0 <= i < j < |stack| ==> stack[i] != stack[j])
      && (forall i, j :: 0 <= i < j < |infos| ==> infos[i] != infos[j])
      && (forall i :: 0 <= i < |infos| ==> LinkOk(i))
    }

    /** Suspended: `_Top` of the root is the innermost generator. */
    ghost predicate Valid()
      reads this, root, stack, infos
    {
      Linked() && root.top == stack[|stack| - 1] && (root.done ==> |stack| == 1) && (|stack| > 1 ==> !root.top.done)
    }

    /** All that the tree will still deliver. */
    ghost function Remaining(): Outcome<V, E>
      requires Valid()
      reads this, root, stack, infos
    {
      Wrap(Outer(), Flatten(root.top.code))
    }

    constructor (body: Body<V, E>)
      ensures Valid() && !root.done && Remaining() == Flatten(body)
      ensures fresh(root) && stack == [root] && infos == []
    {
      root := new Promise(body);
      new;
      stack, infos := [root], [];
    }

    /** In the middle of a resume(): the innermost generator runs. */
    ghost predicate Running()
      reads this, root, stack, infos
    {
      Valid() && !root.top.done
    }

    /** `_Nested_awaitable::await_suspend` (lines 439-464): the child becomes `_Top` and is resumed. */
    method EnterChild()
      requires Running() && root.top.code.Nest? && root.top.code.child.Some?
      modifies this, stack, infos
      ensures Running()
      ensures |stack| == |old(stack)| + 1 && stack[..|old(stack)|] == old(stack) && fresh(stack[|old(stack)|])
      ensures |infos| == |old(infos)| + 1 && infos[..|old(infos)|] == old(infos) && fresh(infos[|old(infos)|])
      ensures Outer() == old(Outer()) + [old(root.top.code)]
      ensures root.top.code == old(root.top.code.child.value)
    {
      LinkedRoot();
      var cur := root.top;
      var nestedRoot := if cur.info != null then cur.info.root else cur;
      var child := new Promise(cur.code.child.value);
      var nested := new NestInfo(cur, nestedRoot);
      assert nested.root == root && cur in stack;
      cur.awaiting := nested;
      nested.root.top := child;
      child.info := nested;
      ghost var n := |infos|;
      stack := stack + [child];
      infos := infos + [nested];
      forall i | 0 <= i < |infos| ensures LinkOk(i) {
        if i < n { assert old(LinkOk(i)); }
      }
    }

    /** The root that a nested generator finds through `_Info` is the root of the tree. */
    lemma LinkedRoot()
      requires Running()
      ensures var cur := root.top; (if cur.info != null then cur.info.root else cur) == root
    {
      if |stack| > 1 {
        assert LinkOk(|infos| - 1);
      }
    }

    /**
      The end of a nested generator: return_void or unhandled_exception, final_suspend
      (lines 351-359 and 397-416), and `await_resume` in the parent (lines 466-470).
     */
    method LeaveChild(thrown: Option<E>)
      requires Running() && |stack| > 1
      modifies this, stack, infos
      ensures Running()
      ensures |stack| == |old(stack)| - 1 && stack == old(stack)[..|stack|]
      ensures |infos| == |old(infos)| - 1 && infos == old(infos)[..|infos|]
      ensures Outer() == old(Outer())[..|old(Outer())| - 1]
      ensures old(Outer())[|old(Outer())| - 1].Nest?
      ensures root.top.code == Continue(old(Outer())[|old(Outer())| - 1], thrown)
    {
      var cur := root.top;
      assert LinkOk(|infos| - 1);
      if thrown.Some? {
        cur.info.except := thrown;
      }
      cur.done := true;
      var cont := cur.info.parent;
      cur.info.root.top := cont;
      cur.info := null;
      stack := stack[..|stack| - 1];
      infos := infos[..|infos| - 1];
      var nested := cont.awaiting;
      cont.awaiting := null;
      var e := nested.except;
      cont.code := Continue(cont.code, e);
      forall i | 0 <= i < |infos| ensures LinkOk(i) {
        assert old(LinkOk(i));
      }
    }

    /** A `_Top` without `_Info` is the root. */
    lemma OnlyRootIsUnlinked()
      requires Valid()
      ensures |stack| > 1 ==> root.top.info != null
    {
      if |stack| > 1 {
        assert LinkOk(|infos| - 1);
      }
    }

    /** Every suspended parent waits for a child. */
    lemma OuterNested()
      requires Valid()
      ensures AllNested(Outer())
    {
      forall i | 0 <= i < |Outer()| ensures Outer()[i].Nest? && Outer()[i].child.Some? {
        assert LinkOk(i);
      }
    }

    /** The innermost generator runs on to `rest`. */
    method Advance(rest: Body<V, E>)
      requires Running()
      modifies root.top`code
      ensures Running() && Outer() == old(Outer()) && root.top.code == rest
    {
      root.top.code := rest;
      forall i | 0 <= i < |infos| ensures LinkOk(i) {
        assert old(LinkOk(i));
      }
    }

    /** `_Element_awaiter::await_suspend` and `yield_value`: the innermost generator publishes a value. */
    method Deliver(v: V)
      requires Running()
      modifies root.top`ptr
      ensures Running() && Outer() == old(Outer()) && root.top.ptr == Some(v)
    {
      root.top.ptr := Some(v);
      forall i | 0 <= i < |infos| ensures LinkOk(i) {
        assert old(LinkOk(i));
      }
    }

    /** One step that delivers nothing: enter a child, pass an empty one, or leave one that is over. */
    method Step()
      requires Running() && !root.top.code.Yield? && (root.top.code.Nest? || |stack| > 1)
      modifies this, stack, infos
      ensures Running() && Remaining() == old(Remaining()) && Work() < old(Work())
      ensures fresh(set p | p in stack && p !in old(stack))
      ensures fresh(set q | q in infos && q !in old(infos))
    {
      ghost var outer, code := Outer(), root.top.code;
      if root.top.code.Nest? && root.top.code.child.None? {
        SkipKeeps(code);
        Advance(root.top.code.rest);
      } else if root.top.code.Nest? {
        EnterKeeps(outer, code);
        EnterChild();
      } else {
        OuterNested();
        LeaveKeeps(outer, code);
        LeaveChild(Thrown(root.top.code));
      }
    }

    ghost function Work(): nat
      requires Valid()
      reads this, root, stack, infos
    {
      Waiting(Outer()) + CodeSize(root.top.code)
    }

    /**
      `_Top.resume()` (lines 506-510): the innermost generator runs, through any number
      of nested entries and exits, until the next value is ready or the root is over.
     */
    method Resume() returns (thrown: Option<E>)
      requires Valid() && !root.done
      modifies this, root, stack, infos
      ensures Valid()
      ensures fresh(set p | p in stack && p !in old(stack))
      ensures fresh(set q | q in infos && q !in old(infos))
      ensures root.done <==> old(Remaining()).values == []
      ensures !root.done ==> thrown == None && root.top.ptr == Some(old(Remaining()).values[0])
      ensures !root.done ==> Remaining() == Outcome(old(Remaining()).values[1..], old(Remaining()).thrown)
      ensures root.done ==> thrown == old(Remaining()).thrown
    {
      while !root.top.code.Yield? && (root.top.code.Nest? || root.top.info != null)
        invariant Running() && Remaining() == old(Remaining())
        invariant fresh(set p | p in stack && p !in old(stack))
        invariant fresh(set q | q in infos && q !in old(infos))
        decreases Work()
      {
        Step();
      }
      thrown := None;
      ghost var outer, code := Outer(), root.top.code;
      if root.top.code.Yield? {
        OuterNested();
        WrapYield(outer, code.v, Flatten(code.rest));
        Deliver(root.top.code.v);
        Advance(root.top.code.rest);
      } else {
        OnlyRootIsUnlinked();
        root.done := true;
        thrown := Thrown(root.top.code);
      }
    }

    /** An iterator that has read `values` so far, of all that the generator delivers. */
    ghost predicate Reads(whole: Outcome<V, E>, values: seq<V>, thrown: Option<E>)
      requires Valid()
      reads this, root, stack, infos
    {
      if root.done then Outcome(values, thrown) == whole
      else root.top.ptr.Some? && Outcome(values + [root.top.ptr.value] + Remaining().values, Remaining().thrown) == whole
    }

    /** Dereference and increment (lines 499-510). */
    method Next(values: seq<V>, ghost whole: Outcome<V, E>) returns (more: seq<V>, thrown: Option<E>)
      requires Valid() && !root.done && Reads(whole, values, None)
      modifies this, root, stack, infos
      ensures Valid() && Reads(whole, more, thrown)
      ensures fresh(set p | p in stack && p !in old(stack)) && fresh(set q | q in infos && q !in old(infos))
      ensures |more| == |values| + 1 && (!root.done ==> thrown == None)
    {
      ghost var rest := Remaining();
      more := values + [root.top.ptr.value];
      thrown := Resume();
      if root.done {
        assert more + rest.values == more;
      } else {
        assert more + rest.values == more + [root.top.ptr.value] + Remaining().values;
      }
    }
  }

  /** Iterating over a generator (lines 499-518) reads exactly the flattening, and ends as it ends. */
  method Collect<V, E>(body: Body<V, E>) returns (values: seq<V>, thrown: Option<E>)
    ensures Outcome(values, thrown) == Flatten(body)
  {
    var tree := new Tree(body);
    ghost var whole := Flatten(body);
    values := [];
    thrown := tree.Resume();
    while !tree.root.done
      invariant tree.Valid() && tree.Reads(whole, values, thrown) && (!tree.root.done ==> thrown == None)
      invariant fresh(tree) && fresh(tree.root)
      invariant fresh(set p | p in tree.stack) && fresh(set q | q in tree.infos)
      decreases !tree.root.done, |whole.values| - |values|
    {
      values, thrown := tree.Next(values, whole);
    }
  }
}
