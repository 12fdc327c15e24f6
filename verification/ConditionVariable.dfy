/**
  `co_context::condition_variable` (lib/co_context/co/condition_variable.cpp) on top
  of the mutex of module `Mutex`, one atomic operation per step.

  A waiter pushes itself on the CAS stack `awaiting` while it still holds the mutex
  and unlocks afterwards, so a notifier can pick it up before it has let go.  A
  notifier never wakes a waiter to compete for the lock: it runs `register_awaiting`
  on the waiter's behalf, so the waiter is either granted the free mutex or moved
  into the mutex queue ("wait morphing").  Sections under the spinlock
  `notifier_mtx` are single steps.
 */
module ConditionVariable {
  import opened Lists
  import opened Places
  import M = Mutex

  /** Progress of `wait` in one coroutine. */
  datatype WaitPc =
    | Running              // not inside `wait`
    | CvLoaded(seen: Ptr)  // holds `old_head`
    | CvStored(seen: Ptr)  // `next` written, the push CAS comes next
    | CvPushed             // on the cv, still owns the mutex: `unlock_ahead` comes next
    | Parked               // suspended until the mutex is granted

  /** Progress of `notify_one` / `notify_all` in one notifier thread. */
  datatype NotifyPc =
    | Quiet
    | Swapping                                              // step 2: exchange comes next
    | Flipping(head: Id, succ: Ptr, pred: Ptr, tail: Id)    // step 3: the reversal loop
    | Waking(node: Id)                                      // `try_notify_one(node)` comes next
    | Walking(p: Ptr, second: bool)                         // `try_notify_all`
    | Collecting                                            // taking `to_resume` in notify_all

  datatype State = State(
    m: M.State,
    cnext: seq<Ptr>,       // the `next` fields of the cv_wait_awaiters
    awaiting: Ptr,
    resumeHead: Ptr,
    resumeTail: Ptr,
    wait: seq<WaitPc>,
    notif: seq<NotifyPc>)

  function Init(count: nat, notifiers: nat): State {
    State(M.Init(count), seq(count, _ => Null), Null, Null, Null,
          seq(count, _ => Running), seq(notifiers, _ => Quiet))
  }

  ghost predicate Shape(c: State) {
    M.Shape(c.m) && |c.cnext| == |c.wait| == |c.m.act|
  }

  datatype Step =
    | Lock(s: M.Step)
    | WaitLoad(n: Id)
    | WaitStore(n: Id)
    | WaitCas(n: Id, weak: bool)
    | WaitUnlock(n: Id)
    | BeginOne(k: nat)
    | Swap(k: nat)
    | Flip(k: nat)
    | Merge(k: nat)
    | Wake(k: nat)
    | BeginAll(k: nat)
    | Walk(k: nat)
    | Collect(k: nat)

  /** The coroutine that a mutex step makes owner, if any. */
  function Granted(m: M.State, s: M.Step): Option<Id>
    requires M.Shape(m) && M.Enabled(m, s)
  {
    match s
    case TryLock(n) => if m.word == M.NotLocked then Some(n) else None
    case CasAcquire(n, weak) => if m.word == M.NotLocked && !weak then Some(n) else None
    case Spawn(n) => Some(m.act[n].chosen)
    case _ => None
  }

  /**
    A coroutine locks only a mutex it does not own, unlocks and waits only while it
    owns the mutex, and runs no code while suspended.
   */
  predicate Enabled(c: State, st: Step)
    requires Shape(c)
  {
    match st
    case Lock(s) =>
      && M.Enabled(c.m, s)
      && (s.TryLock? || s.Load? ==> c.wait[s.n] == Running && c.m.act[s.n] == M.Idle)
      && (s.BeginUnlock? ==> c.wait[s.n] == Running)
    case WaitLoad(n) => n < |c.wait| && c.wait[n] == Running && c.m.act[n] == M.Holding
    case WaitStore(n) => n < |c.wait| && c.wait[n].CvLoaded?
    case WaitCas(n, _) => n < |c.wait| && c.wait[n].CvStored?
    case WaitUnlock(n) => n < |c.wait| && c.wait[n] == CvPushed && c.m.act[n] == M.Holding
    case BeginOne(k) => k < |c.notif| && c.notif[k] == Quiet
    case Swap(k) => k < |c.notif| && c.notif[k] == Swapping
    case Flip(k) => k < |c.notif| && c.notif[k].Flipping? && c.notif[k].pred != Null
    case Merge(k) => k < |c.notif| && c.notif[k].Flipping? && c.notif[k].pred == Null
    case Wake(k) => k < |c.notif| && c.notif[k].Waking? && M.Enabled(c.m, M.Load(c.notif[k].node))
    case BeginAll(k) => k < |c.notif| && c.notif[k] == Quiet
    case Walk(k) =>
      && k < |c.notif| && c.notif[k].Walking?
      && (c.notif[k].p.At? ==> M.Enabled(c.m, M.Load(c.notif[k].p.id)))
    case Collect(k) => k < |c.notif| && c.notif[k] == Collecting
  }

  function Link(cnext: seq<Ptr>, at: Ptr, p: Ptr): (r: seq<Ptr>)
    ensures |r| == |cnext|
  {
    if at.At? && at.id < |cnext| then cnext[at.id := p] else cnext
  }

  function Apply(c: State, st: Step): (c': State)
    requires Shape(c) && Enabled(c, st)
    ensures Shape(c') && |c'.wait| == |c.wait| && |c'.notif| == |c.notif|
  {
    match st
    case Lock(s) =>
      var g := Granted(c.m, s);
      c.(m := M.Apply(c.m, s),
         wait := if g.Some? && g.value < |c.wait| then c.wait[g.value := Running] else c.wait)
    case WaitLoad(n) => c.(wait := c.wait[n := CvLoaded(c.awaiting)])
    case WaitStore(n) =>
      c.(cnext := c.cnext[n := c.wait[n].seen], wait := c.wait[n := CvStored(c.wait[n].seen)])
    case WaitCas(n, weak) =>
      if c.awaiting == c.wait[n].seen && !weak
      then c.(awaiting := At(n), wait := c.wait[n := CvPushed])
      else c.(wait := c.wait[n := CvLoaded(c.awaiting)])
    case WaitUnlock(n) =>
      c.(m := M.Apply(c.m, M.BeginUnlock(n)), wait := c.wait[n := Parked])
    case BeginOne(k) =>
      if c.resumeHead.At?
      then c.(resumeHead := NextOf(c.cnext, c.resumeHead), notif := c.notif[k := Waking(c.resumeHead.id)])
      else c.(resumeTail := Null, notif := c.notif[k := Swapping])
    case Swap(k) =>
      c.(awaiting := Null,
         notif := c.notif[k := if c.awaiting.At?
                               then Flipping(c.awaiting.id, Null, NextOf(c.cnext, c.awaiting), c.awaiting.id)
                               else Quiet])
    case Flip(k) =>
      var Flipping(head, succ, pred, tail) := c.notif[k];
      var cnext' := Link(c.cnext, At(head), succ);
      c.(cnext := cnext',
         notif := c.notif[k := Flipping(pred.id, At(head), NextOf(cnext', pred), tail)])
    case Merge(k) =>
      var Flipping(head, succ, _, tail) := c.notif[k];
      if c.resumeHead == Null
      then c.(resumeHead := succ, resumeTail := At(tail), notif := c.notif[k := Waking(head)])
      else
        var cnext' := Link(c.cnext, c.resumeTail, At(head));
        c.(cnext := cnext',
           resumeHead := NextOf(cnext', c.resumeHead),
           resumeTail := At(tail),
           notif := c.notif[k := Waking(c.resumeHead.id)])
    case Wake(k) =>
      c.(m := M.Apply(c.m, M.Load(c.notif[k].node)), notif := c.notif[k := Quiet])
    case BeginAll(k) =>
      c.(awaiting := Null, notif := c.notif[k := Walking(c.awaiting, false)])
    case Walk(k) =>
      var Walking(p, second) := c.notif[k];
      if p.At?
      then c.(m := M.Apply(c.m, M.Load(p.id)), notif := c.notif[k := Walking(NextOf(c.cnext, p), second)])
      else c.(notif := c.notif[k := if second then Quiet else Collecting])
    case Collect(k) =>
      c.(resumeHead := Null, notif := c.notif[k := Walking(c.resumeHead, true)])
  }

  /**
    Step 5 of notify_one with a batch of two or more: `to_resume` was refilled by
    another notifier since step 1, and only the oldest node of the batch is appended.
   */
  predicate LosesBatch(c: State, st: Step)
    requires Shape(c) && Enabled(c, st)
  {
    st.Merge? && c.resumeHead != Null && c.notif[st.k].succ != Null
  }

  /** Where a waiter that has been pushed on the cv is now. */
  datatype Place = Nowhere | OnStack | OnResume | InBatch(k: nat) | InLock | Adrift   // Adrift: in no list any more

  /** A notifier's private nodes: reversed so far, and still to be reversed or woken. */
  datatype Batch = Batch(succ: seq<Id>, rest: seq<Id>)

  const EMPTY := Batch([], [])

  datatype View = View(mv: M.View, stack: seq<Id>, resume: seq<Id>, batch: seq<Batch>, place: seq<Place>)

  function InitView(count: nat, notifiers: nat): View {
    View(M.INIT_VIEW, [], [], seq(notifiers, _ => EMPTY), seq(count, _ => Nowhere))
  }

  ghost predicate BatchOk(cnext: seq<Ptr>, pc: NotifyPc, b: Batch) {
    match pc
    case Flipping(head, succ, pred, tail) =>
      && |b.rest| > 0 && Linked(cnext, At(head), b.rest) && pred == After(b.rest, 0)
      && Linked(cnext, succ, b.succ)
      && tail == (if |b.succ| == 0 then head else b.succ[|b.succ| - 1])
    case Waking(node) => b == Batch([], [node])
    case Walking(p, _) => b.succ == [] && Linked(cnext, p, b.rest)
    case _ => b == EMPTY
  }

  predicate PointsAdrift(v: View, p: Ptr) {
    p.At? && p.id < |v.place| && v.place[p.id] == Adrift
  }

  ghost predicate ListInv(c: State, v: View) {
    && Linked(c.cnext, c.awaiting, v.stack) && Enumerates(v.stack, v.place, OnStack)
    && Linked(c.cnext, c.resumeHead, v.resume) && Enumerates(v.resume, v.place, OnResume)
    && (|v.resume| > 0 ==> c.resumeTail == At(v.resume[|v.resume| - 1]) || PointsAdrift(v, c.resumeTail))
  }

  ghost predicate BatchInv(c: State, v: View) {
    && |v.batch| == |c.notif|
    && forall k :: 0 <= k < |c.notif| ==>
         BatchOk(c.cnext, c.notif[k], v.batch[k]) && Enumerates(v.batch[k].rest + v.batch[k].succ, v.place, InBatch(k))
  }

  ghost predicate WaiterOk(m: M.State, cnext: seq<Ptr>, w: WaitPc, n: Id, p: Place)
    requires M.Shape(m) && |cnext| == |m.act| && n < |m.act|
  {
    && (p == Nowhere <==> !(w.CvPushed? || w.Parked?))
    && (w.CvLoaded? || w.CvStored? || w.CvPushed? ==> m.act[n] == M.Holding)
    && (w.Parked? ==> m.act[n] != M.Holding)
    && (w.CvStored? ==> cnext[n] == w.seen)
    && (p.OnStack? || p.OnResume? || p.InBatch? || p.Adrift? ==> m.reg[n] == M.Off)
    && (p.InLock? ==> m.reg[n] != M.Off)
    && (p.Nowhere? && m.act[n] != M.Idle ==> m.reg[n] == M.Off)
  }

  ghost predicate WaitInv(c: State, v: View)
    requires Shape(c)
  {
    && |v.place| == |c.wait|
    && forall n :: 0 <= n < |c.wait| ==> WaiterOk(c.m, c.cnext, c.wait[n], n, v.place[n])
  }

  ghost predicate CvInv(c: State, v: View) {
    Shape(c) && WaitInv(c, v) && ListInv(c, v) && BatchInv(c, v)
  }

  ghost predicate RangeInv(c: State, v: View) {
    forall n :: 0 <= n < |v.place| && v.place[n].InBatch? ==> v.place[n].k < |c.notif|
  }

  ghost predicate Inv(c: State, v: View) {
    CvInv(c, v) && M.Inv(c.m, v.mv) && RangeInv(c, v)
  }

  function NextView(c: State, v: View, st: Step): View
    requires Shape(c) && Enabled(c, st) && |v.batch| == |c.notif|
  {
    match st
    case Lock(s) =>
      var g := Granted(c.m, s);
      v.(mv := M.NextView(c.m, v.mv, s), place := if g.Some? then Move(v.place, [g.value], Nowhere) else v.place)
    case WaitCas(n, weak) =>
      if c.awaiting == c.wait[n].seen && !weak
      then v.(stack := [n] + v.stack, place := Move(v.place, [n], OnStack)) else v
    case WaitUnlock(n) => v.(mv := M.NextView(c.m, v.mv, M.BeginUnlock(n)))
    case BeginOne(k) =>
      if |v.resume| == 0 then v
      else v.(resume := v.resume[1..], batch := v.batch[k := Batch([], [v.resume[0]])],
              place := Move(v.place, [v.resume[0]], InBatch(k)))
    case Swap(k) => Grab(v, k)
    case BeginAll(k) => Grab(v, k)
    case Flip(k) =>
      var Batch(succ, rest) := v.batch[k];
      if |rest| == 0 then v else v.(batch := v.batch[k := Batch([rest[0]] + succ, rest[1..])])
    case Merge(k) =>
      var Batch(succ, rest) := v.batch[k];
      if |v.resume| == 0
      then v.(resume := succ, batch := v.batch[k := Batch([], rest)], place := Move(v.place, succ, OnResume))
      else if c.resumeTail == At(v.resume[|v.resume| - 1])
      then v.(resume := v.resume[1..] + rest, batch := v.batch[k := Batch([], [v.resume[0]])],
              place := Move(Move(Move(v.place, succ, Adrift), rest, OnResume), [v.resume[0]], InBatch(k)))
      else v.(resume := v.resume[1..], batch := v.batch[k := Batch([], [v.resume[0]])],
              place := Move(Move(v.place, rest + succ, Adrift), [v.resume[0]], InBatch(k)))
    case Wake(k) => HandOver(v, k)
    case Walk(k) => HandOver(v, k)
    case Collect(k) =>
      v.(resume := [], batch := v.batch[k := Batch([], v.resume)], place := Move(v.place, v.resume, InBatch(k)))
    case _ => v
  }

  /** Notifier k takes the whole `awaiting` stack. */
  function Grab(v: View, k: nat): View
    requires k < |v.batch|
  {
    v.(stack := [], batch := v.batch[k := Batch([], v.stack)], place := Move(v.place, v.stack, InBatch(k)))
  }

  /** Notifier k starts `register_awaiting` for the first node it holds. */
  function HandOver(v: View, k: nat): View
    requires k < |v.batch|
  {
    var rest := v.batch[k].rest;
    if |rest| == 0 then v
    else v.(batch := v.batch[k := Batch([], rest[1..])], place := Move(v.place, [rest[0]], InLock))
  }

  lemma InitInv(count: nat, notifiers: nat)
    ensures Inv(Init(count, notifiers), InitView(count, notifiers))
  {
    M.InitInv(count);
  }

  // ----- the mutex underneath

  /** What a mutex step changes for one coroutine x, as far as `wait` can tell. */
  lemma LockEffect(m: M.State, mv: M.View, s: M.Step, x: Id)
    requires M.Inv(m, mv) && M.Enabled(m, s) && x < |m.act|
    ensures var m', g := M.Apply(m, s), Granted(m, s);
      && (g == Some(x) ==> m'.act[x] == M.Holding && m'.reg[x] == M.Off && m.act[x] != M.Holding)
      && (g != Some(x) ==>
            && (m'.reg[x] == M.Off <==> m.reg[x] == M.Off && s != M.Load(x))
            && (m'.act[x] == M.Holding <==> m.act[x] == M.Holding && s != M.BeginUnlock(x))
            && (m'.act[x] != M.Idle ==> m.act[x] != M.Idle))
    ensures Granted(m, s) == Some(x) && !s.TryLock? ==> m.reg[x] != M.Off
  {
    if s.Spawn? {
      SpawnGrants(m, mv, s.n);
    }
  }

  lemma SpawnGrants(m: M.State, mv: M.View, n: Id)
    requires M.Inv(m, mv) && M.Enabled(m, M.Spawn(n))
    ensures m.act[n].chosen < |m.act| && m.act[m.act[n].chosen] != M.Holding && m.reg[m.act[n].chosen] != M.Off
  {
    assert mv.owner == Some(n);
    assert mv.done == [m.act[n].chosen];
    assert mv.Has(m.act[n].chosen);
  }

  lemma GrantedTo(m: M.State, mv: M.View, s: M.Step)
    requires M.Inv(m, mv) && M.Enabled(m, s)
    ensures Granted(m, s).Some? ==> Granted(m, s).value < |m.act|
    ensures forall n :: 0 <= n < |m.act| && m.act[n] != M.Idle ==> mv.owner == Some(n)
  {
    if s.Spawn? {
      SpawnGrants(m, mv, s.n);
    }
  }

  lemma LockWaitInv(c: State, v: View, s: M.Step)
    requires Inv(c, v) && Enabled(c, Lock(s))
    ensures WaitInv(Apply(c, Lock(s)), NextView(c, v, Lock(s)))
    ensures Granted(c.m, s).Some? ==>
      Granted(c.m, s).value < |c.wait| && v.place[Granted(c.m, s).value] in {Nowhere, InLock}
  {
    var c', v' := Apply(c, Lock(s)), NextView(c, v, Lock(s));
    forall n | 0 <= n < |c.wait|
      ensures WaiterOk(c'.m, c'.cnext, c'.wait[n], n, v'.place[n])
      ensures Granted(c.m, s) == Some(n) ==> v.place[n] in {Nowhere, InLock}
    {
      assert WaiterOk(c.m, c.cnext, c.wait[n], n, v.place[n]);
      LockEffect(c.m, v.mv, s, n);
    }
    GrantedTo(c.m, v.mv, s);
  }

  /** Lists and batches do not care when a waiter in the lock, or in no list at all, is moved. */
  lemma MoveElsewhere(c: State, v: View, c': State, v': View, moved: seq<Id>, to: Place)
    requires CvInv(c, v)
    requires c'.cnext == c.cnext && c'.awaiting == c.awaiting && c'.resumeHead == c.resumeHead
    requires c'.resumeTail == c.resumeTail && c'.notif == c.notif
    requires v'.stack == v.stack && v'.resume == v.resume && v'.batch == v.batch
    requires v'.place == Move(v.place, moved, to) && (to == Nowhere || to == InLock)
    requires forall n :: n in moved ==> n < |v.place| && v.place[n] in {Nowhere, InLock}
    ensures ListInv(c', v') && BatchInv(c', v')
  {
    Unmoved(v.stack, v.place, OnStack, moved, to);
    Unmoved(v.resume, v.place, OnResume, moved, to);
    forall k | 0 <= k < |c.notif|
      ensures Enumerates(v.batch[k].rest + v.batch[k].succ, v'.place, InBatch(k))
    {
      Unmoved(v.batch[k].rest + v.batch[k].succ, v.place, InBatch(k), moved, to);
    }
  }

  lemma LockInv(c: State, v: View, s: M.Step)
    requires Inv(c, v) && Enabled(c, Lock(s))
    ensures CvInv(Apply(c, Lock(s)), NextView(c, v, Lock(s)))
  {
    var c', v' := Apply(c, Lock(s)), NextView(c, v, Lock(s));
    LockWaitInv(c, v, s);
    var g := Granted(c.m, s);
    if g.Some? { MoveElsewhere(c, v, c', v', [g.value], Nowhere); }
  }

  // ----- waiters

  /** Writing the `next` field of x leaves every list without x alone. */
  lemma LinkFrame(c: State, v: View, x: Id, q: Ptr)
    requires CvInv(c, v) && x < |c.wait| && v.place[x] in {Nowhere, InLock, Adrift}
    ensures var c' := c.(cnext := c.cnext[x := q]); ListInv(c', v) && BatchInv(c', v)
  {
    LinkedFrame(c.cnext, c.awaiting, v.stack, x, q);
    LinkedFrame(c.cnext, c.resumeHead, v.resume, x, q);
    forall k | 0 <= k < |c.notif| ensures BatchOk(c.cnext[x := q], c.notif[k], v.batch[k]) {
      BatchFrame(c, v, k, x, q);
    }
  }

  lemma BatchFrame(c: State, v: View, k: nat, x: Id, q: Ptr)
    requires BatchInv(c, v) && k < |c.notif| && x < |c.cnext| && x < |v.place| && v.place[x] != InBatch(k)
    ensures BatchOk(c.cnext[x := q], c.notif[k], v.batch[k])
  {
    var Batch(succ, rest) := v.batch[k];
    assert x !in rest + succ;
    match c.notif[k]
    case Flipping(head, s, pred, tail) =>
      LinkedFrame(c.cnext, At(head), rest, x, q);
      LinkedFrame(c.cnext, s, succ, x, q);
    case Walking(p, _) => LinkedFrame(c.cnext, p, rest, x, q);
    case _ =>
  }

  lemma WaitPcInv(c: State, v: View, st: Step)
    requires CvInv(c, v) && Enabled(c, st)
    requires st.WaitLoad? || st.WaitStore? || (st.WaitCas? && !(c.awaiting == c.wait[st.n].seen && !st.weak))
    ensures CvInv(Apply(c, st), NextView(c, v, st))
  {
    var n := st.n;
    assert WaiterOk(c.m, c.cnext, c.wait[n], n, v.place[n]);
    if st.WaitStore? { LinkFrame(c, v, n, c.wait[n].seen); }
  }

  lemma WaitPushInv(c: State, v: View, n: Id)
    requires CvInv(c, v) && Enabled(c, WaitCas(n, false)) && c.awaiting == c.wait[n].seen
    ensures CvInv(Apply(c, WaitCas(n, false)), NextView(c, v, WaitCas(n, false)))
  {
    var c', v' := Apply(c, WaitCas(n, false)), NextView(c, v, WaitCas(n, false));
    assert WaiterOk(c.m, c.cnext, c.wait[n], n, v.place[n]);
    assert n !in v.stack;
    LinkedCons(c.cnext, c.awaiting, v.stack, n);
    assert c.cnext[n := c.awaiting] == c.cnext;
    MovedIn(v.stack, v.place, OnStack, n);
    Unmoved(v.resume, v.place, OnResume, [n], OnStack);
    forall k | 0 <= k < |c.notif| ensures Enumerates(v.batch[k].rest + v.batch[k].succ, v'.place, InBatch(k)) {
      Unmoved(v.batch[k].rest + v.batch[k].succ, v.place, InBatch(k), [n], OnStack);
    }
  }

  lemma WaitUnlockInv(c: State, v: View, n: Id)
    requires CvInv(c, v) && Enabled(c, WaitUnlock(n))
    ensures CvInv(Apply(c, WaitUnlock(n)), NextView(c, v, WaitUnlock(n)))
  {
    var c' := Apply(c, WaitUnlock(n));
    forall x | 0 <= x < |c.wait| ensures WaiterOk(c'.m, c'.cnext, c'.wait[x], x, v.place[x]) {
      assert WaiterOk(c.m, c.cnext, c.wait[x], x, v.place[x]);
    }
  }

  // ----- notifiers

  /** Waiters handed around between the cv's own lists stay well accounted for. */
  lemma ShuffleWaitInv(c: State, v: View, cnext': seq<Ptr>, moved: seq<Id>, to: Place)
    requires Shape(c) && WaitInv(c, v) && |cnext'| == |c.cnext|
    requires to.OnStack? || to.OnResume? || to.InBatch? || to.Adrift?
    requires forall n :: n in moved ==>
      n < |v.place| && (v.place[n].OnStack? || v.place[n].OnResume? || v.place[n].InBatch?)
    requires forall n :: 0 <= n < |v.place| && v.place[n] == Nowhere ==> cnext'[n] == c.cnext[n]
    ensures WaitInv(c.(cnext := cnext'), v.(place := Move(v.place, moved, to)))
  {
    forall n | 0 <= n < |c.wait|
      ensures WaiterOk(c.m, cnext', c.wait[n], n, Move(v.place, moved, to)[n])
    {
      assert WaiterOk(c.m, c.cnext, c.wait[n], n, v.place[n]);
    }
  }

  /** Notifier k goes on with batch b at pc; `moved` changed place; all other notifiers are as before. */
  lemma BatchStep(c: State, v: View, k: nat, moved: seq<Id>, to: Place, pc: NotifyPc, b: Batch, c': State, v': View)
    requires BatchInv(c, v) && k < |c.notif|
    requires to == InBatch(k) || to == OnResume || to == InLock || to == Adrift
    requires forall n :: n in moved ==> n < |v.place| && v.place[n] in {OnStack, OnResume, InBatch(k)}
    requires BatchOk(c.cnext, pc, b) && Enumerates(b.rest + b.succ, Move(v.place, moved, to), InBatch(k))
    requires c'.cnext == c.cnext && c'.notif == c.notif[k := pc]
    requires v'.batch == v.batch[k := b] && v'.place == Move(v.place, moved, to)
    ensures BatchInv(c', v')
  {
    forall j | 0 <= j < |c.notif|
      ensures BatchOk(c'.cnext, c'.notif[j], v'.batch[j])
      ensures Enumerates(v'.batch[j].rest + v'.batch[j].succ, v'.place, InBatch(j))
    {
      if j != k {
        Unmoved(v.batch[j].rest + v.batch[j].succ, v.place, InBatch(j), moved, to);
      }
    }
  }

  lemma PopInv(c: State, v: View, k: nat)
    requires CvInv(c, v) && Enabled(c, BeginOne(k))
    ensures CvInv(Apply(c, BeginOne(k)), NextView(c, v, BeginOne(k)))
  {
    if |v.resume| > 0 {
      var x := v.resume[0];
      assert x in v.resume;
      assert [x] + [] == [x];
      MovedIn([], v.place, InBatch(k), x);
      BatchStep(c, v, k, [x], InBatch(k), Waking(x), Batch([], [x]), Apply(c, BeginOne(k)), NextView(c, v, BeginOne(k)));
      ShuffleWaitInv(c, v, c.cnext, [x], InBatch(k));
      LinkedTail(c.cnext, c.resumeHead, v.resume);
      MovedOut(v.resume, v.place, OnResume, InBatch(k));
      Unmoved(v.stack, v.place, OnStack, [x], InBatch(k));
    }
  }

  lemma GrabInv(c: State, v: View, k: nat, pc: NotifyPc, c': State)
    requires CvInv(c, v) && k < |c.notif| && v.batch[k] == EMPTY
    requires c' == c.(awaiting := Null, notif := c.notif[k := pc]) && BatchOk(c.cnext, pc, Batch([], v.stack))
    ensures CvInv(c', Grab(v, k))
  {
    assert v.stack + [] == v.stack;
    AllMoved(v.stack, v.place, OnStack, InBatch(k));
    BatchStep(c, v, k, v.stack, InBatch(k), pc, Batch([], v.stack), c', Grab(v, k));
    ShuffleWaitInv(c, v, c.cnext, v.stack, InBatch(k));
    Unmoved(v.resume, v.place, OnResume, v.stack, InBatch(k));
  }

  lemma FlipEnumerates(succ: seq<Id>, rest: seq<Id>, place: seq<Place>, p: Place)
    requires Enumerates(rest + succ, place, p) && |rest| > 0
    ensures Enumerates(rest[1..] + ([rest[0]] + succ), place, p)
    ensures rest[0] !in succ && rest[0] !in rest[1..]
  {
    var x, t := rest[0], rest[1..];
    assert rest + succ == [x] + (t + succ);
    DistinctTail([x] + (t + succ));
    assert ([x] + (t + succ))[1..] == t + succ;
    var u := t + succ;
    assert Distinct(t) by {
      forall i, j | 0 <= i < j < |t| ensures t[i] != t[j] { assert u[i] == t[i] && u[j] == t[j]; }
    }
    assert Distinct(succ) && forall n :: n in t ==> n !in succ by {
      forall i, j | 0 <= i < j < |succ| ensures succ[i] != succ[j] {
        assert u[|t| + i] == succ[i] && u[|t| + j] == succ[j];
      }
      forall i, j | 0 <= i < |t| && 0 <= j < |succ| ensures t[i] != succ[j] {
        assert u[i] == t[i] && u[|t| + j] == succ[j];
      }
    }
    DistinctCons(x, succ);
    DistinctConcat(t, [x] + succ);
    forall n ensures n in rest + succ <==> n in t + ([x] + succ) {}
  }

  lemma FlipInv(c: State, v: View, k: nat)
    requires CvInv(c, v) && Enabled(c, Flip(k))
    ensures CvInv(Apply(c, Flip(k)), NextView(c, v, Flip(k)))
  {
    var c', v' := Apply(c, Flip(k)), NextView(c, v, Flip(k));
    var Batch(succ, rest) := v.batch[k];
    var Flipping(head, s, pred, tail) := c.notif[k];
    assert head in rest + succ;
    FlipEnumerates(succ, rest, v.place, InBatch(k));
    LinkedTail(c.cnext, At(head), rest);
    LinkedFrame(c.cnext, pred, rest[1..], head, s);
    LinkedCons(c.cnext, s, succ, head);
    LinkedFrame(c.cnext, c.awaiting, v.stack, head, s);
    LinkedFrame(c.cnext, c.resumeHead, v.resume, head, s);
    assert BatchOk(c'.cnext, c'.notif[k], v'.batch[k]);
    forall j | 0 <= j < |c.notif| && j != k ensures BatchOk(c'.cnext, c.notif[j], v.batch[j]) {
      BatchFrame(c, v, j, head, s);
    }
  }

  lemma SpliceInv(c: State, v: View, k: nat)
    requires CvInv(c, v) && Enabled(c, Merge(k)) && c.resumeHead == Null
    ensures CvInv(Apply(c, Merge(k)), NextView(c, v, Merge(k)))
  {
    var Batch(succ, rest) := v.batch[k];
    var head := c.notif[k].head;
    assert rest == [head];
    assert [head] + [] == [head];
    SpliceEnumerates(succ, head, v.place, InBatch(k));
    BatchStep(c, v, k, succ, OnResume, Waking(head), Batch([], rest), Apply(c, Merge(k)), NextView(c, v, Merge(k)));
    ShuffleWaitInv(c, v, c.cnext, succ, OnResume);
    Unmoved(v.stack, v.place, OnStack, succ, OnResume);
  }

  lemma SpliceEnumerates(succ: seq<Id>, head: Id, place: seq<Place>, p: Place)
    requires Enumerates([head] + succ, place, p) && Enumerates([], place, OnResume) && p != OnResume
    ensures Enumerates([head], Move(place, succ, OnResume), p)
    ensures Enumerates(succ, Move(place, succ, OnResume), OnResume)
  {
    DistinctTail([head] + succ);
    assert ([head] + succ)[1..] == succ;
  }

  /** Step 5 with a batch of one and a tail that fits: it goes to the end of the list whose head is woken. */
  lemma AppendInv(c: State, v: View, k: nat)
    requires CvInv(c, v) && Enabled(c, Merge(k)) && c.notif[k].succ == Null
    requires |v.resume| > 0 && c.resumeTail == At(v.resume[|v.resume| - 1])
    ensures CvInv(Apply(c, Merge(k)), NextView(c, v, Merge(k)))
  {
    var head := c.notif[k].head;
    assert v.batch[k] == Batch([], [head]) && Move(v.place, [], Adrift) == v.place;
    assert [head] + [] == [head] && head in [head] + [];
    var first, last := v.resume[0], v.resume[|v.resume| - 1];
    assert first in v.resume && last in v.resume;
    var p1 := Move(v.place, [head], OnResume);
    AppendEnumerates(v.resume, head, v.place, InBatch(k));
    AppendLists(c, v, k, head, p1);
    AppendBatches(c, v, k, head, p1);
    AppendWaiters(c, v, k, head, first, c.cnext[last := At(head)]);
  }

  lemma AppendWaiters(c: State, v: View, k: nat, head: Id, first: Id, cnext': seq<Ptr>)
    requires Shape(c) && WaitInv(c, v) && |cnext'| == |c.cnext| && head < |v.place| && first < |v.place|
    requires v.place[head] == InBatch(k) && v.place[first] == OnResume
    requires forall n :: 0 <= n < |v.place| && v.place[n] == Nowhere ==> cnext'[n] == c.cnext[n]
    ensures WaitInv(c.(cnext := cnext'), v.(place := Move(Move(v.place, [head], OnResume), [first], InBatch(k))))
  {
    ShuffleWaitInv(c, v, cnext', [head], OnResume);
    ShuffleWaitInv(c.(cnext := cnext'), v.(place := Move(v.place, [head], OnResume)), cnext', [first], InBatch(k));
  }

  lemma AppendLists(c: State, v: View, k: nat, head: Id, p1: seq<Place>)
    requires ListInv(c, v) && head < |c.cnext| && c.cnext[head] == Null && |v.resume| > 0 && |c.cnext| == |v.place|
    requires head < |v.place| && v.place[head] == InBatch(k) && p1 == Move(v.place, [head], OnResume)
    requires Enumerates(v.resume + [head], p1, OnResume)
    ensures var cnext', first := c.cnext[v.resume[|v.resume| - 1] := At(head)], v.resume[0];
      && Linked(cnext', NextOf(cnext', c.resumeHead), v.resume[1..] + [head])
      && Linked(cnext', c.awaiting, v.stack)
      && Enumerates(v.resume[1..] + [head], Move(p1, [first], InBatch(k)), OnResume)
      && Enumerates(v.stack, Move(p1, [first], InBatch(k)), OnStack)
  {
    var resume := v.resume;
    var first, last := resume[0], resume[|resume| - 1];
    assert first in resume && last in resume;
    LinkedAppend(c.cnext, c.resumeHead, resume, head);
    LinkedTail(c.cnext[last := At(head)], c.resumeHead, resume + [head]);
    assert (resume + [head])[1..] == resume[1..] + [head];
    LinkedFrame(c.cnext, c.awaiting, v.stack, last, At(head));
    MovedOut(resume + [head], p1, OnResume, InBatch(k));
    Unmoved(v.stack, v.place, OnStack, [head], OnResume);
    Unmoved(v.stack, p1, OnStack, [first], InBatch(k));
  }

  lemma AppendBatches(c: State, v: View, k: nat, head: Id, p1: seq<Place>)
    requires ListInv(c, v) && BatchInv(c, v) && |v.resume| > 0 && |c.cnext| == |v.place|
    requires k < |c.notif| && v.batch[k] == Batch([], [head])
    requires p1 == Move(v.place, [head], OnResume) && Enumerates([], p1, InBatch(k))
    ensures var c', first := c.(cnext := c.cnext[v.resume[|v.resume| - 1] := At(head)],
                                    notif := c.notif[k := Waking(v.resume[0])]), v.resume[0];
      BatchInv(c', v.(batch := v.batch[k := Batch([], [first])], place := Move(p1, [first], InBatch(k))))
  {
    var first, last := v.resume[0], v.resume[|v.resume| - 1];
    assert first in v.resume && last in v.resume && head in [head] + [];
    MovedIn([], p1, InBatch(k), first);
    assert [first] + [] == [first];
    forall j | 0 <= j < |c.notif| && j != k
      ensures BatchOk(c.cnext[last := At(head)], c.notif[j], v.batch[j])
      ensures Enumerates(v.batch[j].rest + v.batch[j].succ, Move(p1, [first], InBatch(k)), InBatch(j))
    {
      BatchFrame(c, v, j, last, At(head));
      Unmoved(v.batch[j].rest + v.batch[j].succ, v.place, InBatch(j), [head], OnResume);
      Unmoved(v.batch[j].rest + v.batch[j].succ, p1, InBatch(j), [first], InBatch(k));
    }
  }

  lemma AppendEnumerates(resume: seq<Id>, head: Id, place: seq<Place>, p: Place)
    requires Enumerates(resume, place, OnResume) && Enumerates([head], place, p) && p != OnResume
    ensures Enumerates(resume + [head], Move(place, [head], OnResume), OnResume)
    ensures Enumerates([], Move(place, [head], OnResume), p)
    ensures head !in resume
  {
    assert head in [head];
    DistinctConcat(resume, [head]);
  }

  lemma HandOverWaitInv(c: State, v: View, k: nat)
    requires CvInv(c, v) && k < |c.notif| && |v.batch[k].rest| > 0
    requires M.Enabled(c.m, M.Load(v.batch[k].rest[0]))
    ensures var x := v.batch[k].rest[0];
      WaitInv(c.(m := M.Apply(c.m, M.Load(x))), v.(place := Move(v.place, [x], InLock)))
  {
    var x := v.batch[k].rest[0];
    assert x in v.batch[k].rest + v.batch[k].succ;
    var m' := M.Apply(c.m, M.Load(x));
    forall n | 0 <= n < |c.wait| ensures WaiterOk(m', c.cnext, c.wait[n], n, Move(v.place, [x], InLock)[n]) {
      assert WaiterOk(c.m, c.cnext, c.wait[n], n, v.place[n]);
    }
  }

  lemma HandOverBatches(c: State, v: View, k: nat, st: Step)
    requires CvInv(c, v) && (st == Wake(k) || st == Walk(k)) && Enabled(c, st)
    requires |v.batch[k].rest| > 0
    ensures BatchInv(Apply(c, st), NextView(c, v, st)) && v.place[v.batch[k].rest[0]] == InBatch(k)
  {
    var rest := v.batch[k].rest;
    var x := rest[0];
    assert v.batch[k].succ == [] && rest + [] == rest && x in rest && rest[1..] + [] == rest[1..];
    MovedOut(rest, v.place, InBatch(k), InLock);
    if st.Walk? { LinkedTail(c.cnext, c.notif[k].p, rest); }
    BatchStep(c, v, k, [x], InLock, Apply(c, st).notif[k], Batch([], rest[1..]), Apply(c, st), NextView(c, v, st));
  }

  lemma HandOverInv(c: State, v: View, k: nat, st: Step)
    requires CvInv(c, v) && (st == Wake(k) || st == Walk(k)) && Enabled(c, st)
    requires |v.batch[k].rest| > 0
    ensures CvInv(Apply(c, st), NextView(c, v, st))
  {
    var x := v.batch[k].rest[0];
    HandOverBatches(c, v, k, st);
    HandOverWaitInv(c, v, k);
    Unmoved(v.stack, v.place, OnStack, [x], InLock);
    Unmoved(v.resume, v.place, OnResume, [x], InLock);
  }

  lemma CollectInv(c: State, v: View, k: nat)
    requires CvInv(c, v) && Enabled(c, Collect(k))
    ensures CvInv(Apply(c, Collect(k)), NextView(c, v, Collect(k)))
  {
    assert v.resume + [] == v.resume;
    AllMoved(v.resume, v.place, OnResume, InBatch(k));
    BatchStep(c, v, k, v.resume, InBatch(k), Walking(c.resumeHead, true), Batch([], v.resume),
              Apply(c, Collect(k)), NextView(c, v, Collect(k)));
    ShuffleWaitInv(c, v, c.cnext, v.resume, InBatch(k));
    Unmoved(v.stack, v.place, OnStack, v.resume, InBatch(k));
  }

  lemma MutexPart(c: State, v: View, st: Step)
    requires Inv(c, v) && Enabled(c, st)
    ensures M.Inv(Apply(c, st).m, NextView(c, v, st).mv)
  {
    match st
    case Lock(s) => M.StepInv(c.m, v.mv, s);
    case WaitUnlock(n) => M.StepInv(c.m, v.mv, M.BeginUnlock(n));
    case Wake(k) => M.StepInv(c.m, v.mv, M.Load(c.notif[k].node));
    case Walk(k) => if c.notif[k].p.At? { M.StepInv(c.m, v.mv, M.Load(c.notif[k].p.id)); }
    case _ =>
  }

  lemma WaiterPart(c: State, v: View, st: Step)
    requires CvInv(c, v) && Enabled(c, st)
    requires st.WaitLoad? || st.WaitStore? || st.WaitCas? || st.WaitUnlock?
    ensures CvInv(Apply(c, st), NextView(c, v, st))
  {
    if st.WaitUnlock? {
      WaitUnlockInv(c, v, st.n);
    } else if st.WaitCas? && c.awaiting == c.wait[st.n].seen && !st.weak {
      WaitPushInv(c, v, st.n);
    } else {
      WaitPcInv(c, v, st);
    }
  }

  lemma MergePart(c: State, v: View, k: nat)
    requires CvInv(c, v) && Enabled(c, Merge(k))
    ensures CvInv(Apply(c, Merge(k)), NextView(c, v, Merge(k)))
  {
    if c.resumeHead == Null {
      SpliceInv(c, v, k);
    } else if PointsAdrift(v, c.resumeTail) {
      assert v.resume[|v.resume| - 1] in v.resume;
      DriftAll(c, v, k);
    } else if c.notif[k].succ == Null {
      AppendInv(c, v, k);
    } else {
      AppendOldest(c, v, k);
    }
  }

  // ----- step 5 with waiters left behind

  lemma NewTail(c: State, v: View, t: Id)
    requires CvInv(c, v) && PointsAdrift(v, At(t))
    ensures CvInv(c.(resumeTail := At(t)), v)
  {
  }

  /** Notifier k forgets `moved`, a part of its batch, and goes on with b at pc. */
  lemma Forgets(c: State, v: View, k: nat, moved: seq<Id>, pc: NotifyPc, b: Batch)
    requires CvInv(c, v) && k < |c.notif| && (forall n :: n in moved ==> n in v.batch[k].rest + v.batch[k].succ)
    requires BatchOk(c.cnext, pc, b) && Enumerates(b.rest + b.succ, Move(v.place, moved, Adrift), InBatch(k))
    ensures CvInv(c.(notif := c.notif[k := pc]), v.(batch := v.batch[k := b], place := Move(v.place, moved, Adrift)))
  {
    BatchStep(c, v, k, moved, Adrift, pc, b, c.(notif := c.notif[k := pc]),
              v.(batch := v.batch[k := b], place := Move(v.place, moved, Adrift)));
    ShuffleWaitInv(c, v, c.cnext, moved, Adrift);
    Unmoved(v.stack, v.place, OnStack, moved, Adrift);
    Unmoved(v.resume, v.place, OnResume, moved, Adrift);
  }

  function OldestOnly(c: State, k: nat, head: Id): State
    requires k < |c.notif|
  {
    c.(notif := c.notif[k := Flipping(head, Null, After([head], 0), head)])
  }

  function OthersDrift(v: View, k: nat, head: Id): View
    requires k < |v.batch|
  {
    v.(batch := v.batch[k := Batch([], [head])], place := Move(v.place, v.batch[k].succ, Adrift))
  }

  /** All but the oldest waiter of a batch are forgotten; the last of them is where `tail` points. */
  lemma LeavesOthers(c: State, v: View, k: nat)
    requires CvInv(c, v) && Enabled(c, Merge(k)) && c.notif[k].succ != Null
    ensures CvInv(OldestOnly(c, k, c.notif[k].head), OthersDrift(v, k, c.notif[k].head))
    ensures PointsAdrift(OthersDrift(v, k, c.notif[k].head), At(c.notif[k].tail))
    ensures v.batch[k].rest == [c.notif[k].head]
  {
    var Flipping(head, succ, pred, tail) := c.notif[k];
    var b := v.batch[k];
    assert b.rest == [head] && |b.succ| > 0 && tail == b.succ[|b.succ| - 1];
    OldestRemains(v.place, head, b.succ, k);
    assert tail in b.succ;
    Forgets(c, v, k, b.succ, Flipping(head, Null, After([head], 0), head), Batch([], [head]));
  }

  lemma OldestRemains(place: seq<Place>, head: Id, succ: seq<Id>, k: nat)
    requires Enumerates([head] + succ, place, InBatch(k))
    ensures Enumerates([head] + [], Move(place, succ, Adrift), InBatch(k))
    ensures forall n :: n in succ ==> n in [head] + succ && n < |place| && Move(place, succ, Adrift)[n] == Adrift
  {
    DistinctTail([head] + succ);
    assert ([head] + succ)[1..] == succ && [head] + [] == [head];
    assert head in [head] + succ;
  }

  /** The tail fits and the batch is longer: its oldest waiter is appended, the others are left behind. */
  lemma AppendOldest(c: State, v: View, k: nat)
    requires CvInv(c, v) && Enabled(c, Merge(k)) && c.notif[k].succ != Null
    requires |v.resume| > 0 && c.resumeTail == At(v.resume[|v.resume| - 1])
    ensures CvInv(Apply(c, Merge(k)), NextView(c, v, Merge(k)))
  {
    var head, tail := c.notif[k].head, c.notif[k].tail;
    var c1, v1 := OldestOnly(c, k, head), OthersDrift(v, k, head);
    LeavesOthers(c, v, k);
    AppendInv(c1, v1, k);
    OldestTells(c, v, k);
    NewTail(Apply(c1, Merge(k)), NextView(c1, v1, Merge(k)), tail);
  }

  /** Step 5 with the whole batch is step 5 with its oldest waiter, up to the tail. */
  lemma OldestTells(c: State, v: View, k: nat)
    requires Shape(c) && Enabled(c, Merge(k)) && c.resumeHead != Null && |v.batch| == |c.notif|
    requires |v.resume| > 0 && c.resumeTail == At(v.resume[|v.resume| - 1]) && c.resumeHead == At(v.resume[0])
    requires v.batch[k].rest == [c.notif[k].head]
    ensures var c1, v1 := OldestOnly(c, k, c.notif[k].head), OthersDrift(v, k, c.notif[k].head);
      && Enabled(c1, Merge(k)) && |v1.batch| == |c1.notif|
      && Apply(c, Merge(k)) == Apply(c1, Merge(k)).(resumeTail := At(c.notif[k].tail))
      && NextView(c, v, Merge(k)) == NextView(c1, v1, Merge(k))
  {
    var c1, v1 := OldestOnly(c, k, c.notif[k].head), OthersDrift(v, k, c.notif[k].head);
    assert Move(v1.place, [], Adrift) == v1.place;
    assert c1.notif[k := Waking(v.resume[0])] == c.notif[k := Waking(v.resume[0])];
    assert v1.batch[k := Batch([], [v.resume[0]])] == v.batch[k := Batch([], [v.resume[0]])];
  }

  lemma WriteAdrift(c: State, v: View, x: Id, q: Ptr)
    requires CvInv(c, v) && PointsAdrift(v, At(x))
    ensures CvInv(c.(cnext := c.cnext[x := q]), v)
  {
    LinkFrame(c, v, x, q);
    forall n | 0 <= n < |c.wait| ensures WaiterOk(c.m, c.cnext[x := q], c.wait[n], n, v.place[n]) {
      assert WaiterOk(c.m, c.cnext, c.wait[n], n, v.place[n]);
    }
  }

  function AllDrift(v: View, k: nat): View
    requires k < |v.batch|
  {
    v.(batch := v.batch[k := EMPTY], place := Move(v.place, v.batch[k].rest + v.batch[k].succ, Adrift))
  }

  lemma LeavesAll(c: State, v: View, k: nat)
    requires CvInv(c, v) && Enabled(c, Merge(k))
    ensures CvInv(c.(notif := c.notif[k := Quiet]), AllDrift(v, k))
    ensures v.batch[k].rest == [c.notif[k].head] && PointsAdrift(AllDrift(v, k), At(c.notif[k].tail))
  {
    var all := v.batch[k].rest + v.batch[k].succ;
    assert v.batch[k].rest == [c.notif[k].head];
    assert c.notif[k].tail in all by {
      if |v.batch[k].succ| > 0 { assert v.batch[k].succ[|v.batch[k].succ| - 1] in v.batch[k].succ; }
    }
    AllGone(all, v.place, InBatch(k), Adrift);
    Forgets(c, v, k, all, Quiet, EMPTY);
  }

  /** The tail was left behind earlier: the whole batch is hung on it and left behind as well. */
  lemma DriftAll(c: State, v: View, k: nat)
    requires CvInv(c, v) && Enabled(c, Merge(k)) && |v.resume| > 0
    requires PointsAdrift(v, c.resumeTail) && c.resumeTail != At(v.resume[|v.resume| - 1])
    ensures CvInv(Apply(c, Merge(k)), NextView(c, v, Merge(k)))
  {
    var head, tail := c.notif[k].head, c.notif[k].tail;
    var c2, v2 := c.(notif := c.notif[k := Quiet]), AllDrift(v, k);
    LeavesAll(c, v, k);
    WriteAdrift(c2, v2, c.resumeTail.id, At(head));
    var c3 := c2.(cnext := c.cnext[c.resumeTail.id := At(head)]);
    PopInv(c3, v2, k);
    DriftTells(c, v, k, c3);
    NewTail(Apply(c3, BeginOne(k)), NextView(c3, v2, BeginOne(k)), tail);
  }

  /** Step 5 at a tail that was left behind is a plain pop, up to the tail. */
  lemma DriftTells(c: State, v: View, k: nat, c3: State)
    requires Shape(c) && Enabled(c, Merge(k)) && c.resumeHead != Null && |v.batch| == |c.notif|
    requires |v.resume| > 0 && c.resumeHead == At(v.resume[0]) && c.resumeTail != At(v.resume[|v.resume| - 1])
    requires c.resumeTail.At? && c.resumeTail.id < |c.cnext|
    requires c3 == c.(notif := c.notif[k := Quiet], cnext := c.cnext[c.resumeTail.id := At(c.notif[k].head)])
    ensures Enabled(c3, BeginOne(k)) && |AllDrift(v, k).batch| == |c3.notif|
    ensures Apply(c, Merge(k)) == Apply(c3, BeginOne(k)).(resumeTail := At(c.notif[k].tail))
    ensures NextView(c, v, Merge(k)) == NextView(c3, AllDrift(v, k), BeginOne(k))
  {
    assert c3.notif[k := Waking(v.resume[0])] == c.notif[k := Waking(v.resume[0])];
    assert AllDrift(v, k).batch[k := Batch([], [v.resume[0]])] == v.batch[k := Batch([], [v.resume[0]])];
  }

  lemma NotifierPart(c: State, v: View, st: Step)
    requires CvInv(c, v) && Enabled(c, st) && !st.Merge?
    requires !(st.Lock? || st.WaitLoad? || st.WaitStore? || st.WaitCas? || st.WaitUnlock?)
    ensures CvInv(Apply(c, st), NextView(c, v, st))
  {
    match st
    case BeginOne(k) => PopInv(c, v, k);
    case Swap(k) => GrabInv(c, v, k, Apply(c, st).notif[k], Apply(c, st));
    case Flip(k) => FlipInv(c, v, k);
    case Wake(k) => HandOverInv(c, v, k, st);
    case BeginAll(k) => GrabInv(c, v, k, Apply(c, st).notif[k], Apply(c, st));
    case Walk(k) => if c.notif[k].p.At? { HandOverInv(c, v, k, st); }
    case Collect(k) => CollectInv(c, v, k);
  }

  lemma RangePart(c: State, v: View, st: Step)
    requires Shape(c) && Enabled(c, st) && |v.batch| == |c.notif| && RangeInv(c, v)
    ensures RangeInv(Apply(c, st), NextView(c, v, st))
  {
  }

  /** Every step keeps the pointer chains, and knows for each waiter the list it is in, if any. */
  lemma StepInv(c: State, v: View, st: Step)
    requires Inv(c, v) && Enabled(c, st)
    ensures Inv(Apply(c, st), NextView(c, v, st))
  {
    MutexPart(c, v, st);
    RangePart(c, v, st);
    match st
    case Lock(s) => LockInv(c, v, s);
    case WaitLoad(_) => WaiterPart(c, v, st);
    case WaitStore(_) => WaiterPart(c, v, st);
    case WaitCas(_, _) => WaiterPart(c, v, st);
    case WaitUnlock(_) => WaiterPart(c, v, st);
    case Merge(k) => MergePart(c, v, k);
    case _ => NotifierPart(c, v, st);
  }

  /** The pointers after step 5, whatever the length of the batch: at most its oldest waiter has been appended. */
  lemma AfterStepFive(c: State, v: View, k: nat)
    requires CvInv(c, v) && Enabled(c, Merge(k)) && c.resumeHead != Null
    ensures |v.resume| > 0
    ensures var c', head := Apply(c, Merge(k)), c.notif[k].head;
      && v.batch[k].rest == [head]
      && Linked(c'.cnext, c'.resumeHead,
                if c.resumeTail == At(v.resume[|v.resume| - 1]) then v.resume[1..] + [head] else v.resume[1..])
      && Linked(c'.cnext, c'.awaiting, v.stack)
      && c'.notif[k] == Waking(v.resume[0])
      && forall j :: 0 <= j < |c.notif| && j != k ==>
           c'.notif[j] == c.notif[j] && BatchOk(c'.cnext, c'.notif[j], v.batch[j])
  {
    assert BatchOk(c.cnext, c.notif[k], v.batch[k]);
    MergePart(c, v, k);
    var v' := NextView(c, v, Merge(k));
    forall j | 0 <= j < |c.notif| && j != k ensures BatchOk(Apply(c, Merge(k)).cnext, c.notif[j], v.batch[j]) {
      assert v'.batch[j] == v.batch[j];
    }
  }

  // ----- who is in no list any more

  /** Inside `wait`: pushed on the condition variable, and not yet resumed as owner. */
  predicate Suspended(c: State, n: Id)
    requires n < |c.wait|
  {
    c.wait[n] == CvPushed || c.wait[n] == Parked
  }

  /** Following `next` from p meets n. */
  ghost predicate OnChain(next: seq<Ptr>, p: Ptr, n: Id) {
    exists s :: Linked(next, p, s) && n in s
  }

  /** The pointers of notifier k lead to n. */
  ghost predicate InHands(c: State, k: nat, n: Id) {
    && k < |c.notif|
    && match c.notif[k]
       case Flipping(head, succ, pred, tail) =>
         || OnChain(c.cnext, At(head), n) || OnChain(c.cnext, succ, n)
         || OnChain(c.cnext, pred, n) || OnChain(c.cnext, At(tail), n)
       case Waking(node) => n == node
       case Walking(p, _) => OnChain(c.cnext, p, n)
       case _ => false
  }

  /**
    n is suspended, nobody is registering it on the mutex, and neither the condition
    variable nor any notifier can reach it.  (`to_resume_tail` may still point to it, but
    that pointer is only written through.)
   */
  ghost predicate Lost(c: State, n: Id) {
    && Shape(c) && n < |c.wait| && Suspended(c, n) && c.m.reg[n] == M.Off
    && !OnChain(c.cnext, c.awaiting, n) && !OnChain(c.cnext, c.resumeHead, n)
    && forall k: nat :: !InHands(c, k, n)
  }

  lemma ChainIs(next: seq<Ptr>, p: Ptr, s: seq<Id>, n: Id)
    requires Linked(next, p, s)
    ensures OnChain(next, p, n) <==> n in s
  {
    forall t | Linked(next, p, t) ensures t == s {
      LinkedUnique(next, p, t, s);
    }
  }

  lemma HandsHold(c: State, v: View, k: nat, n: Id)
    requires BatchInv(c, v) && k < |c.notif| && n < |v.place|
    ensures InHands(c, k, n) <==> v.place[n] == InBatch(k)
  {
    var b := v.batch[k];
    assert BatchOk(c.cnext, c.notif[k], b);
    assert n in b.rest + b.succ <==> v.place[n] == InBatch(k);
    match c.notif[k]
    case Flipping(head, succ, pred, tail) =>
      ChainIs(c.cnext, At(head), b.rest, n);
      ChainIs(c.cnext, succ, b.succ, n);
      LinkedTail(c.cnext, At(head), b.rest);
      ChainIs(c.cnext, pred, b.rest[1..], n);
      TailAlone(c.cnext, succ, b.succ);
      ChainIs(c.cnext, At(tail), if |b.succ| == 0 then b.rest else [tail], n);
    case Walking(p, _) => ChainIs(c.cnext, p, b.rest, n);
    case _ =>
  }

  lemma TailAlone(next: seq<Ptr>, p: Ptr, s: seq<Id>)
    requires Linked(next, p, s)
    ensures |s| > 0 ==> Linked(next, At(s[|s| - 1]), [s[|s| - 1]])
  {
    if |s| > 0 {
      assert next[s[|s| - 1]] == After(s, |s| - 1);
    }
  }

  /** The pointers tell where each waiter is. */
  lemma PlaceTells(c: State, v: View, n: Id)
    requires CvInv(c, v) && RangeInv(c, v) && n < |c.wait|
    ensures OnChain(c.cnext, c.awaiting, n) <==> v.place[n] == OnStack
    ensures OnChain(c.cnext, c.resumeHead, n) <==> v.place[n] == OnResume
    ensures forall k: nat :: InHands(c, k, n) <==> v.place[n] == InBatch(k)
    ensures Lost(c, n) <==> v.place[n] == Adrift
    ensures Suspended(c, n) <==> v.place[n] != Nowhere
    ensures Suspended(c, n) && c.m.reg[n] != M.Off <==> v.place[n] == InLock
  {
    ChainIs(c.cnext, c.awaiting, v.stack, n);
    ChainIs(c.cnext, c.resumeHead, v.resume, n);
    forall k: nat ensures InHands(c, k, n) <==> v.place[n] == InBatch(k) {
      if k < |c.notif| { HandsHold(c, v, k, n); }
    }
    assert WaiterOk(c.m, c.cnext, c.wait[n], n, v.place[n]);
    if v.place[n].InBatch? { assert InHands(c, v.place[n].k, n); }
  }

  /**
    What step 5 of notify_one leaves behind: all of the batch but its oldest waiter, and
    that one too if it is hung on a tail that was left behind before.
   */
  ghost predicate LeftBehind(c: State, st: Step, n: Id)
    requires Shape(c) && Enabled(c, st)
  {
    && st.Merge? && c.resumeHead != Null
    && (OnChain(c.cnext, c.notif[st.k].succ, n)
        || (n == c.notif[st.k].head && c.resumeTail.At? && Lost(c, c.resumeTail.id)))
  }

  lemma AdriftStep(c: State, v: View, st: Step, n: Id)
    requires Inv(c, v) && Enabled(c, st) && n < |c.wait|
    ensures |NextView(c, v, st).place| == |v.place|
    ensures NextView(c, v, st).place[n] == Adrift <==>
      || v.place[n] == Adrift
      || (&& st.Merge? && |v.resume| > 0
          && (n in v.batch[st.k].succ || (n in v.batch[st.k].rest && PointsAdrift(v, c.resumeTail))))
  {
    if st.Lock? {
      LockWaitInv(c, v, st.s);
    } else if st.Merge? {
      MergeAdrift(c, v, st.k, n);
    } else if st.WaitCas? {
      assert WaiterOk(c.m, c.cnext, c.wait[st.n], st.n, v.place[st.n]);
    } else if Moving(st) {
      assert BatchOk(c.cnext, c.notif[st.k], v.batch[st.k]);
      assert n in v.batch[st.k].rest + v.batch[st.k].succ <==> v.place[n] == InBatch(st.k);
      assert forall x :: x in v.batch[st.k].rest ==> x in v.batch[st.k].rest + v.batch[st.k].succ;
    }
  }

  predicate Moving(st: Step) {
    st.BeginOne? || st.Swap? || st.Flip? || st.Wake? || st.BeginAll? || st.Walk? || st.Collect?
  }

  lemma MergeAdrift(c: State, v: View, k: nat, n: Id)
    requires CvInv(c, v) && Enabled(c, Merge(k)) && n < |c.wait|
    ensures NextView(c, v, Merge(k)).place[n] == Adrift <==>
      || v.place[n] == Adrift
      || (|v.resume| > 0 && (n in v.batch[k].succ || (n in v.batch[k].rest && PointsAdrift(v, c.resumeTail))))
  {
    var b := v.batch[k];
    assert b.rest == [c.notif[k].head];
    DistinctTail(b.rest + b.succ);
    assert (b.rest + b.succ)[1..] == b.succ;
    assert n in b.rest + b.succ <==> v.place[n] == InBatch(k);
    if |v.resume| > 0 {
      assert v.resume[0] in v.resume && v.resume[|v.resume| - 1] in v.resume;
    }
  }

  lemma LostIsAdrift(c: State, v: View, n: Id)
    requires CvInv(c, v) && RangeInv(c, v) && n < |c.wait|
    ensures Lost(c, n) <==> v.place[n] == Adrift
  {
    PlaceTells(c, v, n);
  }

  lemma TailLost(c: State, v: View)
    requires CvInv(c, v) && RangeInv(c, v)
    ensures c.resumeTail.At? && Lost(c, c.resumeTail.id) <==> PointsAdrift(v, c.resumeTail)
  {
    if c.resumeTail.At? && c.resumeTail.id < |c.wait| {
      LostIsAdrift(c, v, c.resumeTail.id);
    }
  }

  lemma LeftBehindIs(c: State, v: View, k: nat, n: Id)
    requires CvInv(c, v) && RangeInv(c, v) && Enabled(c, Merge(k))
    ensures LeftBehind(c, Merge(k), n) <==>
      |v.resume| > 0 && (n in v.batch[k].succ || (n in v.batch[k].rest && PointsAdrift(v, c.resumeTail)))
  {
    assert BatchOk(c.cnext, c.notif[k], v.batch[k]);
    ChainIs(c.cnext, c.notif[k].succ, v.batch[k].succ, n);
    TailLost(c, v);
  }

  /** A waiter is lost after a step exactly if it was lost before or this step leaves it behind. */
  lemma LostStep(c: State, v: View, st: Step, n: Id)
    requires Inv(c, v) && Enabled(c, st) && n < |c.wait|
    ensures Lost(Apply(c, st), n) <==> Lost(c, n) || LeftBehind(c, st, n)
    ensures Lost(c, n) && c.wait[n] == Parked ==> Apply(c, st).wait[n] == Parked
  {
    StepInv(c, v, st);
    LostIsAdrift(c, v, n);
    LostIsAdrift(Apply(c, st), NextView(c, v, st), n);
    AdriftStep(c, v, st, n);
    if st.Merge? {
      LeftBehindIs(c, v, st.k, n);
    }
    LostKeepsPc(c, v, st, n);
  }

  lemma LostKeepsPc(c: State, v: View, st: Step, n: Id)
    requires Inv(c, v) && Enabled(c, st) && n < |c.wait| && (Lost(c, n) ==> v.place[n] == Adrift)
    ensures Lost(c, n) && c.wait[n] == Parked ==> Apply(c, st).wait[n] == Parked
  {
    if st.Lock? {
      LockWaitInv(c, v, st.s);
    }
  }

  /** Step 5 with a batch of two or more: everybody in it but the oldest is lost. */
  lemma StepFiveLoses(c: State, v: View, k: nat, n: Id)
    requires Inv(c, v) && Enabled(c, Merge(k)) && c.resumeHead != Null
    requires OnChain(c.cnext, c.notif[k].succ, n)
    ensures Lost(Apply(c, Merge(k)), n)
  {
    var b := v.batch[k];
    assert BatchOk(c.cnext, c.notif[k], b);
    ChainIs(c.cnext, c.notif[k].succ, b.succ, n);
    assert n in b.rest + b.succ;
    LostStep(c, v, Merge(k), n);
  }

  /** And there is somebody in it: the first node after the oldest. */
  lemma BatchHasMore(c: State, v: View, k: nat) returns (n: Id)
    requires Inv(c, v) && Enabled(c, Merge(k)) && c.notif[k].succ != Null
    ensures c.notif[k].succ == At(n) && OnChain(c.cnext, c.notif[k].succ, n) && n < |c.wait|
  {
    var b := v.batch[k];
    assert BatchOk(c.cnext, c.notif[k], b);
    n := b.succ[0];
    ChainIs(c.cnext, c.notif[k].succ, b.succ, n);
    assert n in b.rest + b.succ;
  }
}
