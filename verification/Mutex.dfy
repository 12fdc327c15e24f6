/**
  `co_context::mutex` (lib/co_context/co/mutex.cpp), one atomic operation per step.

  The state word is unlocked, locked, or the top of a LIFO stack of waiters linked
  through their `next` fields; `toResume` is a FIFO list that only the holder
  touches.  Any number of coroutines run `register_awaiting` at the same time, each
  with its own, possibly stale, copy of the word; nodes are reused freely, so a CAS
  may succeed on a word that left and came back.
 */
module Mutex {
  import opened Lists
  import FL = FifoLock

  datatype Word = NotLocked | NoAwaiting | Top(node: Id)

  /** Progress of `register_awaiting` for one awaiter. */
  datatype Reg =
    | Off
    | Loaded(seen: Word)   // holds `old_state`, has not written `next` for it yet
    | Stored(seen: Word)   // `next` written, the push CAS comes next
    | Queued              // pushed: suspended until granted

  /** What one coroutine is doing with the lock it holds. */
  datatype Act =
    | Idle
    | Holding
    | Releasing                    // `to_resume` was null: CAS to unlocked comes next
    | Draining                     // that CAS failed: exchange comes next
    | Reversing(node: Ptr, head: Ptr)
    | Taking(head: Ptr)            // `to_resume = resume_head->next` comes next
    | Spawning(chosen: Id)           // `resume_head->co_spawn()` comes next

  datatype State = State(
    word: Word,
    next: seq<Ptr>,
    toResume: Ptr,
    reg: seq<Reg>,
    act: seq<Act>,
    pushed: seq<Id>,   // history: awaiters in the order of their successful push
    granted: seq<Id>)  // history: awaiters in the order in which `unlock` spawned them

  /** A fresh mutex in a program of `count` coroutines. */
  function Init(count: nat): State {
    State(NotLocked, seq(count, _ => Null), Null, seq(count, _ => Off), seq(count, _ => Idle), [], [])
  }

  ghost predicate Shape(m: State) {
    |m.next| == |m.reg| == |m.act|
  }

  /** The cast of the state word to `lock_awaiter *`: `locked_no_awaiting` is 0. */
  function PtrOf(w: Word): Ptr {
    if w.Top? then At(w.node) else Null
  }

  /** Every weak CAS may fail although the word is the expected one: `weak` says so. */
  datatype Step =
    | TryLock(n: Id)
    | Load(n: Id)
    | CasAcquire(n: Id, weak: bool)
    | Store(n: Id)
    | CasPush(n: Id, weak: bool)
    | BeginUnlock(n: Id)
    | CasRelease(n: Id)
    | Exchange(n: Id)
    | ReverseOne(n: Id)
    | Take(n: Id)
    | Spawn(n: Id)

  predicate Enabled(m: State, s: Step)
    requires Shape(m)
  {
    && s.n < |m.act|
    && match s
       case TryLock(n) => m.reg[n] == Off
       case Load(n) => m.reg[n] == Off
       case CasAcquire(n, _) => m.reg[n] == Loaded(NotLocked)
       case Store(n) => m.reg[n].Loaded? && m.reg[n].seen != NotLocked
       case CasPush(n, _) => m.reg[n].Stored?
       case BeginUnlock(n) => m.act[n] == Holding
       case CasRelease(n) => m.act[n] == Releasing
       case Exchange(n) => m.act[n] == Draining
       case ReverseOne(n) => m.act[n].Reversing?
       case Take(n) => m.act[n].Taking?
       case Spawn(n) => m.act[n].Spawning?
  }

  function Grant(m: State, n: Id): State
    requires Shape(m)
  {
    if n >= |m.act| then m
    else m.(reg := m.reg[n := Off], act := m.act[n := Holding])
  }

  function Apply(m: State, s: Step): (m': State)
    requires Shape(m) && Enabled(m, s)
    ensures Shape(m') && |m'.act| == |m.act|
  {
    match s
    case TryLock(n) =>
      if m.word == NotLocked then Grant(m, n).(word := NoAwaiting) else m
    case Load(n) =>
      m.(reg := m.reg[n := Loaded(m.word)])
    case CasAcquire(n, weak) =>
      if m.word == NotLocked && !weak then Grant(m, n).(word := NoAwaiting)
      else m.(reg := m.reg[n := Loaded(m.word)])
    case Store(n) =>
      var seen := m.reg[n].seen;
      m.(next := m.next[n := PtrOf(seen)], reg := m.reg[n := Stored(seen)])
    case CasPush(n, weak) =>
      if m.word == m.reg[n].seen && !weak
      then m.(word := Top(n), reg := m.reg[n := Queued], pushed := m.pushed + [n])
      else m.(reg := m.reg[n := Loaded(m.word)])
    case BeginUnlock(n) =>
      m.(act := m.act[n := if m.toResume == Null then Releasing else Taking(m.toResume)])
    case CasRelease(n) =>
      if m.word == NoAwaiting then m.(word := NotLocked, act := m.act[n := Idle])
      else m.(act := m.act[n := Draining])
    case Exchange(n) =>
      m.(word := NoAwaiting, act := m.act[n := Reversing(PtrOf(m.word), Null)])
    case ReverseOne(n) =>
      var Reversing(node, head) := m.act[n];
      var after := NextOf(m.next, node);
      var next' := if node.At? && node.id < |m.next| then m.next[node.id := head] else m.next;
      m.(next := next',
         act := m.act[n := if after == Null then Taking(node) else Reversing(after, node)])
    case Take(n) =>
      var head := m.act[n].head;
      m.(toResume := NextOf(m.next, head),
         act := m.act[n := if head.At? then Spawning(head.id) else Idle])
    case Spawn(n) =>
      var chosen := m.act[n].chosen;
      Grant(m.(act := m.act[n := Idle]), chosen).(granted := m.granted + [chosen])
  }

  /** The assertions of lines 23, 38 and 51, at the step that evaluates each. */
  predicate AssertionHolds(m: State, s: Step)
    requires Shape(m) && Enabled(m, s)
  {
    match s
    case BeginUnlock(_) => m.word != NotLocked
    case Exchange(_) => m.word != NotLocked && m.word != NoAwaiting
    case ReverseOne(n) => m.act[n].node != Null
    case Take(n) => m.act[n].head != Null
    case _ => true
  }

  /**
    The lists behind the pointers: `stack` behind the word (newest first), `rest`
    and `done` behind the two pointers of the reversal, `resume` behind `toResume`.
   */
  datatype View = View(owner: Option<Id>, stack: seq<Id>, rest: seq<Id>, done: seq<Id>, resume: seq<Id>) {
    predicate Has(n: Id) {
      n in stack || n in rest || n in done || n in resume
    }

    /** No awaiter is in two places, nor twice in one. */
    ghost predicate Apart() {
      && Distinct(stack) && Distinct(rest) && Distinct(done) && Distinct(resume)
      && (forall n :: n in stack ==> n !in rest && n !in done && n !in resume)
      && (forall n :: n in rest ==> n !in done && n !in resume)
      && (forall n :: n in done ==> n !in resume)
    }
  }

  const INIT_VIEW := View(None, [], [], [], [])

  function Queue(v: View): seq<Id> {
    Reverse(v.rest) + v.done + v.resume + Reverse(v.stack)
  }

  function Abs(v: View): FL.Lock {
    FL.Lock(v.owner, Queue(v))
  }

  /** The holder's program counter against the lists it works on. */
  ghost predicate ActInv(m: State, v: View, a: Act) {
    match a
    case Idle => false
    case Holding => v.rest == [] && v.done == [] && Linked(m.next, m.toResume, v.resume)
    case Releasing => v.rest == [] && v.done == [] && v.resume == [] && m.toResume == Null
    case Draining =>
      v.rest == [] && v.done == [] && v.resume == [] && m.toResume == Null && m.word.Top?
    case Reversing(node, head) =>
      && v.rest != [] && v.resume == [] && m.toResume == Null
      && Linked(m.next, node, v.rest) && Linked(m.next, head, v.done)
    case Taking(head) =>
      v.rest == [] && v.done != [] && v.resume == [] && Linked(m.next, head, v.done)
    case Spawning(chosen) =>
      v.rest == [] && v.done == [chosen] && Linked(m.next, m.toResume, v.resume)
  }

  /** Exactly the owner has lock code to run, and its lists are what its position says. */
  ghost predicate OwnerInv(m: State, v: View) {
    && (v.owner.Some? ==> v.owner.value < |m.act|)
    && (forall n :: 0 <= n < |m.act| ==> (m.act[n] != Idle <==> v.owner == Some(n)))
    && (m.word == NotLocked <==> v.owner == None)
    && (v.owner.None? ==> v == INIT_VIEW && m.toResume == Null)
    && (v.owner.Some? ==> ActInv(m, v, m.act[v.owner.value]))
  }

  ghost predicate NodeInv(m: State, v: View) {
    && Linked(m.next, PtrOf(m.word), v.stack)
    && v.Apart()
    && (forall n: Id :: v.Has(n) ==> n < |m.reg|)
    && (forall n :: 0 <= n < |m.reg| ==> (m.reg[n] == Queued <==> v.Has(n)))
  }

  /** A `next` field written for the push CAS still holds the word it was written for. */
  ghost predicate StoredInv(m: State)
    requires Shape(m)
  {
    forall n :: 0 <= n < |m.reg| && m.reg[n].Stored? ==>
      m.reg[n].seen != NotLocked && m.next[n] == PtrOf(m.reg[n].seen)
  }

  ghost predicate Inv(m: State, v: View) {
    && Shape(m)
    && OwnerInv(m, v)
    && NodeInv(m, v)
    && StoredInv(m)
    && m.pushed == m.granted + Queue(v)
  }

  function NextView(m: State, v: View, s: Step): View
    requires Shape(m) && Enabled(m, s)
  {
    match s
    case TryLock(n) => if m.word == NotLocked then v.(owner := Some(n)) else v
    case CasAcquire(n, weak) => if m.word == NotLocked && !weak then v.(owner := Some(n)) else v
    case CasPush(n, weak) =>
      if m.word == m.reg[n].seen && !weak then v.(stack := [n] + v.stack) else v
    case BeginUnlock(n) => if m.toResume == Null then v else v.(done := v.resume, resume := [])
    case CasRelease(n) => if m.word == NoAwaiting then v.(owner := None) else v
    case Exchange(n) => v.(rest := v.stack, stack := [])
    case ReverseOne(n) =>
      if v.rest == [] then v else v.(rest := v.rest[1..], done := [v.rest[0]] + v.done)
    case Take(n) => if v.done == [] then v else v.(done := v.done[..1], resume := v.done[1..])
    case Spawn(n) => v.(owner := Some(m.act[n].chosen), done := [])
    case _ => v
  }

  /** The lock operation, if any, that a step performs as seen from outside. */
  function EventOf(m: State, s: Step): FL.Event
    requires Shape(m) && Enabled(m, s)
  {
    match s
    case TryLock(n) => if m.word == NotLocked then FL.Registered(n) else FL.Stutter
    case CasAcquire(n, weak) => if m.word == NotLocked && !weak then FL.Registered(n) else FL.Stutter
    case CasPush(n, weak) => if m.word == m.reg[n].seen && !weak then FL.Registered(n) else FL.Stutter
    case CasRelease(n) => if m.word == NoAwaiting then FL.Unlocked(n) else FL.Stutter
    case Spawn(n) => FL.Unlocked(n)
    case _ => FL.Stutter
  }

  lemma InitInv(count: nat)
    ensures Inv(Init(count), INIT_VIEW)
  {
  }

  lemma StepInv(m: State, v: View, s: Step)
    requires Inv(m, v) && Enabled(m, s)
    ensures Inv(Apply(m, s), NextView(m, v, s))
    ensures FL.Effect(Abs(v), EventOf(m, s), Abs(NextView(m, v, s)))
    ensures AssertionHolds(m, s)
  {
    match s
    case TryLock(n) => if m.word == NotLocked { AcquireInv(m, v, n); }
    case Load(n) => ReloadInv(m, v, n);
    case CasAcquire(n, weak) =>
      if m.word == NotLocked && !weak { AcquireInv(m, v, n); } else { ReloadInv(m, v, n); }
    case Store(n) => StoreInv(m, v, n);
    case CasPush(n, weak) =>
      if m.word == m.reg[n].seen && !weak { PushInv(m, v, n); } else { ReloadInv(m, v, n); }
    case BeginUnlock(n) => UnlockInv(m, v, n);
    case CasRelease(n) => ReleaseInv(m, v, n);
    case Exchange(n) => ExchangeInv(m, v, n);
    case ReverseOne(n) => ReverseInv(m, v, n);
    case Take(n) => TakeInv(m, v, n);
    case Spawn(n) => SpawnInv(m, v, n);
  }

  lemma AcquireInv(m: State, v: View, n: Id)
    requires Inv(m, v) && n < |m.act| && m.reg[n] != Queued && m.word == NotLocked
    ensures Inv(Grant(m, n).(word := NoAwaiting), v.(owner := Some(n)))
  {
    assert v == INIT_VIEW && m.toResume == Null;
  }

  lemma {:induction false} ReloadInv(m: State, v: View, n: Id)
    requires Inv(m, v) && n < |m.act| && m.reg[n] != Queued
    ensures Inv(m.(reg := m.reg[n := Loaded(m.word)]), v)
  {
  }

  lemma ReleaseInv(m: State, v: View, n: Id)
    requires Inv(m, v) && Enabled(m, CasRelease(n))
    ensures Inv(Apply(m, CasRelease(n)), NextView(m, v, CasRelease(n)))
    ensures v.owner == Some(n)
    ensures m.word == NoAwaiting ==> Queue(v) == []
  {
    assert v.owner == Some(n) && v.rest == [] && v.done == [] && v.resume == [];
    if m.word == NoAwaiting {
      ReleaseFree(m, v, n);
    }
  }

  lemma {:induction false} ReleaseFree(m: State, v: View, n: Id)
    requires Inv(m, v) && Enabled(m, CasRelease(n)) && m.word == NoAwaiting && v.owner == Some(n)
    requires v.rest == [] && v.done == [] && v.resume == []
    ensures Inv(Apply(m, CasRelease(n)), NextView(m, v, CasRelease(n))) && Queue(v) == []
  {
    assert v.stack == [];
    assert Queue(v) == [];
  }

  lemma QueuePush(v: View, n: Id)
    ensures Queue(v.(stack := [n] + v.stack)) == Queue(v) + [n]
  {
    ReverseCons(n, v.stack);
  }

  lemma QueueUnlock(v: View)
    requires v.rest == [] && v.done == []
    ensures Queue(v.(done := v.resume, resume := [])) == Queue(v)
  {
  }

  lemma QueueReverse(v: View)
    requires v.rest != []
    ensures Queue(v.(rest := v.rest[1..], done := [v.rest[0]] + v.done)) == Queue(v)
  {
    assert v.rest == [v.rest[0]] + v.rest[1..];
    ReverseCons(v.rest[0], v.rest[1..]);
    var a, x := Reverse(v.rest[1..]), v.rest[0];
    assert a + [x] + v.done == a + ([x] + v.done);
  }

  lemma QueueTake(v: View)
    requires v.rest == [] && v.done != [] && v.resume == []
    ensures Queue(v.(done := v.done[..1], resume := v.done[1..])) == Queue(v)
  {
    assert v.done == v.done[..1] + v.done[1..];
  }

  lemma QueueSpawn(v: View)
    requires v.rest == [] && |v.done| == 1
    ensures Queue(v) == [v.done[0]] + Queue(v.(done := []))
    ensures |Queue(v)| > 0 && Queue(v)[0] == v.done[0] && Queue(v)[1..] == Queue(v.(done := []))
  {
  }

  lemma ApartPush(v: View, n: Id)
    requires v.Apart() && !v.Has(n)
    ensures v.(stack := [n] + v.stack).Apart()
    ensures forall k: Id :: v.(stack := [n] + v.stack).Has(k) <==> v.Has(k) || k == n
  {
    DistinctCons(n, v.stack);
  }

  lemma ApartReverse(v: View)
    requires v.Apart() && v.rest != []
    ensures v.(rest := v.rest[1..], done := [v.rest[0]] + v.done).Apart()
    ensures forall k: Id :: v.(rest := v.rest[1..], done := [v.rest[0]] + v.done).Has(k) <==> v.Has(k)
    ensures v.rest[0] !in v.rest[1..]
  {
    DistinctTail(v.rest);
    DistinctCons(v.rest[0], v.done);
  }

  lemma ApartTake(v: View)
    requires v.Apart() && v.done != [] && v.resume == []
    ensures v.(done := v.done[..1], resume := v.done[1..]).Apart()
    ensures forall k: Id :: v.(done := v.done[..1], resume := v.done[1..]).Has(k) <==> v.Has(k)
  {
    DistinctTail(v.done);
  }

  lemma ApartSpawn(v: View)
    requires v.Apart() && |v.done| == 1
    ensures v.(done := []).Apart()
    ensures v.Has(v.done[0])
    ensures forall k: Id :: v.(done := []).Has(k) <==> v.Has(k) && k != v.done[0]
  {
  }

  lemma StoreInv(m: State, v: View, n: Id)
    requires Inv(m, v) && Enabled(m, Store(n))
    ensures Inv(Apply(m, Store(n)), v)
  {
    var q := PtrOf(m.reg[n].seen);
    assert !v.Has(n);
    Frame(m.next, PtrOf(m.word), v.stack, n, q);
    Frame(m.next, m.toResume, v.resume, n, q);
    if v.owner.Some? {
      var a := m.act[v.owner.value];
      if a.Reversing? { Frame(m.next, a.node, v.rest, n, q); }
      if a.Reversing? || a.Taking? { Frame(m.next, a.head, v.done, n, q); }
    }
  }

  lemma Frame(next: seq<Ptr>, p: Ptr, s: seq<Id>, n: Id, q: Ptr)
    requires n !in s && n < |next|
    ensures Linked(next, p, s) ==> Linked(next[n := q], p, s)
  {
    if Linked(next, p, s) { LinkedFrame(next, p, s, n, q); }
  }

  lemma PushInv(m: State, v: View, n: Id)
    requires Inv(m, v) && Enabled(m, CasPush(n, false)) && m.word == m.reg[n].seen
    ensures Inv(Apply(m, CasPush(n, false)), v.(stack := [n] + v.stack))
    ensures Abs(v.(stack := [n] + v.stack)) == FL.Register(Abs(v), n)
  {
    var v' := v.(stack := [n] + v.stack);
    QueuePush(v, n);
    ApartPush(v, n);
    LinkedCons(m.next, PtrOf(m.word), v.stack, n);
    assert m.next[n := PtrOf(m.word)] == m.next;
  }

  lemma UnlockInv(m: State, v: View, n: Id)
    requires Inv(m, v) && Enabled(m, BeginUnlock(n))
    ensures Inv(Apply(m, BeginUnlock(n)), NextView(m, v, BeginUnlock(n)))
    ensures Abs(NextView(m, v, BeginUnlock(n))) == Abs(v)
  {
    assert v.owner == Some(n);
    QueueUnlock(v);
  }

  lemma ExchangeInv(m: State, v: View, n: Id)
    requires Inv(m, v) && Enabled(m, Exchange(n))
    ensures Inv(Apply(m, Exchange(n)), NextView(m, v, Exchange(n)))
    ensures Abs(NextView(m, v, Exchange(n))) == Abs(v)
  {
    assert v.owner == Some(n);
    assert Queue(NextView(m, v, Exchange(n))) == Queue(v);
  }

  lemma ReverseInv(m: State, v: View, n: Id)
    requires Inv(m, v) && Enabled(m, ReverseOne(n))
    ensures Inv(Apply(m, ReverseOne(n)), NextView(m, v, ReverseOne(n)))
    ensures Abs(NextView(m, v, ReverseOne(n))) == Abs(v)
    ensures m.act[n].node != Null
  {
    var v' := NextView(m, v, ReverseOne(n));
    assert v.owner == Some(n);
    var Reversing(node, head) := m.act[n];
    var x := v.rest[0];
    LinkedTail(m.next, node, v.rest);
    LinkedFrame(m.next, NextOf(m.next, node), v.rest[1..], x, head);
    LinkedCons(m.next, head, v.done, x);
    LinkedFrame(m.next, PtrOf(m.word), v.stack, x, head);
    QueueReverse(v);
    ApartReverse(v);
  }

  lemma TakeInv(m: State, v: View, n: Id)
    requires Inv(m, v) && Enabled(m, Take(n))
    ensures Inv(Apply(m, Take(n)), NextView(m, v, Take(n)))
    ensures Abs(NextView(m, v, Take(n))) == Abs(v)
    ensures m.act[n].head != Null
  {
    var v' := NextView(m, v, Take(n));
    assert v.owner == Some(n);
    LinkedTail(m.next, m.act[n].head, v.done);
    QueueTake(v);
    ApartTake(v);
  }

  lemma SpawnNodeInv(m: State, v: View, n: Id)
    requires Inv(m, v) && Enabled(m, Spawn(n))
    ensures NodeInv(Apply(m, Spawn(n)), NextView(m, v, Spawn(n)))
    ensures StoredInv(Apply(m, Spawn(n)))
  {
    assert v.owner == Some(n);
    ApartSpawn(v);
  }

  lemma SpawnInv(m: State, v: View, n: Id)
    requires Inv(m, v) && Enabled(m, Spawn(n))
    ensures Inv(Apply(m, Spawn(n)), NextView(m, v, Spawn(n)))
    ensures Abs(NextView(m, v, Spawn(n))) == FL.Unlock(Abs(v))
    ensures v.owner == Some(n)
  {
    assert v.owner == Some(n);
    SpawnNodeInv(m, v, n);
    SpawnQueue(v, m.act[n].chosen, m.granted);
  }

  lemma SpawnQueue(v: View, h: Id, granted: seq<Id>)
    requires v.rest == [] && v.done == [h] && v.owner.Some?
    ensures v.Has(h)
    ensures Abs(v.(owner := Some(h), done := [])) == FL.Unlock(Abs(v))
    ensures granted + Queue(v) == granted + [h] + Queue(v.(owner := Some(h), done := []))
  {
    QueueSpawn(v);
    assert Queue(v.(owner := Some(h), done := [])) == Queue(v.(done := []));
  }

  /** The lock l is what the mutex m looks like from outside. */
  ghost predicate Matches(m: State, l: FL.Lock) {
    && Shape(m)
    && l.Valid()
    && (forall n :: 0 <= n < |m.act| ==> (m.act[n] != Idle <==> l.owner == Some(n)))
    && (m.word == NotLocked <==> l.owner == None)
    && (forall n :: 0 <= n < |m.reg| ==> (m.reg[n] == Queued <==> n in l.queue))
    && m.pushed == m.granted + l.queue
  }

  lemma InvMatches(m: State, v: View)
    requires Inv(m, v)
    ensures Matches(m, Abs(v))
  {
    ReverseMembers(v.rest);
    ReverseMembers(v.stack);
    ReverseDistinct(v.rest);
    ReverseDistinct(v.stack);
    DistinctConcat(Reverse(v.rest), v.done);
    DistinctConcat(Reverse(v.rest) + v.done, v.resume);
    DistinctConcat(Reverse(v.rest) + v.done + v.resume, Reverse(v.stack));
    forall n: Id ensures n in Queue(v) <==> v.Has(n) {}
  }

  /** A finite run: r[i + 1] follows from r[i] by steps[i], in whatever order the threads are scheduled. */
  ghost predicate Run(r: seq<State>, steps: seq<Step>, count: nat) {
    && |r| == |steps| + 1
    && r[0] == Init(count)
    && forall i :: 0 <= i < |steps| ==>
         Shape(r[i]) && Enabled(r[i], steps[i]) && r[i + 1] == Apply(r[i], steps[i])
  }

  ghost function ViewAt(r: seq<State>, steps: seq<Step>, count: nat, i: nat): View
    requires Run(r, steps, count) && i < |r|
  {
    if i == 0 then INIT_VIEW
    else NextView(r[i - 1], ViewAt(r, steps, count, i - 1), steps[i - 1])
  }

  lemma {:induction false} RunInv(r: seq<State>, steps: seq<Step>, count: nat, i: nat)
    requires Run(r, steps, count) && i < |r|
    ensures Inv(r[i], ViewAt(r, steps, count, i))
  {
    if i == 0 {
      InitInv(count);
    } else {
      RunInv(r, steps, count, i - 1);
      StepInv(r[i - 1], ViewAt(r, steps, count, i - 1), steps[i - 1]);
    }
  }

  /**
    Every run of the mutex is, step by step, a run of the FIFO lock: at most one
    coroutine is past the lock, the word is unlocked only when nobody waits, waiters
    are granted in push order, and no assertion of the code can fail.
   */
  lemma RefinesFifoLock(r: seq<State>, steps: seq<Step>, count: nat) returns (locks: seq<FL.Lock>)
    requires Run(r, steps, count)
    ensures |locks| == |r| && locks[0] == FL.FREE
    ensures forall i :: 0 <= i < |r| ==> Matches(r[i], locks[i])
    ensures forall i :: 0 <= i < |steps| ==> FL.Effect(locks[i], EventOf(r[i], steps[i]), locks[i + 1])
    ensures forall i :: 0 <= i < |steps| ==> AssertionHolds(r[i], steps[i])
  {
    locks := seq(|r|, i requires 0 <= i < |r| => Abs(ViewAt(r, steps, count, i)));
    forall i | 0 <= i < |r| ensures Matches(r[i], locks[i]) {
      RunInv(r, steps, count, i);
      InvMatches(r[i], ViewAt(r, steps, count, i));
    }
    forall i | 0 <= i < |steps|
      ensures FL.Effect(locks[i], EventOf(r[i], steps[i]), locks[i + 1]) && AssertionHolds(r[i], steps[i])
    {
      RunInv(r, steps, count, i);
      StepInv(r[i], ViewAt(r, steps, count, i), steps[i]);
    }
  }

  // ----- what the calls do when they are not disturbed

  lemma Extend(r: seq<State>, steps: seq<Step>, count: nat, s: Step) returns (r': seq<State>, steps': seq<Step>)
    requires Run(r, steps, count) && Shape(r[|steps|]) && Enabled(r[|steps|], s)
    ensures Run(r', steps', count) && steps' == steps + [s] && r' == r + [Apply(r[|steps|], s)]
  {
    r', steps' := r + [Apply(r[|steps|], s)], steps + [s];
  }

  /** A free mutex can be locked, by try_lock or by awaiting lock(). */
  lemma CanLock(r: seq<State>, steps: seq<Step>, count: nat, n: Id, tries: bool)
    returns (r': seq<State>, steps': seq<Step>)
    requires Run(r, steps, count)
    requires var m := r[|steps|]; Shape(m) && n < |m.act| && m.reg[n] == Off && m.word == NotLocked
    ensures Run(r', steps', count) && r <= r'
    ensures steps' == steps + if tries then [TryLock(n)] else [Load(n), CasAcquire(n, false)]
    ensures var m := r[|steps|];
      && |m.act| == |m.reg|
      && r'[|steps'|] == m.(word := NoAwaiting, act := m.act[n := Holding])
  {
    var m := r[|steps|];
    if tries {
      r', steps' := Extend(r, steps, count, TryLock(n));
    } else {
      r', steps' := Extend(r, steps, count, Load(n));
      r', steps' := Extend(r', steps', count, CasAcquire(n, false));
    }
    assert r'[|steps'|].reg == m.reg;
  }

  /** One that is taken can be queued for, last. */
  lemma CanQueue(r: seq<State>, steps: seq<Step>, count: nat, n: Id)
    returns (r': seq<State>, steps': seq<Step>)
    requires Run(r, steps, count)
    requires var m := r[|steps|]; Shape(m) && n < |m.act| && m.reg[n] == Off && m.word != NotLocked
    ensures Run(r', steps', count) && r <= r' && steps' == steps + [Load(n), Store(n), CasPush(n, false)]
    ensures var m := r[|steps|];
      && |m.act| == |m.reg| == |m.next|
      && r'[|steps'|] == m.(word := Top(n), next := m.next[n := PtrOf(m.word)], reg := m.reg[n := Queued],
                            pushed := m.pushed + [n])
  {
    var m := r[|steps|];
    r', steps' := Extend(r, steps, count, Load(n));
    r', steps' := Extend(r', steps', count, Store(n));
    assert r'[|steps'|].reg == m.reg[n := Stored(m.word)];
    r', steps' := Extend(r', steps', count, CasPush(n, false));
    assert r'[|steps'|].reg == m.reg[n := Queued];
  }

  /** n has been granted the lock, or waits for it in its queue. */
  predicate Registered(m: State, n: Id) {
    n < |m.reg| == |m.act| && ((m.reg[n] == Off && m.act[n] == Holding) || m.reg[n] == Queued)
  }

  /** With the current word in hand, register_awaiting succeeds when it is not disturbed. */
  lemma CanRegister(r: seq<State>, steps: seq<Step>, count: nat, n: Id)
    returns (r': seq<State>, steps': seq<Step>)
    requires Run(r, steps, count)
    requires var m := r[|steps|]; Shape(m) && n < |m.act| && m.reg[n] == Loaded(m.word)
    ensures Run(r', steps', count) && r <= r' && Registered(r'[|steps'|], n)
  {
    var m := r[|steps|];
    if m.word == NotLocked {
      r', steps' := Extend(r, steps, count, CasAcquire(n, false));
    } else {
      r', steps' := Extend(r, steps, count, Store(n));
      r', steps' := Extend(r', steps', count, CasPush(n, false));
    }
  }

  /** With a word that is out of date it has to try once more. */
  lemma CanRetry(r: seq<State>, steps: seq<Step>, count: nat, n: Id)
    returns (r': seq<State>, steps': seq<Step>)
    requires Run(r, steps, count)
    requires var m := r[|steps|]; Shape(m) && n < |m.act| && (m.reg[n].Loaded? || m.reg[n].Stored?)
    ensures Run(r', steps', count) && r <= r' && Registered(r'[|steps'|], n)
  {
    r', steps' := r, steps;
    var m := r[|steps|];
    if m.reg[n].Loaded? && m.reg[n].seen != NotLocked {
      r', steps' := Extend(r, steps, count, Store(n));
    }
    r', steps' := Extend(r', steps', count, if m.reg[n] == Loaded(NotLocked) then CasAcquire(n, false) else CasPush(n, false));
    if !Registered(r'[|steps'|], n) {
      r', steps' := CanRegister(r', steps', count, n);
    }
  }

  /** The next step of an unlock. */
  function NextOfUnlock(m: State, n: Id): Step
    requires Shape(m) && n < |m.act|
  {
    match m.act[n]
    case Idle => BeginUnlock(n)
    case Holding => BeginUnlock(n)
    case Releasing => CasRelease(n)
    case Draining => Exchange(n)
    case Reversing(_, _) => ReverseOne(n)
    case Taking(_) => Take(n)
    case Spawning(_) => Spawn(n)
  }

  /** How many steps an unlock has to go. */
  function ToGo(a: Act, v: View): nat {
    match a
    case Idle => 0
    case Spawning(_) => 1
    case Taking(_) => 2
    case Reversing(_, _) => 2 + |v.rest|
    case Draining => 3 + |v.stack|
    case Releasing => 4 + |v.stack|
    case Holding => 5 + |v.stack|
  }

  lemma UnlockProceeds(m: State, v: View, n: Id)
    requires Inv(m, v) && n < |m.act| && m.act[n] != Idle && m.reg[n] == Off
    ensures Enabled(m, NextOfUnlock(m, n))
    ensures var m', v' := Apply(m, NextOfUnlock(m, n)), NextView(m, v, NextOfUnlock(m, n));
      && ToGo(m'.act[n], v') < ToGo(m.act[n], v) && m'.reg[n] == Off
      && EventOf(m, NextOfUnlock(m, n)) == (if m'.act[n] == Idle then FL.Unlocked(n) else FL.Stutter)
  {
    if m.act[n].Spawning? { OwnGrant(m, v, n); }
  }

  lemma OwnGrant(m: State, v: View, n: Id)
    requires Inv(m, v) && n < |m.act| && m.act[n].Spawning?
    ensures m.act[n].chosen < |m.act| && m.reg[m.act[n].chosen] == Queued
  {
    assert v.Has(m.act[n].chosen);
  }

  lemma Finishes(
      r: seq<State>, steps: seq<Step>, count: nat, n: Id, v: View) returns (r': seq<State>, steps': seq<Step>, v': View)
    requires Run(r, steps, count) && Inv(r[|steps|], v) && n < |r[|steps|].act| && r[|steps|].act[n] != Idle
    requires r[|steps|].reg[n] == Off
    ensures Run(r', steps', count) && r <= r' && Inv(r'[|steps'|], v') && Abs(v') == FL.Unlock(Abs(v))
    ensures |r'[|steps'|].act| == |r[|steps|].act| && r'[|steps'|].act[n] == Idle && r'[|steps'|].reg[n] == Off
    decreases ToGo(r[|steps|].act[n], v)
  {
    var m := r[|steps|];
    var s := NextOfUnlock(m, n);
    UnlockProceeds(m, v, n);
    StepInv(m, v, s);
    r', steps' := Extend(r, steps, count, s);
    v' := NextView(m, v, s);
    if r'[|steps'|].act[n] != Idle {
      r', steps', v' := Finishes(r', steps', count, n, v');
    }
  }

  /**
    unlock() by the owner comes to its end, and leaves the lock with the oldest waiter, or
    free if nobody waits.
   */
  lemma CanUnlock(r: seq<State>, steps: seq<Step>, count: nat, n: Id, l: FL.Lock)
    returns (r': seq<State>, steps': seq<Step>)
    requires Run(r, steps, count) && Matches(r[|steps|], l) && l.owner == Some(n)
    requires n < |r[|steps|].act| && r[|steps|].reg[n] == Off
    ensures Run(r', steps', count) && r <= r' && Matches(r'[|steps'|], FL.Unlock(l))
    ensures n < |r'[|steps'|].act| && r'[|steps'|].act[n] == Idle
  {
    var m, v := r[|steps|], ViewAt(r, steps, count, |steps|);
    RunInv(r, steps, count, |steps|);
    OneLock(m, v, l);
    var v';
    r', steps', v' := Finishes(r, steps, count, n, v);
    InvMatches(r'[|steps'|], v');
  }

  /** There is one lock that a state looks like. */
  lemma OneLock(m: State, v: View, l: FL.Lock)
    requires Inv(m, v) && Matches(m, l)
    ensures l == Abs(v)
  {
    InvMatches(m, v);
    assert m.pushed[|m.granted|..] == l.queue == Queue(v);
    if l.owner.Some? { assert l.owner.value < |m.act| || m.word != NotLocked; }
  }
}
