/**
  `counting_semaphore` (lib/co_context/co/semaphore.cpp:21-97 and
  include/co_context/co/semaphore.hpp:21-90), one step per atomic operation.

  The counter is taken down before the waiter is in any list, so a waiter can be in
  transit: decremented, not yet pushed.  `notifier_mtx` serialises the releasers that
  look for a waiter; `awaiting` is the lock-free stack, `toResume` belongs to the holder.
 */
module Semaphore {
  import opened Lists

  datatype Pc =
    | Idle
    | Trying(seen: int)               // try_acquire: loaded the counter
    | Transit                         // await_ready found no permit
    | Pushing(top: Ptr)               // await_suspend: `next` holds the loaded head
    | Parked
    | Woken                           // co_spawn has been called for it
    | Owes(k: nat)                    // release: k waiters to wake, about to lock
    | Waking(k: nat)                  // inside notifier_mtx
    | NullDeref(k: nat)               // try_release returned null and it was used

  datatype State = State(
    counter: int,
    awaiting: seq<Id>,                // newest first
    toResume: seq<Id>,                // oldest first
    locked: Option<Id>,
    pc: seq<Pc>,
    permits: int,                     // history: initial count plus all releases
    passes: nat,                      // history: acquisitions that went through
    pushed: seq<Id>, woken: seq<Id>)  // history

  function Init(desired: nat, count: nat): State {
    State(desired, [], [], None, seq(count, _ => Idle), desired, 0, [], [])
  }

  datatype Step =
    | LoadCounter(n: Id) | CasCounter(n: Id, spurious: bool)
    | Decrement(n: Id) | LoadHead(n: Id) | CasHead(n: Id, spurious: bool) | Resume(n: Id)
    | Release(n: Id, update: int) | Lock(n: Id) | WakeOne(n: Id)

  predicate Enabled(s: State, st: Step) {
    && st.n < |s.pc|
    && match st
       case LoadCounter(n) => s.pc[n].Idle?
       case CasCounter(n, _) => s.pc[n].Trying?
       case Decrement(n) => s.pc[n].Idle?
       case LoadHead(n) => s.pc[n].Transit?
       case CasHead(n, _) => s.pc[n].Pushing?
       case Resume(n) => s.pc[n].Woken?
       case Release(n, _) => s.pc[n].Idle?
       case Lock(n) => s.pc[n].Owes? && s.locked.None?
       case WakeOne(n) => s.pc[n].Waking?
  }

  function SetPc(s: State, n: Id, p: Pc): State
    requires n < |s.pc|
  {
    s.(pc := s.pc[n := p])
  }

  /** How often the do-while of lines 52-58 runs (release() is the case of update 1). */
  function Rounds(counter: int, update: int): nat
    requires counter < 0
  {
    var u := if counter > -update then counter else -update;
    if u < 0 then -u else 1
  }

  /** Lines 65-84: the waiter that try_release returns; the first block moves the stack over, oldest first. */
  function Refill(s: State): State {
    if s.toResume == [] then s.(toResume := Reverse(s.awaiting), awaiting := []) else s
  }

  function Apply(s: State, st: Step): State
    requires Enabled(s, st)
  {
    match st
    case LoadCounter(n) => if s.counter > 0 then SetPc(s, n, Trying(s.counter)) else s
    case CasCounter(n, _) =>
      if s.counter == s.pc[n].seen
      then SetPc(s, n, Idle).(counter := s.counter - 1, passes := s.passes + 1)
      else SetPc(s, n, Idle)
    case Decrement(n) =>
      if s.counter > 0 then s.(counter := s.counter - 1, passes := s.passes + 1)
      else SetPc(s, n, Transit).(counter := s.counter - 1)
    case LoadHead(n) => SetPc(s, n, Pushing(HeadOf(s.awaiting)))
    case CasHead(n, spurious) =>
      if spurious || s.pc[n].top != HeadOf(s.awaiting) then SetPc(s, n, Pushing(HeadOf(s.awaiting)))
      else SetPc(s, n, Parked).(awaiting := [n] + s.awaiting, pushed := s.pushed + [n])
    case Resume(n) => SetPc(s, n, Idle)
    case Release(n, update) =>
      var t := s.(counter := s.counter + update, permits := s.permits + update);
      if s.counter >= 0 then t else SetPc(t, n, Owes(Rounds(s.counter, update)))
    case Lock(n) => SetPc(s, n, Waking(s.pc[n].k)).(locked := Some(n))
    case WakeOne(n) =>
      var k, t := s.pc[n].k, Refill(s);
      if t.toResume == [] || t.toResume[0] >= |s.pc| then SetPc(t, n, NullDeref(k))
      else
        var w := t.toResume[0];
        var u := SetPc(t, w, Woken).(toResume := t.toResume[1..], woken := s.woken + [w], passes := s.passes + 1);
        if k > 1 then SetPc(u, n, Waking(k - 1)) else SetPc(u, n, Idle).(locked := None)
  }

  /** Everybody who is parked, oldest first. */
  function Queue(s: State): seq<Id> {
    s.toResume + Reverse(s.awaiting)
  }

  // ----- counting

  function IsTransit(p: Pc): nat {
    if p.Transit? || p.Pushing? then 1 else 0
  }

  function OwedBy(p: Pc): nat {
    if p.Owes? || p.Waking? || p.NullDeref? then p.k else 0
  }

  /** Acquirers between their decrement and their push. */
  function InTransit(pc: seq<Pc>): nat {
    if |pc| == 0 then 0 else IsTransit(pc[0]) + InTransit(pc[1..])
  }

  /** Wake-ups that releasers have promised and not yet made. */
  function Owed(pc: seq<Pc>): nat {
    if |pc| == 0 then 0 else OwedBy(pc[0]) + Owed(pc[1..])
  }

  lemma {:induction false} OneChanged(pc: seq<Pc>, n: nat, p: Pc)
    requires n < |pc|
    ensures InTransit(pc[n := p]) == InTransit(pc) - IsTransit(pc[n]) + IsTransit(p)
    ensures Owed(pc[n := p]) == Owed(pc) - OwedBy(pc[n]) + OwedBy(p)
  {
    if n == 0 {
      assert pc[n := p][1..] == pc[1..];
    } else {
      assert pc[n := p][1..] == pc[1..][n - 1 := p];
      OneChanged(pc[1..], n - 1, p);
    }
  }

  lemma {:induction false} SomeInTransit(pc: seq<Pc>)
    ensures InTransit(pc) > 0 <==> exists n :: 0 <= n < |pc| && IsTransit(pc[n]) == 1
  {
    if |pc| > 0 {
      SomeInTransit(pc[1..]);
      if InTransit(pc[1..]) > 0 {
        var n :| 0 <= n < |pc[1..]| && IsTransit(pc[1..][n]) == 1;
        assert IsTransit(pc[n + 1]) == 1;
      }
      forall n | 0 <= n < |pc| && IsTransit(pc[n]) == 1 ensures InTransit(pc) > 0 {
        if n > 0 { assert IsTransit(pc[1..][n - 1]) == 1; }
      }
    }
  }

  function Deficit(counter: int): nat {
    if counter < 0 then -counter else 0
  }

  function Surplus(counter: int): nat {
    if counter > 0 then counter else 0
  }

  predicate CountsOk(p: Pc) {
    (p.Trying? ==> p.seen > 0) && (p.Waking? || p.Owes? ==> p.k > 0)
  }

  ghost predicate QueueInv(s: State) {
    && Distinct(Queue(s))
    && (forall n :: n in Queue(s) ==> n < |s.pc|)
    && (forall n :: 0 <= n < |s.pc| ==> (s.pc[n].Parked? <==> n in Queue(s)))
    && (forall n :: 0 <= n < |s.pc| ==> (s.pc[n].Waking? || s.pc[n].NullDeref? <==> s.locked == Some(n)))
    && (forall n :: 0 <= n < |s.pc| ==> CountsOk(s.pc[n]))
    && s.pushed == s.woken + Queue(s)
  }

  /** The two conservation laws. */
  ghost predicate CountInv(s: State) {
    && Deficit(s.counter) + Owed(s.pc) == |Queue(s)| + InTransit(s.pc)
    && s.passes + Owed(s.pc) + Surplus(s.counter) == s.permits
  }

  ghost predicate Inv(s: State) {
    QueueInv(s) && CountInv(s)
  }

  lemma QueuePush(s: State, n: Id)
    ensures Queue(s.(awaiting := [n] + s.awaiting)) == Queue(s) + [n]
  {
    ReverseCons(n, s.awaiting);
    assert s.toResume + (Reverse(s.awaiting) + [n]) == Queue(s) + [n];
  }

  lemma QueueRefill(s: State)
    ensures Queue(Refill(s)) == Queue(s)
    ensures Refill(s).toResume == [] <==> Queue(s) == []
    ensures Queue(s) != [] ==> Refill(s).toResume[0] == Queue(s)[0]
    ensures Queue(s) != [] ==> Queue(Refill(s).(toResume := Refill(s).toResume[1..])) == Queue(s)[1..]
  {
    var t := Refill(s);
    assert Reverse<Id>([]) == [];
    if s.toResume == [] {
      assert [] + Reverse(s.awaiting) == Reverse(s.awaiting);
      assert Reverse(s.awaiting) + [] == Reverse(s.awaiting);
      if t.toResume != [] {
        assert t.toResume[1..] + [] == t.toResume[1..];
      }
    } else {
      assert (s.toResume + Reverse(s.awaiting))[1..] == s.toResume[1..] + Reverse(s.awaiting);
    }
  }

  lemma CountStep(s: State, st: Step)
    requires CountInv(s) && (forall n :: 0 <= n < |s.pc| ==> CountsOk(s.pc[n]))
    requires Enabled(s, st) && (st.Release? ==> st.update >= 1)
    requires !st.WakeOne?
    ensures CountInv(Apply(s, st))
  {
    var t := Apply(s, st);
    OneChanged(s.pc, st.n, t.pc[st.n]);
    assert t.pc == s.pc[st.n := t.pc[st.n]];
    assert |Queue(t)| == |s.toResume| + |t.awaiting|;
  }

  lemma PushQueues(s: State, n: Id)
    requires QueueInv(s) && n < |s.pc| && s.pc[n].Pushing?
    ensures QueueInv(SetPc(s, n, Parked).(awaiting := [n] + s.awaiting, pushed := s.pushed + [n]))
  {
    QueuePush(s, n);
    DistinctConcat(Queue(s), [n]);
    assert s.woken + (Queue(s) + [n]) == s.pushed + [n];
  }

  lemma QueueStep(s: State, st: Step)
    requires QueueInv(s) && Enabled(s, st) && !st.WakeOne?
    ensures QueueInv(Apply(s, st))
  {
    var t := Apply(s, st);
    if st.CasHead? && t.pc[st.n].Parked? {
      PushQueues(s, st.n);
    } else {
      SameQueue(s, st);
    }
  }

  lemma SameQueue(s: State, st: Step)
    requires QueueInv(s) && Enabled(s, st) && !st.WakeOne? && !Apply(s, st).pc[st.n].Parked?
    ensures QueueInv(Apply(s, st))
  {
    assert Queue(Apply(s, st)) == Queue(s);
  }

  /** The state after the oldest waiter w has been taken out and spawned. */
  function Woke(s: State, n: Id, w: Id): State
    requires n < |s.pc| && s.pc[n].Waking? && w < |s.pc|
  {
    var t := s.(pc := s.pc[w := Woken], toResume := Refill(s).toResume, awaiting := Refill(s).awaiting);
    var u := t.(toResume := if t.toResume == [] then [] else t.toResume[1..], woken := s.woken + [w], passes := s.passes + 1);
    if s.pc[n].k > 1 then SetPc(u, n, Waking(s.pc[n].k - 1)) else SetPc(u, n, Idle).(locked := None)
  }

  lemma WakeOneCases(s: State, n: Id)
    requires Inv(s) && Enabled(s, WakeOne(n))
    ensures Queue(s) == [] ==> Apply(s, WakeOne(n)) == SetPc(Refill(s), n, NullDeref(s.pc[n].k))
    ensures Queue(s) != [] ==>
      && Queue(s)[0] < |s.pc| && Apply(s, WakeOne(n)) == Woke(s, n, Queue(s)[0])
      && Queue(Apply(s, WakeOne(n))) == Queue(s)[1..]
  {
    QueueRefill(s);
    if Queue(s) != [] {
      assert Queue(s)[0] in Queue(s);
    }
  }

  lemma WakeOneStep(s: State, n: Id)
    requires Inv(s) && Enabled(s, WakeOne(n))
    ensures Inv(Apply(s, WakeOne(n)))
  {
    WakeOneCases(s, n);
    QueueRefill(s);
    var t := Apply(s, WakeOne(n));
    if Queue(s) == [] {
      OneChanged(s.pc, n, t.pc[n]);
    } else {
      WakeCount(s, n, Queue(s)[0]);
      WakeQueue(s, n);
    }
  }

  lemma WakeCount(s: State, n: Id, w: Id)
    requires Enabled(s, WakeOne(n)) && w < |s.pc| && s.pc[w].Parked? && s.pc[n].k > 0
    ensures InTransit(Woke(s, n, w).pc) == InTransit(s.pc) && Owed(Woke(s, n, w).pc) == Owed(s.pc) - 1
  {
    OneChanged(s.pc, w, Woken);
    OneChanged(s.pc[w := Woken], n, Woke(s, n, w).pc[n]);
  }

  lemma WakeQueue(s: State, n: Id)
    requires QueueInv(s) && Enabled(s, WakeOne(n)) && Queue(s) != [] && Queue(s)[0] < |s.pc|
    requires Queue(Woke(s, n, Queue(s)[0])) == Queue(s)[1..]
    ensures QueueInv(Woke(s, n, Queue(s)[0]))
  {
    var q := Queue(s);
    DistinctTail(q);
    assert s.woken + q == (s.woken + [q[0]]) + q[1..];
  }

  lemma StepInv(s: State, st: Step)
    requires Inv(s) && Enabled(s, st) && (st.Release? ==> st.update >= 1)
    ensures Inv(Apply(s, st)) && |Apply(s, st).pc| == |s.pc|
  {
    if st.WakeOne? {
      WakeOneStep(s, st.n);
    } else {
      CountStep(s, st);
      QueueStep(s, st);
    }
  }

  // ----- runs

  ghost predicate Run(r: seq<State>, steps: seq<Step>, desired: nat, count: nat) {
    && |r| == |steps| + 1 && r[0] == Init(desired, count)
    && forall i {:trigger steps[i]} :: 0 <= i < |steps| ==> Enabled(r[i], steps[i]) && r[i + 1] == Apply(r[i], steps[i])
  }

  /** What release(update) is meant for: the code takes any update. */
  ghost predicate Positive(steps: seq<Step>) {
    forall i {:trigger steps[i]} :: 0 <= i < |steps| && steps[i].Release? ==> steps[i].update >= 1
  }

  lemma {:induction false} InitCounts(count: nat)
    ensures InTransit(seq(count, _ => Idle)) == 0 && Owed(seq(count, _ => Idle)) == 0
  {
    if count > 0 {
      assert seq<Pc>(count, _ => Idle)[1..] == seq<Pc>(count - 1, _ => Idle);
      InitCounts(count - 1);
    }
  }

  lemma InitInv(desired: nat, count: nat)
    ensures Inv(Init(desired, count))
  {
    InitCounts(count);
    assert Queue(Init(desired, count)) == [];
  }

  lemma {:induction false} RunInv(r: seq<State>, steps: seq<Step>, desired: nat, count: nat, i: nat)
    requires Run(r, steps, desired, count) && Positive(steps) && i < |r|
    ensures Inv(r[i]) && |r[i].pc| == count
  {
    if i == 0 {
      InitInv(desired, count);
    } else {
      RunInv(r, steps, desired, count, i - 1);
      var s, st := r[i - 1], steps[i - 1];
      StepInv(s, st);
      assert r[i] == Apply(s, st);
    }
  }

  /** Nobody passes without a permit, and every permit is used, owed to a waiter or in the counter. */
  lemma PermitsConserved(r: seq<State>, steps: seq<Step>, desired: nat, count: nat, i: nat)
    requires Run(r, steps, desired, count) && Positive(steps) && i < |r|
    ensures r[i].passes + Owed(r[i].pc) + Surplus(r[i].counter) == r[i].permits
    ensures Deficit(r[i].counter) + Owed(r[i].pc) == |Queue(r[i])| + InTransit(r[i].pc)
  {
    RunInv(r, steps, desired, count, i);
  }

  /** At rest, with everybody idle or parked, exactly the deficit is parked: no wake-up was lost. */
  lemma NoLostWakeUp(r: seq<State>, steps: seq<Step>, desired: nat, count: nat, i: nat)
    requires Run(r, steps, desired, count) && Positive(steps) && i < |r|
    requires forall n :: 0 <= n < |r[i].pc| ==> r[i].pc[n].Idle? || r[i].pc[n].Parked?
    ensures |Queue(r[i])| == Deficit(r[i].counter)
    ensures r[i].counter >= 0 ==> forall n :: 0 <= n < |r[i].pc| ==> r[i].pc[n].Idle?
  {
    RunInv(r, steps, desired, count, i);
    AtRest(r[i].pc);
  }

  lemma {:induction false} AtRest(pc: seq<Pc>)
    requires forall n :: 0 <= n < |pc| ==> IsTransit(pc[n]) == 0 && OwedBy(pc[n]) == 0
    ensures InTransit(pc) == 0 && Owed(pc) == 0
  {
    if |pc| > 0 {
      AtRest(pc[1..]);
    }
  }

  /** Waiters are woken in the order of their pushes. */
  lemma WokenInOrder(r: seq<State>, steps: seq<Step>, desired: nat, count: nat, i: nat)
    requires Run(r, steps, desired, count) && Positive(steps) && i < |r|
    ensures r[i].woken <= r[i].pushed
  {
    RunInv(r, steps, desired, count, i);
  }

  /** try_release comes back empty exactly when all that are due are still in transit. */
  lemma NullIff(r: seq<State>, steps: seq<Step>, desired: nat, count: nat, i: nat)
    requires Run(r, steps, desired, count) && Positive(steps) && i < |steps| && steps[i].WakeOne?
    ensures r[i + 1].pc[steps[i].n].NullDeref? <==> InTransit(r[i].pc) == Deficit(r[i].counter) + Owed(r[i].pc)
    ensures r[i + 1].pc[steps[i].n].NullDeref? ==>
      exists a :: 0 <= a < |r[i].pc| && (r[i].pc[a].Transit? || r[i].pc[a].Pushing?)
  {
    RunInv(r, steps, desired, count, i);
    var s, n := r[i], steps[i].n;
    WakeOneCases(s, n);
    OwesSome(s.pc, n);
    SomeInTransit(s.pc);
    if Queue(s) == [] {
      var a :| 0 <= a < |s.pc| && IsTransit(s.pc[a]) == 1;
    }
  }

  lemma {:induction false} OwesSome(pc: seq<Pc>, n: nat)
    requires n < |pc|
    ensures Owed(pc) >= OwedBy(pc[n])
  {
    if n > 0 {
      OwesSome(pc[1..], n - 1);
    }
  }

  /** When no releaser looks while somebody is in transit, a waiter is always found. */
  lemma QuietNeverNull(r: seq<State>, steps: seq<Step>, desired: nat, count: nat, i: nat, n: Id)
    requires Run(r, steps, desired, count) && Positive(steps) && i < |r| && n < |r[i].pc|
    requires forall j {:trigger steps[j]} :: 0 <= j < |steps| && steps[j].WakeOne? ==> InTransit(r[j].pc) == 0
    ensures !r[i].pc[n].NullDeref?
    decreases i
  {
    if i > 0 {
      var s, st := r[i - 1], steps[i - 1];
      RunInv(r, steps, desired, count, i - 1);
      QuietNeverNull(r, steps, desired, count, i - 1, n);
      OthersNotHit(s, st, n);
      if st == WakeOne(n) {
        NullIff(r, steps, desired, count, i - 1);
        OwesSome(s.pc, n);
      }
    }
  }

  /** What one step does to a releaser. */
  lemma OthersNotHit(s: State, st: Step, n: Id)
    requires Inv(s) && Enabled(s, st) && n < |s.pc|
    ensures |Apply(s, st).pc| == |s.pc|
    ensures var p, p' := s.pc[n], Apply(s, st).pc[n];
      && (p'.NullDeref? ==> p.NullDeref? || st == WakeOne(n))
      && (st.n != n && !p.Parked? ==> p' == p)
      && (st.n == n && st.Lock? ==> p' == Waking(p.k))
      && (st == WakeOne(n) ==> p' == if p'.NullDeref? then NullDeref(p.k) else if p.k == 1 then Idle else Waking(p.k - 1))
  {
    if st.WakeOne? {
      WakeOneCases(s, st.n);
      if Queue(s) != [] {
        assert Queue(s)[0] in Queue(s);
      }
    }
  }

  lemma Extend(r: seq<State>, steps: seq<Step>, desired: nat, count: nat, st: Step)
    returns (r': seq<State>, steps': seq<Step>)
    requires Run(r, steps, desired, count) && Enabled(r[|steps|], st)
    ensures Run(r', steps', desired, count) && steps' == steps + [st] && r' == r + [Apply(r[|steps|], st)]
    ensures r'[|steps| + 1] == Apply(r[|steps|], st)
  {
    r', steps' := r + [Apply(r[|steps|], st)], steps + [st];
  }

  /** The window is real: a release between decrement and push dereferences null. */
  lemma NullReachable() returns (r: seq<State>, steps: seq<Step>)
    ensures Run(r, steps, 0, 2) && Positive(steps) && |r[|steps|].pc| == 2 && r[|steps|].pc[1].NullDeref?
  {
    r, steps := [Init(0, 2)], [];
    assert r[0] == State(0, [], [], None, [Idle, Idle], 0, 0, [], []);
    r, steps := Extend(r, steps, 0, 2, Decrement(0));
    r, steps := Extend(r, steps, 0, 2, Release(1, 1));
    assert r[2] == State(0, [], [], None, [Transit, Owes(1)], 1, 0, [], []);
    r, steps := Extend(r, steps, 0, 2, Lock(1));
    r, steps := Extend(r, steps, 0, 2, WakeOne(1));
  }

  // ----- what the operations do

  /** try_acquire's exchange of its loaded value for one less succeeds. */
  ghost predicate CasSucceeds(s: State, st: Step) {
    st.CasCounter? && st.n < |s.pc| && s.pc[st.n] == Trying(s.counter)
  }

  /** Additions to the counter, by the steps. */
  function Added(steps: seq<Step>, i: nat): int
    requires i <= |steps|
  {
    if i == 0 then 0 else Added(steps, i - 1) + if steps[i - 1].Release? then steps[i - 1].update else 0
  }

  /** Subtractions from the counter: acquisitions begun by `acquire`, or made by `try_acquire`. */
  ghost function Taken(r: seq<State>, steps: seq<Step>, i: nat): nat
    requires i <= |steps| <= |r|
  {
    if i == 0 then 0
    else Taken(r, steps, i - 1) + if steps[i - 1].Decrement? || CasSucceeds(r[i - 1], steps[i - 1]) then 1 else 0
  }

  /** Acquisitions that went through without waiting. */
  ghost function Direct(r: seq<State>, steps: seq<Step>, i: nat): nat
    requires i <= |steps| <= |r|
  {
    if i == 0 then 0
    else
      var s, st := r[i - 1], steps[i - 1];
      Direct(r, steps, i - 1) + if (st.Decrement? && s.counter > 0) || CasSucceeds(s, st) then 1 else 0
  }

  /** The counter, the permits and the passes are what the calls made so far add up to. */
  lemma {:induction false} CounterIsExact(r: seq<State>, steps: seq<Step>, desired: nat, count: nat, i: nat)
    requires Run(r, steps, desired, count) && Positive(steps) && i < |r|
    ensures r[i].counter == desired + Added(steps, i) - Taken(r, steps, i)
    ensures r[i].permits == desired + Added(steps, i)
    ensures r[i].passes == Direct(r, steps, i) + |r[i].woken|
  {
    if i > 0 {
      CounterIsExact(r, steps, desired, count, i - 1);
      StepAt(r, steps, desired, count, i - 1);
      CounterStep(r[i - 1], steps[i - 1]);
    }
  }

  lemma CounterStep(s: State, st: Step)
    requires Inv(s) && Enabled(s, st)
    ensures var t := Apply(s, st);
      && t.counter == s.counter + (if st.Release? then st.update else 0)
                      - (if st.Decrement? || CasSucceeds(s, st) then 1 else 0)
      && t.permits == s.permits + (if st.Release? then st.update else 0)
      && t.passes - |t.woken| == s.passes - |s.woken|
           + if (st.Decrement? && s.counter > 0) || CasSucceeds(s, st) then 1 else 0
  {
    if st.WakeOne? {
      WakeOneCases(s, st.n);
    }
  }

  /** The exchange of `awaiting` for n succeeds: not spuriously refused, and the head is the one that n.next holds. */
  ghost predicate Pushes(s: State, st: Step) {
    st.CasHead? && st.n < |s.pc| && s.pc[st.n] == Pushing(HeadOf(s.awaiting)) && !st.spurious
  }

  /** Who has been pushed, by the steps. */
  ghost function PushedBy(r: seq<State>, steps: seq<Step>, i: nat): seq<Id>
    requires i <= |steps| <= |r|
  {
    if i == 0 then [] else PushedBy(r, steps, i - 1) + if Pushes(r[i - 1], steps[i - 1]) then [steps[i - 1].n] else []
  }

  /** Waiters come on the list by successful exchanges only, each linked to the one before it. */
  lemma {:induction false} PushesAreExact(r: seq<State>, steps: seq<Step>, desired: nat, count: nat, i: nat)
    requires Run(r, steps, desired, count) && Positive(steps) && i < |r|
    ensures r[i].pushed == PushedBy(r, steps, i)
  {
    if i > 0 {
      PushesAreExact(r, steps, desired, count, i - 1);
      StepAt(r, steps, desired, count, i - 1);
      PushStep(r[i - 1], steps[i - 1]);
    }
  }

  lemma PushStep(s: State, st: Step)
    requires Inv(s) && Enabled(s, st)
    ensures Apply(s, st).pushed == s.pushed + if Pushes(s, st) then [st.n] else []
    ensures st.CasHead? && !Pushes(s, st) ==> Apply(s, st) == SetPc(s, st.n, Pushing(HeadOf(s.awaiting)))
  {
    if st.WakeOne? {
      WakeOneCases(s, st.n);
    }
  }

  /** No step of n after i and before j. */
  ghost predicate Rests(steps: seq<Step>, n: Id, i: nat, j: nat) {
    j <= |steps| && forall m {:trigger steps[m]} :: i < m < j ==> steps[m].n != n
  }

  /** Others do not disturb a coroutine that is not parked. */
  lemma {:induction false} Undisturbed(
      r: seq<State>, steps: seq<Step>, desired: nat, count: nat, n: Id, i: nat, j: nat)
    requires Run(r, steps, desired, count) && Positive(steps) && i < j <= |steps| && n < count
    requires Rests(steps, n, i, j) && |r[i + 1].pc| == count && !r[i + 1].pc[n].Parked?
    ensures |r[j].pc| == count && r[j].pc[n] == r[i + 1].pc[n]
    decreases j
  {
    StepAt(r, steps, desired, count, j - 1);
    if i + 1 < j {
      Undisturbed(r, steps, desired, count, n, i, j - 1);
      OthersNotHit(r[j - 1], steps[j - 1], n);
    }
  }

  /** try_acquire, first half: with no permit to be seen it returns false and has done nothing. */
  lemma TryAcquireFails(r: seq<State>, steps: seq<Step>, desired: nat, count: nat, i: nat, n: Id)
    requires Run(r, steps, desired, count) && Positive(steps) && i < |steps|
    requires steps[i] == LoadCounter(n) && r[i].counter <= 0
    ensures n < |r[i].pc| && r[i].pc[n].Idle? && r[i + 1] == r[i]
  {
    StepAt(r, steps, desired, count, i);
  }

  /**
    try_acquire after a load of a positive counter: its next step at j is the exchange.
    It takes a permit exactly if the counter is what it was at the load, else nothing.
   */
  lemma TryAcquireTakes(r: seq<State>, steps: seq<Step>, desired: nat, count: nat, i: nat, j: nat, n: Id)
    requires Run(r, steps, desired, count) && Positive(steps) && i < j < |steps|
    requires steps[i] == LoadCounter(n) && r[i].counter > 0 && steps[j].n == n && Rests(steps, n, i, j)
    ensures r[i + 1].counter == r[i].counter && r[i + 1].passes == r[i].passes
    ensures steps[j].CasCounter? && |r[j].pc| == |r[j + 1].pc| == count && r[j].pc[n] == Trying(r[i].counter)
    ensures r[j + 1].pc[n].Idle?
    ensures r[j].counter == r[i].counter ==>
      r[j + 1].counter == r[j].counter - 1 && r[j + 1].passes == r[j].passes + 1
    ensures r[j].counter != r[i].counter ==>
      r[j + 1].counter == r[j].counter && r[j + 1].passes == r[j].passes
  {
    StepAt(r, steps, desired, count, i);
    Undisturbed(r, steps, desired, count, n, i, j);
    StepAt(r, steps, desired, count, j);
  }

  /** An idle coroutine that meets a permit can take it at once, by either call. */
  lemma CanTakePermit(r: seq<State>, steps: seq<Step>, desired: nat, count: nat, n: Id, tries: bool)
    returns (r': seq<State>, steps': seq<Step>)
    requires Run(r, steps, desired, count) && Positive(steps)
    requires var s := r[|steps|]; n < |s.pc| && s.pc[n].Idle? && s.counter > 0
    ensures Run(r', steps', desired, count) && r <= r'
    ensures steps' == steps + if tries then [LoadCounter(n), CasCounter(n, false)] else [Decrement(n)]
    ensures var s, t := r[|steps|], r'[|steps'|];
      t == s.(counter := s.counter - 1, passes := s.passes + 1)
  {
    var s := r[|steps|];
    assert s.pc[n := Idle] == s.pc;
    if tries {
      r', steps' := Extend(r, steps, desired, count, LoadCounter(n));
      assert s.pc[n := Trying(s.counter)][n := Idle] == s.pc;
      r', steps' := Extend(r', steps', desired, count, CasCounter(n, false));
    } else {
      r', steps' := Extend(r, steps, desired, count, Decrement(n));
    }
  }

  /** One that meets none can join the queue, at its end. */
  lemma CanQueue(r: seq<State>, steps: seq<Step>, desired: nat, count: nat, n: Id)
    returns (r': seq<State>, steps': seq<Step>)
    requires Run(r, steps, desired, count) && Positive(steps)
    requires var s := r[|steps|]; n < |s.pc| && s.pc[n].Idle? && s.counter <= 0
    ensures Run(r', steps', desired, count) && r <= r'
    ensures steps' == steps + [Decrement(n), LoadHead(n), CasHead(n, false)]
    ensures var s, t := r[|steps|], r'[|steps'|];
      && t.counter == s.counter - 1 && t.passes == s.passes && t.pc == s.pc[n := Parked]
      && Queue(t) == Queue(s) + [n] && t.pushed == s.pushed + [n] && t.locked == s.locked
  {
    var s := r[|steps|];
    r', steps' := Extend(r, steps, desired, count, Decrement(n));
    r', steps' := Extend(r', steps', desired, count, LoadHead(n));
    r', steps' := Extend(r', steps', desired, count, CasHead(n, false));
    QueuePush(s, n);
  }

  /** release() while somebody waits can take notifier_mtx ... */
  lemma CanBeginRelease(r: seq<State>, steps: seq<Step>, desired: nat, count: nat, n: Id)
    returns (r': seq<State>, steps': seq<Step>)
    requires Run(r, steps, desired, count) && Positive(steps)
    requires var s := r[|steps|]; n < |s.pc| && s.pc[n].Idle? && s.counter < 0 && s.locked.None?
    ensures Run(r', steps', desired, count) && r <= r' && steps' == steps + [Release(n, 1), Lock(n)]
    ensures var s := r[|steps|];
      r'[|steps'|] == s.(counter := s.counter + 1, permits := s.permits + 1, locked := Some(n), pc := s.pc[n := Waking(1)])
  {
    var s := r[|steps|];
    RoundsIs(s.counter, 1);
    r', steps' := Extend(r, steps, desired, count, Release(n, 1));
    r', steps' := Extend(r', steps', desired, count, Lock(n));
    assert r'[|steps'|].pc == s.pc[n := Waking(1)];
  }

  /** ... and with somebody in the queue it can hand its permit to the oldest waiter. */
  lemma CanRelease(r: seq<State>, steps: seq<Step>, desired: nat, count: nat, n: Id)
    returns (r': seq<State>, steps': seq<Step>)
    requires Run(r, steps, desired, count) && Positive(steps)
    requires var s := r[|steps|]; n < |s.pc| && s.pc[n].Idle? && s.counter < 0 && s.locked.None? && Queue(s) != []
    ensures Run(r', steps', desired, count) && r <= r'
    ensures steps' == steps + [Release(n, 1), Lock(n), WakeOne(n)]
    ensures var s, t := r[|steps|], r'[|steps'|];
      && Queue(s)[0] < |s.pc| && t.pc == s.pc[Queue(s)[0] := Woken] && Queue(t) == Queue(s)[1..]
      && t.counter == s.counter + 1 && t.passes == s.passes + 1 && t.locked.None?
      && Enabled(t, Resume(Queue(s)[0]))
  {
    var s := r[|steps|];
    r', steps' := CanBeginRelease(r, steps, desired, count, n);
    var u := r'[|steps'|];
    assert Queue(u) == Queue(s);
    StepAtEnd(r, steps, desired, count);
    StepAtEnd(r', steps', desired, count);
    assert s.pc[Queue(s)[0]].Parked? by { assert Queue(s)[0] in Queue(s); }
    r', steps' := Extend(r', steps', desired, count, WakeOne(n));
    WakeOneCases(u, n);
    assert r'[|steps'|].pc == s.pc[Queue(s)[0] := Woken];
  }

  lemma StepAtEnd(r: seq<State>, steps: seq<Step>, desired: nat, count: nat)
    requires Run(r, steps, desired, count) && Positive(steps)
    ensures Inv(r[|steps|])
  {
    RunInv(r, steps, desired, count, |steps|);
  }

  /** A woken waiter goes on, and is through. */
  lemma WokenGoesOn(r: seq<State>, steps: seq<Step>, desired: nat, count: nat, i: nat, n: Id)
    requires Run(r, steps, desired, count) && Positive(steps) && i < |steps| && steps[i] == Resume(n)
    ensures n < |r[i].pc| && r[i].pc[n].Woken? && r[i + 1] == r[i].(pc := r[i].pc[n := Idle])
  {
    StepAt(r, steps, desired, count, i);
  }

  // ----- one release

  function Least(a: int, b: int): int {
    if a < b then a else b
  }

  /** The do-while of lines 52-58 wakes min(update, waiters) exactly for positive updates. */
  lemma RoundsIs(counter: int, update: int)
    requires counter < 0
    ensures Rounds(counter, update) == Least(update, -counter) <==> update >= 1
    ensures update < 1 ==> Rounds(counter, update) == 1
  {
  }

  /** The do-while itself. */
  method CountRounds(counter: int, update: int) returns (rounds: nat)
    requires counter < 0
    ensures rounds == Rounds(counter, update)
    ensures rounds == Least(update, -counter) <==> update >= 1
  {
    var u := if counter > -update then counter else -update;
    ghost var start := u;
    rounds := 1;
    u := u + 1;
    while u < 0
      invariant rounds == u - start && (u <= 0 || rounds == 1)
    {
      rounds := rounds + 1;
      u := u + 1;
    }
  }

  /** A zero update is a wake-up without a permit. */
  lemma ZeroReleaseGivesAway() returns (r: seq<State>, steps: seq<Step>)
    ensures Run(r, steps, 0, 2) && r[|steps|].permits == 0 && r[|steps|].passes == 1
  {
    r, steps := [Init(0, 2)], [];
    assert r[0] == State(0, [], [], None, [Idle, Idle], 0, 0, [], []);
    r, steps := Extend(r, steps, 0, 2, Decrement(0));
    r, steps := Extend(r, steps, 0, 2, LoadHead(0));
    r, steps := Extend(r, steps, 0, 2, CasHead(0, false));
    assert r[3] == State(-1, [0], [], None, [Parked, Idle], 0, 0, [0], []);
    r, steps := ReleaseZero(r, steps);
    OneParked();
    r, steps := Extend(r, steps, 0, 2, WakeOne(1));
  }

  lemma ReleaseZero(r0: seq<State>, steps0: seq<Step>) returns (r: seq<State>, steps: seq<Step>)
    requires Run(r0, steps0, 0, 2) && |steps0| == 3
    requires r0[3] == State(-1, [0], [], None, [Parked, Idle], 0, 0, [0], [])
    ensures Run(r, steps, 0, 2) && |steps| == 5
    ensures r[5] == State(-1, [0], [], Some(1), [Parked, Waking(1)], 0, 0, [0], [])
  {
    StillOwes();
    r, steps := Extend(r0, steps0, 0, 2, Release(1, 0));
    r, steps := Extend(r, steps, 0, 2, Lock(1));
  }

  lemma StillOwes()
    ensures var s := State(-1, [0], [], None, [Parked, Idle], 0, 0, [0], []);
      var t := State(-1, [0], [], None, [Parked, Owes(1)], 0, 0, [0], []);
      var u := State(-1, [0], [], Some(1), [Parked, Waking(1)], 0, 0, [0], []);
      && Enabled(s, Release(1, 0)) && Apply(s, Release(1, 0)) == t
      && Enabled(t, Lock(1)) && Apply(t, Lock(1)) == u
  {
    assert Rounds(-1, 0) == 1;
    assert [Parked, Owes(1)][1 := Waking(1)] == [Parked, Waking(1)];
  }

  lemma OneParked()
    ensures var s := State(-1, [0], [], Some(1), [Parked, Waking(1)], 0, 0, [0], []);
      Enabled(s, WakeOne(1)) && Apply(s, WakeOne(1)).passes == 1 && Apply(s, WakeOne(1)).permits == 0
  {
    assert Reverse<Id>([0]) == [0];
  }

  /** How often n has woken somebody from step i on, before step j. */
  function WakesBy(steps: seq<Step>, i: nat, j: nat, n: Id): nat
    requires i <= j <= |steps|
    decreases j
  {
    if i == j then 0 else WakesBy(steps, i, j - 1, n) + if steps[j - 1] == WakeOne(n) then 1 else 0
  }

  /** n is in the middle of a release, or through with it. */
  ghost predicate Releasing(s: State, n: Id) {
    n < |s.pc| && (s.pc[n].Owes? || s.pc[n].Waking? || s.pc[n].Idle?)
  }

  lemma ReleaseStep(s: State, st: Step, n: Id)
    requires Inv(s) && Enabled(s, st) && Releasing(s, n) && (st.n == n ==> st.Lock? || st.WakeOne?)
    ensures |Apply(s, st).pc| == |s.pc|
    ensures !Apply(s, st).pc[n].NullDeref? ==>
      && Releasing(Apply(s, st), n)
      && OwedBy(s.pc[n]) == OwedBy(Apply(s, st).pc[n]) + if st == WakeOne(n) then 1 else 0
  {
    OthersNotHit(s, st, n);
  }

  /** From i to j, n is busy with one release and nothing else, and no dereference of null stops it. */
  ghost predicate OneRelease(r: seq<State>, steps: seq<Step>, i: nat, j: nat, n: Id)
    requires i <= j < |r| == |steps| + 1
  {
    && Releasing(r[j], n)
    && (i < j ==>
        && OneRelease(r, steps, i, j - 1, n)
        && (steps[j - 1].n == n ==> steps[j - 1].Lock? || steps[j - 1].WakeOne?))
  }

  /** The step from i to i + 1, by itself. */
  lemma StepAt(r: seq<State>, steps: seq<Step>, desired: nat, count: nat, i: nat)
    requires Run(r, steps, desired, count) && Positive(steps) && i < |steps|
    ensures Inv(r[i]) && Enabled(r[i], steps[i]) && r[i + 1] == Apply(r[i], steps[i]) && |r[i].pc| == count
    ensures steps[i].Release? ==> steps[i].update >= 1
  {
    RunInv(r, steps, desired, count, i);
  }

  lemma OneLess(r: seq<State>, steps: seq<Step>, desired: nat, count: nat, i: nat, j: nat, n: Id)
    requires Run(r, steps, desired, count) && Positive(steps) && i < j < |r| && OneRelease(r, steps, i, j, n)
    ensures OneRelease(r, steps, i, j - 1, n) && Releasing(r[j - 1], n) && Releasing(r[j], n)
    ensures OwedBy(r[j - 1].pc[n]) == OwedBy(r[j].pc[n]) + if steps[j - 1] == WakeOne(n) then 1 else 0
  {
    StepAt(r, steps, desired, count, j - 1);
    ReleaseStep(r[j - 1], steps[j - 1], n);
  }

  /** A releaser that finished has woken as many as its release promised, whatever the others did. */
  lemma {:induction false} ReleaseWakesExactly(
      r: seq<State>, steps: seq<Step>, desired: nat, count: nat, i: nat, j: nat, n: Id)
    requires Run(r, steps, desired, count) && Positive(steps) && i <= j < |r|
    requires OneRelease(r, steps, i, j, n)
    ensures Releasing(r[i], n) && Releasing(r[j], n)
    ensures WakesBy(steps, i, j, n) + OwedBy(r[j].pc[n]) == OwedBy(r[i].pc[n])
    decreases j
  {
    if i < j {
      OneLess(r, steps, desired, count, i, j, n);
      ReleaseWakesExactly(r, steps, desired, count, i, j - 1, n);
    }
  }

  /** What the first line of release(update) promises. */
  lemma ReleaseStarts(s: State, n: Id, update: int)
    requires Inv(s) && Enabled(s, Release(n, update)) && update >= 1
    ensures n < |Apply(s, Release(n, update)).pc|
    ensures OwedBy(Apply(s, Release(n, update)).pc[n]) == if s.counter < 0 then Least(update, -s.counter) else 0
  {
    if s.counter < 0 {
      RoundsIs(s.counter, update);
    }
  }

  /** A round that does not dereference null wakes the oldest waiter and nobody else. */
  lemma RoundWakesOne(s: State, n: Id)
    requires Inv(s) && Enabled(s, WakeOne(n)) && Releasing(Apply(s, WakeOne(n)), n)
    ensures Queue(s) != [] && Queue(Apply(s, WakeOne(n))) == Queue(s)[1..]
    ensures Apply(s, WakeOne(n)).woken == s.woken + [Queue(s)[0]]
  {
    WakeOneCases(s, n);
  }

  lemma {:induction false} OnceReleasing(r: seq<State>, steps: seq<Step>, i: nat, j: nat, n: Id, m: nat)
    requires i <= m <= j < |r| == |steps| + 1 && OneRelease(r, steps, i, j, n)
    ensures Releasing(r[m], n)
    decreases j
  {
    if m < j {
      OnceReleasing(r, steps, i, j - 1, n, m);
    }
  }

  /**
    release(update), from its update of the counter to its end and whatever the others
    do meanwhile: it makes exactly min(update, -old) wake-ups, none if nobody waits.
   */
  lemma ReleaseWakesMin(
      r: seq<State>, steps: seq<Step>, desired: nat, count: nat, i: nat, j: nat, n: Id, update: int)
    requires Run(r, steps, desired, count) && Positive(steps) && i < j < |r|
    requires steps[i] == Release(n, update)
    requires OneRelease(r, steps, i + 1, j, n) && r[j].pc[n].Idle?
    ensures WakesBy(steps, i + 1, j, n) == if r[i].counter < 0 then Least(update, -r[i].counter) else 0
  {
    StepAt(r, steps, desired, count, i);
    ReleaseStarts(r[i], n, update);
    ReleaseWakesExactly(r, steps, desired, count, i + 1, j, n);
  }

  /** Each of these wake-ups takes the oldest waiter. */
  lemma EachRoundWakes(
      r: seq<State>, steps: seq<Step>, desired: nat, count: nat, i: nat, j: nat, n: Id, m: nat)
    requires Run(r, steps, desired, count) && Positive(steps) && i <= m < j < |r|
    requires OneRelease(r, steps, i, j, n) && steps[m] == WakeOne(n)
    ensures Queue(r[m]) != [] && Queue(r[m + 1]) == Queue(r[m])[1..]
    ensures r[m + 1].woken == r[m].woken + [Queue(r[m])[0]]
  {
    StepAt(r, steps, desired, count, m);
    OnceReleasing(r, steps, i, j, n, m + 1);
    RoundWakesOne(r[m], n);
  }
}
