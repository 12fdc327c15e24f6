/**
  Calls on a condition variable come to their end: from every reachable state the steps
  of one caller alone can complete its `wait`, notify_one or notify_all
  (lib/co_context/co/condition_variable.cpp:6-110).
 */
module CallsReturn {
  import opened Lists
  import opened Places
  import M = Mutex
  import opened ConditionVariable
  import opened WaitMorphing

  /** A coroutine that owns the mutex can push itself on the condition variable and let the mutex go. */
  lemma CanWait(r: seq<State>, steps: seq<Step>, count: nat, notifiers: nat, n: Id)
    returns (r': seq<State>, steps': seq<Step>)
    requires Run(r, steps, count, notifiers)
    requires var c := r[|steps|]; Shape(c) && n < |c.wait| && c.wait[n] == Running && c.m.act[n] == M.Holding
    ensures Run(r', steps', count, notifiers) && r <= r'
    ensures steps' == steps + [WaitLoad(n), WaitStore(n), WaitCas(n, false), WaitUnlock(n)]
    ensures var c := r[|steps|];
      && Shape(c) && M.Enabled(c.m, M.BeginUnlock(n))
      && r'[|steps'|] == c.(awaiting := At(n), cnext := c.cnext[n := c.awaiting], wait := c.wait[n := Parked],
                            m := M.Apply(c.m, M.BeginUnlock(n)))
  {
    var c := r[|steps|];
    r', steps' := Grow(r, steps, count, notifiers, WaitLoad(n));
    r', steps' := Grow(r', steps', count, notifiers, WaitStore(n));
    assert r'[|steps'|].wait == c.wait[n := CvStored(c.awaiting)];
    r', steps' := Grow(r', steps', count, notifiers, WaitCas(n, false));
    r', steps' := Grow(r', steps', count, notifiers, WaitUnlock(n));
    assert r'[|steps'|].wait == c.wait[n := Parked];
  }

  /** A failed push leaves it with the current head. */
  lemma PushRetries(r: seq<State>, steps: seq<Step>, count: nat, notifiers: nat, i: nat, n: Id)
    requires Run(r, steps, count, notifiers) && i < |steps| && steps[i].WaitCas? && steps[i].n == n
    ensures n < |r[i].wait| == |r[i + 1].wait| && r[i].wait[n].CvStored?
    ensures if r[i].wait[n].seen == r[i].awaiting && !steps[i].weak
            then r[i + 1].wait[n] == CvPushed && r[i + 1].awaiting == At(n)
            else r[i + 1] == r[i].(wait := r[i].wait[n := CvLoaded(r[i].awaiting)])
  {
    StepAt(r, steps, count, notifiers, i);
  }

  /** The next step of a call. */
  function NextOfCall(c: State, k: nat): Step
    requires k < |c.notif|
  {
    match c.notif[k]
    case Quiet => BeginOne(k)
    case Swapping => Swap(k)
    case Flipping(_, _, pred, _) => if pred == Null then Merge(k) else Flip(k)
    case Waking(_) => Wake(k)
    case Walking(_, _) => Walk(k)
    case Collecting => Collect(k)
  }

  /** How many steps it has to go. */
  function ToGo(pc: NotifyPc, v: View, k: nat): nat
    requires k < |v.batch|
  {
    match pc
    case Quiet => 0
    case Waking(_) => 1
    case Flipping(_, _, _, _) => 1 + |v.batch[k].rest|
    case Swapping => 2 + |v.stack|
    case Walking(_, second) => 1 + |v.batch[k].rest| + if second then 0 else 2 + |v.resume|
    case Collecting => 2 + |v.resume|
  }

  lemma CallProceeds(c: State, v: View, k: nat)
    requires CvInv(c, v) && k < |c.notif| && c.notif[k] != Quiet
    ensures Enabled(c, NextOfCall(c, k))
    ensures var c', v' := Apply(c, NextOfCall(c, k)), NextView(c, v, NextOfCall(c, k));
      |v'.batch| == |c'.notif| == |c.notif| && ToGo(c'.notif[k], v', k) < ToGo(c.notif[k], v, k)
  {
    assert BatchOk(c.cnext, c.notif[k], v.batch[k]);
    assert Enumerates(v.batch[k].rest + v.batch[k].succ, v.place, InBatch(k));
    if v.batch[k].rest != [] {
      var x := v.batch[k].rest[0];
      assert x in v.batch[k].rest + v.batch[k].succ;
      assert WaiterOk(c.m, c.cnext, c.wait[x], x, v.place[x]);
    }
  }

  /** n was asleep on the condition variable and is now being registered on the mutex. */
  predicate Notified(c: State, c': State, n: Id) {
    && n < |c.wait| == |c'.wait| == |c.m.reg| == |c'.m.reg|
    && Suspended(c, n) && c.m.reg[n] == M.Off && c'.m.reg[n].Loaded?
  }

  lemma WakeNotifies(c: State, v: View, k: nat)
    requires CvInv(c, v) && k < |c.notif| && c.notif[k].Waking? && Enabled(c, Wake(k))
    ensures Notified(c, Apply(c, Wake(k)), c.notif[k].node)
  {
    assert BatchOk(c.cnext, c.notif[k], v.batch[k]);
    var x := c.notif[k].node;
    assert x in v.batch[k].rest + v.batch[k].succ;
    assert WaiterOk(c.m, c.cnext, c.wait[x], x, v.place[x]);
  }

  /** The call has a waiter to notify, for certain. */
  predicate Serves(c: State, k: nat) {
    k < |c.notif| && (c.notif[k].Waking? || c.notif[k].Flipping? || (c.notif[k] == Swapping && c.awaiting.At?))
  }

  ghost predicate SomebodyNotified(c: State, c': State) {
    exists n: Id :: Notified(c, c', n)
  }

  /** What one step of a call does for that. */
  predicate Proceeds(c: State, c1: State, k: nat) {
    && k < |c.notif| == |c1.notif|
    && (c.notif[k].Waking? ==> Notified(c, c1, c.notif[k].node) && c1.notif[k] == Quiet)
    && (c.notif[k] == Swapping || c.notif[k].Flipping? ==> c1.m == c.m && c1.wait == c.wait)
    && (c.notif[k].Flipping? ==> c1.notif[k].Flipping? || c1.notif[k].Waking?)
    && (c.notif[k] == Swapping && c.awaiting.At? ==> c1.notif[k].Flipping?)
  }

  lemma OneProceeds(c: State, v: View, k: nat)
    requires CvInv(c, v) && k < |c.notif| && c.notif[k] != Quiet && Enabled(c, NextOfCall(c, k))
    ensures Proceeds(c, Apply(c, NextOfCall(c, k)), k)
  {
    if c.notif[k].Waking? { WakeNotifies(c, v, k); }
  }

  lemma Chains(c: State, c1: State, c2: State, k: nat)
    requires Proceeds(c, c1, k) && (Serves(c1, k) ==> SomebodyNotified(c1, c2))
    requires k < |c1.notif| && (c1.notif[k] == Quiet ==> c2 == c1)
    ensures Serves(c, k) ==> SomebodyNotified(c, c2)
  {
    if Serves(c, k) && !c.notif[k].Waking? {
      var n: Id :| Notified(c1, c2, n);
      assert Notified(c, c2, n);
    }
  }

  lemma OneStep(r: seq<State>, steps: seq<Step>, count: nat, notifiers: nat, k: nat, v: View)
    returns (r': seq<State>, steps': seq<Step>, v': View)
    requires Run(r, steps, count, notifiers) && Inv(r[|steps|], v) && k < |r[|steps|].notif|
    requires r[|steps|].notif[k] != Quiet
    ensures Run(r', steps', count, notifiers) && r <= r' && steps <= steps' && Inv(r'[|steps'|], v')
    ensures Proceeds(r[|steps|], r'[|steps'|], k) && |v.batch| == |v'.batch| == |r[|steps|].notif|
    ensures ToGo(r'[|steps'|].notif[k], v', k) < ToGo(r[|steps|].notif[k], v, k)
  {
    var c := r[|steps|];
    var st := NextOfCall(c, k);
    CallProceeds(c, v, k);
    StepInv(c, v, st);
    OneProceeds(c, v, k);
    r', steps' := Grow(r, steps, count, notifiers, st);
    v' := NextView(c, v, st);
  }

  /** A call in progress comes to its end; one that holds a batch, or has a waiter in its hand, notifies somebody. */
  lemma {:induction false} Returns(r: seq<State>, steps: seq<Step>, count: nat, notifiers: nat, k: nat, v: View)
    returns (r': seq<State>, steps': seq<Step>, v': View)
    requires Run(r, steps, count, notifiers) && Inv(r[|steps|], v) && k < |r[|steps|].notif|
    ensures Run(r', steps', count, notifiers) && r <= r' && steps <= steps' && Inv(r'[|steps'|], v')
    ensures k < |r'[|steps'|].notif| && r'[|steps'|].notif[k] == Quiet
    ensures Serves(r[|steps|], k) ==> SomebodyNotified(r[|steps|], r'[|steps'|])
    ensures r[|steps|].notif[k] == Quiet ==> r'[|steps'|] == r[|steps|]
    decreases ToGo(r[|steps|].notif[k], v, k)
  {
    if r[|steps|].notif[k] == Quiet {
      r', steps', v' := r, steps, v;
    } else {
      var r1, steps1, v1 := OneStep(r, steps, count, notifiers, k, v);
      r', steps', v' := Returns(r1, steps1, count, notifiers, k, v1);
      Chains(r[|steps|], r1[|steps1|], r'[|steps'|], k);
    }
  }

  lemma BeginsToServe(c: State, k: nat)
    requires Shape(c) && Enabled(c, BeginOne(k)) && (c.resumeHead.At? || c.awaiting.At?)
    ensures Serves(Apply(c, BeginOne(k)), k)
    ensures Apply(c, BeginOne(k)).m == c.m && Apply(c, BeginOne(k)).wait == c.wait
  {
  }

  /** A notify_one made while somebody is on one of the two lists can notify a waiter and return. */
  lemma CanNotifyOne(r: seq<State>, steps: seq<Step>, count: nat, notifiers: nat, k: nat)
    returns (r': seq<State>, steps': seq<Step>)
    requires Run(r, steps, count, notifiers) && k < |r[|steps|].notif| && r[|steps|].notif[k] == Quiet
    requires r[|steps|].resumeHead.At? || r[|steps|].awaiting.At?
    ensures Run(r', steps', count, notifiers) && r <= r' && steps + [BeginOne(k)] <= steps'
    ensures k < |r'[|steps'|].notif| && r'[|steps'|].notif[k] == Quiet
    ensures SomebodyNotified(r[|steps|], r'[|steps'|])
  {
    var c, v := r[|steps|], ViewAt(r, steps, count, notifiers, |steps|);
    RunInv(r, steps, count, notifiers, |steps|);
    StepInv(c, v, BeginOne(k));
    BeginsToServe(c, k);
    var r1, steps1 := Grow(r, steps, count, notifiers, BeginOne(k));
    var v';
    r', steps', v' := Returns(r1, steps1, count, notifiers, k, NextView(c, v, BeginOne(k)));
    SameSleepers(c, r1[|steps1|], r'[|steps'|]);
  }

  lemma SameSleepers(c: State, c1: State, c2: State)
    requires c1.m == c.m && c1.wait == c.wait && SomebodyNotified(c1, c2)
    ensures SomebodyNotified(c, c2)
  {
    var n: Id :| Notified(c1, c2, n);
    assert Notified(c, c2, n);
  }

  /** Every call can return, whatever the other notifiers have done or left undone. */
  lemma CanReturn(r: seq<State>, steps: seq<Step>, count: nat, notifiers: nat, k: nat)
    returns (r': seq<State>, steps': seq<Step>)
    requires Run(r, steps, count, notifiers) && k < |r[|steps|].notif|
    ensures Run(r', steps', count, notifiers) && r <= r' && steps <= steps'
    ensures k < |r'[|steps'|].notif| && r'[|steps'|].notif[k] == Quiet
  {
    RunInv(r, steps, count, notifiers, |steps|);
    var v';
    r', steps', v' := Returns(r, steps, count, notifiers, k, ViewAt(r, steps, count, notifiers, |steps|));
  }

  /** A notify_all can start and return. */
  lemma CanNotifyAll(r: seq<State>, steps: seq<Step>, count: nat, notifiers: nat, k: nat)
    returns (r': seq<State>, steps': seq<Step>)
    requires Run(r, steps, count, notifiers) && k < |r[|steps|].notif| && r[|steps|].notif[k] == Quiet
    ensures Run(r', steps', count, notifiers) && r <= r' && steps + [BeginAll(k)] <= steps'
    ensures k < |r'[|steps'|].notif| && r'[|steps'|].notif[k] == Quiet
  {
    RunInv(r, steps, count, notifiers, |steps|);
    r', steps' := Grow(r, steps, count, notifiers, BeginAll(k));
    r', steps' := CanReturn(r', steps', count, notifiers, k);
  }
}
