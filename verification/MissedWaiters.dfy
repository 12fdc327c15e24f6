/**
  A call of notify_one can return without having found a waiter although somebody waits:
  another call holds the waiters it looks for
  (lib/co_context/co/condition_variable.cpp:34-52).
 */
module MissedWaiters {
  import opened Lists
  import M = Mutex
  import opened ConditionVariable
  import opened WaitMorphing

  /** n waits: suspended, and nobody has begun to register it on the mutex. */
  ghost predicate Waits(c: State, n: Id) {
    Shape(c) && n < |c.wait| && Suspended(c, n) && c.m.reg[n] == M.Off
  }

  /** n waits where step 2 does not look: on to_resume, or in a batch that is being reversed. */
  ghost predicate OutOfSight(c: State, n: Id) {
    && Waits(c, n)
    && (OnChain(c.cnext, c.resumeHead, n) || exists k: nat :: InHands(c, k, n) && c.notif[k].Flipping?)
  }

  /** This step ends a notify_one that has found nobody. */
  predicate FindsNobody(c: State, st: Step) {
    st.Swap? && c.awaiting == Null
  }

  /** ... although somebody waits. */
  ghost predicate Misses(c: State, st: Step) {
    FindsNobody(c, st) && exists n: Id :: OutOfSight(c, n)
  }

  lemma HeadWaits(c: State, v: View)
    requires Inv(c, v) && c.resumeHead.At?
    ensures OutOfSight(c, c.resumeHead.id)
  {
    var n := c.resumeHead.id;
    assert n in v.resume;
    PlaceTells(c, v, n);
    assert WaiterOk(c.m, c.cnext, c.wait[n], n, v.place[n]);
  }

  lemma BatchWaits(c: State, v: View, k: nat)
    requires Inv(c, v) && k < |c.notif| && c.notif[k].Flipping?
    ensures OutOfSight(c, c.notif[k].head)
  {
    var n := c.notif[k].head;
    assert BatchOk(c.cnext, c.notif[k], v.batch[k]);
    assert n in v.batch[k].rest + v.batch[k].succ;
    PlaceTells(c, v, n);
    assert InHands(c, k, n);
    assert WaiterOk(c.m, c.cnext, c.wait[n], n, v.place[n]);
  }

  /**
    When a notify_one finds `awaiting` empty, it misses somebody exactly if to_resume is
    not empty any more or another call is between its steps 2 and 4; and these are all
    who wait, but for those who have been lost or are in a hand about to register them.
   */
  lemma MissesIff(c: State, v: View, k: nat)
    requires Inv(c, v) && Enabled(c, Swap(k)) && FindsNobody(c, Swap(k))
    ensures Misses(c, Swap(k)) <==> c.resumeHead.At? || exists j :: 0 <= j < |c.notif| && c.notif[j].Flipping?
    ensures forall n: Id :: Waits(c, n) ==>
      OutOfSight(c, n) || Lost(c, n) || exists j: nat :: InHands(c, j, n) && !c.notif[j].Flipping?
  {
    if c.resumeHead.At? { HeadWaits(c, v); }
    forall j | 0 <= j < |c.notif| && c.notif[j].Flipping? ensures OutOfSight(c, c.notif[j].head) {
      BatchWaits(c, v, j);
    }
    forall n: Id | Waits(c, n)
      ensures OutOfSight(c, n) || Lost(c, n) || exists j: nat :: InHands(c, j, n) && !c.notif[j].Flipping?
      ensures OutOfSight(c, n) ==>
        c.resumeHead.At? || exists j :: 0 <= j < |c.notif| && c.notif[j].Flipping?
    {
      SomewhereElse(c, v, n);
    }
  }

  lemma SomewhereElse(c: State, v: View, n: Id)
    requires Inv(c, v) && c.awaiting == Null && Waits(c, n)
    ensures OutOfSight(c, n) || Lost(c, n) || exists j: nat :: InHands(c, j, n) && !c.notif[j].Flipping?
    ensures OutOfSight(c, n) ==> c.resumeHead.At? || exists j :: 0 <= j < |c.notif| && c.notif[j].Flipping?
  {
    PlaceTells(c, v, n);
    NullChain(c.cnext, n);
    if v.place[n].InBatch? { assert InHands(c, v.place[n].k, n); }
  }

  /** In every run a call that finds nobody misses somebody under exactly that condition. */
  lemma MissesInRunsIff(r: seq<State>, steps: seq<Step>, count: nat, notifiers: nat, i: nat)
    requires Run(r, steps, count, notifiers) && i < |steps| && FindsNobody(r[i], steps[i])
    ensures Misses(r[i], steps[i]) <==>
      r[i].resumeHead.At? || exists j :: 0 <= j < |r[i].notif| && r[i].notif[j].Flipping?
  {
    StepAt(r, steps, count, notifiers, i);
    MissesIff(r[i], ViewAt(r, steps, count, notifiers, i), steps[i].k);
  }

  /** With calls that do not overlap nobody is missed. */
  lemma TurnsMissNobody(r: seq<State>, steps: seq<Step>, count: nat, notifiers: nat, i: nat)
    requires Run(r, steps, count, notifiers) && TakesTurns(r, steps) && i < |steps|
    ensures !Misses(r[i], steps[i])
  {
    if FindsNobody(r[i], steps[i]) {
      StepAt(r, steps, count, notifiers, i);
      TurnsAreSolo(r, steps, count, notifiers, i);
      MissesInRunsIff(r, steps, count, notifiers, i);
    }
  }

  // ----- a run that misses a waiter

  /** Both calls are over; n is left behind on to_resume. */
  ghost predicate Stranded(c: State, n: Id) {
    && Shape(c) && n < |c.wait| && c.wait[n] == Parked && c.m.reg[n] == M.Off
    && OnChain(c.cnext, c.resumeHead, n) && (forall k :: 0 <= k < |c.notif| ==> c.notif[k] == Quiet)
  }

  lemma StrandedStep(c: State, v: View, st: Step, n: Id)
    requires Inv(c, v) && Enabled(c, st) && Stranded(c, n) && !st.BeginOne? && !st.BeginAll?
    ensures Stranded(Apply(c, st), n)
  {
    PlaceTells(c, v, n);
    StepInv(c, v, st);
    StaysOnResume(c, v, st, n);
    PlaceTells(Apply(c, st), NextView(c, v, st), n);
  }

  lemma StaysOnResume(c: State, v: View, st: Step, n: Id)
    requires Inv(c, v) && Enabled(c, st) && n < |v.place| && v.place[n] == OnResume && c.wait[n] == Parked
    requires (forall k :: 0 <= k < |c.notif| ==> c.notif[k] == Quiet) && !st.BeginOne? && !st.BeginAll?
    ensures Apply(c, st).notif == c.notif && Apply(c, st).wait[n] == Parked
    ensures |NextView(c, v, st).place| == |v.place| && NextView(c, v, st).place[n] == OnResume
  {
    if st.Lock? {
      LockWaitInv(c, v, st.s);
    }
  }

  lemma StrandedAt(r: seq<State>, steps: seq<Step>, count: nat, notifiers: nat, i: nat, n: Id)
    requires Run(r, steps, count, notifiers) && i < |steps| && Stranded(r[i], n)
    requires !steps[i].BeginOne? && !steps[i].BeginAll?
    ensures Stranded(r[i + 1], n)
  {
    StepAt(r, steps, count, notifiers, i);
    StrandedStep(r[i], ViewAt(r, steps, count, notifiers, i), steps[i], n);
  }

  /** No notify_one and no notify_all begins from i on, before j. */
  ghost predicate NobodyCalls(steps: seq<Step>, i: nat, j: nat)
    requires i <= j <= |steps|
  {
    forall m {:trigger steps[m]} :: i <= m < j ==> !steps[m].BeginOne? && !steps[m].BeginAll?
  }

  /** It stays there as long as nobody calls notify_one or notify_all again. */
  lemma {:induction false} StrandedUntilNotified(
      r: seq<State>, steps: seq<Step>, count: nat, notifiers: nat, i: nat, j: nat, n: Id)
    requires Run(r, steps, count, notifiers) && i <= j < |r| && Stranded(r[i], n) && NobodyCalls(steps, i, j)
    ensures Stranded(r[j], n)
    decreases j
  {
    if i < j {
      StrandedUntilNotified(r, steps, count, notifiers, i, j - 1, n);
      StrandedAt(r, steps, count, notifiers, j - 1, n);
    }
  }

  /** Two calls, both past step 1, and two waiters: the second call takes both, the first finds nobody. */
  lemma BothBegun() returns (r: seq<State>, steps: seq<Step>)
    ensures Lossless(r, steps, 2, 2)
    ensures var c := r[|r| - 1];
      && c.m == M.Init(2) && Shape(c) && c.wait == [Parked, Parked] && c.cnext == [Null, At(0)]
      && c.notif == [Swapping, Swapping] && c.awaiting == At(1) && c.resumeHead == Null
  {
    r, steps := [Init(2, 2)], [];
    r, steps := Park(r, steps, 2, 2, 0);
    r, steps := Park(r, steps, 2, 2, 1);
    r, steps := Extend(r, steps, 2, 2, BeginOne(0));
    r, steps := Extend(r, steps, 2, 2, BeginOne(1));
  }

  /** The second call takes both waiters, and the first finds nobody. */
  lemma FirstReturns() returns (r: seq<State>, steps: seq<Step>, i: nat)
    ensures Lossless(r, steps, 2, 2) && i < |steps| && Misses(r[i], steps[i])
    ensures var c := r[|r| - 1];
      && c.m == M.Init(2) && Shape(c) && c.wait == [Parked, Parked] && c.cnext == [Null, At(0)]
      && c.notif == [Quiet, Flipping(1, Null, At(0), 1)] && c.awaiting == Null && c.resumeHead == Null
  {
    r, steps := BothBegun();
    r, steps := Extend(r, steps, 2, 2, Swap(1));
    i := |steps|;
    assert r[i].notif == [Swapping, Flipping(1, Null, At(0), 1)] && r[i].awaiting == Null;
    assert r[i].notif[1].Flipping?;
    r, steps := Extend(r, steps, 2, 2, Swap(0));
    MissesInRunsIff(r, steps, 2, 2, i);
  }

  /**
    Two overlapping calls for two waiters: no step 5, so nobody is lost, but one call
    misses waiter 1, and when both are over it is left on to_resume.
   */
  lemma OverlapCanMiss() returns (r: seq<State>, steps: seq<Step>, i: nat)
    ensures Lossless(r, steps, 2, 2) && i < |steps| && Misses(r[i], steps[i])
    ensures forall j :: 0 <= j < |r| ==> Conserved(r[j])
    ensures Stranded(r[|r| - 1], 1)
  {
    r, steps, i := FirstReturns();
    r, steps := Extend(r, steps, 2, 2, Flip(1));
    r, steps := Extend(r, steps, 2, 2, Merge(1));
    r, steps := Extend(r, steps, 2, 2, Wake(1));
    ConservedIff(r, steps, 2, 2);
    var c := r[|r| - 1];
    assert Linked(c.cnext, c.resumeHead, [1]);
    ChainIs(c.cnext, c.resumeHead, [1], 1);
  }
}
