/** What the condition variable keeps over whole runs, for every interleaving. */
module WaitMorphing {
  import opened Lists
  import FL = FifoLock
  import M = Mutex
  import opened ConditionVariable

  ghost predicate Run(r: seq<State>, steps: seq<Step>, count: nat, notifiers: nat) {
    && |r| == |steps| + 1
    && r[0] == Init(count, notifiers)
    && forall i :: 0 <= i < |steps| ==>
         Shape(r[i]) && Enabled(r[i], steps[i]) && r[i + 1] == Apply(r[i], steps[i])
  }

  ghost function ViewAt(r: seq<State>, steps: seq<Step>, count: nat, notifiers: nat, i: nat): View
    requires Run(r, steps, count, notifiers) && i < |r|
  {
    if i == 0 then InitView(count, notifiers)
    else
      var v := ViewAt(r, steps, count, notifiers, i - 1);
      if |v.batch| == |r[i - 1].notif| then NextView(r[i - 1], v, steps[i - 1]) else v
  }

  /** The pointers are known in every state of every run, also when waiters have been lost. */
  lemma {:induction false} RunInv(r: seq<State>, steps: seq<Step>, count: nat, notifiers: nat, i: nat)
    requires Run(r, steps, count, notifiers) && i < |r|
    ensures Inv(r[i], ViewAt(r, steps, count, notifiers, i)) && |r[i].wait| == count
  {
    if i == 0 {
      InitInv(count, notifiers);
    } else {
      RunInv(r, steps, count, notifiers, i - 1);
      StepInv(r[i - 1], ViewAt(r, steps, count, notifiers, i - 1), steps[i - 1]);
    }
  }

  /** One step of a run, with what the proof knows about it. */
  lemma StepAt(r: seq<State>, steps: seq<Step>, count: nat, notifiers: nat, i: nat)
    requires Run(r, steps, count, notifiers) && i < |steps|
    ensures Inv(r[i], ViewAt(r, steps, count, notifiers, i)) && Enabled(r[i], steps[i])
    ensures |r[i].wait| == count && r[i + 1] == Apply(r[i], steps[i])
    ensures ViewAt(r, steps, count, notifiers, i + 1) == NextView(r[i], ViewAt(r, steps, count, notifiers, i), steps[i])
  {
    RunInv(r, steps, count, notifiers, i);
  }

  /**
    Whenever a `wait` resumes, its coroutine owns the mutex and nobody else does: in every
    run, whether or not the notifiers overlap.
   */
  lemma ResumesAsSoleOwner(r: seq<State>, steps: seq<Step>, count: nat, notifiers: nat, i: nat, n: Id)
    requires Run(r, steps, count, notifiers) && i < |steps| && n < count
    requires |r[i].wait| == |r[i + 1].wait| == count
    requires r[i].wait[n] == Parked && r[i + 1].wait[n] != Parked
    ensures var c := r[i + 1];
      && |c.m.act| == count && c.wait[n] == Running && c.m.act[n] == M.Holding
      && forall x :: 0 <= x < count && x != n ==> c.m.act[x] == M.Idle
  {
    RunInv(r, steps, count, notifiers, i);
    RunInv(r, steps, count, notifiers, i + 1);
    ResumeStep(r[i], ViewAt(r, steps, count, notifiers, i), steps[i], n);
  }

  lemma ResumeStep(c: State, v: View, st: Step, n: Id)
    requires Inv(c, v) && Enabled(c, st) && n < |c.wait|
    requires c.wait[n] == Parked && Apply(c, st).wait[n] != Parked
    ensures var c' := Apply(c, st);
      && c'.wait[n] == Running
      && c'.m.act[n] == M.Holding
      && forall x :: 0 <= x < |c'.wait| && x != n ==> c'.m.act[x] == M.Idle
  {
    M.StepInv(c.m, v.mv, st.s);
    LockEffect(c.m, v.mv, st.s, n);
  }

  /** The step of the mutex that a step of the condition variable contains, if any. */
  function OnMutex(c: State, st: Step): Option<M.Step>
    requires Shape(c) && Enabled(c, st)
  {
    match st
    case Lock(s) => Some(s)
    case WaitUnlock(n) => Some(M.BeginUnlock(n))
    case Wake(k) => Some(M.Load(c.notif[k].node))
    case Walk(k) => if c.notif[k].p.At? then Some(M.Load(c.notif[k].p.id)) else None
    case _ => None
  }

  ghost predicate LockStep(c: State, st: Step, c': State, l: FL.Lock, l': FL.Lock)
    requires Shape(c) && Enabled(c, st)
  {
    match OnMutex(c, st)
    case None => l' == l && c'.m == c.m
    case Some(s) =>
      && M.Shape(c.m) && M.Enabled(c.m, s)
      && c'.m == M.Apply(c.m, s) && FL.Effect(l, M.EventOf(c.m, s), l') && M.AssertionHolds(c.m, s)
  }

  lemma MutexSteps(c: State, v: View, st: Step)
    requires Inv(c, v) && Enabled(c, st)
    ensures LockStep(c, st, Apply(c, st), M.Abs(v.mv), M.Abs(NextView(c, v, st).mv))
  {
    var s := OnMutex(c, st);
    if s.Some? {
      M.StepInv(c.m, v.mv, s.value);
    }
  }

  ghost function LockAt(r: seq<State>, steps: seq<Step>, count: nat, notifiers: nat, i: nat): FL.Lock
    requires Run(r, steps, count, notifiers) && i < |r|
  {
    M.Abs(ViewAt(r, steps, count, notifiers, i).mv)
  }

  lemma MutexMatches(r: seq<State>, steps: seq<Step>, count: nat, notifiers: nat, i: nat)
    requires Run(r, steps, count, notifiers) && i < |r|
    ensures M.Matches(r[i].m, LockAt(r, steps, count, notifiers, i))
  {
    RunInv(r, steps, count, notifiers, i);
    M.InvMatches(r[i].m, ViewAt(r, steps, count, notifiers, i).mv);
  }

  lemma LockStepAt(r: seq<State>, steps: seq<Step>, count: nat, notifiers: nat, i: nat)
    requires Run(r, steps, count, notifiers) && i < |steps|
    ensures Shape(r[i]) && Enabled(r[i], steps[i])
    ensures LockStep(r[i], steps[i], r[i + 1],
                     LockAt(r, steps, count, notifiers, i), LockAt(r, steps, count, notifiers, i + 1))
  {
    StepAt(r, steps, count, notifiers, i);
    MutexSteps(r[i], ViewAt(r, steps, count, notifiers, i), steps[i]);
  }

  /**
    Under the condition variable the mutex is the FIFO lock, whatever the notifiers do:
    step by step, and its assertions hold.
   */
  lemma MutexStaysFifo(r: seq<State>, steps: seq<Step>, count: nat, notifiers: nat) returns (locks: seq<FL.Lock>)
    requires Run(r, steps, count, notifiers)
    ensures |locks| == |r| && locks[0] == FL.FREE
    ensures forall i :: 0 <= i < |r| ==> M.Matches(r[i].m, locks[i])
    ensures forall i :: 0 <= i < |steps| ==>
      Shape(r[i]) && Enabled(r[i], steps[i]) && LockStep(r[i], steps[i], r[i + 1], locks[i], locks[i + 1])
  {
    locks := seq(|r|, i requires 0 <= i < |r| => LockAt(r, steps, count, notifiers, i));
    forall i | 0 <= i < |r| ensures M.Matches(r[i].m, locks[i]) {
      MutexMatches(r, steps, count, notifiers, i);
    }
    forall i | 0 <= i < |steps|
      ensures Shape(r[i]) && Enabled(r[i], steps[i]) && LockStep(r[i], steps[i], r[i + 1], locks[i], locks[i + 1])
    {
      LockStepAt(r, steps, count, notifiers, i);
    }
  }

  // ----- conservation

  /** The mutex has n in its queue exactly if its registration says so. */
  ghost predicate InMutexQueue(c: State, n: Id)
    requires Shape(c) && n < |c.wait|
  {
    exists mv :: M.Inv(c.m, mv) && (c.m.reg[n] == M.Queued <==> mv.Has(n))
  }

  /**
    By the pointers, n is in exactly one of: cv.awaiting, cv.to_resume, one notifier's
    hands, or the mutex -- being registered by a notifier, or in its queue.
   */
  ghost predicate InOnePlace(c: State, n: Id)
    requires Shape(c) && n < |c.wait|
  {
    var inStack, inResume := OnChain(c.cnext, c.awaiting, n), OnChain(c.cnext, c.resumeHead, n);
    var inHands, inLock := exists k: nat :: InHands(c, k, n), c.m.reg[n] != M.Off;
    && (inStack || inResume || inHands || inLock)
    && (inStack ==> !inResume && !inHands && !inLock)
    && (inResume ==> !inHands && !inLock)
    && (inHands ==> !inLock)
    && (forall j: nat, k: nat :: InHands(c, j, n) && InHands(c, k, n) ==> j == k)
    && InMutexQueue(c, n)
  }

  /** Every suspended coroutine is accounted for by the pointers. */
  ghost predicate Conserved(c: State) {
    Shape(c) && forall n :: 0 <= n < |c.wait| && Suspended(c, n) ==> InOnePlace(c, n)
  }

  /** A suspended coroutine is in one place, or lost. */
  lemma OnePlace(c: State, v: View, n: Id)
    requires Inv(c, v) && n < |c.wait| && Suspended(c, n)
    ensures InOnePlace(c, n) <==> !Lost(c, n)
  {
    PlaceTells(c, v, n);
    assert M.Inv(c.m, v.mv) && (c.m.reg[n] == M.Queued <==> v.mv.Has(n));
    if v.place[n].InBatch? { assert InHands(c, v.place[n].k, n); }
  }

  /** A state that does not conserve its waiters is one that has lost somebody. */
  lemma ConservedOrLost(r: seq<State>, steps: seq<Step>, count: nat, notifiers: nat, i: nat)
    requires Run(r, steps, count, notifiers) && i < |r|
    ensures !Conserved(r[i]) <==> exists n: Id :: Lost(r[i], n)
  {
    RunInv(r, steps, count, notifiers, i);
    var c, v := r[i], ViewAt(r, steps, count, notifiers, i);
    forall n: Id | n < |c.wait| && Suspended(c, n) ensures InOnePlace(c, n) <==> !Lost(c, n) {
      OnePlace(c, v, n);
    }
  }

  /** In every run, a waiter gets lost exactly by a step that leaves it behind. */
  lemma LostAt(r: seq<State>, steps: seq<Step>, count: nat, notifiers: nat, i: nat, n: Id)
    requires Run(r, steps, count, notifiers) && i < |steps|
    ensures Shape(r[i]) && Enabled(r[i], steps[i]) && |r[i].wait| == |r[i + 1].wait| == count
    ensures n < count ==> (Lost(r[i + 1], n) <==> Lost(r[i], n) || LeftBehind(r[i], steps[i], n))
    ensures n < count && Lost(r[i], n) && r[i].wait[n] == Parked ==> r[i + 1].wait[n] == Parked
  {
    RunInv(r, steps, count, notifiers, i);
    if n < count {
      LostStep(r[i], ViewAt(r, steps, count, notifiers, i), steps[i], n);
    }
  }

  /** A lost waiter stays lost, and suspended, in every continuation of the run. */
  lemma {:induction false} LostForever(
      r: seq<State>, steps: seq<Step>, count: nat, notifiers: nat, i: nat, j: nat, n: Id)
    requires Run(r, steps, count, notifiers) && i <= j < |r| && Lost(r[i], n)
    ensures Lost(r[j], n) && (r[i].wait[n] == Parked ==> r[j].wait[n] == Parked)
    decreases j
  {
    if i < j {
      LostForever(r, steps, count, notifiers, i, j - 1, n);
      LostAt(r, steps, count, notifiers, j - 1, n);
    }
  }

  ghost predicate LostAndParked(c: State, n: Id) {
    Lost(c, n) && c.wait[n] == Parked
  }

  /** Nobody is lost before the first step 5 of notify_one with a batch of two or more. */
  lemma {:induction false} NobodyLost(r: seq<State>, steps: seq<Step>, count: nat, notifiers: nat, i: nat, n: Id)
    requires Run(r, steps, count, notifiers) && i < |r|
    requires forall j :: 0 <= j < i ==> !LosesBatch(r[j], steps[j])
    ensures !Lost(r[i], n)
    decreases i
  {
    if i == 0 {
      if n < count { assert !Suspended(r[0], n); }
    } else {
      var c := r[i - 1];
      LostAt(r, steps, count, notifiers, i - 1, n);
      NobodyLost(r, steps, count, notifiers, i - 1, n);
      if c.resumeTail.At? { NobodyLost(r, steps, count, notifiers, i - 1, c.resumeTail.id); }
      NullChain(c.cnext, n);
    }
  }

  lemma NullChain(next: seq<Ptr>, n: Id)
    ensures !OnChain(next, Null, n)
  {
    ChainIs(next, Null, [], n);
  }

  /** The step that takes step 5 with a longer batch loses a waiter that was accounted for, for good. */
  lemma LossHasVictim(r: seq<State>, steps: seq<Step>, count: nat, notifiers: nat, i: nat) returns (n: Id)
    requires Run(r, steps, count, notifiers) && i < |steps| && LosesBatch(r[i], steps[i])
    ensures r[i].notif[steps[i].k].succ == At(n)
    ensures forall j :: i < j < |r| ==> Lost(r[j], n)
  {
    RunInv(r, steps, count, notifiers, i);
    var c, v, k := r[i], ViewAt(r, steps, count, notifiers, i), steps[i].k;
    n := BatchHasMore(c, v, k);
    StepFiveLoses(c, v, k, n);
    forall j | i < j < |r| ensures Lost(r[j], n) {
      LostForever(r, steps, count, notifiers, i + 1, j, n);
    }
  }

  /**
    A run accounts for all its waiters at every moment if and only if it never takes step 5
    of notify_one with a batch of two or more; and exactly if it does, somebody is lost.
   */
  lemma ConservedIff(r: seq<State>, steps: seq<Step>, count: nat, notifiers: nat)
    requires Run(r, steps, count, notifiers)
    ensures (forall i :: 0 <= i < |r| ==> Conserved(r[i]))
       <==> (forall i :: 0 <= i < |steps| ==> !LosesBatch(r[i], steps[i]))
    ensures (exists i, n: Id :: 0 <= i < |r| && Lost(r[i], n))
       <==> (exists i :: 0 <= i < |steps| && LosesBatch(r[i], steps[i]))
  {
    forall i | 0 <= i < |r| ensures !Conserved(r[i]) <==> exists n: Id :: Lost(r[i], n) {
      ConservedOrLost(r, steps, count, notifiers, i);
    }
    if forall i :: 0 <= i < |steps| ==> !LosesBatch(r[i], steps[i]) {
      forall i, n: Id | 0 <= i < |r| ensures !Lost(r[i], n) {
        NobodyLost(r, steps, count, notifiers, i, n);
      }
    } else {
      var i :| 0 <= i < |steps| && LosesBatch(r[i], steps[i]);
      var n := LossHasVictim(r, steps, count, notifiers, i);
      assert Lost(r[i + 1], n);
    }
  }

  ghost predicate Lossless(r: seq<State>, steps: seq<Step>, count: nat, notifiers: nat) {
    && Run(r, steps, count, notifiers)
    && forall i :: 0 <= i < |steps| ==> !LosesBatch(r[i], steps[i])
  }

  // ----- notifiers that do not overlap

  /** No notifier starts while another one is still running. */
  ghost predicate TakesTurns(r: seq<State>, steps: seq<Step>) {
    && |r| == |steps| + 1
    && forall i :: 0 <= i < |steps| && (steps[i].BeginOne? || steps[i].BeginAll?) ==>
         forall k :: 0 <= k < |r[i].notif| ==> r[i].notif[k] == Quiet
  }

  /** At most one notifier is active; between steps 1 and 4 of notify_one `to_resume` stays empty. */
  ghost predicate Solo(c: State) {
    && (forall j, k :: 0 <= j < |c.notif| && 0 <= k < |c.notif| && c.notif[j] != Quiet && c.notif[k] != Quiet ==> j == k)
    && (forall k :: 0 <= k < |c.notif| && (c.notif[k] == Swapping || c.notif[k].Flipping?) ==> c.resumeHead == Null)
  }

  lemma {:induction false} TurnsAreSolo(r: seq<State>, steps: seq<Step>, count: nat, notifiers: nat, i: nat)
    requires Run(r, steps, count, notifiers) && TakesTurns(r, steps) && i < |r|
    ensures Solo(r[i])
  {
    if i > 0 {
      TurnsAreSolo(r, steps, count, notifiers, i - 1);
      SoloStep(r[i - 1], steps[i - 1]);
    }
  }

  lemma SoloStep(c: State, st: Step)
    requires Shape(c) && Enabled(c, st) && Solo(c)
    requires st.BeginOne? || st.BeginAll? ==> forall k :: 0 <= k < |c.notif| ==> c.notif[k] == Quiet
    ensures Solo(Apply(c, st))
    ensures !LosesBatch(c, st)
  {
  }

  /** With notifiers that take turns, waiters are conserved in every interleaving. */
  lemma TurnsConserve(r: seq<State>, steps: seq<Step>, count: nat, notifiers: nat)
    requires Run(r, steps, count, notifiers) && TakesTurns(r, steps)
    ensures forall i :: 0 <= i < |r| ==> Conserved(r[i])
  {
    forall i | 0 <= i < |steps| ensures !LosesBatch(r[i], steps[i]) {
      TurnsAreSolo(r, steps, count, notifiers, i);
      SoloStep(r[i], steps[i]);
    }
    ConservedIff(r, steps, count, notifiers);
  }

  // ----- a run that loses a waiter

  lemma Grow(r: seq<State>, steps: seq<Step>, count: nat, notifiers: nat, st: Step)
    returns (r': seq<State>, steps': seq<Step>)
    requires Run(r, steps, count, notifiers)
    requires Shape(r[|r| - 1]) && Enabled(r[|r| - 1], st)
    ensures Run(r', steps', count, notifiers)
    ensures r' == r + [Apply(r[|r| - 1], st)] && steps' == steps + [st]
  {
    r', steps' := r + [Apply(r[|r| - 1], st)], steps + [st];
  }

  lemma Extend(r: seq<State>, steps: seq<Step>, count: nat, notifiers: nat, st: Step)
    returns (r': seq<State>, steps': seq<Step>)
    requires Lossless(r, steps, count, notifiers)
    requires Shape(r[|r| - 1]) && Enabled(r[|r| - 1], st) && !LosesBatch(r[|r| - 1], st)
    ensures Lossless(r', steps', count, notifiers)
    ensures r' == r + [Apply(r[|r| - 1], st)] && steps' == steps + [st]
  {
    r', steps' := Grow(r, steps, count, notifiers, st);
  }

  /** Coroutine n took the free mutex, waited on the condition variable and let go. */
  function AfterPark(c: State, n: Id): State
    requires Shape(c) && n < |c.wait|
  {
    c.(awaiting := At(n), cnext := c.cnext[n := c.awaiting], wait := c.wait[n := Parked])
  }

  /** ... while it still holds the mutex. */
  function AfterPush(c: State, n: Id): State
    requires Shape(c) && n < |c.wait|
  {
    AfterPark(c, n).(wait := c.wait[n := CvPushed],
                     m := c.m.(word := M.NoAwaiting, act := c.m.act[n := M.Holding]))
  }

  lemma ParkPush(r: seq<State>, steps: seq<Step>, count: nat, notifiers: nat, n: Id)
    returns (r': seq<State>, steps': seq<Step>)
    requires Lossless(r, steps, count, notifiers)
    requires var c := r[|r| - 1]; c.m == M.Init(count) && Shape(c) && n < |c.wait| && c.wait[n] == Running
    ensures Lossless(r', steps', count, notifiers)
    ensures r'[|r'| - 1] == AfterPush(r[|r| - 1], n)
  {
    var c := r[|r| - 1];
    r', steps' := Extend(r, steps, count, notifiers, Lock(M.TryLock(n)));
    r', steps' := Extend(r', steps', count, notifiers, WaitLoad(n));
    r', steps' := Extend(r', steps', count, notifiers, WaitStore(n));
    r', steps' := Extend(r', steps', count, notifiers, WaitCas(n, false));
    var c' := r'[|r'| - 1];
    assert c'.m.reg == c.m.reg;
    assert c'.wait == AfterPush(c, n).wait;
  }

  lemma Park(r: seq<State>, steps: seq<Step>, count: nat, notifiers: nat, n: Id)
    returns (r': seq<State>, steps': seq<Step>)
    requires Lossless(r, steps, count, notifiers)
    requires var c := r[|r| - 1]; c.m == M.Init(count) && Shape(c) && n < |c.wait| && c.wait[n] == Running
    ensures Lossless(r', steps', count, notifiers)
    ensures r'[|r'| - 1] == AfterPark(r[|r| - 1], n)
  {
    var c := r[|r| - 1];
    r', steps' := ParkPush(r, steps, count, notifiers, n);
    r', steps' := Extend(r', steps', count, notifiers, WaitUnlock(n));
    r', steps' := Extend(r', steps', count, notifiers, Lock(M.CasRelease(n)));
    var c' := r'[|r'| - 1];
    assert c'.m.act == c.m.act;
    assert c'.wait == AfterPark(c, n).wait;
  }

  /** Both notifiers have passed step 1 before anybody waits. */
  lemma TwoParked() returns (r: seq<State>, steps: seq<Step>)
    ensures Lossless(r, steps, 4, 2)
    ensures var c := r[|r| - 1];
      && c.m == M.Init(4) && Shape(c) && c.wait == [Parked, Parked, Running, Running]
      && c.cnext == [Null, At(0), Null, Null]
      && c.notif == [Swapping, Swapping] && c.awaiting == At(1) && c.resumeHead == Null
  {
    r, steps := [Init(4, 2)], [];
    r, steps := Extend(r, steps, 4, 2, BeginOne(0));
    r, steps := Extend(r, steps, 4, 2, BeginOne(1));
    r, steps := Park(r, steps, 4, 2, 0);
    r, steps := Park(r, steps, 4, 2, 1);
  }

  /** Notifier 0 has passed step 1; notifier 1 overtakes it and leaves waiter 1 in `to_resume`. */
  lemma Overtake() returns (r: seq<State>, steps: seq<Step>)
    ensures Lossless(r, steps, 4, 2)
    ensures var c := r[|r| - 1];
      && c.m == M.Init(4) && Shape(c) && c.wait == [Parked, Parked, Running, Running]
      && c.notif == [Swapping, Waking(0)] && c.awaiting == Null && c.resumeHead == At(1)
  {
    r, steps := TwoParked();
    r, steps := Extend(r, steps, 4, 2, Swap(1));
    r, steps := Extend(r, steps, 4, 2, Flip(1));
    r, steps := Extend(r, steps, 4, 2, Merge(1));
  }

  /** Two more waiters arrive, and notifier 0 goes on with both of them in its batch. */
  lemma ReachLoss() returns (r: seq<State>, steps: seq<Step>)
    ensures Lossless(r, steps, 4, 2)
    ensures var c := r[|r| - 1]; Shape(c) && Enabled(c, Merge(0)) && LosesBatch(c, Merge(0))
    ensures var c := r[|r| - 1]; c.notif[0].succ == At(3) && |c.wait| == 4 && c.wait[3] == Parked
  {
    r, steps := Overtake();
    r, steps := Park(r, steps, 4, 2, 2);
    r, steps := Park(r, steps, 4, 2, 3);
    r, steps := Extend(r, steps, 4, 2, Swap(0));
    r, steps := Extend(r, steps, 4, 2, Flip(0));
  }

  /**
    Two overlapping calls of notify_one and four waiters: up to the last step all of them
    are accounted for; then waiter 3 is parked and out of reach, and stays so in every
    continuation.
   */
  lemma OverlapCanLose() returns (r: seq<State>, steps: seq<Step>)
    ensures Run(r, steps, 4, 2) && |r| > 1
    ensures forall i :: 0 <= i < |r| - 1 ==> Conserved(r[i])
    ensures LostAndParked(r[|r| - 1], 3)
    ensures forall r': seq<State>, steps': seq<Step>, j ::
      Run(r', steps', 4, 2) && r <= r' && |r| <= j < |r'| ==> LostAndParked(r'[j], 3)
  {
    r, steps := ReachLoss();
    ConservedIff(r, steps, 4, 2);
    r, steps := Grow(r, steps, 4, 2, Merge(0));
    var n := LossHasVictim(r, steps, 4, 2, |steps| - 1);
    forall r': seq<State>, steps': seq<Step>, j | Run(r', steps', 4, 2) && r <= r' && |r| <= j < |r'|
      ensures LostAndParked(r'[j], 3)
    {
      LostForever(r', steps', 4, 2, |r| - 1, j, 3);
    }
  }
}
