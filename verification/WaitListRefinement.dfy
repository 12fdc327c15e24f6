/**
  The pointers of a condition variable under notify_one
  (lib/co_context/co/condition_variable.cpp:6-82) do what `WaitLists` says, in every
  interleaving of waiters, lockers and notifiers, overlapping calls included.
 */
module WaitListRefinement {
  import opened Lists
  import opened WaitLists
  import C = ConditionVariable
  import opened WaitMorphing

  /** The lists, and for each notifier where its call is, if one is going on. */
  datatype Waiters = Waiters(cv: Cv, calls: seq<Option<Call>>)

  function AfterCall(w: Waiters, k: nat, call: Call): Waiters
    requires k < |w.calls|
  {
    var (cv', next) := Advance(w.cv, call);
    Waiters(cv', w.calls[k := next])
  }

  /** The section of notify_one that a step is. */
  function Section(w: Waiters, st: C.Step): Option<Call> {
    match st
    case BeginOne(_) => Some(Start)
    case Swap(k) => if k < |w.calls| then w.calls[k] else None
    case Merge(k) => if k < |w.calls| then w.calls[k] else None
    case Wake(k) => if k < |w.calls| then w.calls[k] else None
    case _ => None
  }

  /** What a step of the code does to the lists; the reversal of a batch does nothing. */
  ghost predicate Effect(c: C.State, st: C.Step, w: Waiters, w': Waiters)
    requires C.Shape(c) && C.Enabled(c, st)
  {
    match st
    case WaitCas(n, weak) =>
      w' == if c.awaiting == c.wait[n].seen && !weak then w.(cv := Push(w.cv, n)) else w
    case BeginOne(k) => k < |w.calls| && w.calls[k] == None && w' == AfterCall(w, k, Start)
    case Swap(k) => k < |w.calls| && w.calls[k] == Some(Swap) && w' == AfterCall(w, k, Swap)
    case Merge(k) => k < |w.calls| && w.calls[k].Some? && w.calls[k].value.Batch? && w' == AfterCall(w, k, w.calls[k].value)
    case Wake(k) =>
      && k < |w.calls| && w.calls[k] == Some(Hand(c.notif[k].node)) && w' == AfterCall(w, k, Hand(c.notif[k].node))
    case _ => w' == w
  }

  function DroppedBy(w: Waiters, st: C.Step): seq<Id> {
    if Section(w, st).Some? then Dropped(w.cv, Section(w, st).value) else []
  }

  ghost predicate CallMatches(c: C.State, pc: C.NotifyPc, call: Option<Call>) {
    match call
    case None => pc == C.Quiet
    case Some(Start) => false
    case Some(Swap) => pc == C.Swapping
    case Some(Hand(w)) => pc == C.Waking(w)
    case Some(Batch(b)) =>
      pc.Flipping? && exists rest: seq<Id>, succ: seq<Id> ::
        Linked(c.cnext, At(pc.head), rest) && Linked(c.cnext, pc.succ, succ) && b == Reverse(rest) + succ
  }

  /** By the pointers, the lists of c and the hands of its notifiers are those of w. */
  ghost predicate Matches(c: C.State, w: Waiters) {
    && Linked(c.cnext, c.awaiting, w.cv.awaiting)
    && Linked(c.cnext, c.resumeHead, w.cv.toResume)
    && |w.calls| == |c.notif|
    && forall k :: 0 <= k < |c.notif| ==> CallMatches(c, c.notif[k], w.calls[k])
  }

  ghost function CvOf(c: C.State, v: C.View): Cv {
    Cv(v.stack, v.resume, v.resume != [] && c.resumeTail != At(v.resume[|v.resume| - 1]))
  }

  ghost function CallOf(pc: C.NotifyPc, b: C.Batch): Option<Call> {
    match pc
    case Swapping => Some(Swap)
    case Flipping(_, _, _, _) => Some(Batch(Reverse(b.rest) + b.succ))
    case Waking(n) => Some(Hand(n))
    case _ => None
  }

  ghost function WaitersOf(c: C.State, v: C.View): Waiters
    requires |v.batch| == |c.notif|
  {
    Waiters(CvOf(c, v), seq(|c.notif|, k requires 0 <= k < |c.notif| => CallOf(c.notif[k], v.batch[k])))
  }

  ghost predicate NoNotifyAll(steps: seq<C.Step>) {
    forall i {:trigger steps[i]} :: 0 <= i < |steps| ==> !steps[i].BeginAll?
  }

  /** No notify_all is going on. */
  ghost predicate OnesOnly(c: C.State) {
    forall k :: 0 <= k < |c.notif| ==> !c.notif[k].Walking? && c.notif[k] != C.Collecting
  }

  lemma OnesOnlyStep(c: C.State, st: C.Step)
    requires C.Shape(c) && C.Enabled(c, st) && OnesOnly(c) && !st.BeginAll?
    ensures OnesOnly(C.Apply(c, st))
  {
  }

  lemma StateMatches(c: C.State, v: C.View)
    requires C.CvInv(c, v) && OnesOnly(c)
    ensures Matches(c, WaitersOf(c, v))
  {
    forall k | 0 <= k < |c.notif| ensures CallMatches(c, c.notif[k], CallOf(c.notif[k], v.batch[k])) {
      assert C.BatchOk(c.cnext, c.notif[k], v.batch[k]);
      if c.notif[k].Flipping? {
        assert Linked(c.cnext, At(c.notif[k].head), v.batch[k].rest) && Linked(c.cnext, c.notif[k].succ, v.batch[k].succ);
      }
    }
  }

  /** A step of notifier k that leaves c' and v' with one new call and one new batch. */
  lemma OneCall(
      c: C.State, v: C.View, k: nat, c': C.State, v': C.View, pc: C.NotifyPc, b: C.Batch, cv: Cv, next: Option<Call>)
    requires |v.batch| == |c.notif| && k < |c.notif|
    requires c'.notif == c.notif[k := pc] && v'.batch == v.batch[k := b]
    requires CvOf(c', v') == cv && CallOf(pc, b) == next
    ensures WaitersOf(c', v') == Waiters(cv, WaitersOf(c, v).calls[k := next])
  {
  }

  lemma BeginStep(c: C.State, v: C.View, k: nat)
    requires C.CvInv(c, v) && C.Enabled(c, C.BeginOne(k))
    ensures Effect(c, C.BeginOne(k), WaitersOf(c, v), WaitersOf(C.Apply(c, C.BeginOne(k)), C.NextView(c, v, C.BeginOne(k))))
  {
    var c', v' := C.Apply(c, C.BeginOne(k)), C.NextView(c, v, C.BeginOne(k));
    var (cv, next) := Advance(CvOf(c, v), Start);
    assert v.batch[k] == C.EMPTY;
    OneCall(c, v, k, c', v', c'.notif[k], v'.batch[k], cv, next);
  }

  lemma SwapStep(c: C.State, v: C.View, k: nat)
    requires C.CvInv(c, v) && C.Enabled(c, C.Swap(k))
    ensures Effect(c, C.Swap(k), WaitersOf(c, v), WaitersOf(C.Apply(c, C.Swap(k)), C.NextView(c, v, C.Swap(k))))
  {
    var c', v' := C.Apply(c, C.Swap(k)), C.NextView(c, v, C.Swap(k));
    var (cv, next) := Advance(CvOf(c, v), Swap);
    assert Reverse(v.stack) + [] == Reverse(v.stack);
    OneCall(c, v, k, c', v', c'.notif[k], v'.batch[k], cv, next);
  }

  lemma FlipStep(c: C.State, v: C.View, k: nat)
    requires C.CvInv(c, v) && C.Enabled(c, C.Flip(k))
    ensures WaitersOf(C.Apply(c, C.Flip(k)), C.NextView(c, v, C.Flip(k))) == WaitersOf(c, v)
  {
    var c', v' := C.Apply(c, C.Flip(k)), C.NextView(c, v, C.Flip(k));
    var succ, rest := v.batch[k].succ, v.batch[k].rest;
    assert C.BatchOk(c.cnext, c.notif[k], v.batch[k]);
    assert Reverse(rest[1..]) + ([rest[0]] + succ) == Reverse(rest) + succ;
    OneCall(c, v, k, c', v', c'.notif[k], v'.batch[k], CvOf(c, v), WaitersOf(c, v).calls[k]);
  }

  lemma MergeStep(c: C.State, v: C.View, k: nat)
    requires C.CvInv(c, v) && C.Enabled(c, C.Merge(k))
    ensures Effect(c, C.Merge(k), WaitersOf(c, v), WaitersOf(C.Apply(c, C.Merge(k)), C.NextView(c, v, C.Merge(k))))
  {
    var c', v' := C.Apply(c, C.Merge(k)), C.NextView(c, v, C.Merge(k));
    var head, succ := c.notif[k].head, v.batch[k].succ;
    MergeFacts(c, v, k);
    MergeTail(c, v, k);
    var (cv, next) := Advance(CvOf(c, v), Batch([head] + succ));
    assert ([head] + succ)[1..] == succ;
    OneCall(c, v, k, c', v', c'.notif[k], v'.batch[k], cv, next);
  }

  lemma MergeFacts(c: C.State, v: C.View, k: nat)
    requires C.CvInv(c, v) && C.Enabled(c, C.Merge(k))
    ensures var head, succ := c.notif[k].head, v.batch[k].succ;
      && v.batch[k].rest == [head] && Reverse(v.batch[k].rest) + succ == [head] + succ
      && CallOf(c.notif[k], v.batch[k]) == Some(Batch([head] + succ))
  {
    assert C.BatchOk(c.cnext, c.notif[k], v.batch[k]);
    assert Reverse([c.notif[k].head]) == [c.notif[k].head];
  }

  /** Where to_resume_tail points after steps 4 and 5. */
  lemma MergeTail(c: C.State, v: C.View, k: nat)
    requires C.CvInv(c, v) && C.Enabled(c, C.Merge(k)) && v.batch[k].rest == [c.notif[k].head]
    ensures var c', v' := C.Apply(c, C.Merge(k)), C.NextView(c, v, C.Merge(k));
      CvOf(c', v') == Advance(CvOf(c, v), Batch([c.notif[k].head] + v.batch[k].succ)).0
  {
    var head, tail, succ := c.notif[k].head, c.notif[k].tail, v.batch[k].succ;
    assert C.BatchOk(c.cnext, c.notif[k], v.batch[k]);
    assert ([head] + succ)[1..] == succ;
    TailOfBatch(c, v, k);
    if v.resume != [] {
      assert v.resume[|v.resume| - 1] in v.resume;
    }
  }

  lemma TailOfBatch(c: C.State, v: C.View, k: nat)
    requires C.CvInv(c, v) && C.Enabled(c, C.Merge(k)) && v.batch[k].rest == [c.notif[k].head]
    ensures c.notif[k].tail !in v.resume
    ensures c.notif[k].tail == c.notif[k].head <==> v.batch[k].succ == []
  {
    var head, tail, succ := c.notif[k].head, c.notif[k].tail, v.batch[k].succ;
    assert C.BatchOk(c.cnext, c.notif[k], v.batch[k]);
    DistinctTail([head] + succ);
    assert ([head] + succ)[1..] == succ;
    assert tail in [head] + succ by {
      if succ != [] { assert tail == ([head] + succ)[|succ|]; }
    }
    assert v.place[tail] == C.InBatch(k);
  }

  lemma WakeStep(c: C.State, v: C.View, k: nat)
    requires C.CvInv(c, v) && C.Enabled(c, C.Wake(k))
    ensures Effect(c, C.Wake(k), WaitersOf(c, v), WaitersOf(C.Apply(c, C.Wake(k)), C.NextView(c, v, C.Wake(k))))
  {
    var c', v' := C.Apply(c, C.Wake(k)), C.NextView(c, v, C.Wake(k));
    assert C.BatchOk(c.cnext, c.notif[k], v.batch[k]);
    OneCall(c, v, k, c', v', c'.notif[k], v'.batch[k], CvOf(c, v), None);
  }

  lemma ListStep(c: C.State, v: C.View, st: C.Step)
    requires C.CvInv(c, v) && C.Enabled(c, st) && OnesOnly(c) && !st.BeginAll?
    ensures |C.NextView(c, v, st).batch| == |C.Apply(c, st).notif|
    ensures Effect(c, st, WaitersOf(c, v), WaitersOf(C.Apply(c, st), C.NextView(c, v, st)))
  {
    match st
    case BeginOne(k) => BeginStep(c, v, k);
    case Swap(k) => SwapStep(c, v, k);
    case Flip(k) => FlipStep(c, v, k);
    case Merge(k) => MergeStep(c, v, k);
    case Wake(k) => WakeStep(c, v, k);
    case _ => OtherStep(c, v, st);
  }

  lemma OtherStep(c: C.State, v: C.View, st: C.Step)
    requires C.Shape(c) && C.Enabled(c, st) && OnesOnly(c) && |v.batch| == |c.notif|
    requires !(st.BeginOne? || st.Swap? || st.Flip? || st.Merge? || st.Wake? || st.BeginAll?)
    ensures |C.NextView(c, v, st).batch| == |C.Apply(c, st).notif|
    ensures Effect(c, st, WaitersOf(c, v), WaitersOf(C.Apply(c, st), C.NextView(c, v, st)))
  {
    if st.Walk? || st.Collect? { assert false; }
  }

  /** A step loses exactly the waiters that it drops from the lists. */
  lemma LossStep(c: C.State, v: C.View, st: C.Step, n: Id)
    requires C.Inv(c, v) && C.Enabled(c, st) && OnesOnly(c) && !st.BeginAll? && n < |c.wait|
    ensures C.Lost(C.Apply(c, st), n) <==> C.Lost(c, n) || n in DroppedBy(WaitersOf(c, v), st)
  {
    C.LostStep(c, v, st, n);
    if st.Merge? {
      LossOfMerge(c, v, st.k, n);
    }
  }

  lemma LossOfMerge(c: C.State, v: C.View, k: nat, n: Id)
    requires C.CvInv(c, v) && C.RangeInv(c, v) && C.Enabled(c, C.Merge(k)) && n < |c.wait|
    ensures C.LeftBehind(c, C.Merge(k), n) <==> n in DroppedBy(WaitersOf(c, v), C.Merge(k))
  {
    var head, succ := c.notif[k].head, v.batch[k].succ;
    C.LeftBehindIs(c, v, k, n);
    MergeFacts(c, v, k);
    assert ([head] + succ)[1..] == succ;
    if v.resume != [] {
      TailAdrift(c, v);
    }
  }

  lemma TailAdrift(c: C.State, v: C.View)
    requires C.CvInv(c, v) && v.resume != []
    ensures C.PointsAdrift(v, c.resumeTail) <==> c.resumeTail != At(v.resume[|v.resume| - 1])
  {
    assert v.resume[|v.resume| - 1] in v.resume;
  }

  /**
    Every run without notify_all is, step by step, a run of the two lists: each waiter
    pushed, taken, registered or dropped where `WaitLists` says, and lost exactly if dropped.
   */
  lemma RefinesWaitLists(r: seq<C.State>, steps: seq<C.Step>, count: nat, notifiers: nat) returns (w: seq<Waiters>)
    requires Run(r, steps, count, notifiers) && NoNotifyAll(steps)
    ensures |w| == |r| && w[0] == Waiters(NOBODY, seq(notifiers, _ => None))
    ensures forall i :: 0 <= i < |r| ==> Matches(r[i], w[i])
    ensures forall i :: 0 <= i < |steps| ==>
      C.Shape(r[i]) && C.Enabled(r[i], steps[i]) && Effect(r[i], steps[i], w[i], w[i + 1])
    ensures forall i, n: Id :: 0 <= i < |steps| && n < count ==>
      (C.Lost(r[i + 1], n) <==> C.Lost(r[i], n) || n in DroppedBy(w[i], steps[i]))
  {
    w := seq(|r|, i requires 0 <= i < |r| => WaitersAt(r, steps, count, notifiers, i));
    StartsEmpty(count, notifiers);
    forall i | 0 <= i < |r| ensures Matches(r[i], w[i]) {
      RunInv(r, steps, count, notifiers, i);
      OnesAt(r, steps, count, notifiers, i);
      StateMatches(r[i], ViewAt(r, steps, count, notifiers, i));
    }
    forall i | 0 <= i < |steps|
      ensures C.Shape(r[i]) && C.Enabled(r[i], steps[i]) && Effect(r[i], steps[i], w[i], w[i + 1])
      ensures forall n: Id :: n < count ==>
        (C.Lost(r[i + 1], n) <==> C.Lost(r[i], n) || n in DroppedBy(w[i], steps[i]))
    {
      EffectAt(r, steps, count, notifiers, i);
    }
  }

  ghost function WaitersAt(r: seq<C.State>, steps: seq<C.Step>, count: nat, notifiers: nat, i: nat): Waiters
    requires Run(r, steps, count, notifiers) && i < |r|
  {
    RunInv(r, steps, count, notifiers, i);
    WaitersOf(r[i], ViewAt(r, steps, count, notifiers, i))
  }

  lemma StartsEmpty(count: nat, notifiers: nat)
    ensures |C.InitView(count, notifiers).batch| == |C.Init(count, notifiers).notif|
    ensures WaitersOf(C.Init(count, notifiers), C.InitView(count, notifiers)) == Waiters(NOBODY, seq(notifiers, _ => None))
  {
  }

  lemma {:induction false} OnesAt(r: seq<C.State>, steps: seq<C.Step>, count: nat, notifiers: nat, i: nat)
    requires Run(r, steps, count, notifiers) && i < |r| && NoNotifyAll(steps)
    ensures OnesOnly(r[i])
  {
    if i > 0 {
      OnesAt(r, steps, count, notifiers, i - 1);
      StepAt(r, steps, count, notifiers, i - 1);
      OnesOnlyStep(r[i - 1], steps[i - 1]);
    }
  }

  lemma EffectAt(r: seq<C.State>, steps: seq<C.Step>, count: nat, notifiers: nat, i: nat)
    requires Run(r, steps, count, notifiers) && i < |steps| && NoNotifyAll(steps)
    ensures C.Shape(r[i]) && C.Enabled(r[i], steps[i])
    ensures Effect(r[i], steps[i], WaitersAt(r, steps, count, notifiers, i), WaitersAt(r, steps, count, notifiers, i + 1))
    ensures forall n: Id :: n < count ==>
      (C.Lost(r[i + 1], n) <==> C.Lost(r[i], n) || n in DroppedBy(WaitersAt(r, steps, count, notifiers, i), steps[i]))
  {
    OnesAt(r, steps, count, notifiers, i);
    StepAt(r, steps, count, notifiers, i);
    var v := ViewAt(r, steps, count, notifiers, i);
    ListStep(r[i], v, steps[i]);
    forall n: Id | n < count
      ensures C.Lost(r[i + 1], n) <==> C.Lost(r[i], n) || n in DroppedBy(WaitersOf(r[i], v), steps[i])
    {
      LossStep(r[i], v, steps[i], n);
    }
  }
}
