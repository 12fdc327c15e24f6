/**
  What the notifiers of a condition variable do when their calls do not overlap
  (lib/co_context/co/condition_variable.cpp:23-110): the waiters are a FIFO queue,
  notify_one takes the oldest one, and notify_all takes them all.
 */
module Notification {
  import opened Lists
  import M = Mutex
  import opened ConditionVariable
  import opened WaitMorphing

  /** The notifier that is in the middle of a call, if any. */
  ghost function Active(notif: seq<NotifyPc>): (k: nat)
    ensures k < |notif| || forall j :: 0 <= j < |notif| ==> notif[j] == Quiet
    ensures k < |notif| ==> notif[k] != Quiet
  {
    if k: nat :| k < |notif| && notif[k] != Quiet then k else |notif|
  }

  /** The waiters in the middle of a reversal, oldest first. */
  ghost function Flipped(c: State, v: View, k: nat): seq<Id>
  {
    if k < |c.notif| && k < |v.batch| && c.notif[k].Flipping? then Reverse(v.batch[k].rest) + v.batch[k].succ else []
  }

  /** Everybody who waits to be notified, oldest first. */
  ghost function Waiting(c: State, v: View): seq<Id> {
    v.resume + Flipped(c, v, Active(c.notif)) + Reverse(v.stack)
  }

  datatype Event =
    | Nothing
    | Waits(n: Id)
    | Takes(n: Id)               // notify_one has found its waiter
    | FindsNobody
    | TakesNewest(count: nat)    // the two halves of notify_all
    | TakesOldest(count: nat)

  ghost predicate Effect(q: seq<Id>, e: Event, q': seq<Id>) {
    match e
    case Nothing => q' == q
    case Waits(n) => q' == q + [n]
    case Takes(n) => q != [] && n == q[0] && q' == q[1..]
    case FindsNobody => q == [] == q'
    case TakesNewest(m) => m <= |q| && q' == q[..|q| - m]
    case TakesOldest(m) => m <= |q| && q' == q[m..]
  }

  /** Which event a step must be, told by the state alone. */
  ghost predicate EventFits(c: State, st: Step, e: Event)
    requires Shape(c) && Enabled(c, st)
  {
    match st
    case WaitCas(n, weak) => e == if c.awaiting == c.wait[n].seen && !weak then Waits(n) else Nothing
    case BeginOne(_) => e == if c.resumeHead.At? then Takes(c.resumeHead.id) else Nothing
    case Swap(_) => e == if c.awaiting == Null then FindsNobody else Nothing
    case Merge(k) => e == Takes(c.notif[k].head)
    case BeginAll(_) => e.TakesNewest? && exists s :: Linked(c.cnext, c.awaiting, s) && e.count == |s|
    case Collect(_) => e.TakesOldest? && exists s :: Linked(c.cnext, c.resumeHead, s) && e.count == |s|
    case _ => e == Nothing
  }

  ghost function EventOf(c: State, v: View, st: Step): Event
    requires Shape(c) && Enabled(c, st)
  {
    match st
    case WaitCas(n, weak) => if c.awaiting == c.wait[n].seen && !weak then Waits(n) else Nothing
    case BeginOne(_) => if c.resumeHead.At? then Takes(c.resumeHead.id) else Nothing
    case Swap(_) => if c.awaiting == Null then FindsNobody else Nothing
    case Merge(k) => Takes(c.notif[k].head)
    case BeginAll(_) => TakesNewest(|v.stack|)
    case Collect(_) => TakesOldest(|v.resume|)
    case _ => Nothing
  }

  /** Which notifier a step belongs to. */
  function Notifier(st: Step): Option<nat> {
    match st
    case BeginOne(k) => Some(k)
    case Swap(k) => Some(k)
    case Flip(k) => Some(k)
    case Merge(k) => Some(k)
    case Wake(k) => Some(k)
    case BeginAll(k) => Some(k)
    case Walk(k) => Some(k)
    case Collect(k) => Some(k)
    case _ => None
  }

  /** Notifier k runs alone. */
  ghost predicate Alone(c: State, k: nat) {
    && k < |c.notif|
    && (forall j :: 0 <= j < |c.notif| && j != k ==> c.notif[j] == Quiet)
    && (c.notif[k] == Swapping || c.notif[k].Flipping? ==> c.resumeHead == Null)
  }

  lemma WaitingOf(c: State, v: View, k: nat)
    requires Alone(c, k)
    ensures Waiting(c, v) == v.resume + Flipped(c, v, k) + Reverse(v.stack)
  {
    assert c.notif[k] == Quiet || Active(c.notif) == k;
  }

  lemma OneKeepsAlone(c: State, st: Step, k: nat)
    requires Shape(c) && Enabled(c, st) && Alone(c, k) && Notifier(st) == Some(k)
    requires st.BeginOne? || st.Swap? || st.Wake?
    ensures Alone(Apply(c, st), k) && !c.notif[k].Flipping?
    ensures Apply(c, st).notif[k].Flipping? ==> st.Swap? && c.awaiting.At?
    ensures st.Swap? ==> c.resumeHead == Null
  {
  }

  lemma BeginTakes(c: State, v: View, k: nat)
    requires CvInv(c, v) && Enabled(c, BeginOne(k))
    ensures NextView(c, v, BeginOne(k)).stack == v.stack
    ensures v.resume == [] ==> EventOf(c, v, BeginOne(k)) == Nothing && NextView(c, v, BeginOne(k)).resume == []
    ensures v.resume != [] ==>
      && EventOf(c, v, BeginOne(k)) == Takes(v.resume[0]) && NextView(c, v, BeginOne(k)).resume == v.resume[1..]
      && Apply(c, BeginOne(k)).notif[k] == Waking(v.resume[0])
  {
  }

  lemma SwapGrabs(c: State, v: View, k: nat)
    requires CvInv(c, v) && Enabled(c, Swap(k)) && c.resumeHead == Null
    ensures v.resume == [] == NextView(c, v, Swap(k)).resume && NextView(c, v, Swap(k)).stack == []
    ensures EventOf(c, v, Swap(k)) == if v.stack == [] then FindsNobody else Nothing
    ensures Flipped(Apply(c, Swap(k)), NextView(c, v, Swap(k)), k) == if v.stack == [] then [] else Reverse(v.stack) + []
  {
  }

  lemma BeginOneEffect(c: State, v: View, k: nat)
    requires CvInv(c, v) && Enabled(c, BeginOne(k)) && Alone(c, k) && Alone(Apply(c, BeginOne(k)), k)
    ensures Effect(Waiting(c, v), EventOf(c, v, BeginOne(k)), Waiting(Apply(c, BeginOne(k)), NextView(c, v, BeginOne(k))))
  {
    var v' := NextView(c, v, BeginOne(k));
    BeginTakes(c, v, k);
    WaitingOf(c, v, k);
    WaitingOf(Apply(c, BeginOne(k)), v', k);
    TakeEffect(v.resume, Reverse(v.stack), EventOf(c, v, BeginOne(k)), v'.resume);
  }

  lemma SwapEffect(c: State, v: View, k: nat)
    requires CvInv(c, v) && Enabled(c, Swap(k)) && Alone(c, k) && Alone(Apply(c, Swap(k)), k) && c.resumeHead == Null
    ensures Effect(Waiting(c, v), EventOf(c, v, Swap(k)), Waiting(Apply(c, Swap(k)), NextView(c, v, Swap(k))))
  {
    SwapGrabs(c, v, k);
    WaitingOf(c, v, k);
    WaitingOf(Apply(c, Swap(k)), NextView(c, v, Swap(k)), k);
    Grabbed(v.stack);
  }

  lemma NotifyOneStep(c: State, v: View, st: Step, k: nat)
    requires CvInv(c, v) && Enabled(c, st) && Alone(c, k) && Notifier(st) == Some(k)
    requires st.BeginOne? || st.Swap? || st.Wake?
    ensures Alone(Apply(c, st), k)
    ensures Effect(Waiting(c, v), EventOf(c, v, st), Waiting(Apply(c, st), NextView(c, v, st)))
    ensures EventOf(c, v, st).Takes? ==> Apply(c, st).notif[k] == Waking(EventOf(c, v, st).n)
  {
    OneKeepsAlone(c, st, k);
    match st
    case BeginOne(_) => BeginTakes(c, v, k); BeginOneEffect(c, v, k);
    case Swap(_) => SwapEffect(c, v, k);
    case Wake(_) =>
      WaitingOf(c, v, k);
      WaitingOf(Apply(c, st), NextView(c, v, st), k);
  }

  lemma BatchStep(c: State, v: View, st: Step, k: nat)
    requires CvInv(c, v) && Enabled(c, st) && Alone(c, k) && Notifier(st) == Some(k)
    requires st.Flip? || st.Merge?
    ensures Alone(Apply(c, st), k)
    ensures Effect(Waiting(c, v), EventOf(c, v, st), Waiting(Apply(c, st), NextView(c, v, st)))
    ensures EventOf(c, v, st).Takes? ==> Apply(c, st).notif[k] == Waking(EventOf(c, v, st).n)
  {
    var c', v' := Apply(c, st), NextView(c, v, st);
    WaitingOf(c, v, k);
    WaitingOf(c', v', k);
    assert BatchOk(c.cnext, c.notif[k], v.batch[k]);
    if st.Flip? {
      TurnFlips(v.batch[k].rest, v.batch[k].succ);
    } else {
      LastTaken(v.batch[k].rest[0], v.batch[k].succ, Reverse(v.stack));
    }
  }

  lemma TakeEffect(resume: seq<Id>, newer: seq<Id>, e: Event, resume': seq<Id>)
    requires if resume == [] then e == Nothing && resume' == [] else e == Takes(resume[0]) && resume' == resume[1..]
    ensures Effect(resume + [] + newer, e, resume' + [] + newer)
  {
    if resume != [] {
      assert (resume + [] + newer)[1..] == resume[1..] + [] + newer;
    }
  }

  lemma Grabbed(stack: seq<Id>)
    ensures [] + [] + Reverse(stack) == [] + (Reverse(stack) + []) + Reverse<Id>([])
    ensures [] + [] + Reverse<Id>([]) == []
  {
  }

  lemma TurnFlips(rest: seq<Id>, succ: seq<Id>)
    requires |rest| > 0
    ensures Reverse(rest) + succ == Reverse(rest[1..]) + ([rest[0]] + succ)
  {
    assert Reverse(rest[1..]) + [rest[0]] + succ == Reverse(rest[1..]) + ([rest[0]] + succ);
  }

  lemma LastTaken(oldest: Id, succ: seq<Id>, newer: seq<Id>)
    ensures var q := [] + (Reverse([oldest]) + succ) + newer; q != [] && q[0] == oldest && q[1..] == succ + [] + newer
  {
    assert Reverse([oldest]) == [oldest];
  }

  lemma NotifyAllStep(c: State, v: View, st: Step, k: nat)
    requires CvInv(c, v) && Enabled(c, st) && Alone(c, k) && Notifier(st) == Some(k)
    requires st.BeginAll? || st.Walk? || st.Collect?
    ensures Alone(Apply(c, st), k)
    ensures Effect(Waiting(c, v), EventOf(c, v, st), Waiting(Apply(c, st), NextView(c, v, st)))
  {
    var c', v' := Apply(c, st), NextView(c, v, st);
    WalkKeepsAlone(c, st, k);
    WaitingOf(c, v, k);
    WaitingOf(c', v', k);
    Halves(v.resume, v.stack);
  }

  lemma WalkKeepsAlone(c: State, st: Step, k: nat)
    requires Shape(c) && Enabled(c, st) && Alone(c, k) && Notifier(st) == Some(k)
    requires st.BeginAll? || st.Walk? || st.Collect?
    ensures Alone(Apply(c, st), k) && !c.notif[k].Flipping? && !Apply(c, st).notif[k].Flipping?
  {
  }

  lemma Halves(resume: seq<Id>, stack: seq<Id>)
    ensures var q := resume + [] + Reverse(stack);
      && q[..|q| - |stack|] == resume + [] + Reverse<Id>([])
      && q[|resume|..] == [] + [] + Reverse(stack)
  {
  }

  lemma OtherStep(c: State, v: View, st: Step)
    requires Shape(c) && Enabled(c, st) && |v.batch| == |c.notif| && Notifier(st) == None
    ensures Apply(c, st).notif == c.notif && Apply(c, st).resumeHead == c.resumeHead
    ensures Effect(Waiting(c, v), EventOf(c, v, st), Waiting(Apply(c, st), NextView(c, v, st)))
  {
    if st.WaitCas? {
      Joins(v.resume + Flipped(c, v, Active(c.notif)), v.stack, st.n);
    }
  }

  lemma Joins(older: seq<Id>, stack: seq<Id>, n: Id)
    ensures older + Reverse([n] + stack) == older + Reverse(stack) + [n]
  {
    ReverseCons(n, stack);
    assert older + (Reverse(stack) + [n]) == older + Reverse(stack) + [n];
  }

  /** Whoever runs next, it is the notifier that is active, or any one if none is. */
  lemma TurnIsAlone(r: seq<State>, steps: seq<Step>, count: nat, notifiers: nat, i: nat)
    requires Run(r, steps, count, notifiers) && TakesTurns(r, steps) && i < |steps| && Notifier(steps[i]).Some?
    ensures Shape(r[i]) && Enabled(r[i], steps[i]) && Alone(r[i], Notifier(steps[i]).value)
  {
    TurnsAreSolo(r, steps, count, notifiers, i);
  }

  /** A notify_one is about to register n on the mutex. */
  ghost predicate Taken(c: State, n: Id) {
    exists k :: 0 <= k < |c.notif| && c.notif[k] == Waking(n)
  }

  /** q lists waiters that no notifier has picked up, and misses none of them. */
  ghost predicate Enrols(c: State, q: seq<Id>) {
    && Shape(c)
    && (forall n :: n in q ==> n < |c.wait| && Suspended(c, n) && c.m.reg[n] == M.Off)
    && (forall n: nat :: n < |c.wait| && Suspended(c, n) && c.m.reg[n] == M.Off ==> n in q || PickedUp(c, n))
  }

  /** A notify_one is about to register n, or a notify_all still has n on the chain it walks. */
  ghost predicate PickedUp(c: State, n: Id) {
    exists k: nat :: InHands(c, k, n) && !c.notif[k].Flipping?
  }

  /**
    With calls that do not overlap, every run is step by step a run of a FIFO queue:
    waiting joins at the end, notify_one takes the oldest waiter to the mutex and finds
    nobody only if nobody waits, notify_all takes everybody in two halves.
   */
  lemma RefinesFifoQueue(r: seq<State>, steps: seq<Step>, count: nat, notifiers: nat)
    returns (queues: seq<seq<Id>>, events: seq<Event>)
    requires Run(r, steps, count, notifiers) && TakesTurns(r, steps)
    ensures |queues| == |r| && |events| == |steps| && queues[0] == []
    ensures forall i :: 0 <= i < |steps| ==> Effect(queues[i], events[i], queues[i + 1])
    ensures forall i :: 0 <= i < |steps| ==>
      Shape(r[i]) && Enabled(r[i], steps[i]) && EventFits(r[i], steps[i], events[i])
    ensures forall i :: 0 <= i < |steps| && events[i].Takes? ==> Taken(r[i + 1], events[i].n)
    ensures forall i :: 0 <= i < |r| ==> Enrols(r[i], queues[i])
  {
    LosslessTurns(r, steps, count, notifiers);
    queues := seq(|r|, i requires 0 <= i < |r| => Waiting(r[i], ViewAt(r, steps, count, notifiers, i)));
    events := seq(|steps|, i requires 0 <= i < |steps| =>
      if Shape(r[i]) && Enabled(r[i], steps[i])
      then EventOf(r[i], ViewAt(r, steps, count, notifiers, i), steps[i]) else Nothing);
    forall i | 0 <= i < |steps|
      ensures Effect(queues[i], events[i], queues[i + 1])
      ensures events[i].Takes? ==> Taken(r[i + 1], events[i].n)
      ensures Shape(r[i]) && Enabled(r[i], steps[i]) && EventFits(r[i], steps[i], events[i])
    {
      RunInv(r, steps, count, notifiers, i);
      RunStep(r, steps, count, notifiers, i);
      EventIs(r[i], ViewAt(r, steps, count, notifiers, i), steps[i]);
    }
    forall i | 0 <= i < |r| ensures Enrols(r[i], queues[i]) {
      RunInv(r, steps, count, notifiers, i);
      TurnsAreSolo(r, steps, count, notifiers, i);
      WaitersWait(r[i], ViewAt(r, steps, count, notifiers, i));
      forall n: Id ensures !Lost(r[i], n) { NobodyLost(r, steps, count, notifiers, i, n); }
      NobodyMissed(r[i], ViewAt(r, steps, count, notifiers, i));
    }
  }

  lemma EventIs(c: State, v: View, st: Step)
    requires CvInv(c, v) && Enabled(c, st)
    ensures EventFits(c, st, EventOf(c, v, st))
  {
  }

  lemma LosslessTurns(r: seq<State>, steps: seq<Step>, count: nat, notifiers: nat)
    requires Run(r, steps, count, notifiers) && TakesTurns(r, steps)
    ensures Lossless(r, steps, count, notifiers)
  {
    forall i | 0 <= i < |steps| ensures !LosesBatch(r[i], steps[i]) {
      TurnsAreSolo(r, steps, count, notifiers, i);
      SoloStep(r[i], steps[i]);
    }
  }

  lemma RunStep(r: seq<State>, steps: seq<Step>, count: nat, notifiers: nat, i: nat)
    requires Run(r, steps, count, notifiers) && TakesTurns(r, steps) && i < |steps|
    requires Inv(r[i], ViewAt(r, steps, count, notifiers, i))
    ensures Shape(r[i]) && Enabled(r[i], steps[i])
    ensures EventOf(r[i], ViewAt(r, steps, count, notifiers, i), steps[i]).Takes? ==>
      Taken(r[i + 1], EventOf(r[i], ViewAt(r, steps, count, notifiers, i), steps[i]).n)
    ensures var v := ViewAt(r, steps, count, notifiers, i);
      Effect(Waiting(r[i], v), EventOf(r[i], v, steps[i]),
             Waiting(r[i + 1], ViewAt(r, steps, count, notifiers, i + 1)))
  {
    var c, v, st := r[i], ViewAt(r, steps, count, notifiers, i), steps[i];
    assert ViewAt(r, steps, count, notifiers, i + 1) == NextView(c, v, st);
    if Notifier(st).None? {
      OtherStep(c, v, st);
    } else {
      TurnIsAlone(r, steps, count, notifiers, i);
      if st.BeginAll? || st.Walk? || st.Collect? {
        NotifyAllStep(c, v, st, Notifier(st).value);
      } else if st.Flip? || st.Merge? {
        BatchStep(c, v, st, Notifier(st).value);
      } else {
        NotifyOneStep(c, v, st, Notifier(st).value);
      }
    }
  }

  lemma WaitersWait(c: State, v: View)
    requires CvInv(c, v)
    ensures forall n :: n in Waiting(c, v) ==> n < |c.wait| && Suspended(c, n) && c.m.reg[n] == M.Off
  {
    var k := Active(c.notif);
    ReverseMembers(v.stack);
    if k < |c.notif| {
      ReverseMembers(v.batch[k].rest);
    }
    forall n | n in Waiting(c, v) ensures n < |c.wait| && Suspended(c, n) && c.m.reg[n] == M.Off {
      assert n in v.stack || n in v.resume || (k < |c.notif| && n in v.batch[k].rest + v.batch[k].succ);
      assert n < |v.place|;
      assert WaiterOk(c.m, c.cnext, c.wait[n], n, v.place[n]);
    }
  }

  lemma NobodyMissed(c: State, v: View)
    requires CvInv(c, v) && RangeInv(c, v) && Solo(c) && (forall n: Id :: !Lost(c, n))
    ensures forall n: nat :: n < |c.wait| && Suspended(c, n) && c.m.reg[n] == M.Off ==> n in Waiting(c, v) || PickedUp(c, n)
  {
    forall n: nat | n < |c.wait| && Suspended(c, n) && c.m.reg[n] == M.Off
      ensures n in Waiting(c, v) || PickedUp(c, n)
    {
      PlaceTells(c, v, n);
      if v.place[n].InBatch? {
        BatchWaits(c, v, n);
      } else {
        ListWaits(c, v, n);
      }
    }
  }

  lemma ListWaits(c: State, v: View, n: Id)
    requires ListInv(c, v) && n < |v.place| && (v.place[n].OnStack? || v.place[n].OnResume?)
    ensures n in Waiting(c, v)
  {
    ReverseMembers(v.stack);
    assert n in v.stack || n in v.resume;
  }

  lemma BatchWaits(c: State, v: View, n: Id)
    requires BatchInv(c, v) && RangeInv(c, v) && Solo(c) && n < |v.place| && v.place[n].InBatch?
    requires InHands(c, v.place[n].k, n)
    ensures n in Waiting(c, v) || PickedUp(c, n)
  {
    var k := v.place[n].k;
    assert n in v.batch[k].rest + v.batch[k].succ;
    assert BatchOk(c.cnext, c.notif[k], v.batch[k]);
    ReverseMembers(v.batch[k].rest);
    if c.notif[k].Flipping? {
      assert Active(c.notif) == k;
      assert n in Flipped(c, v, k);
    }
  }

  // ----- notify_all

  /** Notifier k registers n on the mutex in this step of its walk. */
  ghost predicate HandsOver(c: State, st: Step, k: nat, n: Id) {
    st == Walk(k) && k < |c.notif| && c.notif[k].Walking? && c.notif[k].p == At(n)
  }

  /** Where a waiter can be that a notify_all in progress still has to reach. */
  predicate StillToReach(pc: NotifyPc, p: Place, k: nat) {
    match pc
    case Walking(_, second) => p == InBatch(k) || (!second && p == OnResume)
    case Collecting => p == OnResume
    case _ => false
  }

  lemma ReachStep(c: State, v: View, st: Step, k: nat, n: Id)
    requires Inv(c, v) && Enabled(c, st) && k < |c.notif| && n < |v.place|
    requires StillToReach(c.notif[k], v.place[n], k) && (Notifier(st).Some? ==> Notifier(st) == Some(k))
    ensures n < |NextView(c, v, st).place|
    ensures HandsOver(c, st, k, n) || StillToReach(Apply(c, st).notif[k], NextView(c, v, st).place[n], k)
  {
    assert WaiterOk(c.m, c.cnext, c.wait[n], n, v.place[n]);
    assert BatchOk(c.cnext, c.notif[k], v.batch[k]);
    if st.Lock? {
      LockWaitInv(c, v, st.s);
    }
    assert v.place[n] == InBatch(k) ==> n in v.batch[k].rest + v.batch[k].succ;
  }

  /** When notify_all starts, everybody who is not being registered waits for it. */
  lemma AllWait(r: seq<State>, steps: seq<Step>, count: nat, notifiers: nat, i: nat, k: nat, n: Id)
    requires Run(r, steps, count, notifiers) && TakesTurns(r, steps) && i < |steps| && steps[i] == BeginAll(k)
    requires Shape(r[i]) && n < |r[i].wait| && Suspended(r[i], n) && r[i].m.reg[n] == M.Off
    ensures n in Waiting(r[i], ViewAt(r, steps, count, notifiers, i))
  {
    LosslessTurns(r, steps, count, notifiers);
    RunInv(r, steps, count, notifiers, i);
    TurnsAreSolo(r, steps, count, notifiers, i);
    forall x: Id ensures !Lost(r[i], x) { NobodyLost(r, steps, count, notifiers, i, x); }
    NobodyMissed(r[i], ViewAt(r, steps, count, notifiers, i));
    assert forall j: nat :: j < |r[i].notif| ==> r[i].notif[j] == Quiet;
  }

  lemma StartReaches(r: seq<State>, steps: seq<Step>, count: nat, notifiers: nat, i: nat, k: nat, n: Id)
    requires Run(r, steps, count, notifiers) && TakesTurns(r, steps) && i < |steps| && steps[i] == BeginAll(k)
    requires n in Waiting(r[i], ViewAt(r, steps, count, notifiers, i))
    ensures GoingAt(r, steps, count, notifiers, i + 1, k, n)
  {
    LosslessTurns(r, steps, count, notifiers);
    RunInv(r, steps, count, notifiers, i);
    TurnIsAlone(r, steps, count, notifiers, i);
    Starts(r[i], ViewAt(r, steps, count, notifiers, i), k, n);
  }

  lemma KeepsReaching(r: seq<State>, steps: seq<Step>, count: nat, notifiers: nat, i: nat, k: nat, n: Id)
    requires Run(r, steps, count, notifiers) && TakesTurns(r, steps) && i < |steps|
    requires GoingAt(r, steps, count, notifiers, i, k, n)
    ensures HandsOver(r[i], steps[i], k, n) || GoingAt(r, steps, count, notifiers, i + 1, k, n)
  {
    LosslessTurns(r, steps, count, notifiers);
    RunInv(r, steps, count, notifiers, i);
    OnlyTheActive(r, steps, count, notifiers, i, k);
    ReachStep(r[i], ViewAt(r, steps, count, notifiers, i), steps[i], k, n);
  }

  /**
    From its start to its return, a notify_all that is not overlapped registers on the
    mutex everybody who was suspended when it started and not being registered already.
   */
  lemma NotifyAllReachesAll(
      r: seq<State>, steps: seq<Step>, count: nat, notifiers: nat, i: nat, j: nat, k: nat, n: Id)
    requires Run(r, steps, count, notifiers) && TakesTurns(r, steps) && i < j < |r|
    requires steps[i] == BeginAll(k) && IsQuiet(r[j], k)
    requires Shape(r[i]) && n < |r[i].wait| && Suspended(r[i], n) && r[i].m.reg[n] == M.Off
    ensures exists m :: i < m < j && HandsOver(r[m], steps[m], k, n)
  {
    AllWait(r, steps, count, notifiers, i, k, n);
    StartReaches(r, steps, count, notifiers, i, k, n);
    var m := Handover(r, steps, count, notifiers, i + 1, j, k, n);
  }

  lemma {:induction false} Handover(
      r: seq<State>, steps: seq<Step>, count: nat, notifiers: nat, i: nat, j: nat, k: nat, n: Id) returns (m: nat)
    requires GoingAt(r, steps, count, notifiers, i, k, n) && TakesTurns(r, steps)
    requires i <= j < |r| && IsQuiet(r[j], k)
    ensures i <= m < j && HandsOver(r[m], steps[m], k, n)
    decreases j - i
  {
    NotQuiet(r[i], k, n, ViewAt(r, steps, count, notifiers, i));
    m := i;
    if !HandsOver(r[i], steps[i], k, n) {
      KeepsReaching(r, steps, count, notifiers, i, k, n);
      m := Handover(r, steps, count, notifiers, i + 1, j, k, n);
    }
  }

  lemma NotQuiet(c: State, k: nat, n: Id, v: View)
    requires StillGoing(c, v, k, n)
    ensures !IsQuiet(c, k)
  {
  }

  ghost predicate GoingAt(r: seq<State>, steps: seq<Step>, count: nat, notifiers: nat, i: nat, k: nat, n: Id) {
    Run(r, steps, count, notifiers) && i < |r| && StillGoing(r[i], ViewAt(r, steps, count, notifiers, i), k, n)
  }

  ghost predicate IsQuiet(c: State, k: nat) {
    k < |c.notif| && c.notif[k] == Quiet
  }

  ghost predicate StillGoing(c: State, v: View, k: nat, n: Id) {
    k < |c.notif| && n < |v.place| && StillToReach(c.notif[k], v.place[n], k)
  }

  /** While notifier k is active, no other one takes a step. */
  lemma OnlyTheActive(r: seq<State>, steps: seq<Step>, count: nat, notifiers: nat, i: nat, k: nat)
    requires Run(r, steps, count, notifiers) && TakesTurns(r, steps) && i < |steps|
    requires k < |r[i].notif| && r[i].notif[k] != Quiet
    ensures Notifier(steps[i]).Some? ==> Notifier(steps[i]) == Some(k)
  {
    TurnsAreSolo(r, steps, count, notifiers, i);
  }

  lemma Starts(c: State, v: View, k: nat, n: Id)
    requires CvInv(c, v) && Enabled(c, BeginAll(k)) && Alone(c, k) && n in Waiting(c, v)
    ensures StillGoing(Apply(c, BeginAll(k)), NextView(c, v, BeginAll(k)), k, n)
  {
    WaitingOf(c, v, k);
    ReverseMembers(v.stack);
    assert n in v.stack || n in v.resume;
  }
}
