/**
  `shared_task` (include/co_context/shared_task.hpp:33-178): a coroutine that the first
  awaiter starts and that everybody may await.  One word says how far it is: not
  started, running with a list of waiters, or ready.

  Steps are the atomic operations on the word, and the moves of the task itself.  The
  walk over the waiters at completion takes the list it exchanged out, node by node.
  Handles come and go beside that: the last one to go destroys the frame, in whatever
  state the task and its awaiters are, for awaiting takes no reference.
 */
module SharedTask {
  import opened Lists

  datatype Word = NotStarted | Running(list: seq<Id>) | Ready   // newest waiter first

  /** What a load of the word sees. */
  datatype Seen = SeesNotStarted | SeesList(head: Ptr) | SeesReady

  function Look(w: Word): Seen {
    match w
    case NotStarted => SeesNotStarted
    case Running(list) => SeesList(HeadOf(list))
    case Ready => SeesReady
  }

  datatype Pc =
    | Idle
    | Asked                       // made the awaitable, which keeps the bare coroutine handle
    | Suspending                  // await_ready said no
    | Loaded(seen: Seen)          // in try_await
    | Starting                    // in coroutine.resume()
    | Returned                    // back from it, about to load again
    | Waiting                     // try_await returned true
    | Spawned                     // co_spawn_auto has been called for it
    | Through                     // await_resume is next: it reads the result

  datatype Task =
    | Fresh
    | Inside(n: Id)                               // runs in the resume() of awaiter n
    | Away                                        // suspended, or running on some worker
    | Walking(list: seq<Id>, inside: Option<Id>)  // completed: waking the waiters
    | Over

  datatype State = State(
    word: Word, task: Task, pc: seq<Pc>,
    refs: nat,                    // ref_count_: the number of live handles
    destroyed: bool,              // the coroutine frame is gone
    starts: nat, starter: Option<Id>, pushed: seq<Id>, spawned: seq<Id>)   // history

  function Init(count: nat): State {
    State(NotStarted, Fresh, seq(count, _ => Idle), 1, false, 0, None, [], [])
  }

  datatype Step =
    | Await(n: Id) | Check(n: Id) | Load(n: Id) | CasStart(n: Id) | CasPush(n: Id, spurious: bool)
    | Resume(n: Id) | Read(n: Id)
    | Suspend | Complete | Wake
    | Copy | Drop

  /** To await or to copy, or to drop a handle, takes a live handle; going on with an await does not. */
  predicate Enabled(s: State, st: Step) {
    match st
    case Await(n) => n < |s.pc| && s.pc[n].Idle? && s.refs > 0
    case Check(n) => n < |s.pc| && s.pc[n].Asked?
    case Load(n) => n < |s.pc| && (s.pc[n].Suspending? || s.pc[n].Returned?)
    case CasStart(n) => n < |s.pc| && s.pc[n] == Loaded(SeesNotStarted)
    case CasPush(n, _) => n < |s.pc| && s.pc[n].Loaded? && s.pc[n] != Loaded(SeesNotStarted)
    case Resume(n) => n < |s.pc| && s.pc[n].Spawned?
    case Read(n) => n < |s.pc| && s.pc[n].Through?
    case Suspend => s.task.Inside? && s.task.n < |s.pc|
    case Complete => s.task.Inside? || s.task.Away?
    case Wake => s.task.Walking?
    case Copy => s.refs > 0
    case Drop => s.refs > 0
  }

  function SetPc(s: State, n: Id, p: Pc): State
    requires n < |s.pc|
  {
    s.(pc := s.pc[n := p])
  }

  function Apply(s: State, st: Step): State
    requires Enabled(s, st)
  {
    match st
    case Await(n) => SetPc(s, n, Asked)
    case Check(n) => SetPc(s, n, if s.word.Ready? then Through else Suspending)
    case Load(n) => SetPc(s, n, Loaded(Look(s.word)))
    case CasStart(n) =>
      if s.word.NotStarted?
      then SetPc(s, n, Starting).(word := Running([]), task := Inside(n), starts := s.starts + 1, starter := Some(n))
      else SetPc(s, n, Loaded(Look(s.word)))
    case CasPush(n, spurious) =>
      if s.pc[n].seen.SeesReady? then SetPc(s, n, Through)
      else if spurious || Look(s.word) != s.pc[n].seen then SetPc(s, n, Loaded(Look(s.word)))
      else SetPc(s, n, Waiting).(word := Running([n] + s.word.list), pushed := s.pushed + [n])
    case Resume(n) => SetPc(s, n, Through)
    case Read(n) => SetPc(s, n, Idle)
    case Suspend => SetPc(s, s.task.n, Returned).(task := Away)
    case Complete =>
      s.(word := Ready,
         task := Walking(if s.word.Running? then s.word.list else [], if s.task.Inside? then Some(s.task.n) else None))
    case Wake =>
      if |s.task.list| > 0 then
        var w := s.task.list[0];
        var t := s.(task := Walking(s.task.list[1..], s.task.inside), spawned := s.spawned + [w]);
        if w < |s.pc| then SetPc(t, w, Spawned) else t
      else
        var t := s.(task := Over);
        if s.task.inside.Some? && s.task.inside.value < |s.pc| then SetPc(t, s.task.inside.value, Returned) else t
    case Copy => s.(refs := s.refs + 1)
    case Drop => s.(refs := s.refs - 1, destroyed := s.refs == 1)
  }

  /**
    The steps that access the frame.  A try_await that has seen the ready value, the
    walk over the waiters and the resumption of an awaiter do not.
   */
  predicate Touches(s: State, st: Step)
    requires Enabled(s, st)
  {
    match st
    case Await(_) => false
    case CasPush(n, _) => !s.pc[n].seen.SeesReady?
    case Resume(_) => false
    case Wake => false
    case _ => true
  }

  ghost predicate UseAfterFree(s: State, st: Step) {
    Enabled(s, st) && s.destroyed && Touches(s, st)
  }

  // ----- invariant

  /** The awaiter in whose resume() the task runs or completed. */
  function Host(t: Task): Option<Id> {
    match t
    case Inside(n) => Some(n)
    case Walking(_, inside) => inside
    case _ => None
  }

  /** Waiters the task still has to wake at completion. */
  function ToWake(s: State): seq<Id> {
    if s.task.Walking? then s.task.list else []
  }

  ghost predicate PhaseInv(s: State) {
    match s.word
    case NotStarted => s.task == Fresh && s.starts == 0 && s.pushed == [] == s.spawned
    case Running(list) => (s.task.Inside? || s.task.Away?) && s.starts == 1 && list == Reverse(s.pushed) && s.spawned == []
    case Ready => (s.task.Walking? || s.task.Over?) && s.starts == 1 && s.spawned + ToWake(s) == Reverse(s.pushed)
  }

  ghost predicate PcOk(s: State, n: Id)
    requires n < |s.pc|
  {
    && (s.pc[n].Waiting? <==> n in s.pushed && n !in s.spawned)
    && (s.pc[n].Starting? <==> Host(s.task) == Some(n))
    && (s.pc[n].Spawned? || s.pc[n].Through? || s.pc[n] == Loaded(SeesReady) ==> s.word.Ready?)
    && (s.pc[n].Spawned? ==> n in s.spawned)
  }

  /** Whoever started the task is still busy with it while it runs. */
  ghost predicate HandleInv(s: State) {
    && (s.destroyed <==> s.refs == 0)
    && (s.word.Running? ==> s.starter.Some? && s.starter.value < |s.pc| && !s.pc[s.starter.value].Idle?)
  }

  ghost predicate Inv(s: State) {
    && PhaseInv(s) && HandleInv(s)
    && Distinct(s.pushed) && (forall n :: n in s.pushed ==> n < |s.pc|)
    && (Host(s.task).Some? ==> Host(s.task).value < |s.pc|)
    && forall n: Id :: n < |s.pc| ==> PcOk(s, n)
  }

  function Rank(w: Word): nat {
    match w
    case NotStarted => 0
    case Running(list) => if list == [] then 1 else 2
    case Ready => 3
  }

  lemma AwaiterStep(s: State, st: Step)
    requires Inv(s) && Enabled(s, st) && (st.Await? || st.Check? || st.Load? || st.CasStart? || st.Resume? || st.Read?)
    ensures Inv(Apply(s, st)) && Rank(s.word) <= Rank(Apply(s, st).word)
  {
    var t := Apply(s, st);
    assert Reverse<Id>([]) == [];
    assert PcOk(s, st.n);
    forall n: Id | n < |t.pc| ensures PcOk(t, n) {
      assert PcOk(s, n);
    }
  }

  lemma PushStep(s: State, st: Step)
    requires Inv(s) && Enabled(s, st) && st.CasPush?
    ensures Inv(Apply(s, st)) && Rank(s.word) <= Rank(Apply(s, st).word)
  {
    var t := Apply(s, st);
    assert PcOk(s, st.n);
    if t.pc[st.n].Waiting? {
      Queued(s, st.n);
    } else {
      forall n: Id | n < |t.pc| ensures PcOk(t, n) {
        assert PcOk(s, n);
      }
    }
  }

  lemma Queued(s: State, n: Id)
    requires Inv(s) && n < |s.pc| && s.pc[n].Loaded? && s.word.Running?
    ensures Inv(SetPc(s, n, Waiting).(word := Running([n] + s.word.list), pushed := s.pushed + [n]))
  {
    var t := SetPc(s, n, Waiting).(word := Running([n] + s.word.list), pushed := s.pushed + [n]);
    assert PcOk(s, n);
    ReverseSnoc(s.pushed, n);
    DistinctConcat(s.pushed, [n]);
    forall m: Id | m < |t.pc| ensures PcOk(t, m) {
      assert PcOk(s, m);
    }
  }

  lemma TaskStep(s: State, st: Step)
    requires Inv(s) && Enabled(s, st) && (st.Suspend? || st.Complete?)
    ensures Inv(Apply(s, st)) && Rank(s.word) <= Rank(Apply(s, st).word)
  {
    var t := Apply(s, st);
    assert [] + Reverse(s.pushed) == Reverse(s.pushed);
    forall n: Id | n < |t.pc| ensures PcOk(t, n) {
      assert PcOk(s, n);
    }
  }

  lemma HandleStep(s: State, st: Step)
    requires Inv(s) && Enabled(s, st) && (st.Copy? || st.Drop?)
    ensures Inv(Apply(s, st)) && Apply(s, st).word == s.word
  {
    forall n: Id | n < |s.pc| ensures PcOk(Apply(s, st), n) {
      assert PcOk(s, n);
    }
  }

  lemma WakeStep(s: State)
    requires Inv(s) && Enabled(s, Wake)
    ensures Inv(Apply(s, Wake)) && Apply(s, Wake).word == s.word
    ensures s.task.list != [] ==> var w := s.task.list[0]; w < |s.pc| && s.pc[w].Waiting?
  {
    var t, list := Apply(s, Wake), s.task.list;
    ReverseMembers(s.pushed);
    ReverseDistinct(s.pushed);
    if list != [] {
      assert list[0] in Reverse(s.pushed);
      assert list[0] !in s.spawned by {
        var whole := s.spawned + list;
        assert whole[|s.spawned|] == list[0];
        forall i | 0 <= i < |s.spawned| ensures s.spawned[i] != list[0] {
          assert whole[i] == s.spawned[i];
        }
      }
      assert s.spawned + list == (s.spawned + [list[0]]) + list[1..];
      assert PcOk(s, list[0]);
    } else {
      assert s.spawned + [] == s.spawned;
    }
    forall n: Id | n < |t.pc| ensures PcOk(t, n) {
      assert PcOk(s, n);
    }
  }

  lemma StepInv(s: State, st: Step)
    requires Inv(s) && Enabled(s, st)
    ensures Inv(Apply(s, st)) && Rank(s.word) <= Rank(Apply(s, st).word)
  {
    match st
    case CasPush(_, _) => PushStep(s, st);
    case Suspend => TaskStep(s, st);
    case Complete => TaskStep(s, st);
    case Copy => HandleStep(s, st);
    case Drop => HandleStep(s, st);
    case Wake => WakeStep(s);
    case _ => AwaiterStep(s, st);
  }

  // ----- runs

  ghost predicate Run(r: seq<State>, steps: seq<Step>, count: nat) {
    && |r| == |steps| + 1 && r[0] == Init(count)
    && forall i {:trigger steps[i]} :: 0 <= i < |steps| ==> Enabled(r[i], steps[i]) && r[i + 1] == Apply(r[i], steps[i])
  }

  lemma {:induction false} RunInv(r: seq<State>, steps: seq<Step>, count: nat, i: nat)
    requires Run(r, steps, count) && i < |r|
    ensures Inv(r[i])
  {
    if i == 0 {
      forall n: Id | n < count ensures PcOk(Init(count), n) {
      }
    } else {
      RunInv(r, steps, count, i - 1);
      StepInv(r[i - 1], steps[i - 1]);
    }
  }

  /** The word never goes back to an earlier phase, and the coroutine is started at most once. */
  lemma {:induction false} PhasesAreMonotone(r: seq<State>, steps: seq<Step>, count: nat, i: nat, j: nat)
    requires Run(r, steps, count) && i <= j < |r|
    ensures Rank(r[i].word) <= Rank(r[j].word)
    ensures r[j].starts == if r[j].word.NotStarted? then 0 else 1
    decreases j
  {
    RunInv(r, steps, count, j);
    if i < j {
      PhasesAreMonotone(r, steps, count, i, j - 1);
      RunInv(r, steps, count, j - 1);
      StepInv(r[j - 1], steps[j - 1]);
    }
  }

  /** Nobody reads the result before it is there, and nobody is queued after. */
  lemma ReadsAfterCompletion(r: seq<State>, steps: seq<Step>, count: nat, i: nat, n: Id)
    requires Run(r, steps, count) && i < |r| && n < |r[i].pc|
    ensures r[i].pc[n].Through? ==> r[i].word.Ready?
    ensures i < |steps| && r[i].word.Ready? ==> r[i + 1].pushed == r[i].pushed
  {
    RunInv(r, steps, count, i);
    assert PcOk(r[i], n);
    if i < |steps| && r[i].word.Ready? && steps[i].CasPush? {
      assert PcOk(r[i], steps[i].n);
    }
  }

  /**
    Once the walk is over, those whose try_await returned true have been spawned exactly
    once each, newest first, and nobody else has been; nobody is left waiting.
   */
  lemma EachWaiterSpawnedOnce(r: seq<State>, steps: seq<Step>, count: nat, i: nat)
    requires Run(r, steps, count) && i < |r|
    ensures Distinct(r[i].pushed) && Distinct(r[i].spawned)
    ensures forall n :: n in r[i].spawned ==> n in r[i].pushed
    ensures r[i].task == Over ==> r[i].spawned == Reverse(r[i].pushed)
    ensures r[i].task == Over ==> forall n :: 0 <= n < |r[i].pc| ==> !r[i].pc[n].Waiting? && !r[i].pc[n].Starting?
  {
    RunInv(r, steps, count, i);
    var s := r[i];
    ReverseMembers(s.pushed);
    ReverseDistinct(s.pushed);
    if s.word.Ready? {
      assert s.spawned == Reverse(s.pushed)[..|s.spawned|];
      assert forall n :: n in s.spawned ==> n in Reverse(s.pushed);
    }
    if s.task == Over {
      assert s.spawned + [] == s.spawned;
      forall n | 0 <= n < |s.pc| ensures !s.pc[n].Waiting? && !s.pc[n].Starting? {
        assert PcOk(s, n);
      }
    }
  }

  /** A waiter always has somebody who will wake it: the task is running, or on its list. */
  lemma WaiterIsReachable(r: seq<State>, steps: seq<Step>, count: nat, i: nat, n: Id)
    requires Run(r, steps, count) && i < |r| && n < |r[i].pc| && r[i].pc[n].Waiting?
    ensures
      || (Enabled(r[i], Complete) && r[i].word.Running? && n in r[i].word.list)
      || (Enabled(r[i], Wake) && n in r[i].task.list)
  {
    RunInv(r, steps, count, i);
    var s := r[i];
    assert PcOk(s, n);
    ReverseMembers(s.pushed);
    if s.word.Ready? {
      assert n in s.spawned + ToWake(s);
    }
  }

  // ----- what the operations do

  /** How often a handle has been copied, and dropped. */
  function Copies(steps: seq<Step>, i: nat): nat
    requires i <= |steps|
  {
    if i == 0 then 0 else Copies(steps, i - 1) + if steps[i - 1].Copy? then 1 else 0
  }

  function Drops(steps: seq<Step>, i: nat): nat
    requires i <= |steps|
  {
    if i == 0 then 0 else Drops(steps, i - 1) + if steps[i - 1].Drop? then 1 else 0
  }

  /** The count is that of the handles alive; the result is ready once the task has completed. */
  lemma {:induction false} CountsAreExact(r: seq<State>, steps: seq<Step>, count: nat, i: nat)
    requires Run(r, steps, count) && i < |r|
    ensures r[i].refs + Drops(steps, i) == 1 + Copies(steps, i)
    ensures r[i].destroyed <==> Drops(steps, i) == 1 + Copies(steps, i)
    ensures r[i].word.Ready? <==> Complete in steps[..i]
    ensures |r[i].pc| == count
  {
    RunInv(r, steps, count, i);
    if i > 0 {
      CountsAreExact(r, steps, count, i - 1);
      StepAt(r, steps, count, i - 1);
      assert steps[..i] == steps[..i - 1] + [steps[i - 1]];
      ReadyStep(r[i - 1], steps[i - 1]);
    }
  }

  lemma ReadyStep(s: State, st: Step)
    requires Inv(s) && Enabled(s, st)
    ensures Apply(s, st).word.Ready? <==> s.word.Ready? || st == Complete
    ensures |Apply(s, st).pc| == |s.pc|
    ensures Apply(s, st).refs == s.refs + (if st.Copy? then 1 else 0) - if st.Drop? then 1 else 0
  {
    if st.CasPush? { assert PcOk(s, st.n); }
  }

  /** await_ready lets an awaiter pass exactly if the task has completed, and reading ends its await. */
  lemma AwaitsEnd(r: seq<State>, steps: seq<Step>, count: nat, i: nat, n: Id)
    requires Run(r, steps, count) && i < |steps| && n < count
    ensures |r[i + 1].pc| == count
    ensures steps[i] == Check(n) ==> (r[i + 1].pc[n].Through? <==> Complete in steps[..i])
    ensures steps[i] == Read(n) ==> r[i + 1].pc[n].Idle? && Complete in steps[..i]
  {
    CountsAreExact(r, steps, count, i);
    CountsAreExact(r, steps, count, i + 1);
    StepAt(r, steps, count, i);
    if steps[i] == Read(n) { assert PcOk(r[i], n); }
  }

  /** An exchange that fails leaves its awaiter with the current word; one that does not does what it is for. */
  lemma RetriesAreFresh(r: seq<State>, steps: seq<Step>, count: nat, i: nat, n: Id)
    requires Run(r, steps, count) && i < |steps| && n < count
    ensures |r[i].pc| == |r[i + 1].pc| == count
    ensures steps[i] == CasStart(n) ==>
      r[i + 1].pc[n] == if r[i].word.NotStarted? then Starting else Loaded(Look(r[i].word))
    ensures steps[i].CasPush? && steps[i].n == n ==>
      && r[i].pc[n].Loaded?
      && r[i + 1].pc[n] ==
           if r[i].pc[n].seen.SeesReady? then Through
           else if r[i].pc[n].seen == Look(r[i].word) && !steps[i].spurious then Waiting else Loaded(Look(r[i].word))
  {
    CountsAreExact(r, steps, count, i);
    CountsAreExact(r, steps, count, i + 1);
    StepAt(r, steps, count, i);
  }

  /** An awaiter that comes after completion can read at once. */
  lemma CanRead(r: seq<State>, steps: seq<Step>, count: nat, n: Id)
    returns (r': seq<State>, steps': seq<Step>)
    requires Run(r, steps, count)
    requires var s := r[|steps|]; n < |s.pc| && s.pc[n].Idle? && s.refs > 0 && s.word.Ready?
    ensures Run(r', steps', count) && steps' == steps + [Await(n), Check(n), Read(n)]
    ensures r <= r' && r'[|steps'|] == r[|steps|]
  {
    var s := r[|steps|];
    r', steps' := Extend(r, steps, count, Await(n));
    r', steps' := Extend(r', steps', count, Check(n));
    r', steps' := Extend(r', steps', count, Read(n));
    assert r'[|steps'|].pc == s.pc;
  }

  /** The first awaiter of a task that does not suspend starts it, and reads without having been queued. */
  lemma CanRunThrough(r: seq<State>, steps: seq<Step>, count: nat, n: Id)
    returns (r': seq<State>, steps': seq<Step>)
    requires Run(r, steps, count)
    requires var s := r[|steps|]; n < |s.pc| && s.pc[n].Idle? && s.refs > 0 && s.word.NotStarted?
    ensures Run(r', steps', count) && r <= r'
    ensures var s, t := r[|steps|], r'[|steps'|];
      t == s.(word := Ready, task := Over, starts := s.starts + 1, starter := Some(n))
  {
    var s := r[|steps|];
    r', steps' := CanStart(r, steps, count, n);
    r', steps' := Extend(r', steps', count, Complete);
    r', steps' := Extend(r', steps', count, Wake);
    assert r'[|steps'|].pc == s.pc[n := Returned];
    r', steps' := Extend(r', steps', count, Load(n));
    r', steps' := Extend(r', steps', count, CasPush(n, false));
    r', steps' := Extend(r', steps', count, Read(n));
    assert r'[|steps'|].pc == s.pc;
  }

  lemma CanStart(r: seq<State>, steps: seq<Step>, count: nat, n: Id)
    returns (r': seq<State>, steps': seq<Step>)
    requires Run(r, steps, count)
    requires var s := r[|steps|]; n < |s.pc| && s.pc[n].Idle? && s.refs > 0 && s.word.NotStarted?
    ensures Run(r', steps', count) && r <= r'
    ensures var s, t := r[|steps|], r'[|steps'|];
      t == s.(word := Running([]), task := Inside(n), pc := s.pc[n := Starting], starts := s.starts + 1, starter := Some(n))
  {
    var s := r[|steps|];
    r', steps' := Extend(r, steps, count, Await(n));
    r', steps' := Extend(r', steps', count, Check(n));
    r', steps' := Extend(r', steps', count, Load(n));
    assert r'[|steps'|].pc == s.pc[n := Loaded(SeesNotStarted)];
    r', steps' := Extend(r', steps', count, CasStart(n));
    assert r'[|steps'|].pc == s.pc[n := Starting];
  }

  /** An awaiter that comes while the task is away can queue in front of the others. */
  lemma CanQueue(r: seq<State>, steps: seq<Step>, count: nat, n: Id)
    returns (r': seq<State>, steps': seq<Step>)
    requires Run(r, steps, count)
    requires var s := r[|steps|]; n < |s.pc| && s.pc[n].Idle? && s.refs > 0 && s.word.Running?
    ensures Run(r', steps', count) && r <= r'
    ensures var s, t := r[|steps|], r'[|steps'|];
      t == s.(word := Running([n] + s.word.list), pc := s.pc[n := Waiting], pushed := s.pushed + [n])
  {
    var s := r[|steps|];
    r', steps' := Extend(r, steps, count, Await(n));
    r', steps' := Extend(r', steps', count, Check(n));
    r', steps' := Extend(r', steps', count, Load(n));
    assert r'[|steps'|].pc == s.pc[n := Loaded(SeesList(HeadOf(s.word.list)))];
    r', steps' := Extend(r', steps', count, CasPush(n, false));
    assert r'[|steps'|].pc == s.pc[n := Waiting];
  }

  /** A waiter that the walk reaches goes on and reads. */
  lemma CanWake(r: seq<State>, steps: seq<Step>, count: nat)
    returns (r': seq<State>, steps': seq<Step>)
    requires Run(r, steps, count) && r[|steps|].task.Walking? && r[|steps|].task.list != []
    ensures Run(r', steps', count) && r <= r'
    ensures var s, t, w := r[|steps|], r'[|steps'|], r[|steps|].task.list[0];
      && w < |s.pc| && s.pc[w].Waiting?
      && t == s.(task := Walking(s.task.list[1..], s.task.inside), pc := s.pc[w := Idle], spawned := s.spawned + [w])
  {
    var s := r[|steps|];
    RunInv(r, steps, count, |steps|);
    WakeStep(s);
    var w := s.task.list[0];
    r', steps' := Extend(r, steps, count, Wake);
    r', steps' := Extend(r', steps', count, Resume(w));
    r', steps' := Extend(r', steps', count, Read(w));
    assert r'[|steps'|].pc == s.pc[w := Idle];
  }

  // ----- the last handle

  /** Nobody is between `co_await` and the end of await_resume. */
  ghost predicate Settled(s: State) {
    forall n: Id :: n < |s.pc| ==> s.pc[n].Idle?
  }

  /** Then the task has not been started, or it has completed and woken everybody. */
  lemma SettledIsOver(s: State)
    requires Inv(s) && Settled(s)
    ensures s.word.NotStarted? || (s.word.Ready? && (s.task == Over || s.task == Walking([], None)))
  {
    assert Host(s.task).Some? ==> PcOk(s, Host(s.task).value);
    if s.task.Walking? { WakeStep(s); }
  }

  lemma SettledStays(s: State, st: Step)
    requires Inv(s) && Enabled(s, st) && s.destroyed && Settled(s)
    ensures !Touches(s, st) && Apply(s, st).destroyed && Settled(Apply(s, st))
  {
    SettledIsOver(s);
  }

  lemma StepAt(r: seq<State>, steps: seq<Step>, count: nat, i: nat)
    requires Run(r, steps, count) && i < |steps|
    ensures Inv(r[i]) && Enabled(r[i], steps[i]) && r[i + 1] == Apply(r[i], steps[i])
  {
    RunInv(r, steps, count, i);
  }

  ghost predicate Sound(s: State) {
    s.destroyed ==> Settled(s)
  }

  lemma SoundStep(s: State, st: Step)
    requires Inv(s) && Enabled(s, st) && Sound(s) && (st == Drop && s.refs == 1 ==> Settled(s))
    ensures Sound(Apply(s, st)) && !UseAfterFree(s, st)
  {
    if s.destroyed {
      SettledStays(s, st);
    }
  }

  lemma Extend(r: seq<State>, steps: seq<Step>, count: nat, st: Step)
    returns (r': seq<State>, steps': seq<Step>)
    requires Run(r, steps, count) && Enabled(r[|steps|], st)
    ensures Run(r', steps', count) && steps' == steps + [st] && r' == r + [Apply(r[|steps|], st)]
  {
    r', steps' := r + [Apply(r[|steps|], st)], steps + [st];
  }

  /** A continuation of a run. */
  ghost predicate Continues(r: seq<State>, steps: seq<Step>, r': seq<State>, steps': seq<Step>, count: nat) {
    Run(r', steps', count) && r <= r' && steps <= steps'
  }

  /** Some step of a continuation accesses the frame after its destruction. */
  ghost predicate GoesWrong(r: seq<State>, steps: seq<Step>, count: nat) {
    exists r': seq<State>, steps': seq<Step>, j: nat ::
      Continues(r, steps, r', steps', count) && j < |steps'| && UseAfterFree(r'[j], steps'[j])
  }

  lemma TouchesNow(r: seq<State>, steps: seq<Step>, count: nat, st: Step)
    requires Run(r, steps, count) && UseAfterFree(r[|steps|], st)
    ensures GoesWrong(r, steps, count)
  {
    var r', steps' := Extend(r, steps, count, st);
    assert Continues(r, steps, r', steps', count) && UseAfterFree(r'[|steps|], steps'[|steps|]);
  }

  lemma TouchesLater(r: seq<State>, steps: seq<Step>, count: nat, r1: seq<State>, steps1: seq<Step>)
    requires Continues(r, steps, r1, steps1, count) && GoesWrong(r1, steps1, count)
    ensures GoesWrong(r, steps, count)
  {
    var r': seq<State>, steps': seq<Step>, j: nat :|
      Continues(r1, steps1, r', steps', count) && j < |steps'| && UseAfterFree(r'[j], steps'[j]);
    assert Continues(r, steps, r', steps', count);
  }

  lemma ThroughReads(r: seq<State>, steps: seq<Step>, count: nat, n: Id)
    requires Run(r, steps, count) && r[|steps|].destroyed && n < |r[|steps|].pc|
    requires var p := r[|steps|].pc[n]; p.Through? || p.Spawned? || p == Loaded(SeesReady)
    ensures GoesWrong(r, steps, count)
  {
    var p := r[|steps|].pc[n];
    if p.Through? {
      TouchesNow(r, steps, count, Read(n));
    } else {
      var r1, steps1 := Extend(r, steps, count, if p.Spawned? then Resume(n) else CasPush(n, false));
      TouchesNow(r1, steps1, count, Read(n));
      TouchesLater(r, steps, count, r1, steps1);
    }
  }

  /** A walk that is not over leads to an awaiter that goes on. */
  lemma WalkReads(r: seq<State>, steps: seq<Step>, count: nat)
    requires Run(r, steps, count) && r[|steps|].destroyed && r[|steps|].task.Walking?
    requires r[|steps|].task != Walking([], None)
    ensures GoesWrong(r, steps, count)
  {
    var s := r[|steps|];
    RunInv(r, steps, count, |steps|);
    var r1, steps1 := Extend(r, steps, count, Wake);
    if s.task.list != [] {
      WakeStep(s);
      ThroughReads(r1, steps1, count, s.task.list[0]);
    } else {
      TouchesNow(r1, steps1, count, Load(s.task.inside.value));
    }
    TouchesLater(r, steps, count, r1, steps1);
  }

  /** An awaiter that is not settled when the frame is destroyed, or the task itself, can go wrong. */
  lemma Unsettled(r: seq<State>, steps: seq<Step>, count: nat, n: Id)
    requires Run(r, steps, count) && r[|steps|].destroyed && n < |r[|steps|].pc| && !r[|steps|].pc[n].Idle?
    ensures GoesWrong(r, steps, count)
  {
    var s := r[|steps|];
    RunInv(r, steps, count, |steps|);
    assert PcOk(s, n);
    if s.task.Inside? || s.task.Away? {
      TouchesNow(r, steps, count, Complete);
    } else {
      match s.pc[n]
      case Asked => TouchesNow(r, steps, count, Check(n));
      case Suspending => TouchesNow(r, steps, count, Load(n));
      case Returned => TouchesNow(r, steps, count, Load(n));
      case Loaded(SeesNotStarted) => TouchesNow(r, steps, count, CasStart(n));
      case Loaded(SeesList(_)) => TouchesNow(r, steps, count, CasPush(n, false));
      case Loaded(SeesReady) => ThroughReads(r, steps, count, n);
      case Starting => WalkReads(r, steps, count);
      case Waiting =>
        WaiterIsReachable(r, steps, count, |steps|, n);
        WalkReads(r, steps, count);
      case Spawned => ThroughReads(r, steps, count, n);
      case Through => ThroughReads(r, steps, count, n);
    }
  }

  /**
    The last handle goes, whatever the task does: no step of any continuation accesses
    the destroyed frame if and only if nobody was between `co_await` and the end of
    await_resume.
   */
  lemma LastDropSafeIff(r: seq<State>, steps: seq<Step>, count: nat, i: nat)
    requires Run(r, steps, count) && |steps| == i + 1 && steps[i] == Drop && r[i].refs == 1
    ensures r[i + 1].destroyed
    ensures Settled(r[i]) <==> !GoesWrong(r, steps, count)
  {
    assert r[i + 1] == Apply(r[i], steps[i]);
    if Settled(r[i]) {
      forall r': seq<State>, steps': seq<Step>, j: nat | Continues(r, steps, r', steps', count) && j < |steps'|
        ensures !UseAfterFree(r'[j], steps'[j])
      {
        DropIsLast(r', steps', count, i);
        NeverUsedAfterFree(r', steps', count, j);
      }
    } else {
      var n: Id :| n < |r[i].pc| && !r[i].pc[n].Idle?;
      Unsettled(r, steps, count, n);
    }
  }

  /** The last handle goes once. */
  lemma DropIsLast(r: seq<State>, steps: seq<Step>, count: nat, i: nat)
    requires Run(r, steps, count) && i < |steps| && steps[i] == Drop && r[i].refs == 1
    ensures forall j {:trigger steps[j]} :: 0 <= j < |steps| && steps[j] == Drop && r[j].refs == 1 ==> j == i
  {
    StepAt(r, steps, count, i);
    forall j {:trigger steps[j]} | 0 <= j < |steps| && steps[j] == Drop && r[j].refs == 1 ensures j == i {
      StepAt(r, steps, count, j);
      if j < i { NoHandleComes(r, steps, count, j + 1, i); }
      if i < j { NoHandleComes(r, steps, count, i + 1, j); }
    }
  }

  lemma {:induction false} NoHandleComes(r: seq<State>, steps: seq<Step>, count: nat, i: nat, j: nat)
    requires Run(r, steps, count) && i <= j < |r| && r[i].refs == 0
    ensures r[j].refs == 0
    decreases j
  {
    if i < j {
      NoHandleComes(r, steps, count, i, j - 1);
      StepAt(r, steps, count, j - 1);
    }
  }

  /** Runs whose last handle never goes while somebody awaits access no destroyed frame. */
  lemma NeverUsedAfterFree(r: seq<State>, steps: seq<Step>, count: nat, j: nat)
    requires Run(r, steps, count) && j < |steps|
    requires forall i {:trigger steps[i]} :: 0 <= i < |steps| && steps[i] == Drop && r[i].refs == 1 ==> Settled(r[i])
    ensures !UseAfterFree(r[j], steps[j])
  {
    RunSound(r, steps, count, j);
    StepAt(r, steps, count, j);
    SoundStep(r[j], steps[j]);
  }

  lemma {:induction false} RunSound(r: seq<State>, steps: seq<Step>, count: nat, j: nat)
    requires Run(r, steps, count) && j < |r|
    requires forall i {:trigger steps[i]} :: 0 <= i < |steps| && steps[i] == Drop && r[i].refs == 1 ==> Settled(r[i])
    ensures Sound(r[j])
  {
    if j > 0 {
      RunSound(r, steps, count, j - 1);
      StepAt(r, steps, count, j - 1);
      SoundStep(r[j - 1], steps[j - 1]);
    }
  }

  function Busy(pc: seq<Pc>): nat {
    if |pc| == 0 then 0 else (if pc[0].Idle? then 0 else 1) + Busy(pc[1..])
  }

  lemma {:induction false} NobodyBusy(pc: seq<Pc>, n: Id)
    requires Busy(pc) == 0 && n < |pc|
    ensures pc[n].Idle?
  {
    if n > 0 { NobodyBusy(pc[1..], n - 1); }
  }

  /** What callers can see to: as many handles as awaiters, one kept by each of them until it has read. */
  lemma OneHandleEach(r: seq<State>, steps: seq<Step>, count: nat, j: nat)
    requires Run(r, steps, count) && j < |steps|
    requires forall i :: 0 <= i < |r| ==> Busy(r[i].pc) <= r[i].refs
    ensures !UseAfterFree(r[j], steps[j])
  {
    forall i {:trigger steps[i]} | 0 <= i < |steps| && steps[i] == Drop && r[i].refs == 1 ensures Settled(r[i]) {
      StepAt(r, steps, count, i);
      assert Busy(r[i + 1].pc) == 0;
      forall n: Id | n < |r[i].pc| ensures r[i].pc[n].Idle? {
        NobodyBusy(r[i + 1].pc, n);
      }
    }
    NeverUsedAfterFree(r, steps, count, j);
  }

  /** One awaiter starts the task and waits; the only handle goes; the task runs on in a destroyed frame. */
  lemma DestroyedWhileQueued() returns (r: seq<State>, steps: seq<Step>)
    ensures Run(r, steps, 1) && var s := r[|steps|];
      && s.destroyed && s.word == Running([0]) && s.pc == [Waiting] && UseAfterFree(s, Complete)
    ensures GoesWrong(r, steps, 1)
  {
    r, steps := StartedAndAway();
    r, steps := Extend(r, steps, 1, Load(0));
    assert r[6] == State(Running([]), Away, [Loaded(SeesList(Null))], 1, false, 1, Some(0), [], []);
    r, steps := Extend(r, steps, 1, CasPush(0, false));
    assert [0] + [] == [0];
    r, steps := Extend(r, steps, 1, Drop);
    TouchesNow(r, steps, 1, Complete);
  }

  lemma StartedAndAway() returns (r: seq<State>, steps: seq<Step>)
    ensures Run(r, steps, 1) && |steps| == 5
    ensures r[5] == State(Running([]), Away, [Returned], 1, false, 1, Some(0), [], [])
  {
    r, steps := [Init(1)], [];
    assert r[0].pc == [Idle];
    r, steps := Extend(r, steps, 1, Await(0));
    r, steps := Extend(r, steps, 1, Check(0));
    r, steps := Extend(r, steps, 1, Load(0));
    r, steps := Extend(r, steps, 1, CasStart(0));
    assert r[4] == State(Running([]), Inside(0), [Starting], 1, false, 1, Some(0), [], []);
    r, steps := Extend(r, steps, 1, Suspend);
  }
}
