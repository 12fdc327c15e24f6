/**
  The event loop of one `io_context` (lib/co_context/io_context.cpp:75-142) with the
  counters of its worker (lib/co_context/detail/worker_meta.cpp:91-99 and 139-228), when
  it is the only context and no request asks for its completion to be skipped.

  Resumed tasks and the kernel are free: a task may make any number of requests and spawn
  any number of tasks, and the kernel may post a completion whenever it has a request.
 */
module EventLoop {
  datatype Pc =
    | Head                     // while (!will_stop)
    | Working(left: nat)       // do_worker_part, `left` resumptions to go
    | Submitting               // poll_submission
    | WaitSubmit               // blocked in submit_and_wait(1)
    | Peeking                  // do_completion_part
    | Draining(handled: nat)
    | FastCheck(handled: nat)
    | BadPeek                  // do_completion_part_bad_path
    | WaitUring                // blocked in wait_uring
    | BadDraining(handled: nat)
    | BadCheck(handled: nat)
    | Stopped

  datatype State = State(
    pc: Pc,
    ready: nat,                // tasks in reap_swap
    unsubmitted: nat,          // entries in the submission queue
    inKernel: nat,             // requests the kernel has
    posted: nat,               // entries in the completion queue
    requestsToReap: int, requestsToSubmit: nat, willStop: bool)

  function Init(spawned: nat): State {
    State(Head, spawned, 0, 0, 0, 0, 0, false)
  }

  datatype Step =
    | Resume(spawns: nat, requests: nat)  // the next ready task runs and does this
    | Loop                                // the loop moves on
    | Handle(forwards: bool)              // handle_cq_entry
    | Interrupted                         // a blocking call returns with EINTR
    | Post                                // the kernel completes a request

  predicate Blocked(p: Pc) {
    p.WaitSubmit? || p.WaitUring?
  }

  predicate Drains(p: Pc) {
    p.Draining? || p.BadDraining?
  }

  predicate Enabled(s: State, st: Step) {
    match st
    case Resume(_, _) => s.pc.Working? && s.pc.left > 0 && s.ready > 0
    case Loop =>
      if s.pc.Working? then s.pc.left == 0
      else if Blocked(s.pc) then s.posted > 0
      else if Drains(s.pc) then s.posted == 0
      else !s.pc.Stopped?
    case Handle(_) => Drains(s.pc) && s.posted > 0
    case Interrupted => Blocked(s.pc)
    case Post => s.inKernel > 0
  }

  /** submit_and_wait: the kernel takes all entries; the call blocks if nothing is ready. */
  function Submit(s: State): State {
    if s.requestsToSubmit == 0 then s.(pc := Peeking)
    else
      var t := s.(unsubmitted := 0, inKernel := s.inKernel + s.unsubmitted);
      if s.ready == 0 then t.(pc := WaitSubmit) else t.(pc := Peeking, requestsToSubmit := 0)
  }

  function Advance(s: State): State {
    match s.pc
    case Head => if s.willStop then s.(pc := Stopped) else s.(pc := Working(s.ready))
    case Working(_) => s.(pc := Submitting)
    case Submitting => Submit(s)
    case WaitSubmit => s.(pc := Peeking, requestsToSubmit := 0)
    case Peeking => s.(pc := if s.posted > 0 then Draining(0) else FastCheck(0))
    case Draining(h) => s.(pc := FastCheck(h))
    case FastCheck(h) => s.(pc := if s.requestsToSubmit > 0 || s.ready > 0 || h > 0 then Head else BadPeek)
    case BadPeek => s.(pc := if s.posted == 0 && s.requestsToReap > 0 then WaitUring else BadDraining(0))
    case WaitUring => s.(pc := BadDraining(0))
    case BadDraining(h) => s.(pc := BadCheck(h))
    case BadCheck(h) => s.(pc := Head, willStop := s.willStop || (h == 0 && s.requestsToReap == 0))
    case Stopped => s
  }

  function Apply(s: State, st: Step): State
    requires Enabled(s, st)
  {
    match st
    case Resume(spawns, requests) =>
      s.(pc := Working(s.pc.left - 1), ready := s.ready - 1 + spawns,
         unsubmitted := s.unsubmitted + requests,
         requestsToReap := s.requestsToReap + requests, requestsToSubmit := s.requestsToSubmit + requests)
    case Loop => Advance(s)
    case Handle(forwards) =>
      s.(pc := if s.pc.Draining? then Draining(s.pc.handled + 1) else BadDraining(s.pc.handled + 1),
         posted := s.posted - 1, requestsToReap := s.requestsToReap - 1,
         ready := s.ready + if forwards then 1 else 0)
    case Interrupted => Advance(s)
    case Post => s.(inKernel := s.inKernel - 1, posted := s.posted + 1)
  }

  /** Nothing left to do, anywhere. */
  predicate AllDone(s: State) {
    s.ready == 0 && s.unsubmitted == 0 && s.inKernel == 0 && s.posted == 0
  }

  /** What is known at each point of the loop. */
  predicate AtPc(s: State) {
    match s.pc
    case Head => s.willStop ==> AllDone(s)
    case Working(left) => left <= s.ready
    case Submitting => true
    case WaitSubmit => s.unsubmitted == 0 && s.ready == 0 && s.inKernel + s.posted > 0
    case Peeking => s.unsubmitted == 0
    case Draining(_) => s.unsubmitted == 0
    case FastCheck(_) => s.unsubmitted == 0
    case BadPeek => s.unsubmitted == 0 && s.ready == 0
    case WaitUring => s.unsubmitted == 0 && s.ready == 0 && s.inKernel + s.posted > 0
    case BadDraining(h) => s.unsubmitted == 0 && s.ready <= h
    case BadCheck(h) => s.unsubmitted == 0 && s.ready <= h
    case Stopped => s.willStop && AllDone(s)
  }

  ghost predicate Inv(s: State) {
    && s.requestsToReap == s.unsubmitted + s.inKernel + s.posted
    && (!s.pc.WaitSubmit? ==> s.requestsToSubmit == s.unsubmitted)
    && (s.willStop ==> s.pc.Head? || s.pc.Stopped?)
    && AtPc(s)
  }

  lemma StepInv(s: State, st: Step)
    requires Inv(s) && Enabled(s, st)
    ensures Inv(Apply(s, st))
  {
    match st
    case Loop => AdvanceInv(s);
    case Interrupted => AdvanceInv(s);
    case _ =>
  }

  lemma AdvanceInv(s: State)
    requires Inv(s) && (Enabled(s, Loop) || Blocked(s.pc))
    ensures Inv(Advance(s))
  {
    AdvanceCounts(s);
    if s.pc.Head? || s.pc.Working? || s.pc.Submitting? || Blocked(s.pc) || s.pc.Peeking? || s.pc.Stopped? {
      AdvanceEarly(s);
    } else if s.pc.Draining? || s.pc.FastCheck? || s.pc.BadDraining? {
      AdvanceLate(s);
    } else {
      AdvanceBad(s);
    }
  }

  lemma AdvanceCounts(s: State)
    requires Inv(s)
    ensures var t := Advance(s);
      && t.requestsToReap == t.unsubmitted + t.inKernel + t.posted
      && (!t.pc.WaitSubmit? ==> t.requestsToSubmit == t.unsubmitted)
  {
    if s.pc.WaitSubmit? {
      assert s.unsubmitted == 0;
    }
  }

  lemma AdvanceEarly(s: State)
    requires Inv(s) && (Enabled(s, Loop) || Blocked(s.pc))
    requires s.pc.Head? || s.pc.Working? || s.pc.Submitting? || Blocked(s.pc) || s.pc.Peeking? || s.pc.Stopped?
    ensures var t := Advance(s); AtPc(t) && (t.willStop ==> t.pc.Head? || t.pc.Stopped?)
  {
  }

  lemma AdvanceLate(s: State)
    requires Inv(s) && Enabled(s, Loop)
    requires s.pc.Draining? || s.pc.FastCheck? || s.pc.BadDraining?
    ensures var t := Advance(s); AtPc(t) && (t.willStop ==> t.pc.Head? || t.pc.Stopped?)
  {
  }

  lemma AdvanceBad(s: State)
    requires Inv(s) && (s.pc.BadPeek? || s.pc.BadCheck?)
    ensures var t := Advance(s); AtPc(t) && (t.willStop ==> t.pc.Head? || t.pc.Stopped?)
  {
    assert AtPc(s);
  }

  ghost predicate Run(r: seq<State>, steps: seq<Step>, spawned: nat) {
    && |r| == |steps| + 1 && r[0] == Init(spawned)
    && forall i {:trigger steps[i]} :: 0 <= i < |steps| ==> Enabled(r[i], steps[i]) && r[i + 1] == Apply(r[i], steps[i])
  }

  lemma {:induction false} RunInv(r: seq<State>, steps: seq<Step>, spawned: nat, i: nat)
    requires Run(r, steps, spawned) && i < |r|
    ensures Inv(r[i])
  {
    if i > 0 {
      RunInv(r, steps, spawned, i - 1);
      StepInv(r[i - 1], steps[i - 1]);
    }
  }

  /** The counter of requests is exact, at every moment. */
  lemma AccountingIsExact(r: seq<State>, steps: seq<Step>, spawned: nat, i: nat)
    requires Run(r, steps, spawned) && i < |r|
    ensures r[i].requestsToReap == r[i].unsubmitted + r[i].inKernel + r[i].posted
  {
    RunInv(r, steps, spawned, i);
  }

  /** Whenever the loop blocks, a completion is there or the kernel will post one. */
  lemma NeverBlocksForever(r: seq<State>, steps: seq<Step>, spawned: nat, i: nat)
    requires Run(r, steps, spawned) && i < |r| && Blocked(r[i].pc)
    ensures Enabled(r[i], Loop) || Enabled(r[i], Post)
    ensures r[i].ready == 0
  {
    RunInv(r, steps, spawned, i);
  }

  /**
    The loop decides to stop exactly when it finds, having handled nothing in this pass,
    that ready queue, submissions and requests in flight are all empty.
   */
  lemma {:induction false} StopsExactlyWhenDone(r: seq<State>, steps: seq<Step>, spawned: nat, i: nat)
    requires Run(r, steps, spawned) && i < |steps| && steps[i] == Loop && r[i].pc.BadCheck?
    ensures r[i + 1].willStop <==> AllDone(r[i]) && r[i].pc.handled == 0
  {
    RunInv(r, steps, spawned, i);
  }

  /** After that nothing is left behind, and nothing ever comes again. */
  lemma {:induction false} StopIsFinal(r: seq<State>, steps: seq<Step>, spawned: nat, i: nat, j: nat)
    requires Run(r, steps, spawned) && i <= j < |r| && r[i].willStop
    ensures r[j].willStop && AllDone(r[j])
    decreases j
  {
    RunInv(r, steps, spawned, j);
    if i < j {
      StopIsFinal(r, steps, spawned, i, j - 1);
      StopStays(r[j - 1], steps[j - 1]);
    }
    StoppedIsDone(r[j]);
  }

  lemma StopStays(s: State, st: Step)
    requires Enabled(s, st) && s.willStop
    ensures Apply(s, st).willStop
  {
  }

  lemma StoppedIsDone(s: State)
    requires Inv(s) && s.willStop
    ensures AllDone(s)
  {
  }

  // ----- tasks and requests, counted by the steps

  /** Tasks that have been resumed. */
  function Resumed(steps: seq<Step>, i: nat): nat
    requires i <= |steps|
  {
    if i == 0 then 0 else Resumed(steps, i - 1) + if steps[i - 1].Resume? then 1 else 0
  }

  /** Tasks that resumed tasks have spawned. */
  function Spawned(steps: seq<Step>, i: nat): nat
    requires i <= |steps|
  {
    if i == 0 then 0 else Spawned(steps, i - 1) + if steps[i - 1].Resume? then steps[i - 1].spawns else 0
  }

  /** Requests that resumed tasks have made. */
  function Requested(steps: seq<Step>, i: nat): nat
    requires i <= |steps|
  {
    if i == 0 then 0 else Requested(steps, i - 1) + if steps[i - 1].Resume? then steps[i - 1].requests else 0
  }

  /** Completions the kernel has posted. */
  function Posted(steps: seq<Step>, i: nat): nat
    requires i <= |steps|
  {
    if i == 0 then 0 else Posted(steps, i - 1) + if steps[i - 1].Post? then 1 else 0
  }

  /** Completions that have been handled. */
  function Handled(steps: seq<Step>, i: nat): nat
    requires i <= |steps|
  {
    if i == 0 then 0 else Handled(steps, i - 1) + if steps[i - 1].Handle? then 1 else 0
  }

  /** ... and have forwarded a task. */
  function Forwarded(steps: seq<Step>, i: nat): nat
    requires i <= |steps|
  {
    if i == 0 then 0 else Forwarded(steps, i - 1) + if steps[i - 1] == Handle(true) then 1 else 0
  }

  lemma AdvanceMoves(s: State)
    requires Inv(s)
    ensures var t := Advance(s);
      && t.ready == s.ready && t.posted == s.posted && t.unsubmitted + t.inKernel == s.unsubmitted + s.inKernel
  {
  }

  lemma StepMoves(s: State, st: Step)
    requires Inv(s) && Enabled(s, st)
    ensures var t := Apply(s, st);
      && t.ready + (if st.Resume? then 1 else 0)
         == s.ready + (if st.Resume? then st.spawns else 0) + (if st == Handle(true) then 1 else 0)
      && t.posted + (if st.Handle? then 1 else 0) == s.posted + (if st.Post? then 1 else 0)
      && t.unsubmitted + t.inKernel + (if st.Post? then 1 else 0)
         == s.unsubmitted + s.inKernel + (if st.Resume? then st.requests else 0)
  {
    if st.Loop? || st.Interrupted? {
      AdvanceMoves(s);
    }
  }

  lemma StepAt(r: seq<State>, steps: seq<Step>, spawned: nat, i: nat)
    requires Run(r, steps, spawned) && i < |steps|
    ensures Inv(r[i]) && Enabled(r[i], steps[i]) && r[i + 1] == Apply(r[i], steps[i])
  {
    RunInv(r, steps, spawned, i);
  }

  /** What step i does to the tasks and to the requests. */
  lemma Counts(r: seq<State>, steps: seq<Step>, spawned: nat, i: nat)
    requires Run(r, steps, spawned) && i < |steps|
    ensures var s, st, t := r[i], steps[i], r[i + 1];
      && t.ready + (if st.Resume? then 1 else 0)
         == s.ready + (if st.Resume? then st.spawns else 0) + (if st == Handle(true) then 1 else 0)
      && t.posted + (if st.Handle? then 1 else 0) == s.posted + (if st.Post? then 1 else 0)
      && t.unsubmitted + t.inKernel + (if st.Post? then 1 else 0)
         == s.unsubmitted + s.inKernel + (if st.Resume? then st.requests else 0)
  {
    StepAt(r, steps, spawned, i);
    StepMoves(r[i], steps[i]);
  }

  lemma {:induction false} TasksBalance(r: seq<State>, steps: seq<Step>, spawned: nat, i: nat)
    requires Run(r, steps, spawned) && i < |r|
    ensures r[i].ready + Resumed(steps, i) == spawned + Spawned(steps, i) + Forwarded(steps, i)
  {
    if i > 0 {
      TasksBalance(r, steps, spawned, i - 1);
      Counts(r, steps, spawned, i - 1);
    }
  }

  lemma {:induction false} PostsBalance(r: seq<State>, steps: seq<Step>, spawned: nat, i: nat)
    requires Run(r, steps, spawned) && i < |r|
    ensures r[i].posted + Handled(steps, i) == Posted(steps, i)
  {
    if i > 0 {
      PostsBalance(r, steps, spawned, i - 1);
      Counts(r, steps, spawned, i - 1);
    }
  }

  lemma {:induction false} RequestsBalance(r: seq<State>, steps: seq<Step>, spawned: nat, i: nat)
    requires Run(r, steps, spawned) && i < |r|
    ensures r[i].unsubmitted + r[i].inKernel + Posted(steps, i) == Requested(steps, i)
  {
    if i > 0 {
      RequestsBalance(r, steps, spawned, i - 1);
      Counts(r, steps, spawned, i - 1);
    }
  }

  /**
    Every task that was spawned at the start, or by a task, or forwarded by a completion,
    is ready or has been resumed; every request made is with the loop, the kernel or in
    the completion queue, or its completion has been handled.
   */
  lemma NothingGoesAstray(r: seq<State>, steps: seq<Step>, spawned: nat, i: nat)
    requires Run(r, steps, spawned) && i < |r|
    ensures r[i].ready + Resumed(steps, i) == spawned + Spawned(steps, i) + Forwarded(steps, i)
    ensures r[i].posted + Handled(steps, i) == Posted(steps, i)
    ensures r[i].unsubmitted + r[i].inKernel + Posted(steps, i) == Requested(steps, i)
  {
    TasksBalance(r, steps, spawned, i);
    PostsBalance(r, steps, spawned, i);
    RequestsBalance(r, steps, spawned, i);
  }

  /** When the loop decides to stop, every task has been resumed and every completion handled. */
  lemma StopsAfterEverything(r: seq<State>, steps: seq<Step>, spawned: nat, i: nat)
    requires Run(r, steps, spawned) && i < |r| && r[i].willStop
    ensures Resumed(steps, i) == spawned + Spawned(steps, i) + Forwarded(steps, i)
    ensures Handled(steps, i) == Posted(steps, i) == Requested(steps, i)
  {
    RunInv(r, steps, spawned, i);
    StoppedIsDone(r[i]);
    NothingGoesAstray(r, steps, spawned, i);
  }

  /** In a pass that has done `done` of its tasks: where it is. */
  predicate PassAt(s: State, ready: nat, done: int) {
    if s.pc.Working? then done + s.pc.left == ready else s.pc.Submitting? && done == ready
  }

  lemma PassStep(s: State, st: Step, ready: nat, done: int)
    requires Enabled(s, st) && s.pc.Working? && PassAt(s, ready, done)
    ensures PassAt(Apply(s, st), ready, done + if st.Resume? then 1 else 0)
  {
  }

  /** The loop is in the middle of its resumptions from i on, before j. */
  ghost predicate Works(r: seq<State>, i: nat, j: nat) {
    j <= |r| && forall m: nat :: i <= m < j ==> r[m].pc.Working?
  }

  /** One pass resumes as many tasks as were ready at its start, and goes on when it has. */
  lemma {:induction false} PassResumesTheReady(r: seq<State>, steps: seq<Step>, spawned: nat, i: nat, j: nat)
    requires Run(r, steps, spawned) && i < j < |r| && r[i].pc.Head? && !r[i].willStop && steps[i] == Loop
    requires Works(r, i + 1, j)
    ensures PassAt(r[j], r[i].ready, Resumed(steps, j) - Resumed(steps, i))
    decreases j
  {
    if i + 1 == j {
      PassStarts(r, steps, spawned, i);
    } else {
      PassResumesTheReady(r, steps, spawned, i, j - 1);
      PassGoesOn(r, steps, spawned, j - 1, r[i].ready, Resumed(steps, j - 1) - Resumed(steps, i));
    }
  }

  lemma PassStarts(r: seq<State>, steps: seq<Step>, spawned: nat, i: nat)
    requires Run(r, steps, spawned) && i < |steps| && r[i].pc.Head? && !r[i].willStop && steps[i] == Loop
    ensures PassAt(r[i + 1], r[i].ready, 0)
  {
    StepAt(r, steps, spawned, i);
  }

  lemma PassGoesOn(r: seq<State>, steps: seq<Step>, spawned: nat, i: nat, ready: nat, done: int)
    requires Run(r, steps, spawned) && i < |steps| && r[i].pc.Working? && PassAt(r[i], ready, done)
    ensures PassAt(r[i + 1], ready, done + if steps[i].Resume? then 1 else 0)
  {
    StepAt(r, steps, spawned, i);
    PassStep(r[i], steps[i], ready, done);
  }

  /** The loop itself, a ready task, a completion or the kernel can always go on, until it has stopped. */
  lemma NeverStuck(r: seq<State>, steps: seq<Step>, spawned: nat, i: nat, forwards: bool)
    requires Run(r, steps, spawned) && i < |r|
    ensures r[i].pc.Stopped? || Enabled(r[i], Loop) || Enabled(r[i], Resume(0, 0)) || Enabled(r[i], Handle(forwards))
         || Enabled(r[i], Post)
  {
    RunInv(r, steps, spawned, i);
  }

  /** How many moves an idle loop is away from having stopped. */
  function Moves(s: State): nat {
    match s.pc
    case Head => if s.willStop then 1 else 9
    case Working(_) => 8
    case Submitting => 7
    case Peeking => 6
    case Draining(h) => if h == 0 then 6 else 11
    case FastCheck(h) => if h == 0 then 5 else 10
    case BadPeek => 4
    case BadDraining(h) => if h == 0 then 3 else 11
    case BadCheck(h) => if h == 0 then 2 else 10
    case _ => 0
  }

  lemma IdleEarly(s: State)
    requires AllDone(s) && s.requestsToSubmit == 0
    requires s.pc.Head? || s.pc.Working? || s.pc.Submitting? || s.pc.Peeking?
    ensures AllDone(Advance(s)) && Moves(Advance(s)) == Moves(s) - 1
  {
  }

  lemma IdleLate(s: State)
    requires AllDone(s) && s.requestsToSubmit == 0 && s.requestsToReap == 0 && !s.willStop
    requires s.pc.Draining? || s.pc.FastCheck? || s.pc.BadPeek? || s.pc.BadDraining? || s.pc.BadCheck?
    ensures AllDone(Advance(s)) && Moves(Advance(s)) == Moves(s) - 1
  {
    match s.pc
    case Draining(h) =>
    case FastCheck(h) =>
    case BadPeek =>
    case BadDraining(h) =>
    case BadCheck(h) =>
  }

  lemma IdleAdvance(s: State)
    requires Inv(s) && AllDone(s) && !s.pc.Stopped?
    ensures AllDone(Advance(s)) && Moves(Advance(s)) == Moves(s) - 1
  {
    NotBlocked(s);
    if s.pc.Head? || s.pc.Working? || s.pc.Submitting? || s.pc.Peeking? { IdleEarly(s); } else { IdleLate(s); }
  }

  lemma NotBlocked(s: State)
    requires AtPc(s) && AllDone(s)
    ensures !Blocked(s.pc)
  {
    match s.pc
    case WaitSubmit => assert false;
    case WaitUring => assert false;
    case _ =>
  }

  lemma IdleMove(s: State, st: Step)
    requires AllDone(s) && !Blocked(s.pc) && Enabled(s, st)
    ensures st == Loop && !s.pc.Stopped?
  {
  }

  /** Once nothing is left, the loop can only move on, and it has stopped after at most 11 moves. */
  lemma {:induction false} IdleLoopStops(r: seq<State>, steps: seq<Step>, spawned: nat, i: nat, j: nat)
    requires Run(r, steps, spawned) && i <= j < |r| && AllDone(r[i])
    ensures AllDone(r[j]) && Moves(r[j]) + (j - i) == Moves(r[i]) <= 11
    ensures Moves(r[j]) == 0 <==> r[j].pc == Stopped
    decreases j
  {
    if i < j {
      IdleLoopStops(r, steps, spawned, i, j - 1);
      StepAt(r, steps, spawned, j - 1);
      IdleStep(r[j - 1], steps[j - 1]);
    }
    RunInv(r, steps, spawned, j);
    IdleBounds(r[j]);
  }

  lemma IdleBounds(s: State)
    requires Inv(s) && AllDone(s)
    ensures Moves(s) <= 11 && (Moves(s) == 0 <==> s.pc == Stopped)
  {
    NotBlocked(s);
    NoMovesLeft(s);
  }

  lemma NoMovesLeft(s: State)
    requires !Blocked(s.pc)
    ensures Moves(s) <= 11 && (Moves(s) == 0 <==> s.pc == Stopped)
  {
  }

  lemma IdleStep(s: State, st: Step)
    requires Inv(s) && AllDone(s) && Enabled(s, st)
    ensures AllDone(Apply(s, st)) && Moves(Apply(s, st)) == Moves(s) - 1
  {
    NotBlocked(s);
    IdleMove(s, st);
    IdleAdvance(s);
  }
}
