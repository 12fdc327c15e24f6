/**
  `all(...)` (include/co_context/co/when_all.hpp): every task stores its result in a
  slot of a common buffer and counts down; the last one resumes the parent.
 */
module WhenAll {
  import opened Lists

  // ----- buffer_offset_v

  /** Tasks are given by what they will return: None for a task<void>. */
  function Voids<V>(tasks: seq<Option<V>>): nat {
    if |tasks| == 0 then 0
    else Voids(tasks[..|tasks| - 1]) + if tasks[|tasks| - 1].None? then 1 else 0
  }

  /** Lines 95-97: its own position less the voids up to it. */
  function BufferOffset<V>(tasks: seq<Option<V>>, i: nat): int
    requires i < |tasks|
  {
    i - Voids(tasks[..i + 1])
  }

  /** The values the caller gets: those of the non-void tasks, in the order of the arguments. */
  function Values<V>(tasks: seq<Option<V>>): seq<V> {
    if |tasks| == 0 then []
    else Values(tasks[..|tasks| - 1]) + if tasks[|tasks| - 1].Some? then [tasks[|tasks| - 1].value] else []
  }

  lemma {:induction false} OffsetOf<V>(tasks: seq<Option<V>>, i: nat)
    requires i < |tasks|
    ensures |Values(tasks)| == |tasks| - Voids(tasks)
    ensures tasks[i].Some? ==>
      0 <= BufferOffset(tasks, i) < |Values(tasks)| && Values(tasks)[BufferOffset(tasks, i)] == tasks[i].value
    decreases |tasks|
  {
    var n := |tasks| - 1;
    if i < n {
      assert tasks[..n][..i + 1] == tasks[..i + 1];
      OffsetOf(tasks[..n], i);
    } else {
      assert tasks[..n + 1] == tasks;
      if n > 0 {
        OffsetOf(tasks[..n], n - 1);
      }
    }
  }

  lemma {:induction false} VoidsGrow<V>(tasks: seq<Option<V>>, i: nat, j: nat)
    requires i <= j <= |tasks|
    ensures Voids(tasks[..i]) <= Voids(tasks[..j]) <= Voids(tasks[..i]) + (j - i)
    decreases j
  {
    if i < j {
      assert tasks[..j][..j - 1] == tasks[..j - 1];
      VoidsGrow(tasks, i, j - 1);
    }
  }

  /** buffer_offset_v keeps the order of the non-void tasks, so no two share a slot. */
  lemma OffsetsIncrease<V>(tasks: seq<Option<V>>, i: nat, j: nat)
    requires i < j < |tasks| && tasks[i].Some? && tasks[j].Some?
    ensures BufferOffset(tasks, i) < BufferOffset(tasks, j)
  {
    VoidsGrow(tasks, i + 1, j);
    assert tasks[..j + 1][..j] == tasks[..j];
  }

  /** And every slot belongs to some task. */
  lemma {:induction false} OffsetsAreOnto<V>(tasks: seq<Option<V>>, k: nat) returns (i: nat)
    requires k < |Values(tasks)|
    ensures i < |tasks| && tasks[i].Some? && BufferOffset(tasks, i) == k
    decreases |tasks|
  {
    var n := |tasks| - 1;
    if k < |Values(tasks[..n])| {
      i := OffsetsAreOnto(tasks[..n], k);
      assert tasks[..n][..i + 1] == tasks[..i + 1];
    } else {
      i := n;
      assert tasks[..n + 1] == tasks;
      OffsetOf(tasks, n);
    }
  }

  // ----- the countdown

  datatype Pc = Running | Stored | Counted

  datatype State<V> = State(
    tasks: seq<Option<V>>, waitNum: int, buffer: seq<Option<V>>, pc: seq<Pc>,
    wakes: nat)   // history: how often the parent was spawned

  function Init<V>(tasks: seq<Option<V>>): State<V> {
    State(tasks, |tasks|, seq(|Values(tasks)|, _ => None), seq(|tasks|, _ => Running), 0)
  }

  datatype Step = Store(i: nat) | CountDown(i: nat)

  predicate Enabled<V>(s: State<V>, st: Step) {
    && st.i < |s.pc| == |s.tasks|
    && match st
       case Store(i) => s.pc[i] == Running
       case CountDown(i) => s.pc[i] == Stored
  }

  function Put<V>(buffer: seq<Option<V>>, k: int, v: V): seq<Option<V>> {
    if 0 <= k < |buffer| then buffer[k := Some(v)] else buffer
  }

  function Apply<V>(s: State<V>, st: Step): State<V>
    requires Enabled(s, st)
  {
    match st
    case Store(i) =>
      s.(pc := s.pc[i := Stored],
         buffer := if s.tasks[i].Some? then Put(s.buffer, BufferOffset(s.tasks, i), s.tasks[i].value) else s.buffer)
    case CountDown(i) =>
      s.(pc := s.pc[i := Counted], waitNum := s.waitNum - 1, wakes := s.wakes + if s.waitNum == 1 then 1 else 0)
  }

  function Left(pc: seq<Pc>): nat {
    if |pc| == 0 then 0 else Left(pc[1..]) + if pc[0] == Counted then 0 else 1
  }

  lemma {:induction false} LeftChanges(pc: seq<Pc>, i: nat, p: Pc)
    requires i < |pc| && pc[i] != Counted
    ensures Left(pc[i := p]) == Left(pc) - if p == Counted then 1 else 0
  {
    if i == 0 {
      assert pc[i := p][1..] == pc[1..];
    } else {
      assert pc[i := p][1..] == pc[1..][i - 1 := p];
      LeftChanges(pc[1..], i - 1, p);
    }
  }

  lemma {:induction false} NoneLeft(pc: seq<Pc>)
    ensures Left(pc) == 0 <==> forall i :: 0 <= i < |pc| ==> pc[i] == Counted
  {
    if |pc| > 0 {
      NoneLeft(pc[1..]);
    }
  }

  ghost predicate SlotOk<V>(s: State<V>, i: nat)
    requires i < |s.tasks| == |s.pc|
  {
    s.tasks[i].Some? && s.pc[i] != Running ==>
      0 <= BufferOffset(s.tasks, i) < |s.buffer| && s.buffer[BufferOffset(s.tasks, i)] == s.tasks[i]
  }

  ghost predicate Inv<V>(s: State<V>) {
    && |s.pc| == |s.tasks| && |s.buffer| == |Values(s.tasks)|
    && s.waitNum == Left(s.pc) && s.wakes == (if s.waitNum == 0 then 1 else 0)
    && forall i: nat :: i < |s.tasks| ==> SlotOk(s, i)
  }

  lemma StepInv<V>(s: State<V>, st: Step)
    requires Inv(s) && Enabled(s, st)
    ensures Inv(Apply(s, st))
  {
    var t := Apply(s, st);
    LeftChanges(s.pc, st.i, t.pc[st.i]);
    OffsetOf(s.tasks, st.i);
    forall i: nat | i < |t.tasks| ensures SlotOk(t, i) {
      assert SlotOk(s, i);
      if st.Store? && i != st.i && s.tasks[i].Some? && s.tasks[st.i].Some? {
        if i < st.i { OffsetsIncrease(s.tasks, i, st.i); } else { OffsetsIncrease(s.tasks, st.i, i); }
      }
    }
  }

  ghost predicate Run<V>(r: seq<State<V>>, steps: seq<Step>, tasks: seq<Option<V>>) {
    && |r| == |steps| + 1 && r[0] == Init(tasks)
    && forall i {:trigger steps[i]} :: 0 <= i < |steps| ==> Enabled(r[i], steps[i]) && r[i + 1] == Apply(r[i], steps[i])
  }

  lemma {:induction false} RunInv<V>(r: seq<State<V>>, steps: seq<Step>, tasks: seq<Option<V>>, i: nat)
    requires Run(r, steps, tasks) && i < |r| && |tasks| >= 2
    ensures Inv(r[i]) && r[i].tasks == tasks
  {
    if i == 0 {
      InitLeft(|tasks|);
    } else {
      RunInv(r, steps, tasks, i - 1);
      StepInv(r[i - 1], steps[i - 1]);
    }
  }

  lemma {:induction false} InitLeft(n: nat)
    ensures Left(seq(n, _ => Running)) == n
  {
    if n > 0 {
      assert seq<Pc>(n, _ => Running)[1..] == seq<Pc>(n - 1, _ => Running);
      InitLeft(n - 1);
    }
  }

  /**
    The parent is resumed once, when the last task has counted down and not before, and
    then finds exactly the values of the non-void tasks, in order.
   */
  lemma ParentResumesOnceWithAll<V>(r: seq<State<V>>, steps: seq<Step>, tasks: seq<Option<V>>, i: nat)
    requires Run(r, steps, tasks) && i < |r| && |tasks| >= 2
    ensures r[i].wakes <= 1
    ensures r[i].wakes == 1 <==> forall n :: 0 <= n < |r[i].pc| ==> r[i].pc[n] == Counted
    ensures r[i].wakes == 1 ==> |r[i].buffer| == |Values(tasks)|
    ensures r[i].wakes == 1 ==> forall k :: 0 <= k < |Values(tasks)| ==> r[i].buffer[k] == Some(Values(tasks)[k])
  {
    RunInv(r, steps, tasks, i);
    var s := r[i];
    NoneLeft(s.pc);
    if s.wakes == 1 {
      forall k: nat | k < |Values(tasks)| ensures s.buffer[k] == Some(Values(tasks)[k]) {
        var n := OffsetsAreOnto(tasks, k);
        OffsetOf(tasks, n);
        assert SlotOk(s, n);
      }
    }
  }

  // ----- every task gets there

  lemma StepAt<V>(r: seq<State<V>>, steps: seq<Step>, tasks: seq<Option<V>>, i: nat)
    requires Run(r, steps, tasks) && i < |steps| && |tasks| >= 2
    ensures Inv(r[i]) && Enabled(r[i], steps[i]) && r[i + 1] == Apply(r[i], steps[i]) && |r[i].pc| == |tasks|
  {
    RunInv(r, steps, tasks, i);
  }

  /** How far a task is follows from what it has done: it stores first and counts down then, each once. */
  lemma {:induction false} TaskGetsOn<V>(r: seq<State<V>>, steps: seq<Step>, tasks: seq<Option<V>>, i: nat, n: nat)
    requires Run(r, steps, tasks) && i < |r| && |tasks| >= 2 && n < |tasks|
    ensures |r[i].pc| == |tasks|
    ensures r[i].pc[n] ==
      if CountDown(n) in steps[..i] then Counted else if Store(n) in steps[..i] then Stored else Running
  {
    if i > 0 {
      TaskGetsOn(r, steps, tasks, i - 1, n);
      StepAt(r, steps, tasks, i - 1);
      assert steps[..i] == steps[..i - 1] + [steps[i - 1]];
    }
  }

  lemma Extend<V>(r: seq<State<V>>, steps: seq<Step>, tasks: seq<Option<V>>, st: Step)
    returns (r': seq<State<V>>, steps': seq<Step>)
    requires Run(r, steps, tasks) && Enabled(r[|steps|], st)
    ensures Run(r', steps', tasks) && steps' == steps + [st] && r' == r + [Apply(r[|steps|], st)]
  {
    r', steps' := r + [Apply(r[|steps|], st)], steps + [st];
  }

  /** A task that has not counted down can do so. */
  lemma CanFinish<V>(r: seq<State<V>>, steps: seq<Step>, tasks: seq<Option<V>>, n: nat)
    returns (r': seq<State<V>>, steps': seq<Step>)
    requires Run(r, steps, tasks) && |tasks| >= 2 && n < |tasks|
    requires |r[|steps|].pc| == |tasks| && r[|steps|].pc[n] != Counted
    ensures Run(r', steps', tasks) && r <= r' && steps <= steps'
    ensures |r'[|steps'|].pc| == |tasks| && Left(r'[|steps'|].pc) == Left(r[|steps|].pc) - 1
  {
    var s := r[|steps|];
    RunInv(r, steps, tasks, |steps|);
    r', steps' := r, steps;
    if s.pc[n] == Running {
      r', steps' := Extend(r', steps', tasks, Store(n));
      LeftChanges(s.pc, n, Stored);
    }
    var t := r'[|steps'|];
    assert t.pc[n] == Stored && |t.pc| == |tasks|;
    r', steps' := Extend(r', steps', tasks, CountDown(n));
    LeftChanges(t.pc, n, Counted);
  }

  /** Every run can go on until the parent has been resumed. */
  lemma {:induction false} ParentGetsResumed<V>(r: seq<State<V>>, steps: seq<Step>, tasks: seq<Option<V>>)
    returns (r': seq<State<V>>, steps': seq<Step>)
    requires Run(r, steps, tasks) && |tasks| >= 2
    ensures Run(r', steps', tasks) && r <= r' && steps <= steps' && r'[|steps'|].wakes == 1
    decreases Left(r[|steps|].pc)
  {
    RunInv(r, steps, tasks, |steps|);
    NoneLeft(r[|steps|].pc);
    if Left(r[|steps|].pc) == 0 {
      r', steps' := r, steps;
    } else {
      var n: nat :| n < |r[|steps|].pc| && r[|steps|].pc[n] != Counted;
      r', steps' := CanFinish(r, steps, tasks, n);
      r', steps' := ParentGetsResumed(r', steps', tasks);
    }
  }
}
