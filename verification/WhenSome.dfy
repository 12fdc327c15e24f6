/**
  `some(min_complete, ...)` and `any(...)` (include/co_context/co/when_any.hpp:22-143 and
  189-289): tasks claim ranks in the order they finish; ranks below min_complete have a
  slot, and the holder of the last slot resumes the parent.  `any` is the case of one slot.

  Claiming a rank and writing its slot are two steps, as in the code.
 */
module WhenSome {
  import opened Lists

  datatype Pc =
    | Fresh
    | Running                // not cancelled at its start
    | Claimed(rank: nat)     // between preempt() and the end of its writes
    | Over

  datatype Entry<V> = Entry(index: nat, value: V)

  datatype State<V> = State(
    min: nat, values: seq<V>,        // what task i will return
    idx: nat,                        // finished tasks so far
    buffer: seq<Option<Entry<V>>>,
    pc: seq<Pc>,
    claims: seq<Id>, wakes: nat)     // history

  function Init<V>(min: nat, values: seq<V>): State<V> {
    State(min, values, 0, seq(min, _ => None), seq(|values|, _ => Fresh), [], 0)
  }

  datatype Step = Start(i: Id) | Claim(i: Id) | Write(i: Id)

  predicate Enabled<V>(s: State<V>, st: Step) {
    && st.i < |s.pc| == |s.values|
    && match st
       case Start(i) => s.pc[i] == Fresh
       case Claim(i) => s.pc[i] == Running
       case Write(i) => s.pc[i].Claimed? && s.pc[i].rank < |s.buffer|
  }

  function Apply<V>(s: State<V>, st: Step): State<V>
    requires Enabled(s, st)
  {
    match st
    case Start(i) => s.(pc := s.pc[i := if s.idx >= s.min then Over else Running])
    case Claim(i) =>
      s.(idx := s.idx + 1, claims := s.claims + [i], pc := s.pc[i := if s.idx < s.min then Claimed(s.idx) else Over])
    case Write(i) =>
      var rank := s.pc[i].rank;
      s.(buffer := s.buffer[rank := Some(Entry(i, s.values[i]))], pc := s.pc[i := Over],
         wakes := s.wakes + if rank + 1 == s.min then 1 else 0)
  }

  /** The claimant of rank r has written its slot, or is about to. */
  ghost predicate RankOk<V>(s: State<V>, r: nat)
    requires r < |s.claims| && |s.buffer| == s.min && |s.pc| == |s.values|
  {
    var i := s.claims[r];
    && i < |s.pc|
    && (r < s.min ==>
      || (s.pc[i] == Claimed(r) && s.buffer[r] == None)
      || (s.pc[i] == Over && s.buffer[r] == Some(Entry(i, s.values[i]))))
    && (r >= s.min ==> s.pc[i] == Over)
  }

  ghost predicate TaskOk<V>(s: State<V>, i: nat)
    requires i < |s.pc|
  {
    && ((s.pc[i].Fresh? || s.pc[i].Running?) ==> i !in s.claims)
    && (s.pc[i].Claimed? ==> s.pc[i].rank < |s.claims| && s.pc[i].rank < s.min && s.claims[s.pc[i].rank] == i)
    && (s.pc[i].Over? && i !in s.claims ==> s.idx >= s.min)
  }

  ghost predicate Woken<V>(s: State<V>) {
    && |s.buffer| == s.min && s.min >= 1
    && s.wakes == if s.buffer[s.min - 1].Some? then 1 else 0
  }

  ghost predicate Inv<V>(s: State<V>) {
    && |s.pc| == |s.values| && |s.buffer| == s.min >= 1 && s.idx == |s.claims| && Distinct(s.claims)
    && (forall r: nat :: r < |s.claims| ==> RankOk(s, r))
    && (forall r: nat :: |s.claims| <= r < s.min ==> s.buffer[r] == None)
    && (forall i: nat :: i < |s.pc| ==> TaskOk(s, i))
    && Woken(s)
  }

  lemma StartStep<V>(s: State<V>, st: Step)
    requires Inv(s) && Enabled(s, st) && st.Start?
    ensures Inv(Apply(s, st))
  {
    var t := Apply(s, st);
    assert TaskOk(s, st.i);
    forall r: nat | r < |t.claims| ensures RankOk(t, r) {
      assert RankOk(s, r);
    }
    forall i: nat | i < |t.pc| ensures TaskOk(t, i) {
      assert TaskOk(s, i);
    }
  }

  lemma ClaimStep<V>(s: State<V>, st: Step)
    requires Inv(s) && Enabled(s, st) && st.Claim?
    ensures Inv(Apply(s, st))
  {
    var t := Apply(s, st);
    assert TaskOk(s, st.i);
    DistinctConcat(s.claims, [st.i]);
    forall r: nat | r < |t.claims| ensures RankOk(t, r) {
      if r < |s.claims| {
        assert RankOk(s, r);
        assert s.claims[r] in s.claims;
      }
    }
    forall i: nat | i < |t.pc| ensures TaskOk(t, i) {
      assert TaskOk(s, i);
    }
  }

  lemma WriteStep<V>(s: State<V>, st: Step)
    requires Inv(s) && Enabled(s, st) && st.Write?
    ensures Inv(Apply(s, st))
  {
    var t := Apply(s, st);
    assert TaskOk(s, st.i);
    assert RankOk(s, s.pc[st.i].rank);
    forall r: nat | r < |t.claims| ensures RankOk(t, r) {
      assert RankOk(s, r);
    }
    forall i: nat | i < |t.pc| ensures TaskOk(t, i) {
      assert TaskOk(s, i);
    }
  }

  lemma StepInv<V>(s: State<V>, st: Step)
    requires Inv(s) && Enabled(s, st)
    ensures Inv(Apply(s, st))
  {
    match st
    case Start(_) => StartStep(s, st);
    case Claim(_) => ClaimStep(s, st);
    case Write(_) => WriteStep(s, st);
  }

  ghost predicate Run<V>(r: seq<State<V>>, steps: seq<Step>, min: nat, values: seq<V>) {
    && |r| == |steps| + 1 && r[0] == Init(min, values)
    && forall i {:trigger steps[i]} :: 0 <= i < |steps| ==> Enabled(r[i], steps[i]) && r[i + 1] == Apply(r[i], steps[i])
  }

  lemma {:induction false} RunInv<V>(r: seq<State<V>>, steps: seq<Step>, min: nat, values: seq<V>, i: nat)
    requires Run(r, steps, min, values) && i < |r| && min >= 1
    ensures Inv(r[i]) && r[i].values == values && r[i].min == min
  {
    if i > 0 {
      RunInv(r, steps, min, values, i - 1);
      StepInv(r[i - 1], steps[i - 1]);
    }
  }

  /** The slots hold what the first finishers returned, in the order they finished. */
  ghost predicate Complete<V>(s: State<V>) {
    && |s.buffer| == s.min <= |s.claims|
    && forall r :: 0 <= r < s.min ==>
         s.claims[r] < |s.values| && s.buffer[r] == Some(Entry(s.claims[r], s.values[s.claims[r]]))
  }

  /** The parent is resumed at most once, and never before min_complete different tasks have finished. */
  lemma ParentResumesOnce<V>(r: seq<State<V>>, steps: seq<Step>, min: nat, values: seq<V>, i: nat)
    requires Run(r, steps, min, values) && i < |r| && min >= 1
    ensures r[i].wakes <= 1 && Distinct(r[i].claims)
    ensures r[i].wakes == 1 ==> |r[i].claims| >= min
  {
    RunInv(r, steps, min, values, i);
  }

  /** When all tasks are over, the parent has been resumed, with a complete result. */
  lemma ParentIsResumed<V>(r: seq<State<V>>, steps: seq<Step>, min: nat, values: seq<V>, i: nat)
    requires Run(r, steps, min, values) && i < |r| && 1 <= min <= |values|
    requires forall n :: 0 <= n < |r[i].pc| ==> r[i].pc[n].Over?
    ensures r[i].wakes == 1 && Complete(r[i])
  {
    RunInv(r, steps, min, values, i);
    var s := r[i];
    if |s.claims| < min {
      forall n: nat | n < |s.pc| ensures n in s.claims {
        assert TaskOk(s, n);
      }
      AllIn(s.claims, |s.pc|);
      assert false;
    }
    forall k: nat | k < min
      ensures s.claims[k] < |s.values| && s.buffer[k] == Some(Entry(s.claims[k], s.values[s.claims[k]]))
    {
      assert RankOk(s, k);
    }
  }

  /** A task that is first scheduled after min_complete others have finished never runs. */
  lemma {:induction false} LateTasksNeverRun<V>(
      r: seq<State<V>>, steps: seq<Step>, min: nat, values: seq<V>, i: nat, j: nat, n: Id)
    requires Run(r, steps, min, values) && i < j < |r| && min >= 1
    requires steps[i] == Start(n) && |r[i].claims| >= min
    ensures n < |r[j].pc| && r[j].pc[n] == Over && n !in r[j].claims
    decreases j
  {
    RunInv(r, steps, min, values, j - 1);
    assert r[j - 1 + 1] == Apply(r[j - 1], steps[j - 1]);
    if j == i + 1 {
      assert TaskOk(r[i], n);
    } else {
      LateTasksNeverRun(r, steps, min, values, i, j - 1, n);
    }
  }

  lemma {:induction false} AllIn(s: seq<Id>, n: nat)
    requires forall i: nat :: i < n ==> i in s
    ensures |s| >= n
  {
    if n > 0 {
      assert n - 1 in s;
      var k :| 0 <= k < |s| && s[k] == n - 1;
      var t := s[..k] + s[k + 1..];
      forall i: nat | i < n - 1 ensures i in t {
        assert i in s;
        var j :| 0 <= j < |s| && s[j] == i;
        assert t[if j < k then j else j - 1] == i;
      }
      AllIn(t, n - 1);
    }
  }

  lemma NobodyWrites<V>(t: State<V>, n: nat)
    requires Inv(t) && Complete(t) && n < |t.pc|
    ensures !t.pc[n].Claimed?
  {
    assert TaskOk(t, n);
    forall r: nat | r < t.min ensures t.claims[r] < |t.pc| && t.pc[t.claims[r]] == Over {
      assert RankOk(t, r);
    }
  }

  /** What the resumed parent finds is complete exactly when no other claimant is still writing. */
  lemma CompleteAtWakeIff<V>(r: seq<State<V>>, steps: seq<Step>, min: nat, values: seq<V>, i: nat)
    requires Run(r, steps, min, values) && i < |steps| && min >= 1
    requires r[i].wakes == 0 && r[i + 1].wakes == 1
    ensures Complete(r[i + 1]) <==> forall n :: 0 <= n < |r[i].pc| && n != steps[i].i ==> !r[i].pc[n].Claimed?
  {
    RunInv(r, steps, min, values, i);
    RunInv(r, steps, min, values, i + 1);
    var s, t, w := r[i], r[i + 1], steps[i].i;
    assert t == Apply(s, steps[i]) && steps[i].Write?;
    if Complete(t) {
      forall n | 0 <= n < |s.pc| && n != w ensures !s.pc[n].Claimed? {
        assert TaskOk(s, n);
        NobodyWrites(t, n);
      }
    } else {
      WriterLeft(s, t, w);
    }
  }

  lemma WriterLeft<V>(s: State<V>, t: State<V>, w: Id)
    requires Inv(s) && Enabled(s, Write(w)) && t == Apply(s, Write(w)) && Inv(t) && t.wakes == 1 && !Complete(t)
    ensures exists n :: 0 <= n < |s.pc| && n != w && s.pc[n].Claimed?
  {
    assert |t.claims| >= t.min;
    assert RankOk(t, t.min - 1);
    var k: nat :| k < t.min && !(t.claims[k] < |t.values| && t.buffer[k] == Some(Entry(t.claims[k], t.values[t.claims[k]])));
    assert RankOk(t, k) && RankOk(s, k);
    assert s.pc[s.claims[k]].Claimed?;
  }

  /** Each claim is followed by its own writes before anybody else claims. */
  ghost predicate ClaimsAreAtomic<V>(r: seq<State<V>>, steps: seq<Step>)
    requires |r| == |steps| + 1
  {
    forall i {:trigger steps[i]} :: 0 <= i < |steps| && steps[i].Claim? ==> NobodyIsWriting(r[i])
  }

  ghost predicate NobodyIsWriting<V>(s: State<V>) {
    forall n :: 0 <= n < |s.pc| ==> !s.pc[n].Claimed?
  }

  lemma {:induction false} OneWriter<V>(
      r: seq<State<V>>, steps: seq<Step>, min: nat, values: seq<V>, i: nat, m: nat, n: nat)
    requires Run(r, steps, min, values) && ClaimsAreAtomic(r, steps) && i < |r| && min >= 1
    requires m < |r[i].pc| && n < |r[i].pc| && r[i].pc[m].Claimed? && r[i].pc[n].Claimed?
    ensures m == n
  {
    if i > 0 {
      RunInv(r, steps, min, values, i - 1);
      assert r[i - 1 + 1] == Apply(r[i - 1], steps[i - 1]);
      assert steps[i - 1].Claim? ==> NobodyIsWriting(r[i - 1]);
      if r[i - 1].pc[m].Claimed? && r[i - 1].pc[n].Claimed? {
        OneWriter(r, steps, min, values, i - 1, m, n);
      }
    }
  }

  /** Then the parent always finds the first min_complete finishers, in order. */
  lemma AtomicClaimsAreComplete<V>(r: seq<State<V>>, steps: seq<Step>, min: nat, values: seq<V>, i: nat)
    requires Run(r, steps, min, values) && ClaimsAreAtomic(r, steps) && i < |steps| && min >= 1
    requires r[i].wakes == 0 && r[i + 1].wakes == 1
    ensures Complete(r[i + 1])
  {
    CompleteAtWakeIff(r, steps, min, values, i);
    forall n | 0 <= n < |r[i].pc| && n != steps[i].i ensures !r[i].pc[n].Claimed? {
      assert steps[i].Write?;
      if r[i].pc[n].Claimed? {
        OneWriter(r, steps, min, values, i, n, steps[i].i);
      }
    }
  }

  /** With one slot, as in any(...), the result is the first finisher's, in every interleaving. */
  lemma AnyReturnsFirst<V>(r: seq<State<V>>, steps: seq<Step>, values: seq<V>, i: nat)
    requires Run(r, steps, 1, values) && i < |r|
    ensures r[i].wakes == 1 <==> |r[i].buffer| == 1 && r[i].buffer[0].Some?
    ensures r[i].wakes == 1 ==>
      |r[i].claims| > 0 && r[i].claims[0] < |values| && r[i].buffer[0] == Some(Entry(r[i].claims[0], values[r[i].claims[0]]))
  {
    RunInv(r, steps, 1, values, i);
    if r[i].wakes == 1 {
      assert RankOk(r[i], 0);
    }
  }

  /** Two tasks, two slots: the second claimant may resume the parent before the first has written. */
  lemma ResumedTooEarly<V>(a: V, b: V) returns (r: seq<State<V>>, steps: seq<Step>)
    ensures Run(r, steps, 2, [a, b]) && r[|steps|].wakes == 1 && r[|steps|].buffer == [None, Some(Entry(1, b))]
  {
    steps := [Start(0), Start(1), Claim(0), Claim(1), Write(1)];
    var s0 := Init(2, [a, b]);
    assert s0 == State(2, [a, b], 0, [None, None], [Fresh, Fresh], [], 0);
    var s1 := Apply(s0, steps[0]);
    var s2 := Apply(s1, steps[1]);
    assert s2.pc == [Running, Running];
    var s3 := Apply(s2, steps[2]);
    var s4 := Apply(s3, steps[3]);
    assert s4.pc == [Claimed(0), Claimed(1)];
    r := [s0, s1, s2, s3, s4, Apply(s4, steps[4])];
  }
}
