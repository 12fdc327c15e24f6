/** What the stop state keeps over whole runs: requests, callbacks and their lifetimes. */
module StopProtocol {
  import opened Lists
  import opened StopState

  ghost predicate Run(r: seq<State>, steps: seq<Step>, threads: nat, callbacks: nat) {
    && |r| == |steps| + 1
    && r[0] == Init(threads, callbacks)
    && forall i :: 0 <= i < |steps| ==>
         Shape(r[i]) && Enabled(r[i], steps[i]) && r[i + 1] == Apply(r[i], steps[i])
  }

  lemma StepAt(r: seq<State>, steps: seq<Step>, threads: nat, callbacks: nat, i: nat)
    requires Run(r, steps, threads, callbacks) && i < |steps|
    ensures Shape(r[i]) && Enabled(r[i], steps[i]) && r[i + 1] == Apply(r[i], steps[i])
  {
  }

  lemma {:induction false} RunInv(r: seq<State>, steps: seq<Step>, threads: nat, callbacks: nat, i: nat)
    returns (v: View)
    requires Run(r, steps, threads, callbacks) && i < |r|
    ensures Inv(r[i], v)
  {
    if i == 0 {
      v := View(Nobody, None, seq(callbacks, _ => Unborn));
      InitInv(threads, callbacks);
    } else {
      v := RunInv(r, steps, threads, callbacks, i - 1);
      StepInv(r[i - 1], v, steps[i - 1]);
      v := NextView(r[i - 1], v, steps[i - 1]);
    }
  }

  /** At most one request_stop returns true, and each callback runs at most once. */
  lemma OnceOnly(r: seq<State>, steps: seq<Step>, threads: nat, callbacks: nat, i: nat)
    requires Run(r, steps, threads, callbacks) && i < |r|
    ensures r[i].trues <= 1
    ensures Shape(r[i]) && forall c :: 0 <= c < |r[i].runs| ==> r[i].ended[c] <= r[i].runs[c] <= 1
  {
    var s := r[i];
    var v := RunInv(r, steps, threads, callbacks, i);
    forall c | 0 <= c < |s.runs| ensures s.ended[c] <= s.runs[c] <= 1 {
      assert CallbackOk(s, v, c);
    }
  }

  /** Whoever is inside a callback, or has seen the stop bit, can rely on the stop bit. */
  lemma {:induction false} SeenStop(r: seq<State>, steps: seq<Step>, threads: nat, callbacks: nat, i: nat, c: Id)
    requires Run(r, steps, threads, callbacks) && i < |r| && c < |r[i].reg|
    requires r[i].reg[c].RInline? || (r[i].reg[c].RLoaded? && r[i].reg[c].seen.stop)
    ensures r[i].word.stop
  {
    if i > 0 {
      StepAt(r, steps, threads, callbacks, i - 1);
      StopStep(r[i - 1], steps[i - 1], c);
      if c < |r[i - 1].reg| && (r[i - 1].reg[c].RInline? || (r[i - 1].reg[c].RLoaded? && r[i - 1].reg[c].seen.stop)) {
        SeenStop(r, steps, threads, callbacks, i - 1, c);
      }
    }
  }

  lemma StopStep(s: State, st: Step, c: Id)
    requires Shape(s) && Enabled(s, st)
    ensures s.word.stop ==> Apply(s, st).word.stop
    ensures |Apply(s, st).reg| == |s.reg|
    ensures c < |s.reg| ==> var p, p' := s.reg[c], Apply(s, st).reg[c];
      p'.RInline? || (p'.RLoaded? && p'.seen.stop) ==> p.RInline? || (p.RLoaded? && p.seen.stop) || s.word.stop
  {
  }

  /** A callback that calls request_stop finds the stop bit set: the call returns false at once. */
  lemma NestedRequestFails(r: seq<State>, steps: seq<Step>, threads: nat, callbacks: nat, i: nat)
    requires Run(r, steps, threads, callbacks) && i < |steps| && steps[i].Nested?
    ensures r[i].word.stop
  {
    var s, t := r[i], steps[i].t;
    var v := RunInv(r, steps, threads, callbacks, i);
    if s.req[t].QRun? {
      assert Active(s.req[t]);
    } else {
      var c :| 0 <= c < |s.reg| && s.reg[c] == RInline(t);
      SeenStop(r, steps, threads, callbacks, i, c);
    }
  }

  /** remove_callback found c still linked: it was removed before any stop request got to it. */
  predicate RemovedFirst(s: State, c: Id)
    requires Shape(s) && c < |s.rem|
  {
    s.runs[c] == 0 && (s.rem[c].MUnlinked? || s.rem[c].Gone?)
  }

  /**
    When request_stop returns true, the list is empty, and every callback that was
    linked when the stop bit was set has run to its end or was removed first -- also
    where the last relocking was skipped because of `last_cb`.
   */
  lemma TrueMeansAllHandled(r: seq<State>, steps: seq<Step>, threads: nat, callbacks: nat, i: nat)
    requires Run(r, steps, threads, callbacks) && i < |r| && r[i].trues > 0
    ensures r[i].list == [] && Shape(r[i])
    ensures forall c :: c in r[i].atStop ==>
      c < |r[i].runs| && ((r[i].runs[c] == 1 && r[i].ended[c] == 1) || RemovedFirst(r[i], c))
  {
    var s := r[i];
    var v := RunInv(r, steps, threads, callbacks, i);
    forall c | c in s.atStop
      ensures c < |s.runs| && ((s.runs[c] == 1 && s.ended[c] == 1) || RemovedFirst(s, c))
    {
      assert CallbackOk(s, v, c);
    }
  }

  /** Once the stop bit is set the list only shrinks, and the bit stays. */
  lemma NothingLinkedAfterStop(r: seq<State>, steps: seq<Step>, threads: nat, callbacks: nat, i: nat)
    requires Run(r, steps, threads, callbacks) && i < |steps| && r[i].word.stop
    ensures r[i + 1].word.stop
    ensures forall c :: c in r[i + 1].list ==> c in r[i].list
  {
    var s := r[i];
    var v := RunInv(r, steps, threads, callbacks, i);
    if steps[i].Rem? && s.rem[steps[i].c].MLocked? { WithoutMembers(s.list, steps[i].c); }
  }

  /** While a stop request is on, whatever is still linked was linked when it came. */
  lemma LinkedBeforeStop(r: seq<State>, steps: seq<Step>, threads: nat, callbacks: nat, i: nat)
    requires Run(r, steps, threads, callbacks) && i < |r| && r[i].word.stop
    ensures forall c :: c in r[i].list ==> c in r[i].atStop && c < |r[i].runs| && r[i].runs[c] == 0
  {
    var s := r[i];
    var v := RunInv(r, steps, threads, callbacks, i);
    forall c | c in s.list ensures c in s.atStop && c < |s.runs| && s.runs[c] == 0 {
      assert CallbackOk(s, v, c);
    }
  }

  lemma ReturningSteps(s: State, st: Step, c: Id)
    requires Shape(s) && Enabled(s, st) && c < |s.rem|
    requires s.rem[c] != Gone && Shape(Apply(s, st)) && c < |Apply(s, st).rem| && Apply(s, st).rem[c] == Gone
    ensures st.Rem? && st.c == c
    ensures s.rem[c].MUnlinked? || s.rem[c].MWait? || (s.rem[c].MCheck? && s.requester == Some(s.rem[c].t))
  {
  }

  /**
    remove_callback returns only when the callback will not run any more: it never
    started, or it has returned, or it is running on the removing thread itself, so
    that the callback is destroying its own stop_callback.
   */
  lemma RemoveSynchronises(r: seq<State>, steps: seq<Step>, threads: nat, callbacks: nat, i: nat, c: Id)
    requires Run(r, steps, threads, callbacks) && i < |steps| && Shape(r[i]) && Shape(r[i + 1])
    requires c < |r[i].rem| == |r[i + 1].rem| && r[i].rem[c] != Gone && r[i + 1].rem[c] == Gone
    ensures var s, t := r[i], r[i].rem[c].t;
      || (s.rem[c].MUnlinked? && s.runs[c] == 0)
      || (s.runs[c] == 1 && s.ended[c] == 1)
      || (s.requester == Some(t) && t < |s.req| && s.req[t].QRun? && s.req[t].c == c)
    ensures r[i].requester != Some(r[i].rem[c].t) ==> r[i].runs[c] == r[i].ended[c]
  {
    var s := r[i];
    var v := RunInv(r, steps, threads, callbacks, i);
    ReturningSteps(s, steps[i], c);
    assert CallbackOk(s, v, c);
  }

  /** What a step of request_stop, or of a critical section, dereferences. */
  ghost predicate Touches(s: State, st: Step, c: Id)
    requires Shape(s) && Enabled(s, st)
  {
    match st
    case Req(t, _) =>
      var p := s.req[t];
      // run, m_destroyed and m_done of the popped callback; the head of the list and its successor
      || ((p.QSet? || p.QClear? || p.QDone?) && p.c == c)
      || (p.QRun? && !p.destroyed && p.c == c)
      || (p.QTop? && c in s.list)
    case Reg(_, _) => c in s.list
    case Rem(_, _) => c in s.list
    case _ => false
  }

  /** No step touches a callback object whose removal has returned. */
  lemma NeverTouchesDestroyed(r: seq<State>, steps: seq<Step>, threads: nat, callbacks: nat, i: nat, c: Id)
    requires Run(r, steps, threads, callbacks) && i < |steps| && Touches(r[i], steps[i], c)
    ensures c < |r[i].rem| && r[i].rem[c] != Gone
  {
    var s := r[i];
    var v := RunInv(r, steps, threads, callbacks, i);
    if c in s.list {
      assert CallbackOk(s, v, c);
    } else {
      assert Active(s.req[steps[i].t]);
      assert c < |s.rem|;
      assert CallbackOk(s, v, c);
    }
  }

  // ----- counted by the steps

  /** Stop sources, of which there is one at the start. */
  function Sources(steps: seq<Step>, i: nat): int
    requires i <= |steps|
  {
    if i == 0 then 1
    else Sources(steps, i - 1) + (if steps[i - 1].AddSource? then 1 else 0) - if steps[i - 1].DropSource? then 1 else 0
  }

  /** A request_stop in st.t has won: it sets the stop bit. */
  predicate Begins(s: State, st: Step, u: State) {
    st.Req? && st.t < |s.req| == |u.req| && !Active(s.req[st.t]) && Active(u.req[st.t])
  }

  /** It returns true. */
  predicate ReturnsTrue(s: State, st: Step, u: State) {
    st.Req? && st.t < |s.req| == |u.req| && Active(s.req[st.t]) && !Active(u.req[st.t])
  }

  /** One that has not won returns false. */
  predicate ReturnsFalse(s: State, st: Step, u: State) {
    st.Req? && st.t < |s.req| == |u.req| && s.req[st.t].QLoaded? && u.req[st.t] == QIdle
  }

  /** The callback c starts, run by a request_stop or by its own constructor. */
  predicate Starts(s: State, st: Step, u: State, c: Id) {
    || (st.Req? && st.t < |s.req| == |u.req| && !s.req[st.t].QRun? && u.req[st.t].QRun? && u.req[st.t].c == c)
    || (st.Reg? && st.c == c && c < |s.reg| == |u.reg| && !s.reg[c].RInline? && u.reg[c].RInline?)
  }

  /** It returns. */
  predicate Ends(s: State, st: Step, u: State, c: Id) {
    || (st.Req? && st.t < |s.req| == |u.req| && s.req[st.t].QRun? && !u.req[st.t].QRun? && s.req[st.t].c == c)
    || (st.Reg? && st.c == c && c < |s.reg| == |u.reg| && s.reg[c].RInline? && !u.reg[c].RInline?)
  }

  ghost function Count(r: seq<State>, steps: seq<Step>, i: nat, what: (State, Step, State) -> bool): nat
    requires i <= |steps| < |r|
  {
    if i == 0 then 0 else Count(r, steps, i - 1, what) + if what(r[i - 1], steps[i - 1], r[i]) then 1 else 0
  }

  lemma CountsStep(s: State, v: View, st: Step, c: Id)
    requires Inv(s, v) && Enabled(s, st) && c < |s.runs|
    ensures var u := Apply(s, st);
      && Shape(u) && |u.runs| == |s.runs|
      && u.word.sources == s.word.sources + (if st.AddSource? then 1 else 0) - (if st.DropSource? then 1 else 0)
      && u.trues == s.trues + (if ReturnsTrue(s, st, u) then 1 else 0)
      && u.runs[c] == s.runs[c] + (if Starts(s, st, u, c) then 1 else 0)
      && u.ended[c] == s.ended[c] + (if Ends(s, st, u, c) then 1 else 0)
      && (u.word.stop <==> s.word.stop || Begins(s, st, u))
  {
    match st
    case Req(t, weak) =>
      ReqReturns(s, v, t, weak);
      ReqRuns(s, v, t, weak, c);
    case Reg(d, weak) => RegCounts(s, d, weak, c);
    case Rem(d, weak) => RemCounts(s, d, weak, c);
    case _ =>
  }

  lemma ReqReturns(s: State, v: View, t: Tid, weak: bool)
    requires Inv(s, v) && Enabled(s, Req(t, weak))
    ensures var st, u := Req(t, weak), ApplyReq(s, t, weak);
      && u.word.sources == s.word.sources
      && u.trues == s.trues + (if ReturnsTrue(s, st, u) then 1 else 0)
      && (u.word.stop <==> s.word.stop || Begins(s, st, u))
  {
    if Current(s.req[t]).Some? { CurrentExists(s, v, t); }
  }

  lemma ReqRuns(s: State, v: View, t: Tid, weak: bool, c: Id)
    requires Inv(s, v) && Enabled(s, Req(t, weak)) && c < |s.runs|
    ensures var st, u := Req(t, weak), ApplyReq(s, t, weak);
      && Shape(u) && |u.runs| == |s.runs|
      && u.runs[c] == s.runs[c] + (if Starts(s, st, u, c) then 1 else 0)
      && u.ended[c] == s.ended[c] + (if Ends(s, st, u, c) then 1 else 0)
  {
    if Current(s.req[t]).Some? { CurrentExists(s, v, t); }
    RunsOf(s, t, weak, c);
  }

  lemma RunsOf(s: State, t: Tid, weak: bool, c: Id)
    requires Shape(s) && Enabled(s, Req(t, weak)) && c < |s.runs|
    requires Current(s.req[t]).Some? ==> Current(s.req[t]).value < |s.runs|
    ensures var p, u := s.req[t], ApplyReq(s, t, weak);
      && |u.runs| == |s.runs|
      && u.runs[c] == s.runs[c] + (if p.QSet? && p.c == c then 1 else 0)
      && u.ended[c] == s.ended[c] + (if p.QRun? && p.c == c then 1 else 0)
  {
  }

  /** What a request_stop works on is a callback. */
  lemma CurrentExists(s: State, v: View, t: Tid)
    requires Inv(s, v) && t < |s.req| && Current(s.req[t]).Some?
    ensures Current(s.req[t]).value < |s.runs|
  {
    assert Active(s.req[t]);
  }

  lemma RegCounts(s: State, d: Id, weak: bool, c: Id)
    requires Shape(s) && Enabled(s, Reg(d, weak)) && c < |s.runs|
    ensures var st, u := Reg(d, weak), ApplyReg(s, d, weak);
      && Shape(u) && |u.runs| == |s.runs| && u.trues == s.trues && u.word.sources == s.word.sources
      && u.runs[c] == s.runs[c] + (if Starts(s, st, u, c) then 1 else 0)
      && u.ended[c] == s.ended[c] + (if Ends(s, st, u, c) then 1 else 0)
      && u.word.stop == s.word.stop
  {
  }

  lemma RemCounts(s: State, d: Id, weak: bool, c: Id)
    requires Shape(s) && Enabled(s, Rem(d, weak)) && c < |s.runs|
    ensures var st, u := Rem(d, weak), ApplyRem(s, d, weak);
      && Shape(u) && |u.runs| == |s.runs| && u.trues == s.trues && u.word.sources == s.word.sources
      && u.runs[c] == s.runs[c] + (if Starts(s, st, u, c) then 1 else 0)
      && u.ended[c] == s.ended[c] + (if Ends(s, st, u, c) then 1 else 0)
      && u.word.stop == s.word.stop
  {
  }

  /** The sources, the stop bit and the histories are what the calls made so far add up to. */
  lemma {:induction false} CountsAreExact(r: seq<State>, steps: seq<Step>, threads: nat, callbacks: nat, i: nat, c: Id)
    requires Run(r, steps, threads, callbacks) && i < |r| && c < callbacks
    ensures Shape(r[i]) && |r[i].runs| == callbacks
    ensures r[i].word.sources == Sources(steps, i)
    ensures r[i].trues == Count(r, steps, i, ReturnsTrue)
    ensures r[i].word.stop <==> Count(r, steps, i, Begins) > 0
    ensures r[i].runs[c] == Count(r, steps, i, (s, st, u) => Starts(s, st, u, c))
    ensures r[i].ended[c] == Count(r, steps, i, (s, st, u) => Ends(s, st, u, c))
  {
    if i > 0 {
      CountsAreExact(r, steps, threads, callbacks, i - 1, c);
      StepAt(r, steps, threads, callbacks, i - 1);
      var v := RunInv(r, steps, threads, callbacks, i - 1);
      CountsStep(r[i - 1], v, steps[i - 1], c);
    }
  }

  /** request_stop returns false only if somebody has requested a stop before. */
  lemma FalseMeansRequested(r: seq<State>, steps: seq<Step>, threads: nat, callbacks: nat, i: nat)
    requires Run(r, steps, threads, callbacks) && i < |steps| && ReturnsFalse(r[i], steps[i], r[i + 1])
    ensures r[i].word.stop
  {
    StepAt(r, steps, threads, callbacks, i);
    FalseSaw(r[i], steps[i].t, steps[i].weak);
    SeenByRequest(r, steps, threads, callbacks, i, steps[i].t);
  }

  /** A request_stop that has loaded a value with the stop bit. */
  predicate SawStop(s: State, t: Tid) {
    t < |s.req| && s.req[t].QLoaded? && s.req[t].seen.stop
  }

  lemma {:induction false} SeenByRequest(r: seq<State>, steps: seq<Step>, threads: nat, callbacks: nat, i: nat, t: Tid)
    requires Run(r, steps, threads, callbacks) && i < |r| && SawStop(r[i], t)
    ensures r[i].word.stop
  {
    if i > 0 {
      StepAt(r, steps, threads, callbacks, i - 1);
      LoadStep(r[i - 1], steps[i - 1], t);
      if SawStop(r[i - 1], t) {
        SeenByRequest(r, steps, threads, callbacks, i - 1, t);
      }
    }
  }

  lemma FalseSaw(s: State, t: Tid, weak: bool)
    requires Shape(s) && Enabled(s, Req(t, weak)) && s.req[t].QLoaded? && t < |ApplyReq(s, t, weak).req|
    requires ApplyReq(s, t, weak).req[t] == QIdle
    ensures SawStop(s, t)
  {
  }

  lemma LoadStep(s: State, st: Step, t: Tid)
    requires Shape(s) && Enabled(s, st)
    ensures s.word.stop ==> Apply(s, st).word.stop
    ensures SawStop(Apply(s, st), t) ==> s.word.stop || SawStop(s, t)
  {
    match st
    case Req(q, weak) => LoadOfReq(s, q, weak, t);
    case Rem(c, weak) => LoadOfRem(s, c, weak, t);
    case _ =>
  }

  lemma LoadOfReq(s: State, q: Tid, weak: bool, t: Tid)
    requires Shape(s) && Enabled(s, Req(q, weak))
    ensures s.word.stop ==> ApplyReq(s, q, weak).word.stop
    ensures SawStop(ApplyReq(s, q, weak), t) ==> s.word.stop || SawStop(s, t)
  {
  }

  lemma LoadOfRem(s: State, c: Id, weak: bool, t: Tid)
    requires Shape(s) && Enabled(s, Rem(c, weak))
    ensures ApplyRem(s, c, weak).word.stop == s.word.stop
    ensures SawStop(ApplyRem(s, c, weak), t) ==> SawStop(s, t)
  {
  }

  /** Whoever has to try again does so with the current value. */
  lemma RetriesAreFresh(r: seq<State>, steps: seq<Step>, threads: nat, callbacks: nat, i: nat)
    requires Run(r, steps, threads, callbacks) && i < |steps|
    ensures steps[i].Req? ==>
      var p, p' := r[i].req[steps[i].t], if steps[i].t < |r[i + 1].req| then r[i + 1].req[steps[i].t] else QIdle;
      && (p.QLoaded? && p'.QLoaded? ==> p'.seen == r[i].word)
      && (p'.QRelock? ==> p'.seen == r[i].word)
    ensures steps[i].Reg? ==>
      var p, p' := r[i].reg[steps[i].c], if steps[i].c < |r[i + 1].reg| then r[i + 1].reg[steps[i].c] else Fresh;
      p.RLoaded? && p'.RLoaded? ==> p'.seen == r[i].word
    ensures steps[i].Rem? ==>
      var p, p' := r[i].rem[steps[i].c], if steps[i].c < |r[i + 1].rem| then r[i + 1].rem[steps[i].c] else Gone;
      p.MLoaded? && p'.MLoaded? ==> p'.seen == r[i].word
  {
    StepAt(r, steps, threads, callbacks, i);
    FreshStep(r[i], steps[i]);
  }

  lemma FreshStep(s: State, st: Step)
    requires Shape(s) && Enabled(s, st)
    ensures st.Req? ==>
      && st.t < |Apply(s, st).req|
      && var p, p' := s.req[st.t], Apply(s, st).req[st.t];
        (p.QLoaded? && p'.QLoaded? ==> p'.seen == s.word) && (p'.QRelock? ==> p'.seen == s.word)
    ensures st.Reg? ==>
      && st.c < |Apply(s, st).reg|
      && (s.reg[st.c].RLoaded? && Apply(s, st).reg[st.c].RLoaded? ==> Apply(s, st).reg[st.c].seen == s.word)
    ensures st.Rem? ==>
      && st.c < |Apply(s, st).rem|
      && (s.rem[st.c].MLoaded? && Apply(s, st).rem[st.c].MLoaded? ==> Apply(s, st).rem[st.c].seen == s.word)
  {
  }

  // ----- what the calls do when they are not disturbed

  lemma Extend(r: seq<State>, steps: seq<Step>, threads: nat, callbacks: nat, st: Step)
    returns (r': seq<State>, steps': seq<Step>)
    requires Run(r, steps, threads, callbacks) && Shape(r[|steps|]) && Enabled(r[|steps|], st)
    ensures Run(r', steps', threads, callbacks) && steps' == steps + [st]
    ensures r' == r + [Apply(r[|steps|], st)]
  {
    r', steps' := r + [Apply(r[|steps|], st)], steps + [st];
  }

  /** register_callback before a stop request can link the callback in front of the list. */
  lemma CanRegister(r: seq<State>, steps: seq<Step>, threads: nat, callbacks: nat, c: Id, t: Tid)
    returns (r': seq<State>, steps': seq<Step>)
    requires Run(r, steps, threads, callbacks)
    requires var s := r[|steps|];
      && Shape(s) && c < |s.reg| && s.reg[c] == Fresh && Free(s, t)
      && !s.word.stop && !s.word.locked && s.word.sources > 0
    ensures Run(r', steps', threads, callbacks) && r <= r'
    ensures steps' == steps + [BeginReg(c, t), Reg(c, false), Reg(c, false), Reg(c, false)]
    ensures var s := r[|steps|];
      r'[|steps'|] == s.(list := [c] + s.list, reg := s.reg[c := RDone(true)])
  {
    var s := r[|steps|];
    r', steps' := Extend(r, steps, threads, callbacks, BeginReg(c, t));
    r', steps' := Extend(r', steps', threads, callbacks, Reg(c, false));
    assert r'[|steps'|].reg == s.reg[c := RLocked(t)];
    r', steps' := Extend(r', steps', threads, callbacks, Reg(c, false));
    r', steps' := Extend(r', steps', threads, callbacks, Reg(c, false));
    assert r'[|steps'|].reg == s.reg[c := RDone(true)] && r'[|steps'|].word == s.word;
  }

  /** After one it runs the callback itself, once, and links nothing; with no source left it does neither. */
  lemma CanRegisterLate(r: seq<State>, steps: seq<Step>, threads: nat, callbacks: nat, c: Id, t: Tid)
    returns (r': seq<State>, steps': seq<Step>)
    requires Run(r, steps, threads, callbacks)
    requires var s := r[|steps|];
      Shape(s) && c < |s.reg| && s.reg[c] == Fresh && Free(s, t) && (s.word.stop || s.word.sources == 0)
    ensures Run(r', steps', threads, callbacks) && r <= r'
    ensures var s, n := r[|steps|], if r[|steps|].word.stop then 1 else 0;
      && |s.runs| == |s.ended| == |s.reg|
      && r'[|steps'|] == s.(reg := s.reg[c := RDone(false)], runs := s.runs[c := s.runs[c] + n],
                            ended := s.ended[c := s.ended[c] + n])
  {
    var s := r[|steps|];
    r', steps' := Extend(r, steps, threads, callbacks, BeginReg(c, t));
    r', steps' := Extend(r', steps', threads, callbacks, Reg(c, false));
    if s.word.stop {
      r', steps' := Extend(r', steps', threads, callbacks, Reg(c, false));
    } else {
      assert s.runs[c := s.runs[c]] == s.runs && s.ended[c := s.ended[c]] == s.ended;
    }
    assert r'[|steps'|].reg == s.reg[c := RDone(false)];
  }

  /** remove_callback can take out a callback that is still linked, and leaves the others in order. */
  lemma CanRemove(r: seq<State>, steps: seq<Step>, threads: nat, callbacks: nat, c: Id, t: Tid)
    returns (r': seq<State>, steps': seq<Step>)
    requires Run(r, steps, threads, callbacks)
    requires var s := r[|steps|];
      && Shape(s) && c < |s.reg| && s.reg[c] == RDone(true) && s.rem[c] == NotRemoving && Free(s, t)
      && !s.word.locked && c in s.list
    ensures Run(r', steps', threads, callbacks) && r <= r'
    ensures steps' == steps + [BeginRem(c, t), Rem(c, false), Rem(c, false), Rem(c, false)]
    ensures var s := r[|steps|];
      && r'[|steps'|] == s.(list := r'[|steps'|].list, rem := s.rem[c := Gone])
      && exists i :: 0 <= i < |s.list| && s.list[i] == c && r'[|steps'|].list == s.list[..i] + s.list[i + 1..]
  {
    var s := r[|steps|];
    r', steps' := Extend(r, steps, threads, callbacks, BeginRem(c, t));
    r', steps' := Extend(r', steps', threads, callbacks, Rem(c, false));
    assert r'[|steps'|].rem == s.rem[c := MLocked(t)];
    r', steps' := Extend(r', steps', threads, callbacks, Rem(c, false));
    r', steps' := Extend(r', steps', threads, callbacks, Rem(c, false));
    assert r'[|steps'|].rem == s.rem[c := Gone] && r'[|steps'|].word == s.word;
    var i := WithoutCuts(s.list, c);
  }

  lemma {:induction false} WithoutCuts(list: seq<Id>, c: Id) returns (i: nat)
    requires c in list
    ensures i < |list| && list[i] == c && Without(list, c) == list[..i] + list[i + 1..]
  {
    if list[0] == c {
      i := 0;
    } else {
      var j := WithoutCuts(list[1..], c);
      i := j + 1;
      assert list[..i] == [list[0]] + list[1..][..j] && list[i + 1..] == list[1..][j + 1..];
    }
  }

  /** A callback that is not linked any more is looked for under the lock ... */
  lemma CanMiss(r: seq<State>, steps: seq<Step>, threads: nat, callbacks: nat, c: Id, t: Tid)
    returns (r': seq<State>, steps': seq<Step>)
    requires Run(r, steps, threads, callbacks)
    requires var s := r[|steps|];
      && Shape(s) && c < |s.reg| && s.reg[c] == RDone(true) && s.rem[c] == NotRemoving && Free(s, t)
      && !s.word.locked && c !in s.list
    ensures Run(r', steps', threads, callbacks) && r <= r'
    ensures r'[|steps'|] == r[|steps|].(rem := r[|steps|].rem[c := MCheck(t)])
  {
    var s := r[|steps|];
    r', steps' := Extend(r, steps, threads, callbacks, BeginRem(c, t));
    r', steps' := Extend(r', steps', threads, callbacks, Rem(c, false));
    assert r'[|steps'|].rem == s.rem[c := MLocked(t)];
    r', steps' := Extend(r', steps', threads, callbacks, Rem(c, false));
    r', steps' := Extend(r', steps', threads, callbacks, Rem(c, false));
    assert r'[|steps'|].rem == s.rem[c := MCheck(t)] && r'[|steps'|].word == s.word;
  }

  /** ... and once it has been run by another thread, remove_callback returns. */
  lemma CanRemoveLate(r: seq<State>, steps: seq<Step>, threads: nat, callbacks: nat, c: Id, t: Tid)
    returns (r': seq<State>, steps': seq<Step>)
    requires Run(r, steps, threads, callbacks)
    requires var s := r[|steps|];
      Shape(s) && c < |s.reg| && s.rem[c] == MCheck(t) && Free(s, t) && s.requester != Some(t) && s.done[c] > 0
    ensures Run(r', steps', threads, callbacks) && r <= r' && steps' == steps + [Rem(c, false), Rem(c, false)]
    ensures var s := r[|steps|];
      && |s.done| == |s.rem|
      && r'[|steps'|] == s.(rem := s.rem[c := Gone], done := s.done[c := s.done[c] - 1])
  {
    var s := r[|steps|];
    r', steps' := Extend(r, steps, threads, callbacks, Rem(c, false));
    assert r'[|steps'|] == s.(rem := s.rem[c := MWait(t)]);
    r', steps' := Extend(r', steps', threads, callbacks, Rem(c, false));
    assert r'[|steps'|].rem == s.rem[c := Gone];
  }

  /** A callback that removes itself while it runs on this thread tells the request_stop that runs it. */
  lemma CanRemoveItself(r: seq<State>, steps: seq<Step>, threads: nat, callbacks: nat, c: Id, t: Tid, last: bool)
    returns (r': seq<State>, steps': seq<Step>)
    requires Run(r, steps, threads, callbacks)
    requires var s := r[|steps|];
      && Shape(s) && c < |s.reg| && s.rem[c] == MCheck(t) && t < |s.req| && s.req[t] == QRun(c, last, false)
      && s.requester == Some(t) && s.marked[c]
    ensures Run(r', steps', threads, callbacks) && r <= r' && steps' == steps + [Rem(c, false)]
    ensures var s := r[|steps|];
      r'[|steps'|] == s.(rem := s.rem[c := Gone], req := s.req[t := QRun(c, last, true)])
  {
    r', steps' := Extend(r, steps, threads, callbacks, Rem(c, false));
  }

  /** request_stop can set the stop bit and take the lock. */
  lemma CanStop(r: seq<State>, steps: seq<Step>, threads: nat, callbacks: nat, t: Tid)
    returns (r': seq<State>, steps': seq<Step>)
    requires Run(r, steps, threads, callbacks)
    requires var s := r[|steps|];
      Shape(s) && t < |s.req| && s.req[t] == QIdle && NoCalls(s, t) && !s.word.stop && !s.word.locked
    ensures Run(r', steps', threads, callbacks) && r <= r'
    ensures var s := r[|steps|];
      r'[|steps'|] == s.(word := Word(true, true, s.word.sources), requester := Some(t), req := s.req[t := QTop],
                         atStop := s.list)
  {
    var s := r[|steps|];
    r', steps' := Extend(r, steps, threads, callbacks, BeginStop(t));
    r', steps' := Extend(r', steps', threads, callbacks, Req(t, false));
    assert r'[|steps'|].req == s.req[t := QOwn];
    r', steps' := Extend(r', steps', threads, callbacks, Req(t, false));
    assert r'[|steps'|].req == s.req[t := QTop];
  }

  /** It can take the head of the list and run it; the lock is free meanwhile. */
  lemma CanRun(r: seq<State>, steps: seq<Step>, threads: nat, callbacks: nat, t: Tid)
    returns (r': seq<State>, steps': seq<Step>)
    requires Run(r, steps, threads, callbacks)
    requires var s := r[|steps|];
      && Shape(s) && t < |s.req| && s.req[t] == QTop && s.list != [] && s.list[0] < |s.runs|
    ensures Run(r', steps', threads, callbacks) && r <= r'
    ensures var s, c := r[|steps|], r[|steps|].list[0];
      && |s.runs| == |s.marked|
      && r'[|steps'|] == s.(word := s.word.(locked := false), list := s.list[1..],
                            req := s.req[t := QRun(c, |s.list| == 1, false)],
                            marked := s.marked[c := true], runs := s.runs[c := s.runs[c] + 1])
  {
    var s, c := r[|steps|], r[|steps|].list[0];
    r', steps' := Extend(r, steps, threads, callbacks, Req(t, false));
    r', steps' := Extend(r', steps', threads, callbacks, Req(t, false));
    assert r'[|steps'|].req == s.req[t := QSet(c, |s.list| == 1)];
    r', steps' := Extend(r', steps', threads, callbacks, Req(t, false));
    assert r'[|steps'|].req == s.req[t := QRun(c, |s.list| == 1, false)];
  }

  /** When the callback has returned, it tells a remover, unless the callback object is gone ... */
  lemma CanTell(
      r: seq<State>, steps: seq<Step>, threads: nat, callbacks: nat, t: Tid, c: Id, last: bool, destroyed: bool)
    returns (r': seq<State>, steps': seq<Step>)
    requires Run(r, steps, threads, callbacks)
    requires var s := r[|steps|];
      && Shape(s) && t < |s.req| && s.req[t] == QRun(c, last, destroyed) && c < |s.runs| && NoCalls(s, t)
    ensures Run(r', steps', threads, callbacks) && r <= r'
    ensures var s := r[|steps|];
      && |s.runs| == |s.marked| == |s.ended| == |s.done|
      && r'[|steps'|] == s.(req := s.req[t := QNext(last)], ended := s.ended[c := s.ended[c] + 1],
                            marked := if destroyed then s.marked else s.marked[c := false],
                            done := if destroyed then s.done else s.done[c := s.done[c] + 1])
  {
    var s := r[|steps|];
    r', steps' := Extend(r, steps, threads, callbacks, Req(t, false));
    if !destroyed {
      assert r'[|steps'|].req == s.req[t := QClear(c, last)];
      r', steps' := Extend(r', steps', threads, callbacks, Req(t, false));
      r', steps' := Extend(r', steps', threads, callbacks, Req(t, false));
    }
    assert r'[|steps'|].req == s.req[t := QNext(last)];
  }

  /** ... and locks again or, after the last one, returns true. */
  lemma CanGoOn(r: seq<State>, steps: seq<Step>, threads: nat, callbacks: nat, t: Tid, last: bool)
    returns (r': seq<State>, steps': seq<Step>)
    requires Run(r, steps, threads, callbacks)
    requires var s := r[|steps|]; Shape(s) && t < |s.req| && s.req[t] == QNext(last) && !s.word.locked
    ensures Run(r', steps', threads, callbacks) && r <= r'
    ensures var s := r[|steps|];
      r'[|steps'|] == s.(word := s.word.(locked := !last), req := s.req[t := if last then QIdle else QTop],
                         trues := s.trues + if last then 1 else 0)
  {
    var s := r[|steps|];
    r', steps' := Extend(r, steps, threads, callbacks, Req(t, false));
    if !last {
      assert r'[|steps'|].req == s.req[t := QRelock(s.word)];
      r', steps' := Extend(r', steps', threads, callbacks, Req(t, false));
    }
    assert r'[|steps'|].req == s.req[t := if last then QIdle else QTop];
  }

  /** One round: the head of the list is run. */
  lemma CanRunOne(r: seq<State>, steps: seq<Step>, threads: nat, callbacks: nat, t: Tid)
    returns (r': seq<State>, steps': seq<Step>)
    requires Run(r, steps, threads, callbacks)
    requires var s := r[|steps|];
      && Shape(s) && t < |s.req| && s.req[t] == QTop && s.list != [] && s.list[0] < |s.runs| && NoCalls(s, t)
    ensures Run(r', steps', threads, callbacks) && r <= r'
    ensures var s, u, c, last := r[|steps|], r'[|steps'|], r[|steps|].list[0], |r[|steps|].list| == 1;
      && |s.runs| == |s.ended| && u.reg == s.reg && u.rem == s.rem && Shape(u)
      && u.word == s.word.(locked := !last) && u.list == s.list[1..]
      && u.req == s.req[t := if last then QIdle else QTop]
      && u.runs == s.runs[c := s.runs[c] + 1] && u.ended == s.ended[c := s.ended[c] + 1]
      && u.trues == s.trues + if last then 1 else 0
  {
    var s, c, last := r[|steps|], r[|steps|].list[0], |r[|steps|].list| == 1;
    r', steps' := CanRun(r, steps, threads, callbacks, t);
    r', steps' := CanTell(r', steps', threads, callbacks, t, c, last, false);
    assert r'[|steps'|].req == s.req[t := QNext(last)];
    r', steps' := CanGoOn(r', steps', threads, callbacks, t, last);
  }

  /** So it can run all that is linked, and return true. */
  lemma {:induction false} CanRunAll(r: seq<State>, steps: seq<Step>, threads: nat, callbacks: nat, t: Tid)
    returns (r': seq<State>, steps': seq<Step>)
    requires Run(r, steps, threads, callbacks)
    requires var s := r[|steps|]; Shape(s) && t < |s.req| && s.req[t] == QTop && NoCalls(s, t)
    ensures Run(r', steps', threads, callbacks) && r <= r'
    ensures var s, e := r[|steps|], r'[|steps'|];
      && Shape(e) && |e.runs| == |s.runs| && t < |e.req| && e.req[t] == QIdle && e.trues == s.trues + 1
      && e.list == [] && !e.word.locked && e.word.stop == s.word.stop
      && forall c: Id :: c in s.list ==> c < |e.runs| && e.runs[c] > s.runs[c] && e.ended[c] > s.ended[c]
    ensures var s, e := r[|steps|], r'[|steps'|];
      forall c: Id :: c < |s.runs| ==> e.runs[c] >= s.runs[c] && e.ended[c] >= s.ended[c]
    decreases |r[|steps|].list|
  {
    var s := r[|steps|];
    if s.list == [] {
      r', steps' := Extend(r, steps, threads, callbacks, Req(t, false));
      r', steps' := Extend(r', steps', threads, callbacks, Req(t, false));
    } else {
      var v := RunInv(r, steps, threads, callbacks, |steps|);
      assert s.list[0] in s.list;
      r', steps' := CanRunOne(r, steps, threads, callbacks, t);
      OneRan(s, r'[|steps'|], t);
      if |s.list| > 1 {
        r', steps' := CanRunAll(r', steps', threads, callbacks, t);
      }
    }
  }

  /** What one round leaves behind. */
  lemma OneRan(s: State, u: State, t: Tid)
    requires Shape(s) && Shape(u) && |s.runs| == |u.runs| && s.list != [] && s.list[0] < |s.runs|
    requires u.list == s.list[1..] && u.reg == s.reg && u.rem == s.rem
    requires u.runs == s.runs[s.list[0] := s.runs[s.list[0]] + 1] && u.ended == s.ended[s.list[0] := s.ended[s.list[0]] + 1]
    ensures NoCalls(s, t) ==> NoCalls(u, t)
    ensures forall c: Id :: c in s.list ==> c == s.list[0] || c in u.list
    ensures |s.list| == 1 ==> u.list == []
  {
    assert s.list == [s.list[0]] + s.list[1..];
  }

  /** A second request returns false, at once and without effect. */
  lemma CanFail(r: seq<State>, steps: seq<Step>, threads: nat, callbacks: nat, t: Tid)
    returns (r': seq<State>, steps': seq<Step>)
    requires Run(r, steps, threads, callbacks)
    requires var s := r[|steps|]; Shape(s) && t < |s.req| && s.req[t] == QIdle && NoCalls(s, t) && s.word.stop
    ensures Run(r', steps', threads, callbacks) && steps' == steps + [BeginStop(t), Req(t, false)]
    ensures r <= r' && r'[|steps'|] == r[|steps|]
  {
    var s := r[|steps|];
    r', steps' := Extend(r, steps, threads, callbacks, BeginStop(t));
    r', steps' := Extend(r', steps', threads, callbacks, Req(t, false));
    assert r'[|steps'|].req == s.req;
  }

  // ----- the packed word

  /** stop_requested_bit = 1, locked_bit = 2, ssrc_counter_inc = 4 */
  function Encode(w: Word): nat {
    (if w.stop then 1 else 0) + (if w.locked then 2 else 0) + 4 * w.sources
  }

  /** The tests and updates of the 32-bit value are those of the three fields. */
  lemma Encoding(w: Word, u: Word)
    requires w.sources <= MAX_SOURCES
    ensures Encode(w) < 0x1_0000_0000
    ensures Encode(w) == Encode(u) <==> w == u
    ensures w.stop <==> Encode(w) % 2 == 1
    ensures w.locked <==> Encode(w) / 2 % 2 == 1
    ensures Encode(w) < 4 <==> w.sources == 0
    ensures !w.locked ==> Encode(w.(locked := true)) == Encode(w) + 2
    ensures w.locked ==> Encode(w.(locked := false)) == Encode(w) - 2
  {
    assert Encode(w) / 4 == w.sources;
    assert Encode(u) / 4 == u.sources;
  }
}
