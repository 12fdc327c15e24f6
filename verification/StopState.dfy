/**
  `stop_token::stop_state_t` (include/co_context/co/stop_token.hpp:118-337), the
  runtime's own implementation of the stop state of section 32.3 of ISO/IEC 14882:2020.

  Threads request a stop, register and remove callbacks, and run callbacks, in any
  interleaving of the atomic operations on `m_value`.  The callback list is a sequence
  here; `StopList` shows that the pointer code edits it as this model says.
 */
module StopState {
  import opened Lists
  import opened Places

  type Tid = nat

  /** m_value: the stop bit, the lock bit and the number of stop_sources. */
  datatype Word = Word(stop: bool, locked: bool, sources: nat)

  /** `request_stop` in one thread. */
  datatype ReqPc =
    | QIdle
    | QLoaded(seen: Word)
    | QOwn                                        // holds the lock, has set the stop bit
    | QTop                                        // at `while (m_head)`, lock held
    | QUnlock(c: Id, last: bool)                  // popped c
    | QSet(c: Id, last: bool)                     // unlocked: c->m_destroyed = &destroyed comes next
    | QRun(c: Id, last: bool, destroyed: bool)    // the callback runs
    | QClear(c: Id, last: bool)                   // it returned: c->m_destroyed = nullptr comes next
    | QDone(c: Id, last: bool)                    // c->m_done.release() comes next
    | QNext(last: bool)
    | QRelock(seen: Word)
    | QExit                                       // list empty: unlock comes next

  /** `register_callback` for one callback, run by thread t. */
  datatype RegPc =
    | Fresh
    | RLoaded(t: Tid, seen: Word)
    | RLocked(t: Tid)
    | RLinked(t: Tid)       // linked, unlock comes next
    | RInline(t: Tid)       // stop already requested: the callback runs in its constructor
    | RDone(linked: bool)   // returned

  /** `remove_callback` for one callback, run by thread t. */
  datatype RemPc =
    | NotRemoving
    | MLoaded(t: Tid, seen: Word)
    | MLocked(t: Tid)
    | MUnlinked(t: Tid)     // found in the list and taken out, unlock comes next
    | MMissing(t: Tid)      // not in the list, unlock comes next
    | MCheck(t: Tid)        // compares m_requester with its own thread
    | MWait(t: Tid)         // m_done.acquire()
    | Gone                  // returned: the callback object is destroyed

  datatype State = State(
    word: Word,
    list: seq<Id>,
    requester: Option<Tid>,
    req: seq<ReqPc>,        // by thread
    reg: seq<RegPc>,        // by callback, as everything below
    rem: seq<RemPc>,
    marked: seq<bool>,      // m_destroyed is not null
    done: seq<nat>,         // m_done
    runs: seq<nat>,         // history: how often the callback was started
    ended: seq<nat>,        // history: how often it returned
    atStop: seq<Id>,        // history: the list at the moment the stop bit was set
    trues: nat)             // history: calls of request_stop that returned true

  const MAX_SOURCES: nat := 0x3FFF_FFFF

  function Init(threads: nat, callbacks: nat): State {
    State(Word(false, false, 1), [], None, seq(threads, _ => QIdle),
          seq(callbacks, _ => Fresh), seq(callbacks, _ => NotRemoving), seq(callbacks, _ => false),
          seq(callbacks, _ => 0), seq(callbacks, _ => 0), seq(callbacks, _ => 0), [], 0)
  }

  ghost predicate Shape(s: State) {
    |s.reg| == |s.rem| == |s.marked| == |s.done| == |s.runs| == |s.ended|
  }

  datatype Step =
    | BeginStop(t: Tid)
    | Req(t: Tid, weak: bool)
    | BeginReg(c: Id, t: Tid)
    | Reg(c: Id, weak: bool)
    | BeginRem(c: Id, t: Tid)
    | Rem(c: Id, weak: bool)
    | Nested(t: Tid)       // request_stop called by a callback that t runs
    | AddSource
    | DropSource

  predicate RegBy(p: RegPc, t: Tid) {
    (p.RLoaded? || p.RLocked? || p.RLinked? || p.RInline?) && p.t == t
  }

  predicate RemBy(p: RemPc, t: Tid) {
    (p.MLoaded? || p.MLocked? || p.MUnlinked? || p.MMissing? || p.MCheck? || p.MWait?) && p.t == t
  }

  /** Thread t is not inside the code of request_stop itself; it may be inside a callback that it runs. */
  predicate Free(s: State, t: Tid) {
    t < |s.req| && (s.req[t] == QIdle || s.req[t].QRun?)
  }

  /** Thread t is inside no register_callback or remove_callback. */
  predicate NoCalls(s: State, t: Tid)
    requires Shape(s)
  {
    forall c :: 0 <= c < |s.reg| ==> !RegBy(s.reg[c], t) && !RemBy(s.rem[c], t)
  }

  /** Thread t is inside a callback, run by its request_stop or by its register_callback. */
  predicate RunsCallback(s: State, t: Tid) {
    && t < |s.req|
    && (s.req[t].QRun? || exists c :: 0 <= c < |s.reg| && s.reg[c] == RInline(t))
  }

  predicate Enabled(s: State, st: Step)
    requires Shape(s)
  {
    match st
    case BeginStop(t) => t < |s.req| && s.req[t] == QIdle && NoCalls(s, t)
    case Req(t, _) => t < |s.req| && s.req[t] != QIdle && (s.req[t].QRun? ==> NoCalls(s, t))
    case BeginReg(c, t) => c < |s.reg| && s.reg[c] == Fresh && Free(s, t)
    case Reg(c, _) => c < |s.reg| && !s.reg[c].Fresh? && !s.reg[c].RDone? && Free(s, s.reg[c].t)
    case BeginRem(c, t) => c < |s.reg| && s.reg[c] == RDone(true) && s.rem[c] == NotRemoving && Free(s, t)
    case Rem(c, _) =>
      && c < |s.reg| && !s.rem[c].NotRemoving? && !s.rem[c].Gone? && Free(s, s.rem[c].t)
      && (s.rem[c].MWait? ==> s.done[c] > 0)
    case Nested(t) => RunsCallback(s, t)
    case AddSource => s.word.sources < MAX_SOURCES
    case DropSource => s.word.sources > 0
  }

  function SetReq(s: State, t: Tid, p: ReqPc): State
    requires t < |s.req|
  {
    s.(req := s.req[t := p])
  }

  function SetReg(s: State, c: Id, p: RegPc): State
    requires c < |s.reg|
  {
    s.(reg := s.reg[c := p])
  }

  function SetRem(s: State, c: Id, p: RemPc): State
    requires c < |s.rem|
  {
    s.(rem := s.rem[c := p])
  }

  function Locked(s: State): State {
    s.(word := s.word.(locked := true))
  }

  function Unlocked(s: State): State {
    s.(word := s.word.(locked := false))
  }

  /** do_try_lock: a seen lock bit means yield and reload; otherwise the CAS decides. */
  predicate Wins(s: State, seen: Word, weak: bool) {
    !seen.locked && s.word == seen && !weak
  }

  function Without(list: seq<Id>, c: Id): seq<Id> {
    if |list| == 0 then [] else if list[0] == c then list[1..] else [list[0]] + Without(list[1..], c)
  }

  function ApplyReq(s: State, t: Tid, weak: bool): State
    requires Shape(s) && Enabled(s, Req(t, weak))
  {
    match s.req[t]
    case QIdle => s
    case QLoaded(seen) =>
      if seen.stop then SetReq(s, t, QIdle)
      else if Wins(s, seen, weak)
      then SetReq(Locked(s), t, QOwn).(word := Word(true, true, s.word.sources), atStop := s.list)
      else SetReq(s, t, QLoaded(s.word))
    case QOwn => SetReq(s, t, QTop).(requester := Some(t))
    case QTop =>
      if |s.list| == 0 then SetReq(s, t, QExit)
      else SetReq(s, t, QUnlock(s.list[0], |s.list| == 1)).(list := s.list[1..])
    case QUnlock(c, last) => SetReq(Unlocked(s), t, QSet(c, last))
    case QSet(c, last) =>
      if c >= |s.runs| then s
      else SetReq(s, t, QRun(c, last, false)).(marked := s.marked[c := true], runs := s.runs[c := s.runs[c] + 1])
    case QRun(c, last, destroyed) =>
      if c >= |s.runs| then s
      else SetReq(s, t, if destroyed then QNext(last) else QClear(c, last)).(ended := s.ended[c := s.ended[c] + 1])
    case QClear(c, last) =>
      if c >= |s.runs| then s else SetReq(s, t, QDone(c, last)).(marked := s.marked[c := false])
    case QDone(c, last) =>
      if c >= |s.runs| then s else SetReq(s, t, QNext(last)).(done := s.done[c := s.done[c] + 1])
    case QNext(last) =>
      if last then SetReq(s, t, QIdle).(trues := s.trues + 1) else SetReq(s, t, QRelock(s.word))
    case QRelock(seen) =>
      if Wins(s, seen, weak) then SetReq(Locked(s), t, QTop) else SetReq(s, t, QRelock(s.word))
    case QExit => SetReq(Unlocked(s), t, QIdle).(trues := s.trues + 1)
  }

  function ApplyReg(s: State, c: Id, weak: bool): State
    requires Shape(s) && Enabled(s, Reg(c, weak))
  {
    match s.reg[c]
    case RLoaded(t, seen) =>
      if seen.stop then SetReg(s, c, RInline(t)).(runs := s.runs[c := s.runs[c] + 1])
      else if seen.sources == 0 then SetReg(s, c, RDone(false))
      else if Wins(s, seen, weak) then SetReg(Locked(s), c, RLocked(t))
      else SetReg(s, c, RLoaded(t, s.word))
    case RLocked(t) => SetReg(s, c, RLinked(t)).(list := [c] + s.list)
    case RLinked(t) => SetReg(Unlocked(s), c, RDone(true))
    case RInline(t) => SetReg(s, c, RDone(false)).(ended := s.ended[c := s.ended[c] + 1])
    case _ => s
  }

  /** `*cb->m_destroyed = true`: the flag lives in the frame of the request_stop that runs c. */
  function Flag(s: State, c: Id): State {
    if s.requester.Some? && s.requester.value < |s.req| && s.req[s.requester.value].QRun?
       && s.req[s.requester.value].c == c
    then SetReq(s, s.requester.value, s.req[s.requester.value].(destroyed := true))
    else s
  }

  function ApplyRem(s: State, c: Id, weak: bool): State
    requires Shape(s) && Enabled(s, Rem(c, weak))
  {
    match s.rem[c]
    case MLoaded(t, seen) =>
      if Wins(s, seen, weak) then SetRem(Locked(s), c, MLocked(t)) else SetRem(s, c, MLoaded(t, s.word))
    case MLocked(t) =>
      if c in s.list then SetRem(s, c, MUnlinked(t)).(list := Without(s.list, c))
      else SetRem(s, c, MMissing(t))
    case MUnlinked(t) => SetRem(Unlocked(s), c, Gone)
    case MMissing(t) => SetRem(Unlocked(s), c, MCheck(t))
    case MCheck(t) =>
      if s.requester != Some(t) then SetRem(s, c, MWait(t))
      else SetRem(if s.marked[c] then Flag(s, c) else s, c, Gone)
    case MWait(t) => SetRem(s, c, Gone).(done := s.done[c := s.done[c] - 1])
    case _ => s
  }

  function Apply(s: State, st: Step): State
    requires Shape(s) && Enabled(s, st)
  {
    match st
    case BeginStop(t) => SetReq(s, t, QLoaded(s.word))
    case Req(t, weak) => ApplyReq(s, t, weak)
    case BeginReg(c, t) => SetReg(s, c, RLoaded(t, s.word))
    case Reg(c, weak) => ApplyReg(s, c, weak)
    case BeginRem(c, t) => SetRem(s, c, MLoaded(t, s.word))
    case Rem(c, weak) => ApplyRem(s, c, weak)
    // the load of line 175 sees the stop bit (StopProtocol.NestedRequestFails), so line 178 returns false
    case Nested(_) => s
    case AddSource => s.(word := s.word.(sources := s.word.sources + 1))
    case DropSource => s.(word := s.word.(sources := s.word.sources - 1))
  }

  // ----- what stays true

  datatype Holder = Nobody | ByReq(t: Tid) | ByReg(c: Id) | ByRem(c: Id)

  /** What has become of a callback. */
  datatype Fate =
    | Unborn     // not linked yet
    | Refused    // no stop_source left: never linked
    | Inline     // run by its own constructor
    | Listed
    | Unlinked   // removed before a stop request got to it
    | Taken      // popped by request_stop

  datatype View = View(holder: Holder, boss: Option<Tid>, fate: seq<Fate>)

  predicate ReqHolds(p: ReqPc) { p.QOwn? || p.QTop? || p.QUnlock? || p.QExit? }
  predicate RegHolds(p: RegPc) { p.RLocked? || p.RLinked? }
  predicate RemHolds(p: RemPc) { p.MLocked? || p.MUnlinked? || p.MMissing? }

  /** Inside request_stop, past the successful CAS. */
  predicate Active(p: ReqPc) { !p.QIdle? && !p.QLoaded? }

  predicate Last(p: ReqPc) {
    (p.QUnlock? || p.QSet? || p.QRun? || p.QClear? || p.QDone? || p.QNext?) && p.last
  }

  /** The callback that request_stop is working on. */
  function Current(p: ReqPc): Option<Id> {
    if p.QUnlock? || p.QSet? || p.QRun? || p.QClear? || p.QDone? then Some(p.c) else None
  }

  ghost predicate LockInv(s: State, v: View)
    requires Shape(s)
  {
    && (s.word.locked <==> v.holder != Nobody)
    && (v.holder.ByReq? ==> v.holder.t < |s.req|)
    && (v.holder.ByReg? || v.holder.ByRem? ==> v.holder.c < |s.reg|)
    && (forall t :: 0 <= t < |s.req| ==> (ReqHolds(s.req[t]) <==> v.holder == ByReq(t)))
    && (forall c :: 0 <= c < |s.reg| ==> (RegHolds(s.reg[c]) <==> v.holder == ByReg(c)))
    && (forall c :: 0 <= c < |s.rem| ==> (RemHolds(s.rem[c]) <==> v.holder == ByRem(c)))
    // nobody links anything once the stop bit is set
    && (v.holder.ByReg? ==> !s.word.stop)
  }

  /** The position of the one request_stop that won; QIdle before it started and after it returned. */
  function BossPc(s: State, v: View): ReqPc {
    if v.boss.Some? && v.boss.value < |s.req| && s.trues == 0 then s.req[v.boss.value] else QIdle
  }

  ghost predicate BossInv(s: State, v: View) {
    && (s.word.stop <==> v.boss.Some?)
    && (v.boss.Some? ==> v.boss.value < |s.req|)
    && (forall t :: 0 <= t < |s.req| ==> (Active(s.req[t]) <==> v.boss == Some(t) && s.trues == 0))
    && s.trues <= (if v.boss.Some? then 1 else 0)
    && (v.boss.Some? && !BossPc(s, v).QOwn? ==> s.requester == v.boss)
    && (s.trues > 0 || Last(BossPc(s, v)) || BossPc(s, v).QExit? ==> s.list == [])
  }

  ghost predicate TakenOk(rem: RemPc, marked: bool, done: nat, runs: nat, ended: nat, c: Id, boss: ReqPc) {
    if Current(boss) != Some(c) then
      runs == 1 && ended == 1 && (rem == Gone || (done == 1 && !marked))
    else match boss
      case QUnlock(_, _) => rem != Gone && !marked && done == 0 && runs == 0 && ended == 0
      case QSet(_, _) => rem != Gone && !marked && done == 0 && runs == 0 && ended == 0
      case QRun(_, _, destroyed) =>
        (if destroyed then rem == Gone else rem != Gone && marked && done == 0) && runs == 1 && ended == 0
      case QClear(_, _) => rem != Gone && marked && done == 0 && runs == 1 && ended == 1
      case QDone(_, _) => rem != Gone && !marked && done == 0 && runs == 1 && ended == 1
      case _ => false
  }

  ghost predicate CallbackOk(s: State, v: View, c: Id)
    requires Shape(s) && c < |s.reg| == |v.fate|
  {
    match v.fate[c]
    case Unborn =>
      && (s.reg[c].Fresh? || s.reg[c].RLoaded? || s.reg[c].RLocked?) && s.rem[c] == NotRemoving
      && !s.marked[c] && s.done[c] == 0 && s.runs[c] == 0 && s.ended[c] == 0
    case Refused =>
      s.reg[c] == RDone(false) && s.rem[c] == NotRemoving && s.runs[c] == 0 && s.ended[c] == 0
    case Inline =>
      && s.rem[c] == NotRemoving && s.runs[c] == 1
      && ((s.reg[c].RInline? && s.ended[c] == 0) || (s.reg[c] == RDone(false) && s.ended[c] == 1))
    case Listed =>
      && (s.reg[c].RLinked? || s.reg[c] == RDone(true))
      && (s.rem[c].NotRemoving? || s.rem[c].MLoaded? || s.rem[c].MLocked?)
      && !s.marked[c] && s.done[c] == 0 && s.runs[c] == 0 && s.ended[c] == 0
    case Unlinked =>
      s.reg[c] == RDone(true) && (s.rem[c].MUnlinked? || s.rem[c].Gone?) && s.runs[c] == 0 && s.ended[c] == 0
    case Taken =>
      && s.reg[c] == RDone(true) && !s.rem[c].MUnlinked?
      && v.boss.Some? && s.requester == v.boss
      && (s.rem[c].MWait? ==> v.boss != Some(s.rem[c].t))
      && TakenOk(s.rem[c], s.marked[c], s.done[c], s.runs[c], s.ended[c], c, BossPc(s, v))
  }

  ghost predicate ChainInv(s: State, v: View) {
    && Enumerates(s.list, v.fate, Listed)
    && (var cur := Current(BossPc(s, v)); cur.Some? ==> cur.value < |v.fate| && v.fate[cur.value] == Taken)
    // whatever was linked when the stop bit was set is still linked, was popped, or was removed first
    && (forall c :: c in s.atStop ==> c < |v.fate| && (v.fate[c] == Listed || v.fate[c] == Taken || v.fate[c] == Unlinked))
    && (s.word.stop ==> forall c :: c in s.list ==> c in s.atStop)
  }

  ghost predicate ListInv(s: State, v: View)
    requires Shape(s)
  {
    && |v.fate| == |s.reg|
    && ChainInv(s, v)
    && (forall c :: 0 <= c < |s.reg| ==> CallbackOk(s, v, c))
  }

  ghost predicate Inv(s: State, v: View) {
    Shape(s) && LockInv(s, v) && BossInv(s, v) && ListInv(s, v)
  }

  lemma InitInv(threads: nat, callbacks: nat)
    ensures Inv(Init(threads, callbacks), View(Nobody, None, seq(callbacks, _ => Unborn)))
  {
  }

  function NextView(s: State, v: View, st: Step): View
    requires Shape(s) && Enabled(s, st) && |v.fate| == |s.reg|
  {
    match st
    case Req(t, weak) =>
      (match s.req[t]
       case QLoaded(seen) =>
         if !seen.stop && Wins(s, seen, weak) then v.(holder := ByReq(t), boss := Some(t)) else v
       case QTop =>
         if |s.list| == 0 || s.list[0] >= |v.fate| then v else v.(fate := v.fate[s.list[0] := Taken])
       case QUnlock(_, _) => v.(holder := Nobody)
       case QRelock(seen) => if Wins(s, seen, weak) then v.(holder := ByReq(t)) else v
       case QExit => v.(holder := Nobody)
       case _ => v)
    case Reg(c, weak) =>
      (match s.reg[c]
       case RLoaded(t, seen) =>
         if seen.stop then v.(fate := v.fate[c := Inline])
         else if seen.sources == 0 then v.(fate := v.fate[c := Refused])
         else if Wins(s, seen, weak) then v.(holder := ByReg(c)) else v
       case RLocked(_) => v.(fate := v.fate[c := Listed])
       case RLinked(_) => v.(holder := Nobody)
       case _ => v)
    case Rem(c, weak) =>
      (match s.rem[c]
       case MLoaded(_, seen) => if Wins(s, seen, weak) then v.(holder := ByRem(c)) else v
       case MLocked(_) => if c in s.list then v.(fate := v.fate[c := Unlinked]) else v
       case MUnlinked(_) => v.(holder := Nobody)
       case MMissing(_) => v.(holder := Nobody)
       case _ => v)
    case _ => v
  }

  lemma {:induction false} WithoutMembers(list: seq<Id>, c: Id)
    requires Distinct(list)
    ensures Distinct(Without(list, c))
    ensures forall n :: n in Without(list, c) <==> n in list && n != c
  {
    if |list| > 0 {
      DistinctTail(list);
      if list[0] != c {
        WithoutMembers(list[1..], c);
        DistinctCons(list[0], Without(list[1..], c));
      }
    }
  }

  // ----- the lock

  /** Who holds the lock after `me` moved to a position that holds it or not. */
  function NewHolder(was: Holder, me: Holder, holds: bool): Holder {
    if holds then me else if was == me then Nobody else was
  }

  lemma ReqLock(s: State, v: View, t: Tid, s': State, v': View)
    requires Shape(s) && LockInv(s, v) && t < |s.req| == |s'.req|
    requires s'.req == s.req[t := s'.req[t]] && s'.reg == s.reg && s'.rem == s.rem && Shape(s')
    requires v'.holder == NewHolder(v.holder, ByReq(t), ReqHolds(s'.req[t]))
    requires ReqHolds(s'.req[t]) ==> v.holder == Nobody || v.holder == ByReq(t)
    requires (s'.word.locked <==> v'.holder != Nobody) && (v'.holder.ByReg? ==> !s'.word.stop)
    ensures LockInv(s', v')
  {
  }

  lemma RegLock(s: State, v: View, c: Id, s': State, v': View)
    requires Shape(s) && LockInv(s, v) && c < |s.reg| == |s'.reg|
    requires s'.reg == s.reg[c := s'.reg[c]] && s'.req == s.req && s'.rem == s.rem && Shape(s')
    requires v'.holder == NewHolder(v.holder, ByReg(c), RegHolds(s'.reg[c]))
    requires RegHolds(s'.reg[c]) ==> v.holder == Nobody || v.holder == ByReg(c)
    requires (s'.word.locked <==> v'.holder != Nobody) && (v'.holder.ByReg? ==> !s'.word.stop)
    ensures LockInv(s', v')
  {
  }

  lemma RemLock(s: State, v: View, c: Id, s': State, v': View)
    requires Shape(s) && LockInv(s, v) && c < |s.rem| == |s'.rem|
    requires s'.rem == s.rem[c := s'.rem[c]] && s'.req == s.req && s'.reg == s.reg && Shape(s')
    requires v'.holder == NewHolder(v.holder, ByRem(c), RemHolds(s'.rem[c]))
    requires RemHolds(s'.rem[c]) ==> v.holder == Nobody || v.holder == ByRem(c)
    requires (s'.word.locked <==> v'.holder != Nobody) && (v'.holder.ByReg? ==> !s'.word.stop)
    ensures LockInv(s', v')
  {
  }

  lemma LockReq(s: State, v: View, t: Tid, weak: bool)
    requires Shape(s) && LockInv(s, v) && Enabled(s, Req(t, weak)) && |v.fate| == |s.reg|
    requires s.req[t].QLoaded? || s.req[t].QRelock?
    ensures Shape(ApplyReq(s, t, weak)) && LockInv(ApplyReq(s, t, weak), NextView(s, v, Req(t, weak)))
  {
    ReqLock(s, v, t, ApplyReq(s, t, weak), NextView(s, v, Req(t, weak)));
  }

  lemma LockActive(s: State, v: View, t: Tid, weak: bool)
    requires Shape(s) && LockInv(s, v) && Enabled(s, Req(t, weak)) && |v.fate| == |s.reg|
    requires !s.req[t].QLoaded? && !s.req[t].QRelock?
    ensures Shape(ApplyReq(s, t, weak)) && LockInv(ApplyReq(s, t, weak), NextView(s, v, Req(t, weak)))
  {
    assert s.req[t := s.req[t]] == s.req;
    ReqLock(s, v, t, ApplyReq(s, t, weak), NextView(s, v, Req(t, weak)));
  }

  lemma LockReg(s: State, v: View, c: Id, weak: bool)
    requires Shape(s) && LockInv(s, v) && Enabled(s, Reg(c, weak)) && |v.fate| == |s.reg|
    ensures Shape(ApplyReg(s, c, weak)) && LockInv(ApplyReg(s, c, weak), NextView(s, v, Reg(c, weak)))
  {
    RegLock(s, v, c, ApplyReg(s, c, weak), NextView(s, v, Reg(c, weak)));
  }

  lemma FlagLock(s: State, v: View, c: Id)
    requires Shape(s) && LockInv(s, v)
    ensures Shape(Flag(s, c)) && LockInv(Flag(s, c), v)
  {
  }

  lemma LockRem(s: State, v: View, c: Id, weak: bool)
    requires Shape(s) && LockInv(s, v) && Enabled(s, Rem(c, weak)) && |v.fate| == |s.reg|
    ensures Shape(ApplyRem(s, c, weak)) && LockInv(ApplyRem(s, c, weak), NextView(s, v, Rem(c, weak)))
  {
    var s0 := if s.rem[c].MCheck? && s.marked[c] && s.requester == Some(s.rem[c].t) then Flag(s, c) else s;
    FlagLock(s, v, c);
    RemLock(s0, v, c, ApplyRem(s, c, weak), NextView(s, v, Rem(c, weak)));
  }

  // ----- the request

  lemma BossEnters(s: State, v: View, t: Tid, weak: bool)
    requires Shape(s) && LockInv(s, v) && BossInv(s, v) && Enabled(s, Req(t, weak)) && |v.fate| == |s.reg|
    requires s.req[t].QLoaded?
    ensures BossInv(ApplyReq(s, t, weak), NextView(s, v, Req(t, weak)))
  {
  }

  lemma BossReq(s: State, v: View, t: Tid, weak: bool)
    requires Shape(s) && LockInv(s, v) && BossInv(s, v) && Enabled(s, Req(t, weak)) && |v.fate| == |s.reg|
    requires !s.req[t].QLoaded?
    ensures BossInv(ApplyReq(s, t, weak), NextView(s, v, Req(t, weak)))
  {
    assert v.boss == Some(t) && s.trues == 0;
  }

  lemma BossReg(s: State, v: View, c: Id, weak: bool)
    requires Shape(s) && LockInv(s, v) && BossInv(s, v) && Enabled(s, Reg(c, weak)) && |v.fate| == |s.reg|
    ensures BossInv(ApplyReg(s, c, weak), NextView(s, v, Reg(c, weak)))
  {
  }

  lemma BossRem(s: State, v: View, c: Id, weak: bool)
    requires Shape(s) && LockInv(s, v) && BossInv(s, v) && Enabled(s, Rem(c, weak)) && |v.fate| == |s.reg|
    ensures BossInv(ApplyRem(s, c, weak), NextView(s, v, Rem(c, weak)))
  {
  }

  // ----- the callbacks

  predicate Handles(p: ReqPc) { p.QSet? || p.QRun? || p.QClear? || p.QDone? }

  /** As far as the popped callback is concerned, p and q are the same position. */
  predicate SameStage(p: ReqPc, q: ReqPc) {
    p == q || (Current(p) == None && Current(q) == None)
    || (p.QUnlock? && q.QSet? && p.c == q.c)
  }

  /** No callback changed, and request_stop is not at another stage of one. */
  lemma Untouched(s: State, v: View, s': State, v': View)
    requires Inv(s, v) && Shape(s') && v'.fate == v.fate
    requires s'.reg == s.reg && s'.rem == s.rem && s'.marked == s.marked
    requires s'.done == s.done && s'.runs == s.runs && s'.ended == s.ended
    requires v.boss.Some? && s.requester == v.boss ==>
      v'.boss == v.boss && s'.requester == s.requester && SameStage(BossPc(s, v), BossPc(s', v'))
    ensures forall c :: 0 <= c < |s.reg| ==> CallbackOk(s', v', c)
  {
    forall c | 0 <= c < |s.reg| ensures CallbackOk(s', v', c) {
      assert CallbackOk(s, v, c);
    }
  }

  /** Nothing that CallbackOk looks at changed for callback x. */
  predicate SameAt(s: State, v: View, s': State, v': View, x: Id)
    requires Shape(s) && Shape(s') && x < |s.reg| == |s'.reg| == |v.fate| == |v'.fate|
  {
    && s'.reg[x] == s.reg[x] && s'.rem[x] == s.rem[x] && s'.marked[x] == s.marked[x] && s'.done[x] == s.done[x]
    && s'.runs[x] == s.runs[x] && s'.ended[x] == s.ended[x] && v'.fate[x] == v.fate[x]
  }

  /** Only callback c changed, and request_stop did not move. */
  lemma OneTouched(s: State, v: View, s': State, v': View, c: Id)
    requires Inv(s, v) && Shape(s') && |s'.reg| == |s.reg| == |v'.fate| && c < |s.reg|
    requires s'.req == s.req && s'.requester == s.requester && s'.trues == s.trues && v'.boss == v.boss
    requires forall x :: 0 <= x < |s.reg| && x != c ==> SameAt(s, v, s', v', x)
    requires CallbackOk(s', v', c)
    ensures forall x :: 0 <= x < |s.reg| ==> CallbackOk(s', v', x)
  {
    forall x | 0 <= x < |s.reg| ensures CallbackOk(s', v', x) {
      assert CallbackOk(s, v, x);
      if x != c { assert SameAt(s, v, s', v', x); }
    }
  }

  lemma MoveChain(s: State, v: View, t: Tid, weak: bool)
    requires Inv(s, v) && Enabled(s, Req(t, weak))
    requires !Handles(s.req[t]) && !(s.req[t].QTop? && |s.list| > 0)
    ensures ChainInv(ApplyReq(s, t, weak), NextView(s, v, Req(t, weak)))
  {
    if s.req[t].QLoaded? { MoveChainFirst(s, v, t, weak); } else { MoveChainLater(s, v, t, weak); }
  }

  lemma MoveChainFirst(s: State, v: View, t: Tid, weak: bool)
    requires Inv(s, v) && Enabled(s, Req(t, weak)) && s.req[t].QLoaded?
    ensures ChainInv(ApplyReq(s, t, weak), NextView(s, v, Req(t, weak)))
  {
  }

  lemma MoveChainLater(s: State, v: View, t: Tid, weak: bool)
    requires Inv(s, v) && Enabled(s, Req(t, weak)) && !s.req[t].QLoaded?
    requires !Handles(s.req[t]) && !(s.req[t].QTop? && |s.list| > 0)
    ensures ChainInv(ApplyReq(s, t, weak), NextView(s, v, Req(t, weak)))
  {
  }

  lemma StageKept(s: State, v: View, t: Tid, weak: bool)
    requires Shape(s) && BossInv(s, v) && Enabled(s, Req(t, weak)) && |v.fate| == |s.reg|
    requires !Handles(s.req[t]) && !(s.req[t].QTop? && |s.list| > 0)
    ensures var s', v' := ApplyReq(s, t, weak), NextView(s, v, Req(t, weak));
      && (v.boss.Some? && s.requester == v.boss ==>
            v'.boss == v.boss && s'.requester == s.requester && SameStage(BossPc(s, v), BossPc(s', v')))
      && s'.reg == s.reg && s'.rem == s.rem && s'.marked == s.marked
      && s'.done == s.done && s'.runs == s.runs && s'.ended == s.ended && v'.fate == v.fate
  {
  }

  /** request_stop between callbacks. */
  lemma ListMove(s: State, v: View, t: Tid, weak: bool)
    requires Inv(s, v) && Enabled(s, Req(t, weak))
    requires !Handles(s.req[t]) && !(s.req[t].QTop? && |s.list| > 0)
    ensures ListInv(ApplyReq(s, t, weak), NextView(s, v, Req(t, weak)))
  {
    MoveChain(s, v, t, weak);
    StageKept(s, v, t, weak);
    Untouched(s, v, ApplyReq(s, t, weak), NextView(s, v, Req(t, weak)));
  }

  lemma ListPop(s: State, v: View, t: Tid, weak: bool)
    requires Inv(s, v) && Enabled(s, Req(t, weak)) && s.req[t].QTop? && |s.list| > 0
    ensures ListInv(ApplyReq(s, t, weak), NextView(s, v, Req(t, weak)))
  {
    var s', v', h := ApplyReq(s, t, weak), NextView(s, v, Req(t, weak)), s.list[0];
    assert h in s.list;
    OneMoved(s.list, v.fate, Listed, h, Taken);
    DistinctTail(s.list);
    assert v.boss == Some(t);
    forall c | 0 <= c < |s.reg| ensures CallbackOk(s', v', c) {
      assert CallbackOk(s, v, c);
    }
  }

  /** request_stop working on the callback it popped. */
  lemma ListHandle(s: State, v: View, t: Tid, weak: bool)
    requires Inv(s, v) && Enabled(s, Req(t, weak)) && Handles(s.req[t])
    ensures ListInv(ApplyReq(s, t, weak), NextView(s, v, Req(t, weak)))
  {
    var s', v' := ApplyReq(s, t, weak), NextView(s, v, Req(t, weak));
    assert v.boss == Some(t);
    forall c | 0 <= c < |s.reg| ensures CallbackOk(s', v', c) {
      assert CallbackOk(s, v, c);
    }
  }

  lemma ListLink(s: State, v: View, c: Id, weak: bool)
    requires Inv(s, v) && Enabled(s, Reg(c, weak)) && s.reg[c].RLocked?
    ensures ListInv(ApplyReg(s, c, weak), NextView(s, v, Reg(c, weak)))
  {
    var s', v' := ApplyReg(s, c, weak), NextView(s, v, Reg(c, weak));
    assert CallbackOk(s, v, c);
    assert Move(v.fate, [c], Listed) == v.fate[c := Listed];
    MovedIn(s.list, v.fate, Listed, c);
    forall x | 0 <= x < |s.reg| ensures CallbackOk(s', v', x) {
      assert CallbackOk(s, v, x);
    }
  }

  lemma RegOk(s: State, v: View, c: Id, weak: bool)
    requires Shape(s) && |v.fate| == |s.reg| && Enabled(s, Reg(c, weak)) && !s.reg[c].RLocked? && CallbackOk(s, v, c)
    ensures Shape(ApplyReg(s, c, weak)) && CallbackOk(ApplyReg(s, c, weak), NextView(s, v, Reg(c, weak)), c)
    ensures s.reg[c].RLoaded? ==> v.fate[c] == Unborn
  {
  }

  lemma RegDecides(s: State, v: View, c: Id, weak: bool)
    requires Shape(s) && |v.fate| == |s.reg| && Enabled(s, Reg(c, weak)) && s.reg[c].RLoaded?
    requires ChainInv(s, v) && BossInv(s, v) && v.fate[c] == Unborn
    ensures ChainInv(ApplyReg(s, c, weak), NextView(s, v, Reg(c, weak)))
  {
    var seen := s.reg[c].seen;
    if seen.stop {
      OneMoved(s.list, v.fate, Listed, c, Inline);
    } else if seen.sources == 0 {
      OneMoved(s.list, v.fate, Listed, c, Refused);
    }
  }

  lemma RegElsewhere(s: State, v: View, c: Id, weak: bool)
    requires Shape(s) && |v.fate| == |s.reg| && Enabled(s, Reg(c, weak)) && !s.reg[c].RLocked?
    ensures var s', v' := ApplyReg(s, c, weak), NextView(s, v, Reg(c, weak));
      && Shape(s') && |s'.reg| == |s.reg| == |v'.fate|
      && s'.req == s.req && s'.requester == s.requester && s'.trues == s.trues && v'.boss == v.boss
      && forall x :: 0 <= x < |s.reg| && x != c ==> SameAt(s, v, s', v', x)
  {
  }

  lemma RemElsewhere(s: State, v: View, c: Id, weak: bool)
    requires Shape(s) && |v.fate| == |s.reg| && Enabled(s, Rem(c, weak))
    requires s.rem[c].MCheck? ==> s.requester != Some(s.rem[c].t)
    ensures var s', v' := ApplyRem(s, c, weak), NextView(s, v, Rem(c, weak));
      && Shape(s') && |s'.reg| == |s.reg| == |v'.fate|
      && s'.req == s.req && s'.requester == s.requester && s'.trues == s.trues && v'.boss == v.boss
      && forall x :: 0 <= x < |s.reg| && x != c ==> SameAt(s, v, s', v', x)
  {
  }

  lemma RegChain(s: State, v: View, c: Id, weak: bool)
    requires Shape(s) && |v.fate| == |s.reg| && Enabled(s, Reg(c, weak))
    requires !s.reg[c].RLocked? && !s.reg[c].RLoaded? && ChainInv(s, v)
    ensures ChainInv(ApplyReg(s, c, weak), NextView(s, v, Reg(c, weak)))
  {
  }

  lemma ListReg(s: State, v: View, c: Id, weak: bool)
    requires Inv(s, v) && Enabled(s, Reg(c, weak)) && !s.reg[c].RLocked?
    ensures ListInv(ApplyReg(s, c, weak), NextView(s, v, Reg(c, weak)))
  {
    var s', v' := ApplyReg(s, c, weak), NextView(s, v, Reg(c, weak));
    assert CallbackOk(s, v, c);
    RegOk(s, v, c, weak);
    RegElsewhere(s, v, c, weak);
    if s.reg[c].RLoaded? { RegDecides(s, v, c, weak); } else { RegChain(s, v, c, weak); }
    OneTouched(s, v, s', v', c);
  }

  lemma ListUnlink(s: State, v: View, c: Id, weak: bool)
    requires Inv(s, v) && Enabled(s, Rem(c, weak)) && s.rem[c].MLocked?
    ensures ListInv(ApplyRem(s, c, weak), NextView(s, v, Rem(c, weak)))
  {
    var s', v' := ApplyRem(s, c, weak), NextView(s, v, Rem(c, weak));
    assert CallbackOk(s, v, c);
    RemElsewhere(s, v, c, weak);
    OneTouched(s, v, s', v', c);
    WithoutMembers(s.list, c);
  }

  /** remove_callback while it takes and gives back the lock. */
  lemma RemLockOk(s: State, v: View, c: Id, weak: bool)
    requires Shape(s) && |v.fate| == |s.reg| && Enabled(s, Rem(c, weak)) && CallbackOk(s, v, c)
    requires s.rem[c].MLoaded? || s.rem[c].MUnlinked? || s.rem[c].MMissing?
    ensures Shape(ApplyRem(s, c, weak)) && CallbackOk(ApplyRem(s, c, weak), NextView(s, v, Rem(c, weak)), c)
  {
    var s' := ApplyRem(s, c, weak);
    assert s'.rem == s.rem[c := s'.rem[c]] && BossPc(s', NextView(s, v, Rem(c, weak))) == BossPc(s, v);
  }

  /** remove_callback after it missed the callback in the list, on another thread. */
  lemma RemMissedOk(s: State, v: View, c: Id, weak: bool)
    requires Shape(s) && |v.fate| == |s.reg| && Enabled(s, Rem(c, weak)) && CallbackOk(s, v, c)
    requires s.rem[c].MWait? || (s.rem[c].MCheck? && s.requester != Some(s.rem[c].t))
    ensures Shape(ApplyRem(s, c, weak)) && CallbackOk(ApplyRem(s, c, weak), NextView(s, v, Rem(c, weak)), c)
  {
    assert v.fate[c] == Taken && BossPc(ApplyRem(s, c, weak), v) == BossPc(s, v);
  }

  lemma RemChain(s: State, v: View, c: Id, weak: bool)
    requires Shape(s) && |v.fate| == |s.reg| && Enabled(s, Rem(c, weak)) && !s.rem[c].MLocked? && ChainInv(s, v)
    requires s.rem[c].MCheck? ==> s.requester != Some(s.rem[c].t)
    ensures ChainInv(ApplyRem(s, c, weak), NextView(s, v, Rem(c, weak)))
  {
  }

  /** remove_callback outside its critical section, on another thread than request_stop's. */
  lemma ListRem(s: State, v: View, c: Id, weak: bool)
    requires Inv(s, v) && Enabled(s, Rem(c, weak)) && !s.rem[c].MLocked?
    requires s.rem[c].MCheck? ==> s.requester != Some(s.rem[c].t)
    ensures ListInv(ApplyRem(s, c, weak), NextView(s, v, Rem(c, weak)))
  {
    var s', v' := ApplyRem(s, c, weak), NextView(s, v, Rem(c, weak));
    assert CallbackOk(s, v, c);
    RemElsewhere(s, v, c, weak);
    if s.rem[c].MWait? || s.rem[c].MCheck? { RemMissedOk(s, v, c, weak); } else { RemLockOk(s, v, c, weak); }
    RemChain(s, v, c, weak);
    OneTouched(s, v, s', v', c);
  }

  /** The removing thread is the one that runs the callbacks: the callback is over, or it is destroying itself. */
  lemma ListCheck(s: State, v: View, c: Id, weak: bool)
    requires Inv(s, v) && Enabled(s, Rem(c, weak)) && s.rem[c].MCheck? && s.requester == Some(s.rem[c].t)
    ensures ListInv(ApplyRem(s, c, weak), NextView(s, v, Rem(c, weak)))
  {
    var s', v' := ApplyRem(s, c, weak), NextView(s, v, Rem(c, weak));
    assert CallbackOk(s, v, c);
    forall x | 0 <= x < |s.reg| ensures CallbackOk(s', v', x) {
      assert CallbackOk(s, v, x);
    }
  }

  lemma BeginStopInv(s: State, v: View, t: Tid)
    requires Inv(s, v) && Enabled(s, BeginStop(t))
    ensures Inv(Apply(s, BeginStop(t)), v)
  {
    var s' := Apply(s, BeginStop(t));
    ReqLock(s, v, t, s', v);
    Untouched(s, v, s', v);
  }

  lemma BeginRegInv(s: State, v: View, c: Id, t: Tid)
    requires Inv(s, v) && Enabled(s, BeginReg(c, t))
    ensures Inv(Apply(s, BeginReg(c, t)), v)
  {
    var s' := Apply(s, BeginReg(c, t));
    assert CallbackOk(s, v, c);
    RegLock(s, v, c, s', v);
    OneTouched(s, v, s', v, c);
  }

  lemma BeginRemInv(s: State, v: View, c: Id, t: Tid)
    requires Inv(s, v) && Enabled(s, BeginRem(c, t))
    ensures Inv(Apply(s, BeginRem(c, t)), v)
  {
    var s' := Apply(s, BeginRem(c, t));
    assert CallbackOk(s, v, c);
    RemLock(s, v, c, s', v);
    OneTouched(s, v, s', v, c);
  }

  lemma SourceInv(s: State, v: View, st: Step)
    requires Inv(s, v) && Enabled(s, st) && (st.AddSource? || st.DropSource? || st.Nested?)
    ensures Inv(Apply(s, st), v)
  {
    Untouched(s, v, Apply(s, st), v);
  }

  lemma StepInv(s: State, v: View, st: Step)
    requires Inv(s, v) && Enabled(s, st)
    ensures Inv(Apply(s, st), NextView(s, v, st))
  {
    match st
    case Req(t, weak) =>
      if s.req[t].QLoaded? || s.req[t].QRelock? { LockReq(s, v, t, weak); } else { LockActive(s, v, t, weak); }
      if s.req[t].QLoaded? { BossEnters(s, v, t, weak); } else { BossReq(s, v, t, weak); }
      ListOfReq(s, v, t, weak);
    case Reg(c, weak) =>
      LockReg(s, v, c, weak);
      BossReg(s, v, c, weak);
      if s.reg[c].RLocked? { ListLink(s, v, c, weak); } else { ListReg(s, v, c, weak); }
    case Rem(c, weak) =>
      LockRem(s, v, c, weak);
      BossRem(s, v, c, weak);
      ListOfRem(s, v, c, weak);
    case BeginStop(t) => BeginStopInv(s, v, t);
    case BeginReg(c, t) => BeginRegInv(s, v, c, t);
    case BeginRem(c, t) => BeginRemInv(s, v, c, t);
    case _ => SourceInv(s, v, st);
  }

  lemma ListOfReq(s: State, v: View, t: Tid, weak: bool)
    requires Inv(s, v) && Enabled(s, Req(t, weak))
    ensures ListInv(ApplyReq(s, t, weak), NextView(s, v, Req(t, weak)))
  {
    if Handles(s.req[t]) { ListHandle(s, v, t, weak); }
    else if s.req[t].QTop? && |s.list| > 0 { ListPop(s, v, t, weak); }
    else { ListMove(s, v, t, weak); }
  }

  lemma ListOfRem(s: State, v: View, c: Id, weak: bool)
    requires Inv(s, v) && Enabled(s, Rem(c, weak))
    ensures ListInv(ApplyRem(s, c, weak), NextView(s, v, Rem(c, weak)))
  {
    if s.rem[c].MLocked? { ListUnlink(s, v, c, weak); }
    else if s.rem[c].MCheck? && s.requester == Some(s.rem[c].t) { ListCheck(s, v, c, weak); }
    else { ListRem(s, v, c, weak); }
  }
}
