/**
  `channel<T, capacity>` for capacity >= 1 (include/co_context/co/channel.hpp:16-193):
  a bounded buffer under one mutex, with a condition variable for each side.

  The mutex is the FIFO lock of `Mutex.RefinesFifoLock`.  The condition variables are the
  lists of `WaitLists`, which the code implements in every interleaving
  (`WaitListRefinement.RefinesWaitLists`): notifications are sent after the mutex has
  been unlocked, so calls on one condition variable can overlap, and then miss or lose
  waiters.
 */
module BufferedChannel {
  import opened Lists
  import opened Places
  import opened FifoLock
  import opened WaitLists

  datatype Pc<T> =
    | Idle
    // acquire() / drop()
    | CAsk            // asked for m_mtx
    | CPushed         // found the buffer empty: on m_not_empty_cv, still owns m_mtx
    | CParked
    | CTook(v: T)     // popped, owns m_mtx
    | CNotify(v: T, call: Call)   // unlocked: in m_not_full_cv.notify_one
    // release(v)
    | PAsk(v: T)
    | PPushed(v: T)   // found the buffer full
    | PParked(v: T)
    | PPut            // pushed an element, owns m_mtx
    | PNotify(call: Call)         // unlocked: in m_not_empty_cv.notify_one

  datatype Side = NotEmpty | NotFull

  /** Besides owning the lock, a coroutine is in at most one list, or in one notifier's hands. */
  datatype Place =
    | Nowhere
    | Stacked(side: Side)                // on awaiting
    | Listed(side: Side)                 // on to_resume
    | Held(side: Side, notifier: Id)     // in its batch, or about to be registered by it
    | InQueue
    | Adrift

  datatype State<T> = State(
    cap: nat,
    lock: Lock,
    notEmpty: Cv, notFull: Cv,
    buf: seq<T>,
    pc: seq<Pc<T>>,
    put: seq<T>,      // history: elements in the order of their push_one
    taken: seq<T>)    // history: elements in the order of their pop_one

  function Init<T>(cap: nat, count: nat): State<T> {
    State(cap, FREE, NOBODY, NOBODY, [], seq(count, _ => Idle), [], [])
  }

  datatype Step<T> = BeginTake(n: Id) | BeginPut(n: Id, v: T) | Go(n: Id)

  predicate Runnable<T>(s: State<T>, n: Id)
    requires n < |s.pc|
  {
    match s.pc[n]
    case Idle => false
    case CAsk => s.lock.owner == Some(n)
    case CParked => s.lock.owner == Some(n)
    case PAsk(_) => s.lock.owner == Some(n)
    case PParked(_) => s.lock.owner == Some(n)
    case _ => true
  }

  predicate Enabled<T>(s: State<T>, st: Step<T>) {
    && st.n < |s.pc|
    && match st
       case BeginTake(n) => s.pc[n] == Idle
       case BeginPut(n, _) => s.pc[n] == Idle
       case Go(n) => Runnable(s, n)
  }

  function SetPc<T>(s: State<T>, n: Id, p: Pc<T>): State<T>
    requires n < |s.pc|
  {
    s.(pc := s.pc[n := p])
  }

  function CvOf<T>(s: State<T>, side: Side): Cv {
    if side == NotEmpty then s.notEmpty else s.notFull
  }

  function SetCv<T>(s: State<T>, side: Side, cv: Cv): State<T> {
    if side == NotEmpty then s.(notEmpty := cv) else s.(notFull := cv)
  }

  /** The predicate loop of the consumer, evaluated by the owner of the lock. */
  function TryTake<T>(s: State<T>, n: Id): State<T>
    requires n < |s.pc|
  {
    if |s.buf| == 0 then SetPc(s, n, CPushed).(notEmpty := Push(s.notEmpty, n))
    else SetPc(s, n, CTook(s.buf[0])).(buf := s.buf[1..], taken := s.taken + [s.buf[0]])
  }

  function TryPut<T>(s: State<T>, n: Id, v: T): State<T>
    requires n < |s.pc|
  {
    if |s.buf| == s.cap then SetPc(s, n, PPushed(v)).(notFull := Push(s.notFull, n))
    else SetPc(s, n, PPut).(buf := s.buf + [v], put := s.put + [v])
  }

  predicate Notifies<T>(p: Pc<T>) {
    p.CNotify? || p.PNotify?
  }

  /** Consumers notify the producers, and the other way round. */
  function SideOf<T>(p: Pc<T>): Side
    requires Notifies(p)
  {
    if p.CNotify? then NotFull else NotEmpty
  }

  function NextPc<T>(p: Pc<T>, next: Option<Call>): Pc<T>
    requires Notifies(p)
  {
    if next.None? then Idle else p.(call := next.value)
  }

  /** One section of notify_one. */
  function Notify<T>(s: State<T>, n: Id): State<T>
    requires n < |s.pc| && Notifies(s.pc[n])
  {
    var side, call := SideOf(s.pc[n]), s.pc[n].call;
    if call.Hand? then SetPc(s, n, Idle).(lock := Register(s.lock, call.w))
    else
      var (cv, next) := Advance(CvOf(s, side), call);
      SetPc(SetCv(s, side, cv), n, NextPc(s.pc[n], next))
  }

  function Apply<T>(s: State<T>, st: Step<T>): State<T>
    requires Enabled(s, st)
  {
    match st
    case BeginTake(n) => SetPc(s, n, CAsk).(lock := Register(s.lock, n))
    case BeginPut(n, v) => SetPc(s, n, PAsk(v)).(lock := Register(s.lock, n))
    case Go(n) =>
      match s.pc[n]
      case Idle => s
      case CAsk => TryTake(s, n)
      case CParked => TryTake(s, n)
      case CPushed => SetPc(s, n, CParked).(lock := Unlock(s.lock))
      case CTook(v) => SetPc(s, n, CNotify(v, Start)).(lock := Unlock(s.lock))
      case CNotify(_, _) => Notify(s, n)
      case PAsk(v) => TryPut(s, n, v)
      case PParked(v) => TryPut(s, n, v)
      case PPushed(v) => SetPc(s, n, PParked(v)).(lock := Unlock(s.lock))
      case PPut => SetPc(s, n, PNotify(Start)).(lock := Unlock(s.lock))
      case PNotify(_) => Notify(s, n)
  }

  // ----- where everybody is

  /** On the condition variable, or in the hands of a notifier of it. */
  predicate Sleeps(q: Place, side: Side) {
    (q.Stacked? || q.Listed? || q.Held?) && q.side == side
  }

  /** A coroutine's position against its place and the ownership of the lock. */
  predicate WaiterOk<T>(p: Pc<T>, q: Place, owns: bool) {
    match p
    case Idle => q == Nowhere && !owns
    case CAsk => q == if owns then Nowhere else InQueue
    case PAsk(_) => q == if owns then Nowhere else InQueue
    case CPushed => owns && (Sleeps(q, NotEmpty) || q == InQueue || q == Adrift)
    case PPushed(_) => owns && (Sleeps(q, NotFull) || q == InQueue || q == Adrift)
    case CParked => if owns then q == Nowhere else Sleeps(q, NotEmpty) || q == InQueue || q == Adrift
    case PParked(_) => if owns then q == Nowhere else Sleeps(q, NotFull) || q == InQueue || q == Adrift
    case CTook(_) => owns && q == Nowhere
    case PPut => owns && q == Nowhere
    case CNotify(_, _) => !owns && q == Nowhere
    case PNotify(_) => !owns && q == Nowhere
  }

  function HeldBy<T>(p: Pc<T>, side: Side): seq<Id> {
    if Notifies(p) && SideOf(p) == side then InCall(Some(p.call)) else []
  }

  /** The list that stands for a place. */
  function ListOf<T>(s: State<T>, q: Place): seq<Id>
    requires q != Nowhere && q != Adrift
  {
    match q
    case Stacked(side) => CvOf(s, side).awaiting
    case Listed(side) => CvOf(s, side).toResume
    case Held(side, k) => if k < |s.pc| then HeldBy(s.pc[k], side) else []
    case InQueue => s.lock.queue
  }

  ghost predicate PlacesOk<T>(s: State<T>, place: seq<Place>) {
    forall q :: q != Nowhere && q != Adrift ==> Enumerates(ListOf(s, q), place, q)
  }

  ghost predicate WaitersOk<T>(pc: seq<Pc<T>>, place: seq<Place>, owner: Option<Id>)
    requires |pc| == |place|
  {
    forall n :: 0 <= n < |pc| ==> WaiterOk(pc[n], place[n], owner == Some(n))
  }

  ghost predicate BatchesOk<T>(pc: seq<Pc<T>>) {
    forall n :: 0 <= n < |pc| && Notifies(pc[n]) && pc[n].call.Batch? ==> pc[n].call.b != []
  }

  ghost predicate PlaceInv<T>(s: State<T>, place: seq<Place>) {
    && |place| == |s.pc|
    && PlacesOk(s, place)
    && WaitersOk(s.pc, place, s.lock.owner)
    && BatchesOk(s.pc)
    && (s.lock.owner.Some? ==> s.lock.owner.value < |s.pc|)
    && (s.lock.owner.None? ==> s.lock.queue == [])
  }

  // ----- wake-ups on the way

  /** Awake, or sure to be: a sleeper that has been registered on the lock. */
  predicate Woken(q: Place) {
    q == InQueue || q == Nowhere
  }

  /** Owed to the consumers: an element announced or about to be, or a consumer woken for one. */
  function Waking<T>(p: Pc<T>, q: Place): nat {
    if p.PPut? || p.PNotify? || ((p.CPushed? || p.CParked?) && Woken(q)) then 1 else 0
  }

  /** Owed to the producers: a free slot announced or about to be, or a producer woken for one. */
  function Freeing<T>(p: Pc<T>, q: Place): nat {
    if p.CTook? || p.CNotify? || ((p.PPushed? || p.PParked?) && Woken(q)) then 1 else 0
  }

  function Wakes<T>(pc: seq<Pc<T>>, place: seq<Place>): nat
    requires |pc| == |place|
  {
    if |pc| == 0 then 0 else Waking(pc[0], place[0]) + Wakes(pc[1..], place[1..])
  }

  function Frees<T>(pc: seq<Pc<T>>, place: seq<Place>): nat
    requires |pc| == |place|
  {
    if |pc| == 0 then 0 else Freeing(pc[0], place[0]) + Frees(pc[1..], place[1..])
  }

  /** n is in the middle of a notify_one on that side, with the waiters it took off. */
  predicate HoldsBatch<T>(p: Pc<T>, side: Side) {
    Notifies(p) && SideOf(p) == side && p.call.Batch?
  }

  /** Somebody waits for a notification on that side. */
  ghost predicate Waiting<T>(s: State<T>, side: Side) {
    || CvOf(s, side).awaiting != [] || CvOf(s, side).toResume != []
    || exists n :: 0 <= n < |s.pc| && HoldsBatch(s.pc[n], side)
  }

  ghost predicate CreditInv<T>(s: State<T>, place: seq<Place>)
    requires |s.pc| == |place|
  {
    && (Waiting(s, NotEmpty) ==> |s.buf| <= Wakes(s.pc, place))
    && (Waiting(s, NotFull) ==> s.cap - |s.buf| <= Frees(s.pc, place))
  }

  ghost predicate BufferInv<T>(s: State<T>) {
    |s.buf| <= s.cap && s.put == s.taken + s.buf
  }

  /** A call of notify_one returns without a waiter although somebody waits. */
  ghost predicate Misses<T>(s: State<T>, st: Step<T>) {
    && st.Go? && st.n < |s.pc| && Notifies(s.pc[st.n]) && s.pc[st.n].call == Swap
    && CvOf(s, SideOf(s.pc[st.n])).awaiting == [] && Waiting(s, SideOf(s.pc[st.n]))
  }

  /** The waiters that a step drops from every list. */
  function DroppedBy<T>(s: State<T>, st: Step<T>): seq<Id> {
    if st.Go? && st.n < |s.pc| && Notifies(s.pc[st.n]) then Dropped(CvOf(s, SideOf(s.pc[st.n])), s.pc[st.n].call) else []
  }

  lemma {:induction false} OneChanged<T>(pc: seq<Pc<T>>, place: seq<Place>, n: nat, p: Pc<T>, q: Place)
    requires |pc| == |place| && n < |pc|
    ensures Wakes(pc[n := p], place[n := q]) == Wakes(pc, place) - Waking(pc[n], place[n]) + Waking(p, q)
    ensures Frees(pc[n := p], place[n := q]) == Frees(pc, place) - Freeing(pc[n], place[n]) + Freeing(p, q)
  {
    if n == 0 {
      assert pc[n := p][1..] == pc[1..] && place[n := q][1..] == place[1..];
    } else {
      assert pc[n := p][1..] == pc[1..][n - 1 := p] && place[n := q][1..] == place[1..][n - 1 := q];
      OneChanged(pc[1..], place[1..], n - 1, p, q);
    }
  }

  lemma {:induction false} SleepersDontCount<T>(pc: seq<Pc<T>>, place: seq<Place>, place': seq<Place>)
    requires |pc| == |place| == |place'|
    requires forall n :: 0 <= n < |pc| ==> Woken(place[n]) == Woken(place'[n])
    ensures Wakes(pc, place) == Wakes(pc, place') && Frees(pc, place) == Frees(pc, place')
  {
    if |pc| > 0 {
      forall n | 0 <= n < |pc| - 1 ensures Woken(place[1..][n]) == Woken(place'[1..][n]) {
        assert place[1..][n] == place[n + 1] && place'[1..][n] == place'[n + 1];
      }
      SleepersDontCount(pc[1..], place[1..], place'[1..]);
    }
  }

  lemma {:induction false} NothingOwed<T>(pc: seq<Pc<T>>, place: seq<Place>)
    requires |pc| == |place|
    requires forall n :: 0 <= n < |pc| ==> Waking(pc[n], place[n]) == 0 && Freeing(pc[n], place[n]) == 0
    ensures Wakes(pc, place) == 0 && Frees(pc, place) == 0
  {
    if |pc| > 0 {
      forall n | 0 <= n < |pc| - 1
        ensures Waking(pc[1..][n], place[1..][n]) == 0 && Freeing(pc[1..][n], place[1..][n]) == 0
      {
        assert pc[1..][n] == pc[n + 1] && place[1..][n] == place[n + 1];
      }
      NothingOwed(pc[1..], place[1..]);
    }
  }

  // ----- one coroutine changes its place

  /** Where a coroutine is once it has been registered on the lock. */
  function Arrival(lock: Lock): Place {
    if lock.owner.None? then Nowhere else InQueue
  }

  /** w moves from the head of its list, or from nowhere, to the end of another one, or to nowhere. */
  lemma OneMoves<T>(s: State<T>, place: seq<Place>, s': State<T>, w: Id, to: Place)
    requires PlacesOk(s, place) && w < |place| && place[w] != to && place[w] != Adrift
    requires forall q :: q != Nowhere && q != Adrift && q != place[w] && q != to ==> ListOf(s', q) == ListOf(s, q)
    requires place[w] != Nowhere ==>
      ListOf(s, place[w]) != [] && ListOf(s, place[w])[0] == w && ListOf(s', place[w]) == ListOf(s, place[w])[1..]
    requires to != Nowhere && to != Adrift ==> ListOf(s', to) == ListOf(s, to) + [w]
    ensures PlacesOk(s', place[w := to])
  {
    forall q | q != Nowhere && q != Adrift ensures Enumerates(ListOf(s', q), place[w := to], q) {
      assert Enumerates(ListOf(s, q), place, q);
      OneMoved(ListOf(s, q), place, q, w, to);
    }
  }

  lemma NothingMoves<T>(s: State<T>, place: seq<Place>, s': State<T>)
    requires PlacesOk(s, place)
    requires forall q :: q != Nowhere && q != Adrift ==> ListOf(s', q) == ListOf(s, q)
    ensures PlacesOk(s', place)
  {
    forall q | q != Nowhere && q != Adrift ensures Enumerates(ListOf(s', q), place, q) {
      assert Enumerates(ListOf(s, q), place, q);
    }
  }

  /** n is pushed on a condition variable. */
  lemma OnePushed<T>(s: State<T>, place: seq<Place>, s': State<T>, n: Id, side: Side)
    requires PlacesOk(s, place) && n < |place| && place[n] == Nowhere
    requires forall q :: q != Nowhere && q != Adrift && q != Stacked(side) ==> ListOf(s', q) == ListOf(s, q)
    requires ListOf(s', Stacked(side)) == [n] + ListOf(s, Stacked(side))
    ensures PlacesOk(s', place[n := Stacked(side)])
  {
    forall q | q != Nowhere && q != Adrift ensures Enumerates(ListOf(s', q), place[n := Stacked(side)], q) {
      assert Enumerates(ListOf(s, q), place, q);
      if q == Stacked(side) {
        MovedIn(ListOf(s, q), place, q, n);
        assert Move(place, [n], q) == place[n := q];
      } else {
        OneMoved(ListOf(s, q), place, q, n, Stacked(side));
      }
    }
  }

  lemma OneChecked<T>(pc: seq<Pc<T>>, place: seq<Place>, owner: Option<Id>, n: Id, p: Pc<T>, q: Place)
    requires |pc| == |place| && n < |pc| && WaitersOk(pc, place, owner) && WaiterOk(p, q, owner == Some(n))
    ensures WaitersOk(pc[n := p], place[n := q], owner)
  {
  }

  lemma OwnerLeaves<T>(pc: seq<Pc<T>>, place: seq<Place>, n: Id, p: Pc<T>)
    requires |pc| == |place| && n < |pc| && WaitersOk(pc, place, Some(n)) && WaiterOk(p, place[n], false)
    ensures WaitersOk(pc[n := p], place, None)
  {
  }

  lemma OwnerComes<T>(pc: seq<Pc<T>>, place: seq<Place>, h: Id)
    requires |pc| == |place| && h < |pc| && WaitersOk(pc, place, None) && WaiterOk(pc[h], Nowhere, true)
    ensures WaitersOk(pc, place[h := Nowhere], Some(h))
  {
  }

  /** w asks for the lock. */
  lemma Asks<T>(pc: seq<Pc<T>>, place: seq<Place>, lock: Lock, w: Id)
    requires |pc| == |place| && w < |pc| && WaitersOk(pc, place, lock.owner)
    requires if lock.owner.None? then WaiterOk(pc[w], Nowhere, true) else WaiterOk(pc[w], InQueue, lock.owner == Some(w))
    ensures WaitersOk(pc, place[w := Arrival(lock)], Register(lock, w).owner)
  {
    assert pc[w := pc[w]] == pc;
    if lock.owner.None? { OwnerComes(pc, place, w); } else { OneChecked(pc, place, lock.owner, w, pc[w], InQueue); }
  }

  // ----- the moves of one step

  /** Where everybody is after a section of notifier n. */
  function Relocated(place: seq<Place>, side: Side, n: Id, cv: Cv, held: seq<Id>, dropped: seq<Id>): seq<Place> {
    seq(|place|, w requires 0 <= w < |place| =>
      if w in cv.awaiting then Stacked(side)
      else if w in cv.toResume then Listed(side)
      else if w in held then Held(side, n)
      else if w in dropped then Adrift
      else place[w])
  }

  function NextPlace<T>(s: State<T>, place: seq<Place>, st: Step<T>): seq<Place>
    requires Enabled(s, st) && |place| == |s.pc|
  {
    if !st.Go? then place[st.n := Arrival(s.lock)]
    else
      var n := st.n;
      match s.pc[n]
      case Idle => place
      case CAsk => if |s.buf| == 0 then place[n := Stacked(NotEmpty)] else place
      case CParked => if |s.buf| == 0 then place[n := Stacked(NotEmpty)] else place
      case PAsk(_) => if |s.buf| == s.cap then place[n := Stacked(NotFull)] else place
      case PParked(_) => if |s.buf| == s.cap then place[n := Stacked(NotFull)] else place
      case CNotify(_, call) => AfterSection(s, place, n)
      case PNotify(call) => AfterSection(s, place, n)
      case _ => AfterUnlock(s.lock, place)
  }

  function AfterUnlock(lock: Lock, place: seq<Place>): seq<Place> {
    if |lock.queue| == 0 || lock.queue[0] >= |place| then place else place[lock.queue[0] := Nowhere]
  }

  function AfterSection<T>(s: State<T>, place: seq<Place>, n: Id): seq<Place>
    requires n < |s.pc| && Notifies(s.pc[n])
  {
    var side, call := SideOf(s.pc[n]), s.pc[n].call;
    if call.Hand? then (if call.w < |place| then place[call.w := Arrival(s.lock)] else place)
    else
      var (cv, next) := Advance(CvOf(s, side), call);
      Relocated(place, side, n, cv, InCall(next), Dropped(CvOf(s, side), call))
  }

  lemma BeginPlace<T>(s: State<T>, place: seq<Place>, st: Step<T>)
    requires PlaceInv(s, place) && Enabled(s, st) && !st.Go?
    ensures PlaceInv(Apply(s, st), NextPlace(s, place, st))
  {
    var n, s' := st.n, Apply(s, st);
    assert WaiterOk(s.pc[n], place[n], s.lock.owner == Some(n));
    BeginWaits(s.pc, place, s.lock, n, s'.pc[n]);
    if s.lock.owner.None? {
      assert place[n := Nowhere] == place;
      NothingMoves(s, place, s');
    } else {
      OneMoves(s, place, s', n, InQueue);
    }
  }

  lemma BeginWaits<T>(pc: seq<Pc<T>>, place: seq<Place>, lock: Lock, n: Id, p: Pc<T>)
    requires |pc| == |place| && n < |pc| && WaitersOk(pc, place, lock.owner)
    requires pc[n] == Idle && (p.CAsk? || p.PAsk?)
    ensures WaitersOk(pc[n := p], place[n := Arrival(lock)], Register(lock, n).owner)
  {
    assert WaiterOk(pc[n], place[n], lock.owner == Some(n));
    if lock.owner.Some? { OneChecked(pc, place, lock.owner, n, p, InQueue); }
  }

  lemma SameWaiting<T>(s: State<T>, s': State<T>, n: Id, side: Side)
    requires n < |s.pc| == |s'.pc| && s'.pc == s.pc[n := s'.pc[n]] && CvOf(s', side) == CvOf(s, side)
    requires !HoldsBatch(s'.pc[n], side)
    ensures Waiting(s', side) ==> Waiting(s, side)
  {
  }

  lemma BeginCredit<T>(s: State<T>, place: seq<Place>, st: Step<T>)
    requires PlaceInv(s, place) && CreditInv(s, place) && Enabled(s, st) && !st.Go?
    ensures CreditInv(Apply(s, st), NextPlace(s, place, st))
  {
    assert WaiterOk(s.pc[st.n], place[st.n], s.lock.owner == Some(st.n));
    OneChanged(s.pc, place, st.n, Apply(s, st).pc[st.n], Arrival(s.lock));
    SameWaiting(s, Apply(s, st), st.n, NotEmpty);
    SameWaiting(s, Apply(s, st), st.n, NotFull);
  }

  /** CAsk, CParked, PAsk, PParked: the owner evaluates its predicate. */
  predicate Tries<T>(p: Pc<T>) {
    p.CAsk? || p.CParked? || p.PAsk? || p.PParked?
  }

  /** ... and finds that it has to wait. */
  predicate Blocks<T>(s: State<T>, n: Id)
    requires n < |s.pc|
  {
    if s.pc[n].CAsk? || s.pc[n].CParked? then |s.buf| == 0 else |s.buf| == s.cap
  }

  lemma TryPlace<T>(s: State<T>, place: seq<Place>, n: Id)
    requires PlaceInv(s, place) && Enabled(s, Go(n)) && Tries(s.pc[n])
    ensures PlaceInv(Apply(s, Go(n)), NextPlace(s, place, Go(n)))
  {
    var s', p, q := Apply(s, Go(n)), Apply(s, Go(n)).pc[n], NextPlace(s, place, Go(n))[n];
    assert WaiterOk(s.pc[n], place[n], s.lock.owner == Some(n));
    assert place[n := place[n]] == place;
    OneChecked(s.pc, place, s.lock.owner, n, p, q);
    if Blocks(s, n) {
      OnePushed(s, place, s', n, q.side);
    } else {
      NothingMoves(s, place, s');
    }
  }

  lemma TakeCredit<T>(s: State<T>, place: seq<Place>, n: Id)
    requires PlaceInv(s, place) && BufferInv(s) && CreditInv(s, place)
    requires Enabled(s, Go(n)) && (s.pc[n].CAsk? || s.pc[n].CParked?)
    ensures CreditInv(Apply(s, Go(n)), NextPlace(s, place, Go(n)))
  {
    var s' := Apply(s, Go(n));
    assert WaiterOk(s.pc[n], place[n], s.lock.owner == Some(n));
    assert place[n := place[n]] == place;
    OneChanged(s.pc, place, n, s'.pc[n], NextPlace(s, place, Go(n))[n]);
    if |s.buf| > 0 { SameWaiting(s, s', n, NotEmpty); }
    SameWaiting(s, s', n, NotFull);
  }

  lemma PutCredit<T>(s: State<T>, place: seq<Place>, n: Id)
    requires PlaceInv(s, place) && BufferInv(s) && CreditInv(s, place)
    requires Enabled(s, Go(n)) && (s.pc[n].PAsk? || s.pc[n].PParked?)
    ensures CreditInv(Apply(s, Go(n)), NextPlace(s, place, Go(n)))
  {
    var s' := Apply(s, Go(n));
    assert WaiterOk(s.pc[n], place[n], s.lock.owner == Some(n));
    assert place[n := place[n]] == place;
    OneChanged(s.pc, place, n, s'.pc[n], NextPlace(s, place, Go(n))[n]);
    if |s.buf| < s.cap { SameWaiting(s, s', n, NotFull); }
    SameWaiting(s, s', n, NotEmpty);
  }

  /** CPushed, CTook, PPushed, PPut: the owner unlocks; the head of the queue, maybe itself, owns next. */
  predicate Releases<T>(p: Pc<T>) {
    p.CPushed? || p.CTook? || p.PPushed? || p.PPut?
  }

  lemma ReleasePlace<T>(s: State<T>, place: seq<Place>, n: Id)
    requires PlaceInv(s, place) && Enabled(s, Go(n)) && Releases(s.pc[n])
    ensures PlaceInv(Apply(s, Go(n)), NextPlace(s, place, Go(n)))
  {
    var s' := Apply(s, Go(n));
    assert WaiterOk(s.pc[n], place[n], s.lock.owner == Some(n));
    OwnerLeaves(s.pc, place, n, s'.pc[n]);
    assert Enumerates(ListOf(s, InQueue), place, InQueue);
    if |s.lock.queue| > 0 {
      var h := s.lock.queue[0];
      assert h in s.lock.queue;
      assert WaiterOk(s'.pc[h], place[h], false);
      OwnerComes(s'.pc, place, h);
      OneMoves(s, place, s', h, Nowhere);
    } else {
      NothingMoves(s, place, s');
    }
  }

  lemma ReleaseCredit<T>(s: State<T>, place: seq<Place>, n: Id)
    requires PlaceInv(s, place) && CreditInv(s, place) && Enabled(s, Go(n)) && Releases(s.pc[n])
    ensures CreditInv(Apply(s, Go(n)), NextPlace(s, place, Go(n)))
  {
    var s' := Apply(s, Go(n));
    assert WaiterOk(s.pc[n], place[n], s.lock.owner == Some(n));
    assert place[n := place[n]] == place;
    OneChanged(s.pc, place, n, s'.pc[n], place[n]);
    UnlockCounts(s, s'.pc, place);
    SameWaiting(s, s', n, NotEmpty);
    SameWaiting(s, s', n, NotFull);
  }

  /** The next owner was awake, or sure to be, before. */
  lemma UnlockCounts<T>(s: State<T>, pc: seq<Pc<T>>, place: seq<Place>)
    requires |pc| == |place| && PlacesOk(s, place)
    ensures Wakes(pc, AfterUnlock(s.lock, place)) == Wakes(pc, place)
    ensures Frees(pc, AfterUnlock(s.lock, place)) == Frees(pc, place)
  {
    assert Enumerates(ListOf(s, InQueue), place, InQueue);
    if |s.lock.queue| > 0 { assert s.lock.queue[0] in s.lock.queue; }
    SleepersDontCount(pc, place, AfterUnlock(s.lock, place));
  }

  // ----- the sections of notify_one

  /** On the condition variable, or in the hands of notifier n of it. */
  predicate Within(q: Place, side: Side, n: Id) {
    q == Stacked(side) || q == Listed(side) || q == Held(side, n)
  }

  lemma ListsApart<T>(s: State<T>, place: seq<Place>, n: Id)
    requires PlacesOk(s, place) && n < |s.pc| && Notifies(s.pc[n])
    ensures var side := SideOf(s.pc[n]);
      var all := Everyone(CvOf(s, side), Some(s.pc[n].call));
      && Distinct(all)
      && forall w: Id :: w in all <==> w < |place| && Within(place[w], side, n)
  {
    var side := SideOf(s.pc[n]);
    var cv := CvOf(s, side);
    assert Enumerates(ListOf(s, Stacked(side)), place, Stacked(side));
    assert Enumerates(ListOf(s, Listed(side)), place, Listed(side));
    assert Enumerates(ListOf(s, Held(side, n)), place, Held(side, n));
    assert ListOf(s, Held(side, n)) == InCall(Some(s.pc[n].call));
    DistinctConcat(cv.awaiting, cv.toResume);
    DistinctConcat(cv.awaiting + cv.toResume, InCall(Some(s.pc[n].call)));
    forall w: Id ensures w in Everyone(cv, Some(s.pc[n].call)) <==> w < |place| && Within(place[w], side, n) {
      assert w in Everyone(cv, Some(s.pc[n].call)) <==>
        w in cv.awaiting || w in cv.toResume || w in InCall(Some(s.pc[n].call));
    }
  }

  lemma {:induction false} PartsDistinct(a: seq<Id>, b: seq<Id>)
    requires Distinct(a + b)
    ensures Distinct(a) && Distinct(b) && forall x :: x in a ==> x !in b
  {
    forall i, j | 0 <= i < j < |a| ensures a[i] != a[j] {
      assert (a + b)[i] == a[i] && (a + b)[j] == a[j];
    }
    forall i, j | 0 <= i < j < |b| ensures b[i] != b[j] {
      assert (a + b)[|a| + i] == b[i] && (a + b)[|a| + j] == b[j];
    }
    forall i, j | 0 <= i < |a| && 0 <= j < |b| ensures a[i] != b[j] {
      assert (a + b)[i] == a[i] && (a + b)[|a| + j] == b[j];
    }
  }

  /** The lists of a notifier and its condition variable, all of it in new places. */
  lemma RelocatedLists(
      place: seq<Place>, side: Side, n: Id, before: seq<Id>, cv: Cv, held: seq<Id>, dropped: seq<Id>)
    requires forall w: Id :: w in before <==> w < |place| && Within(place[w], side, n)
    requires var after := cv.awaiting + cv.toResume + held + dropped;
      Distinct(after) && forall w :: w in before <==> w in after
    ensures var place' := Relocated(place, side, n, cv, held, dropped);
      && Enumerates(cv.awaiting, place', Stacked(side)) && Enumerates(cv.toResume, place', Listed(side))
      && Enumerates(held, place', Held(side, n))
      && (forall w :: 0 <= w < |place| && w !in before ==> place'[w] == place[w])
      && (forall w :: w in before ==> Within(place'[w], side, n) || place'[w] == Adrift)
      && (forall w :: 0 <= w < |place| && place'[w] == Adrift ==> place[w] == Adrift || w in dropped)
  {
    var after := cv.awaiting + cv.toResume + held + dropped;
    PartsDistinct(cv.awaiting + cv.toResume + held, dropped);
    PartsDistinct(cv.awaiting + cv.toResume, held);
    PartsDistinct(cv.awaiting, cv.toResume);
    assert forall w :: w in after <==> w in cv.awaiting || w in cv.toResume || w in held || w in dropped;
  }

  /** What the notifier's own lists are after its section, and who has changed place. */
  lemma OwnLists<T>(s: State<T>, place: seq<Place>, n: Id)
    requires |place| == |s.pc| && PlacesOk(s, place) && n < |s.pc| && Notifies(s.pc[n]) && !s.pc[n].call.Hand?
    ensures var side, s', place' := SideOf(s.pc[n]), Notify(s, n), AfterSection(s, place, n);
      && Enumerates(ListOf(s', Stacked(side)), place', Stacked(side))
      && Enumerates(ListOf(s', Listed(side)), place', Listed(side))
      && Enumerates(ListOf(s', Held(side, n)), place', Held(side, n))
    ensures forall w :: 0 <= w < |place| ==>
      var side, q, q' := SideOf(s.pc[n]), place[w], AfterSection(s, place, n)[w];
      && (q' == q || (Within(q, side, n) && (Within(q', side, n) || q' == Adrift)))
      && (q' == Adrift ==> q == Adrift || w in DroppedBy(s, Go(n)))
  {
    var side, call := SideOf(s.pc[n]), s.pc[n].call;
    var (cv, next) := Advance(CvOf(s, side), call);
    ListsApart(s, place, n);
    AdvanceKeeps(CvOf(s, side), call);
    RelocatedLists(place, side, n, Everyone(CvOf(s, side), Some(call)), cv, InCall(next), Dropped(CvOf(s, side), call));
    assert ListOf(Notify(s, n), Held(side, n)) == InCall(next);
  }

  /** Everything that a section of notifier n does to the places. */
  lemma SectionMoves<T>(s: State<T>, place: seq<Place>, n: Id)
    requires |place| == |s.pc| && PlacesOk(s, place) && n < |s.pc| && Notifies(s.pc[n]) && !s.pc[n].call.Hand?
    ensures PlacesOk(Notify(s, n), AfterSection(s, place, n))
    ensures forall w :: 0 <= w < |place| ==>
      var side, q, q' := SideOf(s.pc[n]), place[w], AfterSection(s, place, n)[w];
      && (q' == q || (Sleeps(q, side) && (Sleeps(q', side) || q' == Adrift)))
      && (q' == Adrift ==> q == Adrift || w in DroppedBy(s, Go(n)))
  {
    OwnLists(s, place, n);
    forall q | q != Nowhere && q != Adrift ensures Enumerates(ListOf(Notify(s, n), q), AfterSection(s, place, n), q) {
      if !Within(q, SideOf(s.pc[n]), n) {
        OtherLists(s, n, q);
        assert Enumerates(ListOf(s, q), place, q);
        Unrelated(ListOf(s, q), place, AfterSection(s, place, n), q, SideOf(s.pc[n]), n);
      }
    }
  }

  lemma OtherLists<T>(s: State<T>, n: Id, q: Place)
    requires n < |s.pc| && Notifies(s.pc[n]) && !s.pc[n].call.Hand? && q != Nowhere && q != Adrift
    requires var side := SideOf(s.pc[n]); q != Stacked(side) && q != Listed(side) && q != Held(side, n)
    ensures ListOf(Notify(s, n), q) == ListOf(s, q)
  {
  }

  lemma Unrelated(list: seq<Id>, place: seq<Place>, place': seq<Place>, q: Place, side: Side, n: Id)
    requires Enumerates(list, place, q) && |place'| == |place| && !Within(q, side, n) && q != Adrift
    requires forall w :: 0 <= w < |place| ==>
      place'[w] == place[w] || (Within(place[w], side, n) && (Within(place'[w], side, n) || place'[w] == Adrift))
    ensures Enumerates(list, place', q)
  {
  }

  lemma SectionPlace<T>(s: State<T>, place: seq<Place>, n: Id)
    requires PlaceInv(s, place) && Enabled(s, Go(n)) && Notifies(s.pc[n]) && !s.pc[n].call.Hand?
    ensures PlaceInv(Apply(s, Go(n)), NextPlace(s, place, Go(n)))
  {
    var s' := Apply(s, Go(n));
    assert WaiterOk(s.pc[n], place[n], s.lock.owner == Some(n));
    SectionMoves(s, place, n);
    SectionWaits(s.pc, place, NextPlace(s, place, Go(n)), s.lock.owner, n, s'.pc[n], SideOf(s.pc[n]));
    NextBatchOk(s, n);
  }

  lemma SectionWaits<T>(
      pc: seq<Pc<T>>, place: seq<Place>, place': seq<Place>, owner: Option<Id>, n: Id, p: Pc<T>, side: Side)
    requires |pc| == |place| == |place'| && n < |pc| && WaitersOk(pc, place, owner)
    requires Notifies(pc[n]) && (p.Idle? || Notifies(p)) && place[n] == Nowhere
    requires forall w :: 0 <= w < |place| ==>
      place'[w] == place[w] || (Sleeps(place[w], side) && (Sleeps(place'[w], side) || place'[w] == Adrift))
    ensures WaitersOk(pc[n := p], place', owner)
  {
    forall w | 0 <= w < |pc| ensures WaiterOk(pc[n := p][w], place'[w], owner == Some(w)) {
      assert WaiterOk(pc[w], place[w], owner == Some(w));
    }
  }

  lemma NextBatchOk<T>(s: State<T>, n: Id)
    requires n < |s.pc| && Notifies(s.pc[n]) && !s.pc[n].call.Hand? && BatchesOk(s.pc)
    ensures BatchesOk(Notify(s, n).pc)
  {
    var (cv, next) := Advance(CvOf(s, SideOf(s.pc[n])), s.pc[n].call);
    if s.pc[n].call == Swap && next.Some? {
      assert |next.value.b| == |CvOf(s, SideOf(s.pc[n])).awaiting|;
    }
  }

  /** A section other than a miss leaves nobody waiting who did not wait, and keeps the promise it stands for. */
  lemma SectionWaiting<T>(s: State<T>, n: Id, side: Side)
    requires n < |s.pc| && Notifies(s.pc[n]) && !s.pc[n].call.Hand? && BatchesOk(s.pc)
    ensures Waiting(Notify(s, n), side) ==> Waiting(s, side)
    ensures Notify(s, n).pc[n] == Idle && Waiting(Notify(s, n), SideOf(s.pc[n])) ==> Misses(s, Go(n))
  {
    if side == SideOf(s.pc[n]) && s.pc[n].call.Batch? {
      assert HoldsBatch(s.pc[n], side);
    }
  }

  lemma SectionCredit<T>(s: State<T>, place: seq<Place>, n: Id)
    requires PlaceInv(s, place) && CreditInv(s, place) && Enabled(s, Go(n)) && !Misses(s, Go(n))
    requires Notifies(s.pc[n]) && !s.pc[n].call.Hand?
    ensures CreditInv(Apply(s, Go(n)), NextPlace(s, place, Go(n)))
  {
    var s' := Apply(s, Go(n));
    SectionMoves(s, place, n);
    SleepersDontCount(s'.pc, place, NextPlace(s, place, Go(n)));
    assert place[n := place[n]] == place;
    OneChanged(s.pc, place, n, s'.pc[n], place[n]);
    SectionWaiting(s, n, NotEmpty);
    SectionWaiting(s, n, NotFull);
  }

  /** The last section: the waiter in the hand asks for the lock. */
  lemma HandPlace<T>(s: State<T>, place: seq<Place>, n: Id)
    requires PlaceInv(s, place) && Enabled(s, Go(n)) && Notifies(s.pc[n]) && s.pc[n].call.Hand?
    ensures PlaceInv(Apply(s, Go(n)), NextPlace(s, place, Go(n)))
  {
    var s', w := Apply(s, Go(n)), s.pc[n].call.w;
    assert WaiterOk(s.pc[n], place[n], s.lock.owner == Some(n));
    HandIs(s, place, n);
    assert WaiterOk(s.pc[w], place[w], s.lock.owner == Some(w));
    assert place[n := place[n]] == place;
    OneChecked(s.pc, place, s.lock.owner, n, Idle, Nowhere);
    Asks(s'.pc, place, s.lock, w);
    OneMoves(s, place, s', w, Arrival(s.lock));
  }

  lemma HandIs<T>(s: State<T>, place: seq<Place>, n: Id)
    requires |place| == |s.pc| && PlacesOk(s, place) && n < |s.pc| && Notifies(s.pc[n]) && s.pc[n].call.Hand?
    ensures var w, q := s.pc[n].call.w, Held(SideOf(s.pc[n]), n);
      w < |s.pc| && place[w] == q && ListOf(s, q) == [w]
  {
    var q := Held(SideOf(s.pc[n]), n);
    assert Enumerates(ListOf(s, q), place, q);
    assert s.pc[n].call.w in ListOf(s, q);
  }

  /** The notifier's debt becomes the waiter's. */
  lemma HandCounts<T>(s: State<T>, place: seq<Place>, n: Id)
    requires PlaceInv(s, place) && Enabled(s, Go(n)) && Notifies(s.pc[n]) && s.pc[n].call.Hand?
    ensures var pc', place' := Apply(s, Go(n)).pc, AfterSection(s, place, n);
      |pc'| == |place'| && Wakes(pc', place') == Wakes(s.pc, place) && Frees(pc', place') == Frees(s.pc, place)
  {
    var pc', w := s.pc[n := Idle], s.pc[n].call.w;
    HandIs(s, place, n);
    assert WaiterOk(s.pc[n], place[n], s.lock.owner == Some(n));
    assert WaiterOk(s.pc[w], place[w], s.lock.owner == Some(w));
    assert place[n := place[n]] == place && pc'[w := pc'[w]] == pc';
    OneChanged(s.pc, place, n, Idle, Nowhere);
    OneChanged(pc', place, w, pc'[w], Arrival(s.lock));
  }

  lemma HandCredit<T>(s: State<T>, place: seq<Place>, n: Id)
    requires PlaceInv(s, place) && CreditInv(s, place) && Enabled(s, Go(n)) && Notifies(s.pc[n]) && s.pc[n].call.Hand?
    ensures CreditInv(Apply(s, Go(n)), NextPlace(s, place, Go(n)))
  {
    HandCounts(s, place, n);
    SameWaiting(s, Apply(s, Go(n)), n, NotEmpty);
    SameWaiting(s, Apply(s, Go(n)), n, NotFull);
  }

  /** A miss costs its side one wake-up: the promise survives it exactly if there was one to spare. */
  lemma MissBreaksIff<T>(s: State<T>, place: seq<Place>, n: Id)
    requires PlaceInv(s, place) && CreditInv(s, place) && Enabled(s, Go(n)) && Misses(s, Go(n))
    ensures CreditInv(Apply(s, Go(n)), NextPlace(s, place, Go(n))) <==>
      if s.pc[n].PNotify? then |s.buf| < Wakes(s.pc, place) else s.cap - |s.buf| < Frees(s.pc, place)
  {
    var s', side := Apply(s, Go(n)), SideOf(s.pc[n]);
    SectionMoves(s, place, n);
    SleepersDontCount(s'.pc, place, NextPlace(s, place, Go(n)));
    assert place[n := place[n]] == place;
    OneChanged(s.pc, place, n, Idle, place[n]);
    SectionWaiting(s, n, NotEmpty);
    SectionWaiting(s, n, NotFull);
    StillWaiting(s, n);
  }

  lemma StillWaiting<T>(s: State<T>, n: Id)
    requires n < |s.pc| && Misses(s, Go(n))
    ensures Waiting(Notify(s, n), SideOf(s.pc[n]))
  {
    var side := SideOf(s.pc[n]);
    if CvOf(s, side).toResume == [] {
      var m :| 0 <= m < |s.pc| && HoldsBatch(s.pc[m], side);
      assert HoldsBatch(Notify(s, n).pc[m], side);
    }
  }

  lemma BufferStep<T>(s: State<T>, st: Step<T>)
    requires BufferInv(s) && Enabled(s, st)
    ensures BufferInv(Apply(s, st)) && Apply(s, st).cap == s.cap
  {
    if |s.buf| > 0 { assert s.put == s.taken + [s.buf[0]] + s.buf[1..]; }
  }

  lemma PlaceStep<T>(s: State<T>, place: seq<Place>, st: Step<T>)
    requires PlaceInv(s, place) && Enabled(s, st)
    ensures PlaceInv(Apply(s, st), NextPlace(s, place, st))
  {
    var n := st.n;
    if !st.Go? { BeginPlace(s, place, st); }
    else if Tries(s.pc[n]) { TryPlace(s, place, n); }
    else if Releases(s.pc[n]) { ReleasePlace(s, place, n); }
    else if s.pc[n].call.Hand? { HandPlace(s, place, n); }
    else { SectionPlace(s, place, n); }
  }

  lemma CreditStep<T>(s: State<T>, place: seq<Place>, st: Step<T>)
    requires PlaceInv(s, place) && BufferInv(s) && CreditInv(s, place) && Enabled(s, st) && !Misses(s, st)
    requires |NextPlace(s, place, st)| == |Apply(s, st).pc|
    ensures CreditInv(Apply(s, st), NextPlace(s, place, st))
  {
    var n := st.n;
    if !st.Go? { BeginCredit(s, place, st); }
    else if s.pc[n].CAsk? || s.pc[n].CParked? { TakeCredit(s, place, n); }
    else if s.pc[n].PAsk? || s.pc[n].PParked? { PutCredit(s, place, n); }
    else if Releases(s.pc[n]) { ReleaseCredit(s, place, n); }
    else if s.pc[n].call.Hand? { HandCredit(s, place, n); }
    else { SectionCredit(s, place, n); }
  }

  /** Nobody has been dropped so far. */
  ghost predicate NoneAdrift(place: seq<Place>) {
    forall n :: 0 <= n < |place| ==> place[n] != Adrift
  }

  lemma AdriftStep<T>(s: State<T>, place: seq<Place>, st: Step<T>)
    requires PlaceInv(s, place) && Enabled(s, st) && NoneAdrift(place) && DroppedBy(s, st) == []
    ensures NoneAdrift(NextPlace(s, place, st))
  {
    if st.Go? && Notifies(s.pc[st.n]) && !s.pc[st.n].call.Hand? {
      SectionMoves(s, place, st.n);
    }
  }

  /** Every step keeps track of everybody; all but a miss keep the wake-ups that are owed. */
  lemma StepInv<T>(s: State<T>, place: seq<Place>, st: Step<T>)
    requires PlaceInv(s, place) && BufferInv(s) && Enabled(s, st)
    ensures PlaceInv(Apply(s, st), NextPlace(s, place, st)) && BufferInv(Apply(s, st))
    ensures CreditInv(s, place) && !Misses(s, st) ==> CreditInv(Apply(s, st), NextPlace(s, place, st))
    ensures NoneAdrift(place) && DroppedBy(s, st) == [] ==> NoneAdrift(NextPlace(s, place, st))
  {
    PlaceStep(s, place, st);
    BufferStep(s, st);
    if CreditInv(s, place) && !Misses(s, st) { CreditStep(s, place, st); }
    if NoneAdrift(place) && DroppedBy(s, st) == [] { AdriftStep(s, place, st); }
  }

  // ----- whole runs

  ghost predicate Run<T>(r: seq<State<T>>, steps: seq<Step<T>>, cap: nat, count: nat) {
    && |r| == |steps| + 1
    && r[0] == Init<T>(cap, count)
    && forall i {:trigger steps[i]} :: 0 <= i < |steps| ==> Enabled(r[i], steps[i]) && r[i + 1] == Apply(r[i], steps[i])
  }

  /** No call of notify_one before moment i returns without a waiter while somebody waits. */
  ghost predicate NoMiss<T>(r: seq<State<T>>, steps: seq<Step<T>>, i: nat)
    requires i <= |steps| <= |r|
  {
    forall j {:trigger steps[j]} :: 0 <= j < i ==> !Misses(r[j], steps[j])
  }

  /** No call before moment i drops a waiter. */
  ghost predicate NoDrop<T>(r: seq<State<T>>, steps: seq<Step<T>>, i: nat)
    requires i <= |steps| <= |r|
  {
    forall j {:trigger steps[j]} :: 0 <= j < i ==> DroppedBy(r[j], steps[j]) == []
  }

  lemma InitPlaces<T>(cap: nat, count: nat)
    ensures var s, place := Init<T>(cap, count), seq(count, _ => Nowhere);
      PlaceInv(s, place) && BufferInv(s) && CreditInv(s, place) && NoneAdrift(place)
  {
  }

  lemma {:induction false} RunInv<T>(r: seq<State<T>>, steps: seq<Step<T>>, cap: nat, count: nat, i: nat)
    returns (place: seq<Place>)
    requires Run(r, steps, cap, count) && i < |r|
    ensures PlaceInv(r[i], place) && BufferInv(r[i]) && r[i].cap == cap && |r[i].pc| == count
    ensures NoMiss(r, steps, i) ==> CreditInv(r[i], place)
    ensures NoDrop(r, steps, i) ==> NoneAdrift(place)
  {
    if i == 0 {
      place := seq(count, _ => Nowhere);
      InitPlaces<T>(cap, count);
    } else {
      var before := RunInv(r, steps, cap, count, i - 1);
      var s, st := r[i - 1], steps[i - 1];
      StepInv(s, before, st);
      BufferStep(s, st);
      place := NextPlace(s, before, st);
    }
  }

  /** Elements come out in the order they went in, and never more than `capacity` are inside. */
  lemma FifoAndBounded<T>(r: seq<State<T>>, steps: seq<Step<T>>, cap: nat, count: nat, i: nat)
    requires Run(r, steps, cap, count) && i < |r|
    ensures r[i].put == r[i].taken + r[i].buf && |r[i].buf| <= cap
  {
    var _ := RunInv(r, steps, cap, count, i);
  }

  /**
    As long as no call has missed a waiter: while a consumer waits to be notified, every
    element of the buffer has a notification on its way or a consumer already woken for
    it; dually for producers and free slots.
   */
  lemma WakeUpsCoverBuffer<T>(r: seq<State<T>>, steps: seq<Step<T>>, cap: nat, count: nat, i: nat)
    returns (place: seq<Place>)
    requires Run(r, steps, cap, count) && i < |r| && NoMiss(r, steps, i)
    ensures PlaceInv(r[i], place)
    ensures Waiting(r[i], NotEmpty) ==> |r[i].buf| <= Wakes(r[i].pc, place)
    ensures Waiting(r[i], NotFull) ==> cap - |r[i].buf| <= Frees(r[i].pc, place)
  {
    place := RunInv(r, steps, cap, count, i);
  }

  // ----- which values

  /** The element that a consumer has taken and not returned yet. */
  function Got<T>(p: Pc<T>): Option<T> {
    match p
    case CTook(v) => Some(v)
    case CNotify(v, _) => Some(v)
    case _ => None
  }

  /** The element that a producer has yet to put. */
  function Offers<T>(p: Pc<T>): Option<T> {
    match p
    case PAsk(v) => Some(v)
    case PPushed(v) => Some(v)
    case PParked(v) => Some(v)
    case _ => None
  }

  /** This step gives consumer st.n its element. */
  ghost predicate Takes<T>(s: State<T>, st: Step<T>, t: State<T>) {
    && st.Go? && st.n < |s.pc| == |t.pc| && Got(s.pc[st.n]).None? && Got(t.pc[st.n]).Some?
  }

  /** This step puts the element of producer st.n. */
  ghost predicate Puts<T>(s: State<T>, st: Step<T>, t: State<T>) {
    st.Go? && st.n < |s.pc| == |t.pc| && Offers(s.pc[st.n]).Some? && Offers(t.pc[st.n]).None?
  }

  /** The argument of the last release that n has begun. */
  function LastRelease<T>(steps: seq<Step<T>>, i: nat, n: Id): Option<T>
    requires i <= |steps|
  {
    if i == 0 then None
    else if steps[i - 1].BeginPut? && steps[i - 1].n == n then Some(steps[i - 1].v)
    else LastRelease(steps, i - 1, n)
  }

  /** The element, if any, that a consumer gets in step i. */
  ghost function Gets<T>(r: seq<State<T>>, steps: seq<Step<T>>, i: nat): seq<T>
    requires i < |steps| < |r|
  {
    if Takes(r[i], steps[i], r[i + 1]) then [Got(r[i + 1].pc[steps[i].n]).value] else []
  }

  /** The argument of the release, if any, whose element is put in step i. */
  ghost function Adds<T>(r: seq<State<T>>, steps: seq<Step<T>>, i: nat): seq<T>
    requires i < |steps| < |r|
  {
    var v := LastRelease(steps, i, steps[i].n);
    if Puts(r[i], steps[i], r[i + 1]) && v.Some? then [v.value] else []
  }

  /** The elements that consumers got, in order. */
  ghost function Acquired<T>(r: seq<State<T>>, steps: seq<Step<T>>, i: nat): seq<T>
    requires i <= |steps| < |r|
  {
    if i == 0 then [] else Acquired(r, steps, i - 1) + Gets(r, steps, i - 1)
  }

  /** The arguments of the releases, in the order in which they were put. */
  ghost function Released<T>(r: seq<State<T>>, steps: seq<Step<T>>, i: nat): seq<T>
    requires i <= |steps| < |r|
  {
    if i == 0 then [] else Released(r, steps, i - 1) + Adds(r, steps, i - 1)
  }

  /** What a step does to the element of each coroutine and to the buffer. */
  lemma ValuesMove<T>(s: State<T>, st: Step<T>, m: Id)
    requires Enabled(s, st) && m < |s.pc|
    ensures var t := Apply(s, st);
      && |t.pc| == |s.pc|
      && (Got(t.pc[m]) == Got(s.pc[m]) || (Takes(s, st, t) && st.n == m) || (t.pc[m] == Idle && Got(s.pc[m]).Some?))
      && (Offers(t.pc[m]) == Offers(s.pc[m]) || (Puts(s, st, t) && st.n == m)
          || (st.BeginPut? && st.n == m && Offers(t.pc[m]) == Some(st.v)))
      && (st.BeginPut? && st.n == m ==> Offers(t.pc[m]) == Some(st.v))
  {
  }

  /** What a step takes out of the buffer, and what it puts in. */
  lemma BufferMoves<T>(s: State<T>, st: Step<T>)
    requires Enabled(s, st)
    ensures |Apply(s, st).pc| == |s.pc|
    ensures var t, n := Apply(s, st), st.n;
      && (Takes(s, st, t) ==>
            s.buf != [] && Got(t.pc[n]) == Some(s.buf[0]) && t.buf == s.buf[1..] && t.taken == s.taken + [s.buf[0]])
      && (Puts(s, st, t) ==> t.buf == s.buf + [Offers(s.pc[n]).value] && t.put == s.put + [Offers(s.pc[n]).value])
      && (!Takes(s, st, t) ==> t.taken == s.taken) && (!Puts(s, st, t) ==> t.put == s.put)
      && (!Takes(s, st, t) && !Puts(s, st, t) ==> t.buf == s.buf)
  {
    if st.Go? && Tries(s.pc[st.n]) { TriesMove(s, st.n); }
  }

  lemma TriesMove<T>(s: State<T>, n: Id)
    requires Enabled(s, Go(n)) && Tries(s.pc[n])
    ensures var t := Apply(s, Go(n));
      && |t.pc| == |s.pc|
      && (Takes(s, Go(n), t) ==>
            s.buf != [] && t == SetPc(s, n, CTook(s.buf[0])).(buf := s.buf[1..], taken := s.taken + [s.buf[0]]))
      && (Puts(s, Go(n), t) ==>
            var v := Offers(s.pc[n]).value; t == SetPc(s, n, PPut).(buf := s.buf + [v], put := s.put + [v]))
      && (!Takes(s, Go(n), t) && !Puts(s, Go(n), t) ==> t.buf == s.buf && t.put == s.put && t.taken == s.taken)
  {
  }

  lemma StepAt<T>(r: seq<State<T>>, steps: seq<Step<T>>, cap: nat, count: nat, i: nat)
    requires Run(r, steps, cap, count) && i < |steps|
    ensures Enabled(r[i], steps[i]) && r[i + 1] == Apply(r[i], steps[i]) && |r[i].pc| == |r[i + 1].pc| == count
  {
    var _ := RunInv(r, steps, cap, count, i);
    var _ := RunInv(r, steps, cap, count, i + 1);
  }

  /** A producer that is still to put holds the argument of its own last release. */
  lemma {:induction false} KeepsArgument<T>(
      r: seq<State<T>>, steps: seq<Step<T>>, cap: nat, count: nat, i: nat, n: Id)
    requires Run(r, steps, cap, count) && i < |r| && n < count && |r[i].pc| == count
    requires Offers(r[i].pc[n]).Some?
    ensures Offers(r[i].pc[n]) == LastRelease(steps, i, n)
  {
    if i > 0 {
      StepAt(r, steps, cap, count, i - 1);
      ValuesMove(r[i - 1], steps[i - 1], n);
      if Offers(r[i - 1].pc[n]).Some? { KeepsArgument(r, steps, cap, count, i - 1, n); }
    }
  }

  /** A consumer that has its element keeps it until it returns. */
  lemma {:induction false} KeepsElement<T>(
      r: seq<State<T>>, steps: seq<Step<T>>, cap: nat, count: nat, i: nat, j: nat, n: Id)
    requires Run(r, steps, cap, count) && i <= j < |r| && n < count && |r[i].pc| == count && Got(r[i].pc[n]).Some?
    requires forall m :: i < m <= j && n < |r[m].pc| ==> r[m].pc[n] != Idle
    ensures |r[j].pc| == count && Got(r[j].pc[n]) == Got(r[i].pc[n])
    decreases j
  {
    if i < j {
      KeepsElement(r, steps, cap, count, i, j - 1, n);
      StepAt(r, steps, cap, count, j - 1);
      ValuesMove(r[j - 1], steps[j - 1], n);
    }
  }

  /** One step: a consumer gets the oldest element, a producer puts the argument of its release. */
  lemma MovesRightValue<T>(r: seq<State<T>>, steps: seq<Step<T>>, cap: nat, count: nat, i: nat)
    requires Run(r, steps, cap, count) && i < |steps|
    ensures var s, st, t := r[i], steps[i], r[i + 1];
      && (Takes(s, st, t) ==> s.buf != [] && Got(t.pc[st.n]) == Some(s.buf[0]) && t.buf == s.buf[1..])
      && (Puts(s, st, t) ==> LastRelease(steps, i, st.n).Some? && t.buf == s.buf + [LastRelease(steps, i, st.n).value])
      && (!Takes(s, st, t) && !Puts(s, st, t) ==> t.buf == s.buf)
    ensures r[i + 1].taken == r[i].taken + Gets(r, steps, i)
    ensures r[i + 1].put == r[i].put + Adds(r, steps, i)
  {
    StepAt(r, steps, cap, count, i);
    BufferMoves(r[i], steps[i]);
    if Puts(r[i], steps[i], r[i + 1]) {
      KeepsArgument(r, steps, cap, count, i, steps[i].n);
    }
  }

  /** The histories are what can be seen from outside. */
  lemma {:induction false} HistoriesAreReal<T>(r: seq<State<T>>, steps: seq<Step<T>>, cap: nat, count: nat, i: nat)
    requires Run(r, steps, cap, count) && i < |r|
    ensures Acquired(r, steps, i) == r[i].taken && Released(r, steps, i) == r[i].put
  {
    if i > 0 {
      HistoriesAreReal(r, steps, cap, count, i - 1);
      MovesRightValue(r, steps, cap, count, i - 1);
    }
  }

  /**
    Seen from outside: what the consumers get, in order, is what the releases were called
    with, in the order of their puts, but for the at most `capacity` elements that are
    still in the buffer.
   */
  lemma DeliversInOrder<T>(r: seq<State<T>>, steps: seq<Step<T>>, cap: nat, count: nat, i: nat)
    requires Run(r, steps, cap, count) && i < |r|
    ensures Acquired(r, steps, i) + r[i].buf == Released(r, steps, i) && |r[i].buf| <= cap
  {
    FifoAndBounded(r, steps, cap, count, i);
    HistoriesAreReal(r, steps, cap, count, i);
  }

  ghost predicate Quiescent<T>(s: State<T>) {
    forall n :: 0 <= n < |s.pc| ==> !Runnable(s, n)
  }

  /** Outside the channel, or parked on the condition variable of its side. */
  predicate AtRest<T>(s: State<T>, n: Id, side: Side)
    requires n < |s.pc|
  {
    || s.pc[n] == Idle
    || ((if side == NotEmpty then s.pc[n] == CParked else s.pc[n].PParked?)
        && n in CvOf(s, side).awaiting + CvOf(s, side).toResume)
  }

  /** Everybody inside is a consumer at an empty buffer, or everybody is a producer at a full one. */
  ghost predicate Settled<T>(s: State<T>) {
    || (forall n :: 0 <= n < |s.pc| ==> s.pc[n] == Idle || (AtRest(s, n, NotEmpty) && |s.buf| == 0))
    || (forall n :: 0 <= n < |s.pc| ==> s.pc[n] == Idle || (AtRest(s, n, NotFull) && |s.buf| == s.cap))
  }

  /**
    No wake-up is lost, in any run in which no call misses or drops a waiter: when nobody
    can run, everybody still inside has good reason to wait.
   */
  lemma NoLostWakeUp<T>(r: seq<State<T>>, steps: seq<Step<T>>, cap: nat, count: nat, i: nat)
    requires Run(r, steps, cap, count) && i < |r| && cap >= 1 && Quiescent(r[i])
    requires NoMiss(r, steps, i) && NoDrop(r, steps, i)
    ensures Settled(r[i])
  {
    var place := RunInv(r, steps, cap, count, i);
    NobodyOwns(r[i], place);
    AllAtRest(r[i], place);
  }

  lemma NobodyOwns<T>(s: State<T>, place: seq<Place>)
    requires PlaceInv(s, place) && Quiescent(s)
    ensures s.lock.owner.None?
  {
    if s.lock.owner.Some? {
      var o := s.lock.owner.value;
      assert WaiterOk(s.pc[o], place[o], true);
      assert Runnable(s, o);
      assert false;
    }
  }

  lemma OneAtRest<T>(s: State<T>, place: seq<Place>, n: Id)
    requires PlaceInv(s, place) && NoneAdrift(place) && Quiescent(s) && s.lock.owner.None? && n < |s.pc|
    ensures AtRest(s, n, NotEmpty) || AtRest(s, n, NotFull)
    ensures Waking(s.pc[n], place[n]) == 0 && Freeing(s.pc[n], place[n]) == 0
  {
    var q := place[n];
    assert WaiterOk(s.pc[n], q, false) && !Runnable(s, n);
    if q != Nowhere {
      assert Enumerates(ListOf(s, q), place, q);
      assert n in ListOf(s, q);
      assert q.Held? ==> Runnable(s, q.notifier);
    }
  }

  lemma AllAtRest<T>(s: State<T>, place: seq<Place>)
    requires PlaceInv(s, place) && BufferInv(s) && CreditInv(s, place) && NoneAdrift(place)
    requires Quiescent(s) && s.lock.owner.None? && s.cap >= 1
    ensures Settled(s)
  {
    forall n | 0 <= n < |s.pc|
      ensures AtRest(s, n, NotEmpty) || AtRest(s, n, NotFull)
      ensures Waking(s.pc[n], place[n]) == 0 && Freeing(s.pc[n], place[n]) == 0
    {
      OneAtRest(s, place, n);
    }
    NothingOwed(s.pc, place);
    assert Waiting(s, NotEmpty) ==> |s.buf| == 0;
    assert Waiting(s, NotFull) ==> |s.buf| == s.cap;
  }

  // ----- calls that do not overlap

  /** In the middle of a notify_one on that side. */
  predicate Calling<T>(p: Pc<T>, side: Side) {
    Notifies(p) && SideOf(p) == side && p.call != Start
  }

  /** No call starts while another one on the same condition variable is still going on. */
  ghost predicate TakesTurns<T>(r: seq<State<T>>, steps: seq<Step<T>>)
    requires |r| == |steps| + 1
  {
    forall i {:trigger steps[i]} :: 0 <= i < |steps| ==> MayStart(r[i], steps[i])
  }

  predicate MayStart<T>(s: State<T>, st: Step<T>) {
    st.Go? && st.n < |s.pc| && Notifies(s.pc[st.n]) && s.pc[st.n].call == Start ==>
      forall m :: 0 <= m < |s.pc| ==> !Calling(s.pc[m], SideOf(s.pc[st.n]))
  }

  ghost predicate Solo<T>(s: State<T>, side: Side) {
    && (forall m, n :: 0 <= m < |s.pc| && 0 <= n < |s.pc| && Calling(s.pc[m], side) && Calling(s.pc[n], side) ==> m == n)
    && (forall n :: 0 <= n < |s.pc| && Calling(s.pc[n], side) && !s.pc[n].call.Hand? ==> CvOf(s, side).toResume == [])
  }

  lemma SoloStep<T>(s: State<T>, st: Step<T>, side: Side)
    requires Enabled(s, st) && Solo(s, side) && MayStart(s, st)
    ensures Solo(Apply(s, st), side)
  {
    if st.Go? && Notifies(s.pc[st.n]) {
      SoloSection(s, st.n, side);
    } else {
      SoloElsewhere(s, st, side);
    }
  }

  lemma SoloSection<T>(s: State<T>, n: Id, side: Side)
    requires Enabled(s, Go(n)) && Solo(s, side) && MayStart(s, Go(n)) && Notifies(s.pc[n])
    ensures Solo(Apply(s, Go(n)), side)
  {
    var s' := Apply(s, Go(n));
    assert Calling(s'.pc[n], side) ==> Calling(s.pc[n], side) || s.pc[n].call == Start;
  }

  lemma SoloElsewhere<T>(s: State<T>, st: Step<T>, side: Side)
    requires Enabled(s, st) && Solo(s, side) && !(st.Go? && Notifies(s.pc[st.n]))
    ensures Solo(Apply(s, st), side)
  {
    var s' := Apply(s, st);
    assert !Calling(s'.pc[st.n], side) && CvOf(s', side).toResume == CvOf(s, side).toResume;
  }

  lemma SoloIsSafe<T>(s: State<T>, st: Step<T>)
    requires Enabled(s, st) && Solo(s, NotEmpty) && Solo(s, NotFull)
    ensures !Misses(s, st) && DroppedBy(s, st) == []
  {
    if st.Go? && Notifies(s.pc[st.n]) {
      assert Calling(s.pc[st.n], SideOf(s.pc[st.n])) || s.pc[st.n].call == Start;
    }
  }

  lemma {:induction false} TurnsAreSolo<T>(r: seq<State<T>>, steps: seq<Step<T>>, cap: nat, count: nat, i: nat)
    requires Run(r, steps, cap, count) && TakesTurns(r, steps) && i < |r|
    ensures Solo(r[i], NotEmpty) && Solo(r[i], NotFull)
  {
    if i > 0 {
      TurnsAreSolo(r, steps, cap, count, i - 1);
      SoloStep(r[i - 1], steps[i - 1], NotEmpty);
      SoloStep(r[i - 1], steps[i - 1], NotFull);
    }
  }

  /** What a caller can see to: if calls on one condition variable do not overlap, nobody is missed or dropped. */
  lemma TurnsSuffice<T>(r: seq<State<T>>, steps: seq<Step<T>>, cap: nat, count: nat)
    requires Run(r, steps, cap, count) && TakesTurns(r, steps)
    ensures NoMiss(r, steps, |steps|) && NoDrop(r, steps, |steps|)
  {
    forall j {:trigger steps[j]} | 0 <= j < |steps| ensures !Misses(r[j], steps[j]) && DroppedBy(r[j], steps[j]) == [] {
      TurnsAreSolo(r, steps, cap, count, j);
      SoloIsSafe(r[j], steps[j]);
    }
  }

  /** So then no wake-up is lost. */
  lemma NoLostWakeUpInTurns<T>(r: seq<State<T>>, steps: seq<Step<T>>, cap: nat, count: nat, i: nat)
    requires Run(r, steps, cap, count) && TakesTurns(r, steps) && i < |r| && cap >= 1 && Quiescent(r[i])
    ensures Settled(r[i])
  {
    TurnsSuffice(r, steps, cap, count);
    NoLostWakeUp(r, steps, cap, count, i);
  }

  // ----- calls that meet nobody

  /** acquire() on a free channel with an element can return it, at once and with nothing else changed. */
  lemma CanAcquire<T>(r: seq<State<T>>, steps: seq<Step<T>>, cap: nat, count: nat, n: Id)
    returns (r': seq<State<T>>, steps': seq<Step<T>>)
    requires Run(r, steps, cap, count)
    requires var s := r[|steps|];
      n < |s.pc| && s.pc[n] == Idle && s.lock == FREE && s.buf != [] && s.notFull == NOBODY
    ensures Run(r', steps', cap, count) && r <= r' && steps' == steps + [BeginTake(n), Go(n), Go(n), Go(n), Go(n)]
    ensures var s := r[|steps|];
      r'[|steps'|] == s.(buf := s.buf[1..], taken := s.taken + [s.buf[0]])
    ensures |r'[|steps| + 2].pc| == |r[|steps|].pc| && Got(r'[|steps| + 2].pc[n]) == Some(r[|steps|].buf[0])
  {
    var s := r[|steps|];
    r', steps' := Extend(r, steps, cap, count, BeginTake(n));
    r', steps' := Extend(r', steps', cap, count, Go(n));
    r', steps' := Extend(r', steps', cap, count, Go(n));
    assert r'[|steps'|].pc == s.pc[n := CNotify(s.buf[0], Start)];
    r', steps' := Extend(r', steps', cap, count, Go(n));
    r', steps' := Extend(r', steps', cap, count, Go(n));
    assert r'[|steps'|].pc == s.pc;
  }

  /** release(v) on a free channel that is not full can put v and return. */
  lemma CanRelease<T>(r: seq<State<T>>, steps: seq<Step<T>>, cap: nat, count: nat, n: Id, v: T)
    returns (r': seq<State<T>>, steps': seq<Step<T>>)
    requires Run(r, steps, cap, count)
    requires var s := r[|steps|];
      n < |s.pc| && s.pc[n] == Idle && s.lock == FREE && |s.buf| < s.cap && s.notEmpty == NOBODY
    ensures Run(r', steps', cap, count) && r <= r' && steps' == steps + [BeginPut(n, v), Go(n), Go(n), Go(n), Go(n)]
    ensures var s := r[|steps|];
      r'[|steps'|] == s.(buf := s.buf + [v], put := s.put + [v])
  {
    var s := r[|steps|];
    r', steps' := Extend(r, steps, cap, count, BeginPut(n, v));
    r', steps' := Extend(r', steps', cap, count, Go(n));
    r', steps' := Extend(r', steps', cap, count, Go(n));
    assert r'[|steps'|].pc == s.pc[n := PNotify(Start)];
    r', steps' := Extend(r', steps', cap, count, Go(n));
    r', steps' := Extend(r', steps', cap, count, Go(n));
    assert r'[|steps'|].pc == s.pc;
  }

  // ----- calls that overlap

  lemma Extend<T>(r: seq<State<T>>, steps: seq<Step<T>>, cap: nat, count: nat, st: Step<T>)
    returns (r': seq<State<T>>, steps': seq<Step<T>>)
    requires Run(r, steps, cap, count) && Enabled(r[|steps|], st)
    ensures Run(r', steps', cap, count) && steps' == steps + [st] && r' == r + [Apply(r[|steps|], st)]
  {
    r', steps' := r + [Apply(r[|steps|], st)], steps + [st];
  }

  /** Two consumers have come to the empty buffer and wait. */
  lemma TwoWait<T>() returns (r: seq<State<T>>, steps: seq<Step<T>>)
    ensures Run(r, steps, 2, 4)
    ensures r[|steps|] ==
      State(2, FREE, Cv([1, 0], [], false), NOBODY, [], [CParked, CParked, Idle, Idle], [], [])
  {
    r, steps := [Init(2, 4)], [];
    assert r[0] == State(2, FREE, NOBODY, NOBODY, [], [Idle, Idle, Idle, Idle], [], []);
    r, steps := Extend(r, steps, 2, 4, BeginTake(0));
    r, steps := Extend(r, steps, 2, 4, Go(0));
    r, steps := Extend(r, steps, 2, 4, Go(0));
    assert r[3] == State(2, FREE, Cv([0], [], false), NOBODY, [], [CParked, Idle, Idle, Idle], [], []);
    r, steps := Extend(r, steps, 2, 4, BeginTake(1));
    r, steps := Extend(r, steps, 2, 4, Go(1));
    r, steps := Extend(r, steps, 2, 4, Go(1));
  }

  /** Two producers have put an element each, and are about to notify. */
  lemma TwoPut<T>(a: T, b: T) returns (r: seq<State<T>>, steps: seq<Step<T>>)
    ensures Run(r, steps, 2, 4)
    ensures r[|steps|] == State(2, FREE, Cv([1, 0], [], false), NOBODY, [a, b],
                                [CParked, CParked, PNotify(Start), PNotify(Start)], [a, b], [])
  {
    r, steps := TwoWait<T>();
    var at := |steps|;
    r, steps := Extend(r, steps, 2, 4, BeginPut(2, a));
    r, steps := Extend(r, steps, 2, 4, Go(2));
    r, steps := Extend(r, steps, 2, 4, Go(2));
    assert r[at + 3] == State(2, FREE, Cv([1, 0], [], false), NOBODY, [a],
                              [CParked, CParked, PNotify(Start), Idle], [a], []);
    r, steps := Extend(r, steps, 2, 4, BeginPut(3, b));
    r, steps := Extend(r, steps, 2, 4, Go(3));
    r, steps := Extend(r, steps, 2, 4, Go(3));
  }

  /** Both calls have found to_resume empty; the second takes both consumers, the first nobody. */
  lemma OneMisses<T>(a: T, b: T) returns (r: seq<State<T>>, steps: seq<Step<T>>, i: nat)
    ensures Run(r, steps, 2, 4) && i < |steps| && Misses(r[i], steps[i])
    ensures r[|steps|] == State(2, FREE, NOBODY, NOBODY, [a, b],
                                [CParked, CParked, Idle, PNotify(Batch([0, 1]))], [a, b], [])
  {
    r, steps := TwoPut(a, b);
    r, steps := Extend(r, steps, 2, 4, Go(2));
    r, steps := Extend(r, steps, 2, 4, Go(3));
    assert Reverse<Id>([1, 0]) == [0, 1];
    r, steps := Extend(r, steps, 2, 4, Go(3));
    i := |steps|;
    assert r[i] == State(2, FREE, NOBODY, NOBODY, [a, b],
                         [CParked, CParked, PNotify(Swap), PNotify(Batch([0, 1]))], [a, b], []);
    assert HoldsBatch(r[i].pc[3], NotEmpty);
    r, steps := Extend(r, steps, 2, 4, Go(2));
  }

  /**
    Two producers notify two waiting consumers at the same time.  One call misses, and when
    nobody can run any more consumer 1 is parked although the buffer holds an element.
   */
  lemma OverlapStrands<T>(a: T, b: T) returns (r: seq<State<T>>, steps: seq<Step<T>>, i: nat)
    ensures Run(r, steps, 2, 4) && i < |steps| && Misses(r[i], steps[i])
    ensures var s := r[|steps|];
      && Quiescent(s) && !Settled(s)
      && s.buf == [b] && s.pc == [Idle, CParked, Idle, Idle] && s.notEmpty.toResume == [1]
  {
    r, steps, i := FirstTakes(a, b);
    var at := |steps|;
    r, steps := Extend(r, steps, 2, 4, Go(0));
    r, steps := Extend(r, steps, 2, 4, Go(0));
    assert r[at + 2] == State(2, FREE, Cv([], [1], false), NOBODY, [b],
                              [CNotify(a, Swap), CParked, Idle, Idle], [a, b], [a]);
    r, steps := Extend(r, steps, 2, 4, Go(0));
    assert r[|steps|].pc[1] == CParked;
  }

  /** Consumer 0 has been registered on the free lock and took the first element. */
  lemma FirstTakes<T>(a: T, b: T) returns (r: seq<State<T>>, steps: seq<Step<T>>, i: nat)
    ensures Run(r, steps, 2, 4) && i < |steps| && Misses(r[i], steps[i])
    ensures r[|steps|] == State(2, Lock(Some(0), []), Cv([], [1], false), NOBODY, [b],
                                [CTook(a), CParked, Idle, Idle], [a, b], [a])
  {
    r, steps, i := OneMisses(a, b);
    var at := |steps|;
    r, steps := Extend(r, steps, 2, 4, Go(3));
    r, steps := Extend(r, steps, 2, 4, Go(3));
    assert r[at + 2] == State(2, Lock(Some(0), []), Cv([], [1], false), NOBODY, [a, b],
                              [CParked, CParked, Idle, Idle], [a, b], []);
    r, steps := Extend(r, steps, 2, 4, Go(0));
  }

  // ----- the ring behind the buffer

  /** m_buf, m_first, m_last and m_size; the pointers are indices, `buffer_end()` is buf.Length. */
  class Ring<T(0)> {
    const buf: array<T>
    var first: nat
    var last: nat
    var size: nat

    function Slot(i: nat): nat
      reads this
    {
      if first + i < buf.Length then first + i else first + i - buf.Length
    }

    ghost predicate Valid()
      reads this
    {
      first < buf.Length && last < buf.Length && size <= buf.Length && last == Slot(size)
    }

    ghost function Contents(): (s: seq<T>)
      requires Valid()
      reads this, buf
      ensures |s| == size
    {
      seq(size, i requires 0 <= i < size && Valid() reads this, buf => buf[Slot(i)])
    }

    constructor (capacity: nat)
      requires capacity > 0
      ensures Valid() && Contents() == [] && buf.Length == capacity && fresh(buf)
    {
      buf := new T[capacity];
      first, last, size := 0, 0, 0;
    }

    /** construct_at(m_last, x); push_one() */
    method Push(x: T)
      requires Valid() && size < buf.Length
      modifies this, buf
      ensures Valid() && Contents() == old(Contents()) + [x]
    {
      buf[last] := x;
      last := last + 1;
      size := size + 1;
      if last == buf.Length {
        last := 0;
      }
    }

    /** T item{std::move(*m_first)}; destroy_at(m_first); pop_one() */
    method Pop() returns (x: T)
      requires Valid() && size > 0
      modifies this
      ensures Valid() && [x] + Contents() == old(Contents())
    {
      x := buf[first];
      first := first + 1;
      size := size - 1;
      if first == buf.Length {
        first := 0;
      }
      assert forall i :: 0 <= i < size ==> Contents()[i] == old(Contents())[i + 1];
    }
  }
}
