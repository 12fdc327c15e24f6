/**
  `channel<T, 0>` (include/co_context/co/channel.hpp:195-276): a sender and a receiver
  meet, and the value goes straight into the receiver's frame.

  The three mutexes are the FIFO lock that `Mutex.RefinesFifoLock` shows them to be;
  the condition variable is the queue of `Notification.RefinesFifoQueue`.  notify_one
  is two steps: it takes the oldest waiter off the queue, and later registers it on
  the match lock.  Every other step is the code between two suspension points or lock
  operations.
 */
module Rendezvous {
  import opened Lists
  import opened FifoLock

  datatype Pc<T> =
    | Idle
    // acquire() / drop()
    | RAcq               // asked for m_acquire_mtx
    | RMatch             // owns it, asked for m_match_mtx
    | RNotify            // owns m_match_mtx, set m_receiver and saw a sender: notify_one
    | RHanding(w: Id)    // took w off the cv, about to register it on m_match_mtx
    | RPublished         // owns m_match_mtx, m_receiver is set
    | RPushed            // on the cv, has not unlocked yet
    | RParked            // waiting on the cv or, once notified, for m_match_mtx
    | RTaken             // saw its item, cleared m_has_sender
    | RLeaving           // gave m_match_mtx back
    // release(v)
    | SRel(v: T)         // asked for m_release_mtx
    | SMatch(v: T)       // owns it, asked for m_match_mtx
    | SWaiting(v: T)     // found no receiver and set m_has_sender
    | SPushed(v: T)
    | SParked(v: T)
    | SDelivered         // wrote the item, owns m_match_mtx
    | SNotify            // unlocked it; notify_one comes next
    | SHanding(w: Id)    // took w off the cv
    | SLeaving

  datatype State<T> = State(
    rel: Lock, acq: Lock, match_: Lock,
    cv: seq<Id>,
    receiver: Option<Id>,      // m_receiver: whose frame it points into
    hasSender: bool,
    items: seq<Option<T>>,     // the `item` in each coroutine's frame
    pc: seq<Pc<T>>,
    sent: seq<T>,              // history: values written by `emplace`
    received: seq<T>)          // history: values returned by acquire

  function Init<T>(count: nat): State<T> {
    State(FREE, FREE, FREE, [], None, false, seq(count, _ => None), seq(count, _ => Idle), [], [])
  }

  datatype Step<T> = BeginReceive(n: Id) | BeginSend(n: Id, v: T) | Go(n: Id)

  predicate Enabled<T>(s: State<T>, st: Step<T>) {
    && st.n < |s.pc|
    && match st
       case BeginReceive(n) => s.pc[n] == Idle
       case BeginSend(n, _) => s.pc[n] == Idle
       case Go(n) => Runnable(s, n)
  }

  /** Coroutine n is neither idle nor suspended. */
  predicate Runnable<T>(s: State<T>, n: Id)
    requires n < |s.pc|
  {
    match s.pc[n]
    case Idle => false
    case RAcq => s.acq.owner == Some(n)
    case SRel(_) => s.rel.owner == Some(n)
    case RMatch => s.match_.owner == Some(n)
    case SMatch(_) => s.match_.owner == Some(n)
    case RParked => s.match_.owner == Some(n)
    case SParked(_) => s.match_.owner == Some(n)
    case _ => true
  }

  function SetPc<T>(s: State<T>, n: Id, p: Pc<T>): State<T>
    requires n < |s.pc|
  {
    s.(pc := s.pc[n := p])
  }

  /** The first half of notify_one: n takes the oldest waiter off the cv, if there is one. */
  function Take<T>(s: State<T>, n: Id, next: Pc<T>): State<T>
    requires n < |s.pc|
  {
    SetPc(s, n, next).(cv := if |s.cv| == 0 then [] else s.cv[1..])
  }

  /** The second half: the waiter asks for m_match_mtx. */
  function Hand<T>(s: State<T>, n: Id, w: Id, next: Pc<T>): State<T>
    requires n < |s.pc|
  {
    SetPc(s, n, next).(match_ := Register(s.match_, w))
  }

  /** `m_receiver->emplace(v); m_receiver = nullptr` */
  function Deliver<T>(s: State<T>, n: Id, v: T): State<T>
    requires n < |s.pc| == |s.items| && s.receiver.Some?
  {
    SetPc(s, n, SDelivered).(
      items := if s.receiver.value < |s.items| then s.items[s.receiver.value := Some(v)] else s.items,
      receiver := None, sent := s.sent + [v])
  }

  function Apply<T>(s: State<T>, st: Step<T>): State<T>
    requires |s.pc| == |s.items| && Enabled(s, st)
  {
    match st
    case BeginReceive(n) => SetPc(s, n, RAcq).(acq := Register(s.acq, n), items := s.items[n := None])
    case BeginSend(n, v) => SetPc(s, n, SRel(v)).(rel := Register(s.rel, n))
    case Go(n) =>
      match s.pc[n]
      case RAcq => SetPc(s, n, RMatch).(match_ := Register(s.match_, n))
      case RMatch => SetPc(s, n, if s.hasSender then RNotify else RPublished).(receiver := Some(n))
      case RNotify => Take(s, n, if |s.cv| == 0 then RPublished else RHanding(s.cv[0]))
      case RHanding(w) => Hand(s, n, w, RPublished)
      case RPublished =>
        if s.items[n].None? then SetPc(s, n, RPushed).(cv := s.cv + [n])
        else SetPc(s, n, RTaken).(hasSender := false)
      case RPushed => SetPc(s, n, RParked).(match_ := Unlock(s.match_))
      case RParked =>
        if s.items[n].None? then SetPc(s, n, RPushed).(cv := s.cv + [n])
        else SetPc(s, n, RTaken).(hasSender := false)
      case RTaken => SetPc(s, n, RLeaving).(match_ := Unlock(s.match_))
      case RLeaving =>
        SetPc(s, n, Idle).(acq := Unlock(s.acq),
          received := if s.items[n].Some? then s.received + [s.items[n].value] else s.received)
      case SRel(v) => SetPc(s, n, SMatch(v)).(match_ := Register(s.match_, n))
      case SMatch(v) =>
        if s.receiver.None? then SetPc(s, n, SWaiting(v)).(hasSender := true) else Deliver(s, n, v)
      case SWaiting(v) =>
        if s.receiver.None? then SetPc(s, n, SPushed(v)).(cv := s.cv + [n]) else Deliver(s, n, v)
      case SPushed(v) => SetPc(s, n, SParked(v)).(match_ := Unlock(s.match_))
      case SParked(v) =>
        if s.receiver.None? then SetPc(s, n, SPushed(v)).(cv := s.cv + [n]) else Deliver(s, n, v)
      case SDelivered => SetPc(s, n, SNotify).(match_ := Unlock(s.match_))
      case SNotify => Take(s, n, if |s.cv| == 0 then SLeaving else SHanding(s.cv[0]))
      case SHanding(w) => Hand(s, n, w, SLeaving)
      case SLeaving => SetPc(s, n, Idle).(rel := Unlock(s.rel))
      case _ => s
  }

  // ----- the outer mutexes

  /** Where a coroutine stands with respect to m_acquire_mtx or m_release_mtx. */
  datatype Role = Outside | Asking | Inside

  function AcqRole<T>(p: Pc<T>): Role {
    match p
    case RAcq => Asking
    case RMatch => Inside
    case RNotify => Inside
    case RHanding(_) => Inside
    case RPublished => Inside
    case RPushed => Inside
    case RParked => Inside
    case RTaken => Inside
    case RLeaving => Inside
    case _ => Outside
  }

  function RelRole<T>(p: Pc<T>): Role {
    match p
    case SRel(_) => Asking
    case SMatch(_) => Inside
    case SWaiting(_) => Inside
    case SPushed(_) => Inside
    case SParked(_) => Inside
    case SDelivered => Inside
    case SNotify => Inside
    case SHanding(_) => Inside
    case SLeaving => Inside
    case _ => Outside
  }

  /** One coroutine inside at most; those that asked own the lock or queue for it. */
  ghost predicate DoorInv(l: Lock, role: seq<Role>) {
    && l.Valid()
    && (l.owner.Some? ==> l.owner.value < |role| && role[l.owner.value] != Outside && l.owner.value !in l.queue)
    && (forall n :: n in l.queue ==> n < |role| && role[n] == Asking)
    && (forall n :: 0 <= n < |role| && role[n] != Outside ==> l.owner == Some(n) || n in l.queue)
  }

  lemma Ask(l: Lock, role: seq<Role>, n: Id)
    requires DoorInv(l, role) && n < |role| && role[n] == Outside
    ensures DoorInv(Register(l, n), role[n := Asking])
  {
    if l.owner.Some? { DistinctConcat(l.queue, [n]); }
  }

  lemma Enter(l: Lock, role: seq<Role>, n: Id)
    requires DoorInv(l, role) && l.owner == Some(n)
    ensures DoorInv(l, role[n := Inside])
  {
  }

  lemma Leave(l: Lock, role: seq<Role>, n: Id)
    requires DoorInv(l, role) && n < |role| && role[n] == Inside
    ensures DoorInv(Unlock(l), role[n := Outside])
    ensures Unlock(l).owner.Some? ==> Unlock(l).owner.value < |role| && role[Unlock(l).owner.value] == Asking
  {
    if |l.queue| > 0 {
      DistinctTail(l.queue);
      assert l.queue[0] in l.queue;
    }
  }

  ghost function AcqRoles<T>(pc: seq<Pc<T>>): seq<Role> {
    seq(|pc|, i requires 0 <= i < |pc| => AcqRole(pc[i]))
  }

  ghost function RelRoles<T>(pc: seq<Pc<T>>): seq<Role> {
    seq(|pc|, i requires 0 <= i < |pc| => RelRole(pc[i]))
  }

  lemma RolesUpdate<T>(pc: seq<Pc<T>>, n: Id, p: Pc<T>)
    requires n < |pc|
    ensures AcqRoles(pc[n := p]) == AcqRoles(pc)[n := AcqRole(p)]
    ensures RelRoles(pc[n := p]) == RelRoles(pc)[n := RelRole(p)]
  {
  }

  ghost predicate OuterInv<T>(s: State<T>) {
    |s.items| == |s.pc| && DoorInv(s.acq, AcqRoles(s.pc)) && DoorInv(s.rel, RelRoles(s.pc))
  }

  /** The receiver inside m_acquire_mtx and the sender inside m_release_mtx. */
  function Receiver<T>(s: State<T>): Option<Id> {
    if s.acq.owner.Some? && s.acq.owner.value < |s.pc| && AcqRole(s.pc[s.acq.owner.value]) == Inside
    then s.acq.owner else None
  }

  function Sender<T>(s: State<T>): Option<Id> {
    if s.rel.owner.Some? && s.rel.owner.value < |s.pc| && RelRole(s.pc[s.rel.owner.value]) == Inside
    then s.rel.owner else None
  }

  /** The four things a coroutine can do at a door: nothing, ask, enter, leave. */
  ghost predicate Moves(l: Lock, l': Lock, n: Id, a: Role, b: Role) {
    || (a == b && l' == l)
    || (a == Outside && b == Asking && l' == Register(l, n))
    || (a == Asking && b == Inside && l.owner == Some(n) && l' == l)
    || (a == Inside && b == Outside && l' == Unlock(l))
  }

  lemma DoorMove(l: Lock, role: seq<Role>, n: Id, l': Lock, b: Role)
    requires DoorInv(l, role) && n < |role| && Moves(l, l', n, role[n], b)
    ensures DoorInv(l', role[n := b])
  {
    if role[n] == b { assert role[n := b] == role; }
    else if b == Asking { Ask(l, role, n); }
    else if b == Inside { Enter(l, role, n); }
    else { Leave(l, role, n); }
  }

  /** Who is inside a door. */
  function Insider(l: Lock, role: seq<Role>): Option<Id> {
    if l.owner.Some? && l.owner.value < |role| && role[l.owner.value] == Inside then l.owner else None
  }

  /** Who is inside before and after a move of n. */
  ghost predicate Side(inside: Option<Id>, n: Id, a: Role, b: Role, inside': Option<Id>) {
    && (a == Inside <==> inside == Some(n))
    && (a == Asking && b == Inside ==> inside.None?)
    && inside' == if b == Inside then Some(n) else if a == Inside then None else inside
  }

  lemma DoorSide(l: Lock, role: seq<Role>, n: Id, l': Lock, b: Role)
    requires DoorInv(l, role) && n < |role| && Moves(l, l', n, role[n], b)
    ensures Side(Insider(l, role), n, role[n], b, Insider(l', role[n := b]))
  {
    if role[n] == Inside && b == Outside { Leave(l, role, n); }
  }

  ghost predicate Sides<T>(s: State<T>, n: Id, s': State<T>)
    requires n < |s.pc| == |s'.pc|
  {
    && Side(Receiver(s), n, AcqRole(s.pc[n]), AcqRole(s'.pc[n]), Receiver(s'))
    && Side(Sender(s), n, RelRole(s.pc[n]), RelRole(s'.pc[n]), Sender(s'))
  }

  lemma Insiders<T>(s: State<T>)
    ensures Receiver(s) == Insider(s.acq, AcqRoles(s.pc)) && Sender(s) == Insider(s.rel, RelRoles(s.pc))
  {
  }

  lemma DoorsStep<T>(s: State<T>, n: Id, s': State<T>)
    requires OuterInv(s) && Steps(s, n, s')
    ensures OuterInv(s') && Sides(s, n, s')
  {
    RolesUpdate(s.pc, n, s'.pc[n]);
    DoorMove(s.acq, AcqRoles(s.pc), n, s'.acq, AcqRole(s'.pc[n]));
    DoorMove(s.rel, RelRoles(s.pc), n, s'.rel, RelRole(s'.pc[n]));
    DoorSide(s.acq, AcqRoles(s.pc), n, s'.acq, AcqRole(s'.pc[n]));
    DoorSide(s.rel, RelRoles(s.pc), n, s'.rel, RelRole(s'.pc[n]));
    Insiders(s);
    Insiders(s');
  }

  lemma InsideOwns<T>(s: State<T>, n: Id)
    requires OuterInv(s) && n < |s.pc|
    ensures AcqRole(s.pc[n]) == Inside ==> s.acq.owner == Some(n) && Receiver(s) == Some(n)
    ensures RelRole(s.pc[n]) == Inside ==> s.rel.owner == Some(n) && Sender(s) == Some(n)
  {
    assert AcqRoles(s.pc)[n] == AcqRole(s.pc[n]) && RelRoles(s.pc)[n] == RelRole(s.pc[n]);
  }

  // ----- the meeting

  /** Positions that only the owner of m_match_mtx can be in. */
  predicate OwnsMatch<T>(p: Pc<T>) {
    || p.RNotify? || p.RHanding? || p.RPublished? || p.RPushed? || p.RTaken?
    || p.SWaiting? || p.SPushed? || p.SDelivered?
  }

  /** Whom a coroutine inside notify_one has in its hand. */
  function Carried<T>(p: Pc<T>): seq<Id> {
    if p.RHanding? || p.SHanding? then [p.w] else []
  }

  function CarriedBy<T>(s: State<T>, o: Option<Id>): seq<Id>
    requires o.Some? ==> o.value < |s.pc|
  {
    if o.Some? then Carried(s.pc[o.value]) else []
  }

  /** Everybody who sleeps and is not registered yet: on the cv or in a notifier's hand. */
  function Away<T>(s: State<T>): seq<Id> {
    s.cv + CarriedBy(s, Receiver(s)) + CarriedBy(s, Sender(s))
  }

  /** Owns m_match_mtx or queues for it. */
  predicate WantsMatch<T>(p: Pc<T>, away: bool) {
    OwnsMatch(p) || p.RMatch? || p.SMatch? || ((p.RParked? || p.SParked?) && !away)
  }

  /** The receiver inside, if any: what its position implies about the channel. */
  ghost predicate ReceiverOk<T>(s: State<T>, r: Id, away: bool)
    requires r < |s.pc| == |s.items|
  {
    match s.pc[r]
    case RMatch => s.items[r].None? && s.receiver.None? && !away
    case RNotify => s.items[r].None? && s.receiver == Some(r) && !away
    case RHanding(_) => s.items[r].None? && s.receiver == Some(r) && !away
    case RPublished => s.items[r].None? && s.receiver == Some(r) && !away
    case RPushed => s.items[r].None? && s.receiver == Some(r) && away
    case RParked =>
      if s.items[r].None? then s.receiver == Some(r) && away
      else s.receiver.None? && (!away ==> s.match_.owner == Some(r))
    case RTaken => s.items[r].Some? && s.receiver.None? && !away
    case RLeaving => s.items[r].Some? && s.receiver.None? && !away
    case _ => false
  }

  /** The receiver r waits, not notified or notified, with its item in place. */
  predicate Served<T>(s: State<T>, r: Option<Id>)
    requires r.Some? ==> r.value < |s.pc| == |s.items|
  {
    r.Some? && s.pc[r.value].RParked? && s.items[r.value].Some?
  }

  /** The sender inside, if any, against the receiver r. */
  ghost predicate SenderOk<T>(s: State<T>, x: Id, away: seq<Id>, r: Option<Id>)
    requires x < |s.pc| == |s.items| && (r.Some? ==> r.value < |s.pc|)
  {
    var hosting := r.Some? && (s.pc[r.value].RPublished? || s.pc[r.value].RPushed? || s.pc[r.value].RParked?);
    match s.pc[x]
    case SMatch(_) => away != [x] && (Served(s, r) ==> away == [])
    case SWaiting(_) => away != [x] && s.hasSender && !hosting
    case SPushed(_) => away == [x] && s.hasSender && !hosting
    case SParked(_) => if away == [x] then s.hasSender && !hosting else s.receiver.Some?
    case SDelivered => Served(s, r) && away == [r.value]
    case SNotify => Served(s, r) && away == [r.value]
    case SHanding(_) => Served(s, r) && away == [r.value]
    case SLeaving => away != [x] && (Served(s, r) ==> away == [])
    case _ => false
  }

  /** m_match_mtx and the sleepers are the two of them and nobody else. */
  ghost predicate MatchOk<T>(s: State<T>, away: seq<Id>, r: Option<Id>, x: Option<Id>)
    requires (r.Some? ==> r.value < |s.pc|) && (x.Some? ==> x.value < |s.pc|)
  {
    var wr := r.Some? && WantsMatch(s.pc[r.value], away == [r.value]);
    var wx := x.Some? && WantsMatch(s.pc[x.value], away == [x.value]);
    && (away == [] || (r.Some? && away == [r.value]) || (x.Some? && away == [x.value]))
    && (if wr && wx then s.match_ == Lock(r, [x.value]) || s.match_ == Lock(x, [r.value])
        else s.match_ == Lock(if wr then r else if wx then x else None, []))
    && (r.Some? && OwnsMatch(s.pc[r.value]) ==> s.match_.owner == r)
    && (x.Some? && OwnsMatch(s.pc[x.value]) ==> s.match_.owner == x)
  }

  ghost predicate InnerInv<T>(s: State<T>) {
    |s.items| == |s.pc| && Meeting(s, Away(s), Receiver(s), Sender(s))
  }

  ghost predicate Meeting<T>(s: State<T>, away: seq<Id>, r: Option<Id>, x: Option<Id>)
    requires |s.items| == |s.pc| && (r.Some? ==> r.value < |s.pc|) && (x.Some? ==> x.value < |s.pc|)
  {
    && MatchOk(s, away, r, x)
    && (if r.Some? then ReceiverOk(s, r.value, away == [r.value]) else s.receiver.None?)
    && (x.Some? ==> SenderOk(s, x.value, away, r))
    // with no sender at work, an item in place means that the receiver was notified
    && (x.None? && Served(s, r) ==> away == [])
  }

  /** The value, if any, that lies in the current receiver's frame. */
  function InFlight<T>(s: State<T>): seq<T>
    requires |s.items| == |s.pc|
  {
    var r := Receiver(s);
    if r.Some? && s.items[r.value].Some? then [s.items[r.value].value] else []
  }

  /** A receiver that still waits for m_acquire_mtx has an empty item. */
  ghost predicate EmptyInv<T>(s: State<T>)
    requires |s.items| == |s.pc|
  {
    forall n :: 0 <= n < |s.pc| && s.pc[n].RAcq? ==> s.items[n].None?
  }

  ghost predicate Core<T>(s: State<T>) {
    InnerInv(s) && EmptyInv(s) && s.sent == s.received + InFlight(s)
  }

  ghost predicate Inv<T>(s: State<T>) {
    OuterInv(s) && Core(s)
  }

  lemma InitInv<T>(count: nat)
    ensures Inv(Init<T>(count))
  {
  }

  lemma OneWaiter(o: Option<Id>, n: Id)
    ensures Register(Lock(Some(n), []), n) == Lock(Some(n), [n])
    ensures o.Some? ==> Register(Lock(o, []), n) == Lock(o, [n])
    ensures Unlock(Lock(o, [n])) == Lock(Some(n), [])
  {
  }

  lemma BeginReceiveStep<T>(s: State<T>, n: Id)
    requires Core(s) && Enabled(s, BeginReceive(n)) && Sides(s, n, Apply(s, BeginReceive(n)))
    ensures Core(Apply(s, BeginReceive(n)))
  {
  }

  lemma BeginSendStep<T>(s: State<T>, n: Id, v: T)
    requires Core(s) && Enabled(s, BeginSend(n, v)) && Sides(s, n, Apply(s, BeginSend(n, v)))
    ensures Core(Apply(s, BeginSend(n, v)))
  {
  }

  lemma RAcqStep<T>(s: State<T>, n: Id)
    requires Core(s) && Enabled(s, Go(n)) && Sides(s, n, Apply(s, Go(n))) && s.pc[n].RAcq?
    ensures Core(Apply(s, Go(n)))
  {
    OneWaiter(s.match_.owner, n);
  }

  lemma RMatchStep<T>(s: State<T>, n: Id)
    requires Core(s) && Enabled(s, Go(n)) && Sides(s, n, Apply(s, Go(n))) && s.pc[n].RMatch?
    ensures Core(Apply(s, Go(n)))
  {
  }

  lemma RNotifyStep<T>(s: State<T>, n: Id)
    requires Core(s) && Enabled(s, Go(n)) && Sides(s, n, Apply(s, Go(n))) && s.pc[n].RNotify?
    ensures Core(Apply(s, Go(n)))
  {
  }

  lemma RHandingStep<T>(s: State<T>, n: Id)
    requires Core(s) && Enabled(s, Go(n)) && Sides(s, n, Apply(s, Go(n))) && s.pc[n].RHanding?
    ensures Core(Apply(s, Go(n)))
  {
    OneWaiter(Some(n), s.pc[n].w);
  }

  lemma RPublishedStep<T>(s: State<T>, n: Id)
    requires Core(s) && Enabled(s, Go(n)) && Sides(s, n, Apply(s, Go(n))) && s.pc[n].RPublished?
    ensures Core(Apply(s, Go(n)))
  {
  }

  lemma RPushedStep<T>(s: State<T>, n: Id)
    requires Core(s) && Enabled(s, Go(n)) && Sides(s, n, Apply(s, Go(n))) && s.pc[n].RPushed?
    ensures Core(Apply(s, Go(n)))
  {
    if Sender(s).Some? { OneWaiter(Some(n), Sender(s).value); }
  }

  lemma RParkedStep<T>(s: State<T>, n: Id)
    requires Core(s) && Enabled(s, Go(n)) && Sides(s, n, Apply(s, Go(n))) && s.pc[n].RParked?
    ensures Core(Apply(s, Go(n)))
  {
  }

  lemma RTakenStep<T>(s: State<T>, n: Id)
    requires Core(s) && Enabled(s, Go(n)) && Sides(s, n, Apply(s, Go(n))) && s.pc[n].RTaken?
    ensures Core(Apply(s, Go(n)))
  {
    assert Away(Apply(s, Go(n))) == Away(s);
    if Sender(s).Some? { OneWaiter(Some(n), Sender(s).value); }
  }

  lemma RLeavingStep<T>(s: State<T>, n: Id)
    requires Core(s) && Enabled(s, Go(n)) && Sides(s, n, Apply(s, Go(n))) && s.pc[n].RLeaving?
    ensures Core(Apply(s, Go(n)))
  {
  }

  lemma SRelStep<T>(s: State<T>, n: Id)
    requires Core(s) && Enabled(s, Go(n)) && Sides(s, n, Apply(s, Go(n))) && s.pc[n].SRel?
    ensures Core(Apply(s, Go(n)))
  {
    var s' := Apply(s, Go(n));
    OneWaiter(s.match_.owner, n);
    assert Away(s') == Away(s);
    assert Served(s', Receiver(s)) == Served(s, Receiver(s));
  }

  lemma SMatchWaits<T>(s: State<T>, n: Id)
    requires Core(s) && Enabled(s, Go(n)) && Sides(s, n, Apply(s, Go(n))) && s.pc[n].SMatch? && s.receiver.None?
    ensures Core(Apply(s, Go(n)))
  {
    assert Away(Apply(s, Go(n))) == Away(s);
  }

  lemma SMatchStep<T>(s: State<T>, n: Id)
    requires Core(s) && Enabled(s, Go(n)) && Sides(s, n, Apply(s, Go(n))) && s.pc[n].SMatch?
    ensures Core(Apply(s, Go(n)))
  {
    if s.receiver.None? {
      SMatchWaits(s, n);
    } else {
      assert Away(Apply(s, Go(n))) == Away(s);
    }
  }

  lemma SWaitingStep<T>(s: State<T>, n: Id)
    requires Core(s) && Enabled(s, Go(n)) && Sides(s, n, Apply(s, Go(n))) && s.pc[n].SWaiting?
    ensures Core(Apply(s, Go(n)))
  {
  }

  lemma SPushedStep<T>(s: State<T>, n: Id)
    requires Core(s) && Enabled(s, Go(n)) && Sides(s, n, Apply(s, Go(n))) && s.pc[n].SPushed?
    ensures Core(Apply(s, Go(n)))
  {
    assert Away(Apply(s, Go(n))) == Away(s);
    if Receiver(s).Some? { OneWaiter(Some(n), Receiver(s).value); }
  }

  lemma SParkedStep<T>(s: State<T>, n: Id)
    requires Core(s) && Enabled(s, Go(n)) && Sides(s, n, Apply(s, Go(n))) && s.pc[n].SParked?
    ensures Core(Apply(s, Go(n)))
  {
  }

  lemma SDeliveredStep<T>(s: State<T>, n: Id)
    requires Core(s) && Enabled(s, Go(n)) && Sides(s, n, Apply(s, Go(n))) && s.pc[n].SDelivered?
    ensures Core(Apply(s, Go(n)))
  {
  }

  lemma SNotifyFinds<T>(s: State<T>, n: Id)
    requires InnerInv(s) && Sender(s) == Some(n) && s.pc[n].SNotify?
    ensures Served(s, Receiver(s)) && s.cv == [Receiver(s).value] && Away(s) == s.cv
  {
    assert Away(s) == s.cv;
  }

  lemma SNotifyStep<T>(s: State<T>, n: Id)
    requires Core(s) && Enabled(s, Go(n)) && Sides(s, n, Apply(s, Go(n))) && s.pc[n].SNotify?
    ensures Core(Apply(s, Go(n)))
  {
    SNotifyFinds(s, n);
    var r, s' := Receiver(s), Apply(s, Go(n));
    assert s' == s.(pc := s.pc[n := SHanding(r.value)], cv := []);
    assert Away(s') == [r.value];
  }

  lemma SHandingStep<T>(s: State<T>, n: Id)
    requires Core(s) && Enabled(s, Go(n)) && Sides(s, n, Apply(s, Go(n))) && s.pc[n].SHanding?
    ensures Core(Apply(s, Go(n)))
  {
    var s' := Apply(s, Go(n));
    assert Away(s) == s.cv + [s.pc[n].w] && s.cv == [];
    assert Away(s') == [];
  }

  lemma SLeavingStep<T>(s: State<T>, n: Id)
    requires Core(s) && Enabled(s, Go(n)) && Sides(s, n, Apply(s, Go(n))) && s.pc[n].SLeaving?
    ensures Core(Apply(s, Go(n)))
  {
  }

  lemma GoStep<T>(s: State<T>, n: Id)
    requires Core(s) && Enabled(s, Go(n)) && Sides(s, n, Apply(s, Go(n)))
    ensures Core(Apply(s, Go(n)))
  {
    match s.pc[n]
    case RAcq => RAcqStep(s, n);
    case RMatch => RMatchStep(s, n);
    case RNotify => RNotifyStep(s, n);
    case RHanding(_) => RHandingStep(s, n);
    case RPublished => RPublishedStep(s, n);
    case RPushed => RPushedStep(s, n);
    case RParked => RParkedStep(s, n);
    case RTaken => RTakenStep(s, n);
    case RLeaving => RLeavingStep(s, n);
    case SRel(_) => SRelStep(s, n);
    case SMatch(_) => SMatchStep(s, n);
    case SWaiting(_) => SWaitingStep(s, n);
    case SPushed(_) => SPushedStep(s, n);
    case SParked(_) => SParkedStep(s, n);
    case SDelivered => SDeliveredStep(s, n);
    case SNotify => SNotifyStep(s, n);
    case SHanding(_) => SHandingStep(s, n);
    case SLeaving => SLeavingStep(s, n);
  }

  ghost predicate Steps<T>(s: State<T>, n: Id, s': State<T>) {
    && n < |s.pc| == |s'.pc| == |s'.items| && s'.pc == s.pc[n := s'.pc[n]]
    && Moves(s.acq, s'.acq, n, AcqRole(s.pc[n]), AcqRole(s'.pc[n]))
    && Moves(s.rel, s'.rel, n, RelRole(s.pc[n]), RelRole(s'.pc[n]))
  }

  lemma BeginMoves<T>(s: State<T>, st: Step<T>)
    requires Enabled(s, st) && |s.items| == |s.pc| && !st.Go?
    ensures Steps(s, st.n, Apply(s, st))
  {
  }

  lemma ReceiverMoves<T>(s: State<T>, n: Id)
    requires Enabled(s, Go(n)) && |s.items| == |s.pc| && AcqRole(s.pc[n]) != Outside
    ensures Steps(s, n, Apply(s, Go(n)))
  {
  }

  lemma DeliveryMoves<T>(s: State<T>, n: Id)
    requires Enabled(s, Go(n)) && |s.items| == |s.pc| && (s.pc[n].SMatch? || s.pc[n].SWaiting? || s.pc[n].SParked?)
    ensures Steps(s, n, Apply(s, Go(n)))
  {
  }

  lemma SenderMoves<T>(s: State<T>, n: Id)
    requires Enabled(s, Go(n)) && |s.items| == |s.pc| && RelRole(s.pc[n]) != Outside
    ensures Steps(s, n, Apply(s, Go(n)))
  {
    if s.pc[n].SMatch? || s.pc[n].SWaiting? || s.pc[n].SParked? {
      DeliveryMoves(s, n);
    }
  }

  lemma StepMoves<T>(s: State<T>, st: Step<T>)
    requires Enabled(s, st) && |s.items| == |s.pc|
    ensures Steps(s, st.n, Apply(s, st))
  {
    if !st.Go? { BeginMoves(s, st); }
    else if AcqRole(s.pc[st.n]) != Outside { ReceiverMoves(s, st.n); }
    else { SenderMoves(s, st.n); }
  }

  lemma StepInv<T>(s: State<T>, st: Step<T>)
    requires Inv(s) && Enabled(s, st)
    ensures Inv(Apply(s, st))
  {
    StepMoves(s, st);
    DoorsStep(s, st.n, Apply(s, st));
    match st
    case BeginReceive(n) => BeginReceiveStep(s, n);
    case BeginSend(n, v) => BeginSendStep(s, n, v);
    case Go(n) => GoStep(s, n);
  }

  // ----- whole runs

  ghost predicate Run<T>(r: seq<State<T>>, steps: seq<Step<T>>, count: nat) {
    && |r| == |steps| + 1
    && r[0] == Init<T>(count)
    && forall i :: 0 <= i < |steps| ==>
         |r[i].pc| == |r[i].items| && Enabled(r[i], steps[i]) && r[i + 1] == Apply(r[i], steps[i])
  }

  lemma {:induction false} RunInv<T>(r: seq<State<T>>, steps: seq<Step<T>>, count: nat, i: nat)
    requires Run(r, steps, count) && i < |r|
    ensures Inv(r[i])
  {
    if i == 0 {
      InitInv<T>(count);
    } else {
      RunInv(r, steps, count, i - 1);
      StepAt(r, steps, count, i - 1);
      StepInv(r[i - 1], steps[i - 1]);
    }
  }

  /** Inside acquire() or drop(), respectively inside release(). */
  predicate PendingReceive<T>(p: Pc<T>) { AcqRole(p) != Outside }
  predicate PendingSend<T>(p: Pc<T>) { RelRole(p) != Outside }

  /** Inside notify_one. */
  predicate Notifying<T>(p: Pc<T>) {
    p.RNotify? || p.RHanding? || p.SNotify? || p.SHanding?
  }

  /**
    Calls of m_match_cv.notify_one never overlap: a receiver makes its call as the owner
    of m_match_mtx, a sender inside m_release_mtx and only while its receiver sleeps.
    At most one coroutine sleeps on the cv or is carried by a notifier.
   */
  lemma NotifiersTakeTurns<T>(r: seq<State<T>>, steps: seq<Step<T>>, count: nat, i: nat)
    requires Run(r, steps, count) && i < |r|
    ensures forall a, b | 0 <= a < |r[i].pc| && 0 <= b < |r[i].pc| ::
              Notifying(r[i].pc[a]) && Notifying(r[i].pc[b]) ==> a == b
    ensures |Away(r[i])| <= 1
  {
    RunInv(r, steps, count, i);
    forall a, b | 0 <= a < |r[i].pc| && 0 <= b < |r[i].pc|
              && Notifying(r[i].pc[a]) && Notifying(r[i].pc[b])
      ensures a == b
    {
      OneNotifier(r[i], a, b);
    }
  }

  lemma OneNotifier<T>(s: State<T>, a: Id, b: Id)
    requires Inv(s) && a < |s.pc| && b < |s.pc| && Notifying(s.pc[a]) && Notifying(s.pc[b])
    ensures a == b
  {
    NotifierInside(s, a);
    NotifierInside(s, b);
    if Receiver(s).Some? && Sender(s).Some? {
      NotOfBothSides(s);
    }
  }

  lemma NotifierInside<T>(s: State<T>, n: Id)
    requires OuterInv(s) && n < |s.pc| && Notifying(s.pc[n])
    ensures Receiver(s) == Some(n) || Sender(s) == Some(n)
  {
    InsideOwns(s, n);
  }

  lemma NotOfBothSides<T>(s: State<T>)
    requires InnerInv(s) && Receiver(s).Some? && Sender(s).Some?
    ensures !(Notifying(s.pc[Receiver(s).value]) && Notifying(s.pc[Sender(s).value]))
  {
  }

  /**
    In every reachable state: when no coroutine can take a step, no receiver and sender
    are both pending.
   */
  lemma NoMissedMeeting<T>(r: seq<State<T>>, steps: seq<Step<T>>, count: nat, i: nat)
    requires Run(r, steps, count) && i < |r|
    ensures (exists n :: 0 <= n < |r[i].pc| && Runnable(r[i], n))
         || (forall a, b :: 0 <= a < |r[i].pc| && 0 <= b < |r[i].pc| ==>
               !(PendingReceive(r[i].pc[a]) && PendingSend(r[i].pc[b])))
  {
    RunInv(r, steps, count, i);
    forall a, b | 0 <= a < |r[i].pc| && 0 <= b < |r[i].pc|
              && PendingReceive(r[i].pc[a]) && PendingSend(r[i].pc[b])
      ensures exists n :: 0 <= n < |r[i].pc| && Runnable(r[i], n)
    {
      SomeoneRuns(r[i], a, b);
    }
  }

  lemma SomeoneRuns<T>(s: State<T>, a: Id, b: Id)
    requires Inv(s) && a < |s.pc| && b < |s.pc| && PendingReceive(s.pc[a]) && PendingSend(s.pc[b])
    ensures exists n :: 0 <= n < |s.pc| && Runnable(s, n)
  {
    assert AcqRoles(s.pc)[a] != Outside && RelRoles(s.pc)[b] != Outside;
    var o, q := s.acq.owner.value, s.rel.owner.value;
    assert AcqRoles(s.pc)[o] == AcqRole(s.pc[o]) && RelRoles(s.pc)[q] == RelRole(s.pc[q]);
    if s.pc[o].RAcq? {
      assert Runnable(s, o);
    } else if s.pc[q].SRel? {
      assert Runnable(s, q);
    } else if s.match_.owner.Some? {
      assert Runnable(s, s.match_.owner.value);
    } else {
      assert Runnable(s, o) || Runnable(s, q);
    }
  }

  /**
    The direct handoff: a sender that has delivered finds its receiver on the cv, with
    the item in place, and from the moment it has registered it the receiver owns
    m_match_mtx, ahead of everybody else.
   */
  lemma HandsOver<T>(r: seq<State<T>>, steps: seq<Step<T>>, count: nat, i: nat)
    requires Run(r, steps, count) && i < |steps| && steps[i].Go?
    ensures r[i].pc[steps[i].n].SNotify? ==>
      && Served(r[i], Receiver(r[i])) && steps[i].n < |r[i + 1].pc|
      && r[i + 1].pc[steps[i].n] == SHanding(Receiver(r[i]).value)
    ensures r[i].pc[steps[i].n].SHanding? ==>
      && Receiver(r[i + 1]) == Some(r[i].pc[steps[i].n].w) && |r[i + 1].items| == |r[i + 1].pc|
      && Served(r[i + 1], Receiver(r[i + 1])) && r[i + 1].match_.owner == Receiver(r[i + 1])
  {
    RunInv(r, steps, count, i);
    HandStep(r[i], steps[i].n);
  }

  lemma HandStep<T>(s: State<T>, n: Id)
    requires Inv(s) && Enabled(s, Go(n))
    ensures s.pc[n].SNotify? ==>
      Served(s, Receiver(s)) && Apply(s, Go(n)).pc[n] == SHanding(Receiver(s).value)
    ensures s.pc[n].SHanding? ==>
      && Receiver(Apply(s, Go(n))) == Some(s.pc[n].w) && Served(Apply(s, Go(n)), Some(s.pc[n].w))
      && Apply(s, Go(n)).match_.owner == Some(s.pc[n].w)
  {
    InsideOwns(s, n);
    StepMoves(s, Go(n));
    DoorsStep(s, n, Apply(s, Go(n)));
  }

  // ----- which values

  /** The argument of a release that has not been delivered yet. */
  function Offers<T>(p: Pc<T>): Option<T> {
    match p
    case SRel(v) => Some(v)
    case SMatch(v) => Some(v)
    case SWaiting(v) => Some(v)
    case SPushed(v) => Some(v)
    case SParked(v) => Some(v)
    case _ => None
  }

  /** This step delivers the argument of sender st.n. */
  predicate Delivers<T>(s: State<T>, st: Step<T>, t: State<T>) {
    st.Go? && st.n < |s.pc| == |t.pc| && Offers(s.pc[st.n]).Some? && Offers(t.pc[st.n]).None?
  }

  /** This step ends the acquire of st.n, which returns what lies in its frame. */
  predicate Returns<T>(s: State<T>, st: Step<T>, t: State<T>) {
    st.Go? && st.n < |s.pc| == |t.pc| == |s.items| && PendingReceive(s.pc[st.n]) && !PendingReceive(t.pc[st.n])
  }

  /** The argument of the last release that n has begun. */
  function LastRelease<T>(steps: seq<Step<T>>, i: nat, n: Id): Option<T>
    requires i <= |steps|
  {
    if i == 0 then None
    else if steps[i - 1].BeginSend? && steps[i - 1].n == n then Some(steps[i - 1].v)
    else LastRelease(steps, i - 1, n)
  }

  function AsSeq<T>(o: Option<T>): seq<T> {
    if o.Some? then [o.value] else []
  }

  /** The arguments of the releases, in the order of their deliveries. */
  function Delivered<T>(r: seq<State<T>>, steps: seq<Step<T>>, i: nat): seq<T>
    requires i <= |steps| < |r|
  {
    if i == 0 then []
    else Delivered(r, steps, i - 1)
         + if Delivers(r[i - 1], steps[i - 1], r[i]) then AsSeq(LastRelease(steps, i - 1, steps[i - 1].n)) else []
  }

  /** What the acquires have returned, in order. */
  function Returned<T>(r: seq<State<T>>, steps: seq<Step<T>>, i: nat): seq<T>
    requires i <= |steps| < |r|
  {
    if i == 0 then []
    else Returned(r, steps, i - 1)
         + if Returns(r[i - 1], steps[i - 1], r[i]) then AsSeq(r[i - 1].items[steps[i - 1].n]) else []
  }

  lemma OffersMove<T>(s: State<T>, st: Step<T>, m: Id)
    requires |s.pc| == |s.items| && Enabled(s, st) && m < |s.pc|
    ensures var t := Apply(s, st);
      && |t.pc| == |s.pc|
      && (Offers(t.pc[m]) == Offers(s.pc[m]) || (Delivers(s, st, t) && st.n == m) || (st.BeginSend? && st.n == m))
      && (st.BeginSend? && st.n == m ==> Offers(t.pc[m]) == Some(st.v))
  {
    if st.Go? && RelRole(s.pc[st.n]) != Outside { SenderOffers(s, st.n); }
    else if st.Go? { ReceiverOffers(s, st.n); }
  }

  lemma SenderOffers<T>(s: State<T>, n: Id)
    requires |s.pc| == |s.items| && Enabled(s, Go(n)) && RelRole(s.pc[n]) != Outside
    ensures var t := Apply(s, Go(n));
      && t.pc == s.pc[n := t.pc[n]] && |t.pc| == |s.pc|
      && (Offers(t.pc[n]) == Offers(s.pc[n]) || Offers(t.pc[n]).None?)
  {
    if s.pc[n].SMatch? || s.pc[n].SWaiting? || s.pc[n].SParked? { DeliveryMoves(s, n); }
  }

  lemma ReceiverOffers<T>(s: State<T>, n: Id)
    requires |s.pc| == |s.items| && Enabled(s, Go(n)) && RelRole(s.pc[n]) == Outside
    ensures var t := Apply(s, Go(n));
      && t.pc == s.pc[n := t.pc[n]] && |t.pc| == |s.pc| && Offers(t.pc[n]).None? && Offers(s.pc[n]).None?
  {
  }

  lemma HistoriesMove<T>(s: State<T>, st: Step<T>)
    requires |s.pc| == |s.items| && Enabled(s, st)
    ensures var t := Apply(s, st);
      && t.sent == s.sent + (if Delivers(s, st, t) then AsSeq(Offers(s.pc[st.n])) else [])
      && t.received == s.received + if Returns(s, st, t) then AsSeq(s.items[st.n]) else []
  {
    if st.Go? && RelRole(s.pc[st.n]) != Outside { SendMoves(s, st.n); }
  }

  lemma SendMoves<T>(s: State<T>, n: Id)
    requires |s.pc| == |s.items| && Enabled(s, Go(n)) && RelRole(s.pc[n]) != Outside
    ensures var t := Apply(s, Go(n));
      && t.sent == s.sent + (if Delivers(s, Go(n), t) then AsSeq(Offers(s.pc[n])) else [])
      && t.received == s.received && !Returns(s, Go(n), t)
  {
  }

  lemma StepAt<T>(r: seq<State<T>>, steps: seq<Step<T>>, count: nat, i: nat)
    requires Run(r, steps, count) && i < |steps|
    ensures |r[i].pc| == |r[i].items| && Enabled(r[i], steps[i]) && r[i + 1] == Apply(r[i], steps[i])
  {
  }

  /** The same of a run. */
  lemma OffersAt<T>(r: seq<State<T>>, steps: seq<Step<T>>, count: nat, i: nat, n: Id)
    requires Run(r, steps, count) && i < |steps|
    ensures |r[i].pc| == |r[i + 1].pc|
    ensures n < |r[i].pc| ==>
      var o, o', st := Offers(r[i].pc[n]), Offers(r[i + 1].pc[n]), steps[i];
      && (st.BeginSend? && st.n == n ==> o' == Some(st.v))
      && (!(st.BeginSend? && st.n == n) ==> o' == o || o'.None?)
  {
    StepAt(r, steps, count, i);
    KeepsLength(r[i], steps[i]);
    if n < |r[i].pc| {
      OffersMove(r[i], steps[i], n);
    }
  }

  /** A sender that is still to deliver holds the argument of its own last release. */
  lemma {:induction false} KeepsArgument<T>(r: seq<State<T>>, steps: seq<Step<T>>, count: nat, i: nat, n: Id)
    requires Run(r, steps, count) && i < |r| && n < |r[i].pc|
    ensures Offers(r[i].pc[n]).Some? ==> Offers(r[i].pc[n]) == LastRelease(steps, i, n)
  {
    if i > 0 {
      OffersAt(r, steps, count, i - 1, n);
      KeepsArgument(r, steps, count, i - 1, n);
    }
  }

  lemma KeepsLength<T>(s: State<T>, st: Step<T>)
    requires |s.pc| == |s.items| && Enabled(s, st)
    ensures |Apply(s, st).pc| == |s.pc|
  {
  }

  /** The value delivered is the argument of that release, whatever its sender went through before. */
  lemma DeliversArgument<T>(r: seq<State<T>>, steps: seq<Step<T>>, count: nat, i: nat)
    requires Run(r, steps, count) && i < |steps| && Delivers(r[i], steps[i], r[i + 1])
    ensures LastRelease(steps, i, steps[i].n).Some?
    ensures r[i + 1].sent == r[i].sent + [LastRelease(steps, i, steps[i].n).value]
  {
    StepAt(r, steps, count, i);
    HistoriesMove(r[i], steps[i]);
    KeepsArgument(r, steps, count, i, steps[i].n);
  }

  /** The histories are what can be seen from outside. */
  lemma {:induction false} HistoriesAreReal<T>(r: seq<State<T>>, steps: seq<Step<T>>, count: nat, i: nat)
    requires Run(r, steps, count) && i < |r|
    ensures r[i].sent == Delivered(r, steps, i) && r[i].received == Returned(r, steps, i)
  {
    if i > 0 {
      HistoriesAreReal(r, steps, count, i - 1);
      StepAt(r, steps, count, i - 1);
      HistoriesMove(r[i - 1], steps[i - 1]);
      if Delivers(r[i - 1], steps[i - 1], r[i]) { DeliversArgument(r, steps, count, i - 1); }
    }
  }

  /**
    Seen from outside: the acquires return what the releases were called with, in the
    order of the deliveries, each once.
   */
  lemma ReturnsWhatWasSent<T>(r: seq<State<T>>, steps: seq<Step<T>>, count: nat, i: nat)
    requires Run(r, steps, count) && i < |r|
    ensures Returned(r, steps, i) <= Delivered(r, steps, i)
    ensures |Delivered(r, steps, i)| <= |Returned(r, steps, i)| + 1
    ensures (forall n :: 0 <= n < |r[i].pc| ==> !PendingReceive(r[i].pc[n])) ==>
      Returned(r, steps, i) == Delivered(r, steps, i)
  {
    HistoriesAreReal(r, steps, count, i);
    DeliversEachOnce(r, steps, count, i);
  }

  /** An acquire that ends has a value to return. */
  lemma ReturnsSomething<T>(r: seq<State<T>>, steps: seq<Step<T>>, count: nat, i: nat)
    requires Run(r, steps, count) && i < |steps| && Returns(r[i], steps[i], r[i + 1])
    ensures r[i].items[steps[i].n].Some?
  {
    RunInv(r, steps, count, i);
    StepAt(r, steps, count, i);
    InsideOwns(r[i], steps[i].n);
  }

  /**
    Nobody wakes in vain: whoever evaluates the predicate of its wait after having been
    notified finds it true, and whoever evaluates it for the first time finds it false.
   */
  lemma NobodyWakesInVain<T>(r: seq<State<T>>, steps: seq<Step<T>>, count: nat, i: nat, n: Id)
    requires Run(r, steps, count) && i < |r| && n < |r[i].pc| == |r[i].items| && Runnable(r[i], n)
    ensures r[i].pc[n].RParked? ==> r[i].items[n].Some?
    ensures r[i].pc[n].SParked? ==> r[i].receiver.Some?
    ensures r[i].pc[n].RPublished? ==> r[i].items[n].None?
    ensures r[i].pc[n].SWaiting? ==> r[i].receiver.None?
  {
    RunInv(r, steps, count, i);
    InsideOwns(r[i], n);
  }

  // ----- a meeting

  lemma Extend<T>(r: seq<State<T>>, steps: seq<Step<T>>, count: nat, st: Step<T>)
    returns (r': seq<State<T>>, steps': seq<Step<T>>)
    requires Run(r, steps, count) && |r[|steps|].pc| == |r[|steps|].items| && Enabled(r[|steps|], st)
    ensures Run(r', steps', count) && steps' == steps + [st] && r' == r + [Apply(r[|steps|], st)]
  {
    r', steps' := r + [Apply(r[|steps|], st)], steps + [st];
  }

  /** Nobody is at work. */
  predicate AllFree<T>(s: State<T>) {
    && s.rel == FREE && s.acq == FREE && s.match_ == FREE && s.cv == [] && s.receiver == None && !s.hasSender
    && |s.pc| == |s.items|
  }

  /** A receiver can come and wait. */
  lemma CanWait<T>(r: seq<State<T>>, steps: seq<Step<T>>, count: nat, a: Id)
    returns (r': seq<State<T>>, steps': seq<Step<T>>)
    requires Run(r, steps, count) && AllFree(r[|steps|]) && a < |r[|steps|].pc| && r[|steps|].pc[a] == Idle
    ensures Run(r', steps', count) && r <= r' && steps' == steps + [BeginReceive(a), Go(a), Go(a), Go(a), Go(a)]
    ensures var s := r[|steps|];
      r'[|steps'|] == s.(acq := Lock(Some(a), []), cv := [a], receiver := Some(a),
                         items := s.items[a := None], pc := s.pc[a := RParked])
  {
    var s := r[|steps|];
    r', steps' := Extend(r, steps, count, BeginReceive(a));
    r', steps' := Extend(r', steps', count, Go(a));
    r', steps' := Extend(r', steps', count, Go(a));
    assert r'[|steps'|].pc == s.pc[a := RPublished];
    r', steps' := Extend(r', steps', count, Go(a));
    r', steps' := Extend(r', steps', count, Go(a));
    assert r'[|steps'|].pc == s.pc[a := RParked];
  }

  /** A sender that finds it there can deliver ... */
  lemma CanDeliver<T>(r: seq<State<T>>, steps: seq<Step<T>>, count: nat, a: Id, b: Id, v: T)
    returns (r': seq<State<T>>, steps': seq<Step<T>>)
    requires Run(r, steps, count)
    requires var s := r[|steps|];
      && a < |s.pc| == |s.items| && b < |s.pc| && a != b && s.pc[a] == RParked && s.pc[b] == Idle
      && s.rel == FREE && s.match_ == FREE && s.cv == [a] && s.receiver == Some(a)
    ensures Run(r', steps', count) && r <= r' && steps' == steps + [BeginSend(b, v), Go(b), Go(b), Go(b)]
    ensures var s := r[|steps|];
      r'[|steps'|] == s.(rel := Lock(Some(b), []), receiver := None, pc := s.pc[b := SNotify],
                         items := s.items[a := Some(v)], sent := s.sent + [v])
  {
    var s := r[|steps|];
    r', steps' := Extend(r, steps, count, BeginSend(b, v));
    r', steps' := Extend(r', steps', count, Go(b));
    r', steps' := Extend(r', steps', count, Go(b));
    assert r'[|steps'|].pc == s.pc[b := SDelivered];
    r', steps' := Extend(r', steps', count, Go(b));
    assert r'[|steps'|].pc == s.pc[b := SNotify];
  }

  /** ... and notify it, which leaves it the owner of m_match_mtx. */
  lemma CanNotify<T>(r: seq<State<T>>, steps: seq<Step<T>>, count: nat, a: Id, b: Id)
    returns (r': seq<State<T>>, steps': seq<Step<T>>)
    requires Run(r, steps, count)
    requires var s := r[|steps|];
      && b < |s.pc| == |s.items| && s.pc[b] == SNotify && s.cv == [a] && s.match_ == FREE && s.rel == Lock(Some(b), [])
    ensures Run(r', steps', count) && r <= r' && steps' == steps + [Go(b), Go(b), Go(b)]
    ensures var s := r[|steps|];
      r'[|steps'|] == s.(rel := FREE, cv := [], match_ := Lock(Some(a), []), pc := s.pc[b := Idle])
  {
    var s := r[|steps|];
    r', steps' := Extend(r, steps, count, Go(b));
    assert r'[|steps'|].pc == s.pc[b := SHanding(a)];
    r', steps' := Extend(r', steps', count, Go(b));
    r', steps' := Extend(r', steps', count, Go(b));
    assert r'[|steps'|].pc == s.pc[b := Idle];
  }

  /** A receiver that owns m_match_mtx with its item in place can return it. */
  lemma CanReturn<T>(r: seq<State<T>>, steps: seq<Step<T>>, count: nat, a: Id)
    returns (r': seq<State<T>>, steps': seq<Step<T>>)
    requires Run(r, steps, count)
    requires var s := r[|steps|];
      && a < |s.pc| == |s.items| && s.pc[a] == RParked && s.items[a].Some?
      && s.match_ == Lock(Some(a), []) && s.acq == Lock(Some(a), [])
    ensures Run(r', steps', count) && r <= r' && steps' == steps + [Go(a), Go(a), Go(a)]
    ensures var s := r[|steps|];
      r'[|steps'|] == s.(match_ := FREE, acq := FREE, hasSender := false, pc := s.pc[a := Idle],
                         received := s.received + [s.items[a].value])
  {
    var s := r[|steps|];
    r', steps' := Extend(r, steps, count, Go(a));
    assert r'[|steps'|].pc == s.pc[a := RTaken];
    r', steps' := Extend(r', steps', count, Go(a));
    r', steps' := Extend(r', steps', count, Go(a));
    assert r'[|steps'|].pc == s.pc[a := Idle];
  }

  /** A receiver and a sender, in this order, can meet: the receiver returns with the sender's value. */
  lemma CanMeet<T>(r: seq<State<T>>, steps: seq<Step<T>>, count: nat, a: Id, b: Id, v: T)
    returns (r': seq<State<T>>, steps': seq<Step<T>>)
    requires Run(r, steps, count) && AllFree(r[|steps|])
    requires var s := r[|steps|]; a < |s.pc| && b < |s.pc| && a != b && s.pc[a] == Idle && s.pc[b] == Idle
    ensures Run(r', steps', count) && r <= r' && AllFree(r'[|steps'|]) && r'[|steps'|].pc == r[|steps|].pc
    ensures r'[|steps'|].sent == r[|steps|].sent + [v] && r'[|steps'|].received == r[|steps|].received + [v]
  {
    var s := r[|steps|];
    r', steps' := CanWait(r, steps, count, a);
    r', steps' := CanDeliver(r', steps', count, a, b, v);
    r', steps' := CanNotify(r', steps', count, a, b);
    r', steps' := CanReturn(r', steps', count, a);
    assert r'[|steps'|].pc == s.pc;
  }

  /** In the other order: the sender can come first and wait ... */
  lemma CanOffer<T>(r: seq<State<T>>, steps: seq<Step<T>>, count: nat, b: Id, v: T)
    returns (r': seq<State<T>>, steps': seq<Step<T>>)
    requires Run(r, steps, count) && AllFree(r[|steps|]) && b < |r[|steps|].pc| && r[|steps|].pc[b] == Idle
    ensures Run(r', steps', count) && r <= r' && steps' == steps + [BeginSend(b, v), Go(b), Go(b), Go(b), Go(b)]
    ensures var s := r[|steps|];
      r'[|steps'|] == s.(rel := Lock(Some(b), []), cv := [b], hasSender := true, pc := s.pc[b := SParked(v)])
  {
    var s := r[|steps|];
    r', steps' := Extend(r, steps, count, BeginSend(b, v));
    r', steps' := Extend(r', steps', count, Go(b));
    r', steps' := Extend(r', steps', count, Go(b));
    assert r'[|steps'|].pc == s.pc[b := SWaiting(v)];
    r', steps' := Extend(r', steps', count, Go(b));
    r', steps' := Extend(r', steps', count, Go(b));
    assert r'[|steps'|].pc == s.pc[b := SParked(v)];
  }

  /** ... until a receiver notifies it ... */
  lemma CanAnswer<T>(r: seq<State<T>>, steps: seq<Step<T>>, count: nat, a: Id, b: Id, v: T)
    returns (r': seq<State<T>>, steps': seq<Step<T>>)
    requires Run(r, steps, count)
    requires var s := r[|steps|];
      && a < |s.pc| == |s.items| && b < |s.pc| && a != b && s.pc[a] == Idle && s.pc[b] == SParked(v)
      && s.acq == FREE && s.match_ == FREE && s.cv == [b] && s.hasSender
    ensures Run(r', steps', count) && r <= r' && steps' == steps + [BeginReceive(a), Go(a), Go(a), Go(a), Go(a)]
    ensures var s := r[|steps|];
      r'[|steps'|] == s.(acq := Lock(Some(a), []), match_ := Lock(Some(a), [b]), cv := [], receiver := Some(a),
                         items := s.items[a := None], pc := s.pc[a := RPublished])
  {
    var s := r[|steps|];
    r', steps' := Extend(r, steps, count, BeginReceive(a));
    r', steps' := Extend(r', steps', count, Go(a));
    r', steps' := Extend(r', steps', count, Go(a));
    assert r'[|steps'|].pc == s.pc[a := RNotify];
    r', steps' := Extend(r', steps', count, Go(a));
    r', steps' := Extend(r', steps', count, Go(a));
    assert r'[|steps'|].pc == s.pc[a := RPublished];
  }

  /** ... and waits in turn. */
  lemma CanWaitInTurn<T>(r: seq<State<T>>, steps: seq<Step<T>>, count: nat, a: Id, b: Id)
    returns (r': seq<State<T>>, steps': seq<Step<T>>)
    requires Run(r, steps, count)
    requires var s := r[|steps|];
      && a < |s.pc| == |s.items| && s.pc[a] == RPublished && s.items[a].None? && s.match_ == Lock(Some(a), [b]) && s.cv == []
    ensures Run(r', steps', count) && r <= r' && steps' == steps + [Go(a), Go(a)]
    ensures var s := r[|steps|];
      r'[|steps'|] == s.(match_ := Lock(Some(b), []), cv := [a], pc := s.pc[a := RParked])
  {
    var s := r[|steps|];
    r', steps' := Extend(r, steps, count, Go(a));
    r', steps' := Extend(r', steps', count, Go(a));
    assert r'[|steps'|].pc == s.pc[a := RParked];
  }

  /** A notified sender can deliver and unlock. */
  lemma CanDeliverLate<T>(r: seq<State<T>>, steps: seq<Step<T>>, count: nat, a: Id, b: Id, v: T)
    returns (r': seq<State<T>>, steps': seq<Step<T>>)
    requires Run(r, steps, count)
    requires var s := r[|steps|];
      && a < |s.pc| == |s.items| && b < |s.pc| && s.pc[b] == SParked(v)
      && s.match_ == Lock(Some(b), []) && s.receiver == Some(a)
    ensures Run(r', steps', count) && r <= r' && steps' == steps + [Go(b), Go(b)]
    ensures var s := r[|steps|];
      r'[|steps'|] == s.(match_ := FREE, receiver := None, items := s.items[a := Some(v)], sent := s.sent + [v],
                         pc := s.pc[b := SNotify])
  {
    var s := r[|steps|];
    r', steps' := Extend(r, steps, count, Go(b));
    r', steps' := Extend(r', steps', count, Go(b));
    assert r'[|steps'|].pc == s.pc[b := SNotify];
  }

  /** Up to there: the sender has delivered, the receiver sleeps. */
  lemma CanServe<T>(r: seq<State<T>>, steps: seq<Step<T>>, count: nat, a: Id, b: Id, v: T)
    returns (r': seq<State<T>>, steps': seq<Step<T>>)
    requires Run(r, steps, count) && AllFree(r[|steps|])
    requires var s := r[|steps|]; a < |s.pc| && b < |s.pc| && a != b && s.pc[a] == Idle && s.pc[b] == Idle
    ensures Run(r', steps', count) && r <= r'
    ensures var s := r[|steps|];
      && |s.items| == |s.pc|
      && r'[|steps'|] == s.(rel := Lock(Some(b), []), acq := Lock(Some(a), []), cv := [a], hasSender := true,
                            items := s.items[a := Some(v)], pc := s.pc[a := RParked][b := SNotify], sent := s.sent + [v])
  {
    var s := r[|steps|];
    r', steps' := CanOffer(r, steps, count, b, v);
    r', steps' := CanAnswer(r', steps', count, a, b, v);
    r', steps' := CanWaitInTurn(r', steps', count, a, b);
    r', steps' := CanDeliverLate(r', steps', count, a, b, v);
    assert r'[|steps'|].pc == s.pc[a := RParked][b := SNotify];
  }

  /** A sender and a receiver, in this order, can meet as well. */
  lemma CanMeetSenderFirst<T>(r: seq<State<T>>, steps: seq<Step<T>>, count: nat, a: Id, b: Id, v: T)
    returns (r': seq<State<T>>, steps': seq<Step<T>>)
    requires Run(r, steps, count) && AllFree(r[|steps|])
    requires var s := r[|steps|]; a < |s.pc| && b < |s.pc| && a != b && s.pc[a] == Idle && s.pc[b] == Idle
    ensures Run(r', steps', count) && r <= r' && AllFree(r'[|steps'|]) && r'[|steps'|].pc == r[|steps|].pc
    ensures r'[|steps'|].sent == r[|steps|].sent + [v] && r'[|steps'|].received == r[|steps|].received + [v]
  {
    r', steps' := CanServe(r, steps, count, a, b, v);
    r', steps' := CanNotify(r', steps', count, a, b);
    r', steps' := CanReturn(r', steps', count, a);
    assert r'[|steps'|].pc == r[|steps|].pc;
  }

  /** Every value written by a sender is returned by exactly one receiver, in order. */
  lemma DeliversEachOnce<T>(r: seq<State<T>>, steps: seq<Step<T>>, count: nat, i: nat)
    requires Run(r, steps, count) && i < |r|
    ensures r[i].received <= r[i].sent && |r[i].sent| <= |r[i].received| + 1
    ensures (forall n :: 0 <= n < |r[i].pc| ==> !PendingReceive(r[i].pc[n])) ==> r[i].received == r[i].sent
  {
    RunInv(r, steps, count, i);
  }
}
