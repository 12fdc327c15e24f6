/**
  The lock that `co_context::mutex` promises to be: one owner, one queue, served
  in arrival order, ownership passed on directly so that nobody can barge in.
 */
module FifoLock {
  import opened Lists

  datatype Lock = Lock(owner: Option<Id>, queue: seq<Id>) {
    ghost predicate Valid() {
      && (owner.None? ==> queue == [])
      && Distinct(queue)
    }
  }

  const FREE := Lock(None, [])

  /** `n` asks for the lock: it owns a free lock at once and otherwise joins the queue. */
  function Register(l: Lock, n: Id): Lock {
    if l.owner.None? then l.(owner := Some(n)) else l.(queue := l.queue + [n])
  }

  /** The owner leaves: the oldest waiter is the owner from this moment on. */
  function Unlock(l: Lock): Lock {
    if |l.queue| == 0 then FREE else Lock(Some(l.queue[0]), l.queue[1..])
  }

  /** What one step of an implementation may look like from outside. */
  datatype Event = Stutter | Registered(n: Id) | Unlocked(who: Id)

  ghost predicate Effect(l: Lock, e: Event, l': Lock) {
    match e
    case Stutter => l' == l
    case Registered(n) => l' == Register(l, n)
    case Unlocked(who) => l.owner == Some(who) && l' == Unlock(l)
  }
}
