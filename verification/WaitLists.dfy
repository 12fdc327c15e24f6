/**
  What `condition_variable::notify_one` does to the two lists of waiters
  (lib/co_context/co/condition_variable.cpp:23-82), one step per section between which
  other calls can come.  `WaitListRefinement` shows that the pointers of the code do
  exactly this, in every interleaving.
 */
module WaitLists {
  import opened Lists

  datatype Cv = Cv(
    awaiting: seq<Id>,   // newest first
    toResume: seq<Id>,   // oldest first
    astray: bool)        // to_resume_tail is not the last node of to_resume

  const NOBODY := Cv([], [], false)

  /** Where a call of notify_one is. */
  datatype Call =
    | Start
    | Swap               // found to_resume empty, about to take all of awaiting
    | Batch(b: seq<Id>)  // has them, oldest first: the reversal is private
    | Hand(w: Id)        // about to register w on the mutex

  function Push(cv: Cv, n: Id): Cv {
    cv.(awaiting := [n] + cv.awaiting)
  }

  function Resuming(cv: Cv, toResume: seq<Id>, astray: bool): Cv {
    cv.(toResume := toResume, astray := astray && toResume != [])
  }

  /** One section of a call; None is its return.  In step 5 only the oldest of the batch is appended, if that. */
  function Advance(cv: Cv, call: Call): (r: (Cv, Option<Call>)) {
    match call
    case Start =>
      if cv.toResume == [] then (cv, Some(Swap))
      else (Resuming(cv, cv.toResume[1..], cv.astray), Some(Hand(cv.toResume[0])))
    case Swap =>
      if cv.awaiting == [] then (cv, None)
      else (cv.(awaiting := []), Some(Batch(Reverse(cv.awaiting))))
    case Batch(b) =>
      if b == [] then (cv, None)
      else if cv.toResume == [] then (Resuming(cv, b[1..], false), Some(Hand(b[0])))
      else
        var kept := if cv.astray then [] else [b[0]];
        (Resuming(cv, cv.toResume[1..] + kept, cv.astray || |b| > 1), Some(Hand(cv.toResume[0])))
    case Hand(_) => (cv, None)
  }

  /** The waiters that step 5 leaves out of every list. */
  function Dropped(cv: Cv, call: Call): seq<Id> {
    if !call.Batch? || call.b == [] || cv.toResume == [] then []
    else if cv.astray then call.b else call.b[1..]
  }

  function InCall(call: Option<Call>): seq<Id> {
    match call
    case Some(Batch(b)) => b
    case Some(Hand(w)) => [w]
    case _ => []
  }

  function Everyone(cv: Cv, call: Option<Call>): seq<Id> {
    cv.awaiting + cv.toResume + InCall(call)
  }

  lemma {:induction false} ReverseMultiset(s: seq<Id>)
    ensures multiset(Reverse(s)) == multiset(s)
  {
    if |s| > 0 {
      ReverseMultiset(s[1..]);
      assert s == [s[0]] + s[1..];
    }
  }

  lemma EveryoneCounts(cv: Cv, call: Option<Call>)
    ensures multiset(Everyone(cv, call)) == multiset(cv.awaiting) + multiset(cv.toResume) + multiset(InCall(call))
  {
  }

  lemma SwapConserves(cv: Cv)
    ensures multiset(cv.awaiting) == multiset(Reverse(cv.awaiting))
  {
    ReverseMultiset(cv.awaiting);
  }

  lemma MergeConserves(a: multiset<Id>, t: seq<Id>, b: seq<Id>, kept: seq<Id>, dropped: seq<Id>)
    requires t != [] && b == kept + dropped
    ensures a + multiset(t) + multiset(b) == a + multiset(t[1..] + kept) + multiset([t[0]]) + multiset(dropped)
  {
    HeadAndTail(t);
  }

  lemma TakeConserves(a: multiset<Id>, t: seq<Id>)
    requires t != []
    ensures a + multiset(t) == a + multiset(t[1..]) + multiset([t[0]])
  {
    HeadAndTail(t);
  }

  /** The two lists and the call's hands after a section, and what it dropped. */
  function Afterwards(cv: Cv, call: Call): multiset<Id> {
    var (cv', next) := Advance(cv, call);
    multiset(cv'.awaiting) + multiset(cv'.toResume) + multiset(InCall(next)) + multiset(Dropped(cv, call))
  }

  lemma BatchConserves(cv: Cv, b: seq<Id>)
    ensures multiset(cv.awaiting) + multiset(cv.toResume) + multiset(b) == Afterwards(cv, Batch(b))
  {
    if b != [] && cv.toResume == [] {
      TakeConserves(multiset(cv.awaiting), b);
    } else if b != [] {
      var kept := if cv.astray then [] else [b[0]];
      assert b == kept + Dropped(cv, Batch(b));
      MergeConserves(multiset(cv.awaiting), cv.toResume, b, kept, Dropped(cv, Batch(b)));
    }
  }

  lemma SectionConserves(cv: Cv, call: Call)
    requires !call.Hand?
    ensures multiset(cv.awaiting) + multiset(cv.toResume) + multiset(InCall(Some(call))) == Afterwards(cv, call)
  {
    match call
    case Start => if cv.toResume != [] { TakeConserves(multiset(cv.awaiting), cv.toResume); }
    case Swap => SwapConserves(cv);
    case Batch(b) => BatchConserves(cv, b);
  }

  /** Whoever is on the cv or in the call's hands still is, or has been dropped. */
  lemma AdvanceConserves(cv: Cv, call: Call)
    requires !call.Hand?
    ensures var (cv', next) := Advance(cv, call);
      multiset(Everyone(cv, Some(call))) == multiset(Everyone(cv', next)) + multiset(Dropped(cv, call))
  {
    var (cv', next) := Advance(cv, call);
    EveryoneCounts(cv, Some(call));
    EveryoneCounts(cv', next);
    SectionConserves(cv, call);
  }

  lemma HeadAndTail(s: seq<Id>)
    requires s != []
    ensures multiset(s) == multiset([s[0]]) + multiset(s[1..])
  {
    assert s == [s[0]] + s[1..];
  }

  lemma {:induction false} DistinctCounts(s: seq<Id>)
    ensures Distinct(s) <==> forall n :: multiset(s)[n] <= 1
  {
    if |s| > 0 {
      assert s == [s[0]] + s[1..];
      DistinctCounts(s[1..]);
      if Distinct(s) {
        DistinctTail(s);
        assert multiset(s[1..])[s[0]] == 0;
        forall n ensures multiset(s)[n] <= 1 {
          assert multiset(s)[n] == multiset([s[0]])[n] + multiset(s[1..])[n];
        }
      } else {
        NotDistinct(s);
      }
    }
  }

  lemma NotDistinct(s: seq<Id>)
    requires |s| > 0 && !Distinct(s) && (Distinct(s[1..]) <==> forall n :: multiset(s[1..])[n] <= 1)
    ensures exists n :: multiset(s)[n] > 1
  {
    assert s == [s[0]] + s[1..];
    if s[0] in s[1..] {
      assert multiset(s)[s[0]] > 1;
    } else {
      if Distinct(s[1..]) { DistinctCons(s[0], s[1..]); }
      var n :| multiset(s[1..])[n] > 1;
      assert multiset(s)[n] > 1;
    }
  }

  /** The same with distinct waiters: the new lists are distinct, and have the same members. */
  lemma AdvanceKeeps(cv: Cv, call: Call)
    requires !call.Hand? && Distinct(Everyone(cv, Some(call)))
    ensures var (cv', next) := Advance(cv, call);
      && Distinct(Everyone(cv', next) + Dropped(cv, call))
      && forall n :: n in Everyone(cv, Some(call)) <==> n in Everyone(cv', next) + Dropped(cv, call)
  {
    var (cv', next) := Advance(cv, call);
    var before, after := Everyone(cv, Some(call)), Everyone(cv', next) + Dropped(cv, call);
    AdvanceConserves(cv, call);
    assert multiset(after) == multiset(Everyone(cv', next)) + multiset(Dropped(cv, call));
    DistinctCounts(before);
    DistinctCounts(after);
    forall n ensures n in before <==> n in after {
      assert n in multiset(before) <==> n in multiset(after);
    }
  }
}
