/**
  The submission queue (extern/liburingcxx/include/uring/detail/sq.hpp).  With `sqe_reorder`
  the application takes entries in any number, fills them, and appends them in any order;
  the indirection array both lists the appended entries for the kernel and remembers
  which entries are free.

  The four counters are 32-bit words that wrap.  Positions that never wrap stand behind
  them: consumed <= flushed <= appended <= handed <= seen + n, where `seen` is the latest
  consumer position the application has read.  Under SQPOLL a read of `*khead` may be
  stale: it may return any position from `seen` up to `consumed`.
 */
module SubmissionQueue {
  import opened Lists
  import opened Word32

  /** Who has which entry, over positions that never wrap. */
  datatype Ledger = Ledger(
    n: nat,               // ring_entries
    list: seq<nat>,       // position -> the entry it lists
    consumed: nat,        // behind khead
    flushed: nat,         // behind ktail and sqe_head
    appended: nat,        // behind sqe_tail
    handed: nat,          // behind sqe_free_head
    seen: nat,
    held: set<nat>,       // taken by the application, not yet appended
    place: seq<nat>       // entry -> the position that lists it, if it is not held
  ) {
    ghost predicate Ordered() {
      && consumed <= flushed <= appended <= handed <= seen + n && seen <= consumed
      && |list| == consumed + n && |place| == n
    }

    /** Positions that list an entry: appended and not consumed, or free. */
    ghost predicate Live(p: nat) {
      consumed <= p < appended || handed <= p < consumed + n
    }

    /** The entry listed at p exists, the application does not hold it, and only p lists it. */
    ghost predicate ListsOne(p: nat)
      requires p < |list| && |place| == n
    {
      list[p] < n && list[p] !in held && place[list[p]] == p
    }

    ghost predicate IsListed(i: nat)
      requires i < n && Ordered()
    {
      i in held || (Live(place[i]) && list[place[i]] == i)
    }

    ghost predicate Inv() {
      && Ordered()
      && |held| == handed - appended
      && (forall i :: i in held ==> i < n)
      && (forall p: nat :: Live(p) ==> ListsOne(p))
      && (forall i: nat :: i < n ==> IsListed(i))
    }

    /** All entries ever appended, in order. */
    ghost function Log(): seq<nat>
      requires Ordered()
    {
      list[..appended]
    }

    ghost predicate KernelOwns(i: nat)
      requires Ordered()
    {
      exists p: nat :: consumed <= p < appended && list[p] == i
    }

    ghost predicate Free(i: nat)
      requires Ordered()
    {
      exists p: nat :: handed <= p < consumed + n && list[p] == i
    }

    function Read(h: nat): Ledger {
      this.(seen := h)
    }

    function Take(): Ledger
      requires handed < |list|
    {
      this.(handed := handed + 1, held := held + {list[handed]})
    }

    function Append(i: nat): Ledger
      requires appended < |list| && i < |place|
    {
      this.(list := list[appended := i], place := place[i := appended], appended := appended + 1, held := held - {i})
    }

    function Flush(): Ledger {
      this.(flushed := appended)
    }

    function Consume(): Ledger
      requires consumed < |list| && list[consumed] < |place|
    {
      this.(list := list + [list[consumed]], place := place[list[consumed] := consumed + n], consumed := consumed + 1)
    }
  }

  /** Every entry is in exactly one place: with the kernel, with the application, or free. */
  lemma Partition(s: Ledger, i: nat)
    requires s.Inv() && i < s.n
    ensures s.KernelOwns(i) || i in s.held || s.Free(i)
    ensures !(s.KernelOwns(i) && i in s.held) && !(s.KernelOwns(i) && s.Free(i)) && !(i in s.held && s.Free(i))
  {
    assert s.IsListed(i);
    forall p: nat | s.Live(p) && s.list[p] == i ensures p == s.place[i] && i !in s.held {
      assert s.ListsOne(p);
    }
  }

  function Fresh(n: nat): (s: Ledger)
    ensures s.Inv() && s.held == {} && s.Log() == [] && s.consumed == 0
  {
    var identity := seq(n, i => i);
    Ledger(n, identity, 0, 0, 0, 0, 0, {}, identity)
  }

  lemma ReadInv(s: Ledger, h: nat)
    requires s.Inv() && s.seen <= h <= s.consumed
    ensures s.Read(h).Inv()
  {
    var t := s.Read(h);
    forall p: nat | t.Live(p) ensures t.ListsOne(p) {
      assert s.ListsOne(p);
    }
    forall i: nat | i < t.n ensures t.IsListed(i) {
      assert s.IsListed(i);
    }
  }

  lemma FlushInv(s: Ledger)
    requires s.Inv()
    ensures s.Flush().Inv()
  {
    var t := s.Flush();
    forall p: nat | t.Live(p) ensures t.ListsOne(p) {
      assert s.ListsOne(p);
    }
    forall i: nat | i < t.n ensures t.IsListed(i) {
      assert s.IsListed(i);
    }
  }

  lemma TakeInv(s: Ledger)
    requires s.Inv() && s.handed < s.seen + s.n
    ensures s.Take().Inv() && s.Free(s.list[s.handed]) && s.Take().Log() == s.Log()
  {
    var t := s.Take();
    assert s.ListsOne(s.handed);
    forall p: nat | t.Live(p) ensures t.ListsOne(p) {
      assert s.ListsOne(p);
    }
    forall i: nat | i < t.n ensures t.IsListed(i) {
      assert s.IsListed(i);
    }
  }

  lemma AppendInv(s: Ledger, i: nat)
    requires s.Inv() && i in s.held
    ensures s.appended < s.handed
    ensures s.Append(i).Inv() && s.Append(i).Log() == s.Log() + [i]
  {
    assert |s.held - {i}| == |s.held| - 1;
    var t := s.Append(i);
    forall p: nat | t.Live(p) ensures t.ListsOne(p) {
      if p != s.appended {
        assert s.ListsOne(p);
      }
    }
    forall j: nat | j < t.n ensures t.IsListed(j) {
      assert s.IsListed(j);
    }
  }

  /** The kernel gets the oldest entry it has not had; the entry is free afterwards. */
  lemma ConsumeInv(s: Ledger)
    requires s.Inv() && s.consumed < s.flushed
    ensures s.list[s.consumed] == s.Log()[s.consumed] < s.n && s.KernelOwns(s.list[s.consumed])
    ensures s.Consume().Inv() && s.Consume().Log() == s.Log() && s.Consume().Free(s.list[s.consumed])
  {
    assert s.ListsOne(s.consumed);
    var t := s.Consume();
    forall p: nat | t.Live(p) ensures t.ListsOne(p) {
      if p != s.consumed + s.n {
        assert s.ListsOne(p);
      }
    }
    forall j: nat | j < t.n ensures t.IsListed(j) {
      assert s.IsListed(j);
    }
    assert t.list[s.consumed + s.n] == s.list[s.consumed];
  }

  /** The slot of every live position holds what that position lists. */
  ghost predicate Stored(s: Ledger, slots: seq<Word>, mask: nat) {
    && s.Ordered() && |slots| == s.n
    && forall p: nat :: s.Live(p) ==> SlotAt(p, mask) < |slots| && slots[SlotAt(p, mask)] == s.list[p]
  }

  /** The five counters of the queue as they are in memory. */
  datatype Counters = Counters(khead: Word, ktail: Word, sqeHead: Word, sqeTail: Word, sqeFreeHead: Word)

  /** The words are the wrapped positions. */
  predicate Behind(s: Ledger, w: Counters) {
    && w.khead == Wrap(s.consumed) && w.ktail == w.sqeHead == Wrap(s.flushed)
    && w.sqeTail == Wrap(s.appended) && w.sqeFreeHead == Wrap(s.handed)
  }

  /** Ledger, counters and array of a ring with 2^k entries agree. */
  ghost predicate Agree(s: Ledger, w: Counters, slots: seq<Word>, k: nat) {
    k <= 31 && s.n == Pow2(k) && s.Inv() && Stored(s, slots, Pow2(k) - 1) && Behind(s, w)
  }

  lemma StoredFresh(slots: seq<Word>, k: nat)
    requires k <= 31 && |slots| == Pow2(k) && forall j: nat :: j < |slots| ==> slots[j] == j
    ensures Stored(Fresh(Pow2(k)), slots, Pow2(k) - 1)
  {
    var s := Fresh(Pow2(k));
    forall p: nat | s.Live(p) ensures SlotAt(p, Pow2(k) - 1) < |slots| && slots[SlotAt(p, Pow2(k) - 1)] == s.list[p] {
      FirstLap(p, k);
    }
  }

  /** What is live in t, and listed there as in s, is still stored. */
  lemma StoredLess(s: Ledger, t: Ledger, slots: seq<Word>, mask: nat)
    requires Stored(s, slots, mask) && t.Ordered() && t.n == s.n
    requires forall p: nat :: t.Live(p) ==> s.Live(p) && t.list[p] == s.list[p]
    ensures Stored(t, slots, mask)
  {
  }

  lemma StoredAppend(s: Ledger, slots: seq<Word>, i: Word, k: nat)
    requires k <= 31 && s.n == Pow2(k) && Stored(s, slots, Pow2(k) - 1)
    requires s.appended < s.handed && i < s.n && s.Append(i).Ordered()
    ensures SlotAt(s.appended, Pow2(k) - 1) < |slots|
    ensures Stored(s.Append(i), slots[SlotAt(s.appended, Pow2(k) - 1) := i], Pow2(k) - 1)
  {
    var at, mask := s.appended, Pow2(k) - 1;
    NextLap(at, k);
    forall p: nat | s.Append(i).Live(p) && p != at
      ensures s.Live(p) && SlotAt(p, mask) != SlotAt(at, mask)
    {
      SlotsApart(if p < at then p else at, if p < at then at else p, k);
    }
  }

  lemma StoredConsume(s: Ledger, slots: seq<Word>, k: nat)
    requires k <= 31 && s.n == Pow2(k) && Stored(s, slots, Pow2(k) - 1)
    requires s.consumed < s.flushed && s.list[s.consumed] < s.n
    ensures Stored(s.Consume(), slots, Pow2(k) - 1)
  {
    NextLap(s.consumed, k);
    var t, p0, mask := s.Consume(), s.consumed + s.n, Pow2(k) - 1;
    assert s.Live(s.consumed);
    forall p: nat | t.Live(p) && p != p0 ensures s.Live(p) && t.list[p] == s.list[p] {
    }
  }

  // ----- the operations on words and slots

  lemma FreshAgrees(slots: seq<Word>, k: nat)
    requires k <= 31 && |slots| == Pow2(k) && forall j: nat :: j < |slots| ==> slots[j] == j
    ensures Agree(Fresh(Pow2(k)), Counters(0, 0, 0, 0, 0), slots, k)
  {
    StoredFresh(slots, k);
  }

  /** The arithmetic on wrapped words agrees with that on positions. */
  lemma Differences(s: Ledger, w: Counters, h: nat)
    requires Behind(s, w) && s.Ordered() && s.n < WORD && s.seen <= h <= s.consumed
    ensures Wrap(w.sqeFreeHead - Wrap(h)) == s.handed - h
    ensures Wrap(w.sqeTail - Wrap(h)) == s.appended - h
    ensures w.sqeTail == w.sqeHead <==> s.appended == s.flushed
  {
    Difference(s.handed, h);
    Difference(s.appended, h);
    SameWord(s.appended, s.flushed);
  }

  lemma ReadAgrees(s: Ledger, w: Counters, slots: seq<Word>, k: nat, h: nat)
    requires Agree(s, w, slots, k) && s.seen <= h <= s.consumed
    ensures Agree(s.Read(h), w, slots, k)
  {
    ReadInv(s, h);
    StoredLess(s, s.Read(h), slots, Pow2(k) - 1);
  }

  lemma TakeAgrees(s: Ledger, w: Counters, slots: seq<Word>, k: nat)
    requires Agree(s, w, slots, k) && s.handed < s.seen + s.n
    ensures var at := BitAnd(w.sqeFreeHead, Pow2(k) - 1); at < |slots| && slots[at] == s.list[s.handed]
    ensures s.Free(s.list[s.handed])
    ensures Agree(s.Take(), w.(sqeFreeHead := Wrap(w.sqeFreeHead + 1)), slots, k)
  {
    TakeInv(s);
    StoredLess(s, s.Take(), slots, Pow2(k) - 1);
    Increment(s.handed);
    assert s.Live(s.handed);
  }

  lemma AppendAgrees(s: Ledger, w: Counters, slots: seq<Word>, k: nat, i: Word)
    requires Agree(s, w, slots, k) && i in s.held
    ensures var at := BitAnd(w.sqeTail, Pow2(k) - 1);
      at < |slots| && Agree(s.Append(i), w.(sqeTail := Wrap(w.sqeTail + 1)), slots[at := i], k)
    ensures s.Append(i).Log() == s.Log() + [i]
  {
    AppendInv(s, i);
    StoredAppend(s, slots, i, k);
    Increment(s.appended);
  }

  lemma FlushAgrees(s: Ledger, w: Counters, slots: seq<Word>, k: nat)
    requires Agree(s, w, slots, k)
    ensures Agree(s.Flush(), w.(sqeHead := w.sqeTail, ktail := w.sqeTail), slots, k)
  {
    FlushInv(s);
    StoredLess(s, s.Flush(), slots, Pow2(k) - 1);
  }

  lemma ConsumeAgrees(s: Ledger, w: Counters, slots: seq<Word>, k: nat)
    requires Agree(s, w, slots, k) && s.consumed < s.flushed
    ensures var at := BitAnd(w.khead, Pow2(k) - 1); at < |slots| && slots[at] == s.list[s.consumed] < s.n
    ensures Agree(s.Consume(), w.(khead := Wrap(w.khead + 1)), slots, k)
  {
    ConsumeInv(s);
    StoredConsume(s, slots, k);
    Increment(s.consumed);
    assert s.Live(s.consumed);
  }

  class Queue {
    const k: nat                // ring_entries is 2 to the k
    const ringEntries: Word
    const ringMask: Word
    var sqeHead: Word
    var sqeTail: Word
    var sqeFreeHead: Word
    var khead: Word             // written by the kernel
    var ktail: Word             // read by the kernel
    const slots: array<Word>    // `array`
    ghost var ledger: Ledger

    function Words(): Counters
      reads this
    {
      Counters(khead, ktail, sqeHead, sqeTail, sqeFreeHead)
    }

    ghost predicate Valid()
      reads this, slots
    {
      && ringEntries == Pow2(k) == slots.Length && ringMask == Pow2(k) - 1
      && Agree(ledger, Words(), slots[..], k)
    }

    /** Lines 54-56. */
    method InitFreeQueue()
      requires slots.Length < WORD
      modifies slots
      ensures forall j: nat :: j < slots.Length ==> slots[j] == j
    {
      var i := 0;
      while i < slots.Length
        invariant i <= slots.Length
        invariant forall j: nat :: j < i ==> slots[j] == j
      {
        slots[i] := i;
        i := i + 1;
      }
    }

    /** The array as the kernel maps it, and zeroed counters. */
    constructor (k: nat, mapped: array<Word>)
      requires k <= 31 && mapped.Length == Pow2(k) < WORD
      modifies mapped
      ensures Valid() && ledger == Fresh(Pow2(k)) && slots == mapped
    {
      this.k, ringEntries, ringMask, slots := k, mapped.Length, mapped.Length - 1, mapped;
      sqeHead, sqeTail, sqeFreeHead, khead, ktail := 0, 0, 0, 0, 0;
      ledger := Fresh(Pow2(k));
      new;
      InitFreeQueue();
      FreshAgrees(slots[..], k);
    }

    /**
      Lines 143-159.  The value read from `*khead` is that of some position h that the
      kernel had reached, no earlier than the one read before.
     */
    method GetSqEntry(head: Word, ghost h: nat) returns (sqe: Option<Word>)
      requires Valid() && ledger.seen <= h <= ledger.consumed && head == Wrap(h)
      modifies this
      ensures Valid()
      ensures sqe.None? <==> old(ledger.handed) == h + ringEntries
      ensures sqe.None? ==> ledger == old(ledger.Read(h))
      ensures sqe.Some? ==> old(ledger.Free(sqe.value)) && ledger == old(ledger.Read(h).Take())
      ensures sqe.Some? ==> ledger.held == old(ledger.held) + {sqe.value}
    {
      Differences(ledger, Words(), h);
      ReadAgrees(ledger, Words(), slots[..], k, h);
      ledger := ledger.Read(h);
      if Wrap(sqeFreeHead - head) < ringEntries {
        TakeAgrees(ledger, Words(), slots[..], k);
        sqe := Some(slots[BitAnd(sqeFreeHead, ringMask)]);
        sqeFreeHead := Wrap(sqeFreeHead + 1);
        ledger := ledger.Take();
      } else {
        sqe := None;
      }
    }

    /** Lines 170-173, with its assertion for every value a read of `*khead` can return. */
    method AppendSqEntry(sqe: Word)
      requires Valid() && sqe in ledger.held
      modifies this, slots
      ensures Valid() && ledger == old(ledger.Append(sqe)) && ledger.Log() == old(ledger.Log()) + [sqe]
      ensures forall h: nat :: ledger.seen <= h <= ledger.consumed ==> Wrap(sqeTail - Wrap(h)) <= ringEntries
    {
      AppendAgrees(ledger, Words(), slots[..], k, sqe);
      slots[BitAnd(sqeTail, ringMask)] := sqe;
      sqeTail := Wrap(sqeTail + 1);
      ledger := ledger.Append(sqe);
      forall h: nat | ledger.seen <= h <= ledger.consumed ensures Wrap(sqeTail - Wrap(h)) <= ringEntries {
        Differences(ledger, Words(), h);
      }
    }

    /** Lines 65-96. */
    method Flush(head: Word, ghost h: nat) returns (waiting: Word)
      requires Valid() && ledger.seen <= h <= ledger.consumed && head == Wrap(h)
      modifies this`sqeHead, this`ktail, this`ledger
      ensures Valid() && ledger == old(ledger.Flush()) && waiting == ledger.appended - h
    {
      Differences(ledger, Words(), h);
      FlushAgrees(ledger, Words(), slots[..], k);
      if sqeTail != sqeHead {
        sqeHead := sqeTail;
        ktail := sqeTail;
      }
      ledger := ledger.Flush();
      waiting := Wrap(sqeTail - head);
    }

    /** Lines 103-118. */
    method Pending(head: Word, ghost h: nat) returns (waiting: Word)
      requires Valid() && ledger.seen <= h <= ledger.consumed && head == Wrap(h)
      ensures waiting == ledger.appended - h
    {
      Differences(ledger, Words(), h);
      waiting := Wrap(sqeTail - head);
    }

    /** The kernel takes the next entry it can see, and moves its head past it. */
    method KernelConsume() returns (sqe: Word)
      requires Valid() && ledger.consumed < ledger.flushed
      modifies this`khead, this`ledger
      ensures sqe == old(ledger.Log()[ledger.consumed]) < ringEntries
      ensures Valid() && ledger == old(ledger.Consume())
    {
      ConsumeAgrees(ledger, Words(), slots[..], k);
      sqe := slots[BitAnd(khead, ringMask)];
      khead := Wrap(khead + 1);
      ledger := ledger.Consume();
    }
  }

  /**
    The same ring without `sqe_reorder`, as the runtime sets it up: an entry is appended
    the moment it is handed out, and the array stays the identity.
   */
  class InOrderQueue {
    const k: nat
    const ringEntries: Word
    const ringMask: Word
    var sqeHead: Word
    var sqeTail: Word
    var khead: Word
    var ktail: Word
    const slots: array<Word>
    ghost var consumed: nat
    ghost var flushed: nat
    ghost var appended: nat
    ghost var seen: nat

    ghost predicate Valid()
      reads this, slots
    {
      && k <= 31 && ringEntries == Pow2(k) == slots.Length && ringMask == Pow2(k) - 1
      && consumed <= flushed <= appended <= seen + ringEntries && seen <= consumed
      && khead == Wrap(consumed) && ktail == sqeHead == Wrap(flushed) && sqeTail == Wrap(appended)
      && forall j: nat :: j < slots.Length ==> slots[j] == j
    }

    /** Entry i was handed out and the kernel has not consumed it. */
    ghost predicate InUse(i: nat)
      reads this
    {
      exists p: nat :: consumed <= p < appended && SlotAt(p, ringMask) == i
    }

    lemma NextIsFree()
      requires Valid() && appended < consumed + ringEntries
      ensures SlotAt(appended, ringMask) < ringEntries && !InUse(SlotAt(appended, ringMask))
    {
      SlotsApart(appended, appended, k);
      forall p: nat | consumed <= p < appended ensures SlotAt(p, ringMask) != SlotAt(appended, ringMask) {
        SlotsApart(p, appended, k);
      }
    }

    /** Lines 143-151 and 160-166, with a possibly stale head as above. */
    method GetSqEntry(head: Word, ghost h: nat) returns (sqe: Option<Word>)
      requires Valid() && seen <= h <= consumed && head == Wrap(h)
      modifies this`sqeTail, this`appended, this`seen
      ensures Valid() && seen == h
      ensures sqe.None? <==> old(appended) == h + ringEntries
      ensures sqe.None? ==> appended == old(appended)
      ensures sqe.Some? ==> sqe.value < ringEntries && !old(InUse(sqe.value)) && appended == old(appended) + 1
      ensures sqe.Some? ==> sqe.value == SlotAt(old(appended), ringMask)
    {
      Difference(appended, h);
      seen := h;
      if Wrap(sqeTail - head) < ringEntries {
        NextIsFree();
        Increment(appended);
        var i: Word := BitAnd(sqeTail, ringMask);
        sqe := Some(i);
        sqeTail := Wrap(sqeTail + 1);
        appended := appended + 1;
      } else {
        sqe := None;
      }
    }

    /** The kernel gets the entries in the order in which they were handed out. */
    method KernelConsume() returns (sqe: Word)
      requires Valid() && consumed < flushed
      modifies this`khead, this`consumed
      ensures Valid() && consumed == old(consumed) + 1
      ensures sqe == SlotAt(old(consumed), ringMask)
    {
      SlotsApart(consumed, consumed, k);
      Increment(consumed);
      sqe := slots[BitAnd(khead, ringMask)];
      khead := Wrap(khead + 1);
      consumed := consumed + 1;
    }
  }
}
