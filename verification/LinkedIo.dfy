/**
  Linked requests (include/co_context/detail/lazy_io_awaiter.hpp:17-144, 437-482 and
  916-920) and how their completions are told apart
  (lib/co_context/detail/worker_meta.cpp:193-228).

  An expression like `a && b && c` takes one entry per awaiter, links all but the last,
  and tags the user_data of the linked ones so that only the last one resumes the
  awaiting coroutine.
 */
module LinkedIo {
  import opened Lists
  import opened Word32

  /** uint64_t and uintptr_t. */
  type Word64 = x: nat | x < 0x1_0000_0000_0000_0000

  /** A coroutine frame, by its address. */
  type Handle = Word64

  // user_data_type (include/co_context/detail/user_data.hpp)
  const TASK_INFO_PTR: nat := 0
  const COROUTINE_HANDLE: nat := 1
  const TASK_INFO_PTR_LINK_SQE: nat := 2
  const MSG_RING: nat := 3
  // reserved_user_data::none, with eventfd
  const RESERVED_NONE: nat := 2
  // ~uintptr_t(alignof(task_info) - 1)
  const RAW_TASK_INFO_MASK: nat := 0xFFFF_FFFF_FFFF_FFF8

  /** The address of a task_info or of a coroutine frame: both are aligned to 8. */
  predicate Aligned(p: Word64) {
    p != 0 && p % 8 == 0
  }

  function BitOr(x: nat, y: nat): nat
    decreases x + y
  {
    if x == 0 then y else if y == 0 then x
    else 2 * BitOr(x / 2, y / 2) + (if x % 2 == 1 || y % 2 == 1 then 1 else 0)
  }

  function TagOf(data: Word64): nat {
    BitAnd(data, 7)
  }

  function PointerOf(data: Word64): Word64 {
    BitAndBound(data, RAW_TASK_INFO_MASK);
    BitAnd(data, RAW_TASK_INFO_MASK)
  }

  lemma {:induction false} OrIsSum(p: nat, tag: nat)
    requires p % 8 == 0 && tag < 8
    ensures BitOr(p, tag) == p + tag
  {
    assert BitOr(p / 8, 0) == p / 8;
    assert BitOr(p / 4, tag / 4) == p / 4 + tag / 4;
    assert BitOr(p / 2, tag / 2) == p / 2 + tag / 2 by {
      assert p / 2 / 2 == p / 4 && tag / 2 / 2 == tag / 4;
    }
  }

  lemma TagIsRemainder(data: Word64)
    ensures TagOf(data) == data % 8
  {
    MaskIsMod(data, 3);
  }

  lemma {:induction false} EvenMask(x: nat, y: nat)
    ensures BitAnd(x, 2 * y) == 2 * BitAnd(x / 2, y)
  {
  }

  lemma Pow2Of61()
    ensures Pow2(61) == 0x2000_0000_0000_0000
  {
    WordIsPow2();
    Pow2Divides(32, 64);
    Pow2Divides(61, 64);
    assert Pow2(3) == 8;
  }

  lemma {:induction false} EightMask(x: nat, y: nat)
    ensures BitAnd(x, 8 * y) == 8 * BitAnd(x / 8, y)
  {
    EvenMask(x, 4 * y);
    EvenMask(x / 2, 2 * y);
    EvenMask(x / 4, y);
    assert x / 2 / 2 == x / 4 && x / 4 / 2 == x / 8;
  }

  lemma PointerIsRest(data: Word64)
    ensures PointerOf(data) == data - data % 8
  {
    var n := Pow2(61);
    Pow2Of61();
    EightMask(data, n - 1);
    MaskIsMod(data / 8, 61);
    ModUnique(data / 8, n, 0, data / 8);
  }

  lemma TagFits(p: Word64, tag: nat)
    requires Aligned(p) && tag < 8
    ensures RESERVED_NONE <= p + tag < 0x1_0000_0000_0000_0000
    ensures (p + tag) % 8 == tag
  {
    var q := p / 8;
    assert p == q * 8;
    ModUnique(p + tag, 8, q, tag);
  }

  /** A tag and an aligned pointer share one word without loss, out of the reserved range. */
  lemma PackRoundTrip(p: Word64, tag: nat)
    requires Aligned(p) && tag < 8
    ensures RESERVED_NONE <= BitOr(p, tag) < 0x1_0000_0000_0000_0000
    ensures TagOf(BitOr(p, tag)) == tag && PointerOf(BitOr(p, tag)) == p
  {
    OrIsSum(p, tag);
    TagFits(p, tag);
    var data: Word64 := p + tag;
    TagIsRemainder(data);
    PointerIsRest(data);
  }

  /** The expressions that type-check; Timeout is timeout(io, duration). */
  datatype Expr = Io | Timeout | And(lhs: Expr, rhs: Expr)

  predicate IsLinkIo(e: Expr)
    decreases e, 1
  {
    e.And? && Supported(e)
  }

  /** The four overloads of operator&&. */
  predicate Supported(e: Expr)
    decreases e, 0
  {
    match e
    case And(l, r) =>
      || (l.Io? && r.Io?)
      || (IsLinkIo(l) && r.Io?)
      || (IsLinkIo(l) && IsLinkIo(r))
      || (l.Io? && r.Timeout?)
    case _ => true
  }

  function Entries(e: Expr): nat {
    match e
    case Io => 1
    case Timeout => 2
    case And(l, r) => Entries(l) + Entries(r)
  }

  /** An entry; its user_data is kept as the two words that are or-ed into it. */
  datatype Sqe = Sqe(info: Word64, tag: nat, link: bool, skip: bool) {
    function UserData(): nat {
      BitOr(info, tag)
    }
  }

  lemma OrHalves(x: nat, y: nat)
    ensures BitOr(x, y) / 2 == BitOr(x / 2, y / 2)
    ensures BitOr(x, y) % 2 == if x % 2 == 1 || y % 2 == 1 then 1 else 0
  {
  }

  /** `|=` on the word is `|=` on the tag. */
  lemma {:induction false} OrAssociates(x: nat, y: nat, z: nat)
    ensures BitOr(BitOr(x, y), z) == BitOr(x, BitOr(y, z))
    decreases x + y + z
  {
    if x + y + z > 0 {
      OrAssociates(x / 2, y / 2, z / 2);
      OrHalves(x, y);
      OrHalves(y, z);
      OrHalves(BitOr(x, y), z);
      OrHalves(x, BitOr(y, z));
    }
  }

  class Worker {
    const skipsTimer: bool            // kernel 5.17 or later
    var sqes: seq<Sqe>
    var requestsToReap: int
    var handles: map<Word64, Handle>    // io_info.handle, by address of the task_info
    var results: map<Word64, int>       // io_info.result
    var forwarded: seq<Handle>

    constructor (skipsTimer: bool)
      ensures this.skipsTimer == skipsTimer
      ensures sqes == [] && requestsToReap == 0 && handles == map[] && results == map[] && forwarded == []
    {
      this.skipsTimer := skipsTimer;
      sqes, requestsToReap, handles, results, forwarded := [], 0, map[], map[], [];
    }

    /** The constructor of `lazy_awaiter`, with get_free_sqe and a prep function. */
    method NewAwaiter(info: Word64) returns (i: nat)
      modifies this`sqes, this`requestsToReap
      ensures i == |old(sqes)| && sqes == old(sqes) + [Sqe(info, TASK_INFO_PTR, false, false)]
      ensures requestsToReap == old(requestsToReap) + 1
    {
      i := |sqes|;
      requestsToReap := requestsToReap + 1;
      sqes := sqes + [Sqe(info, TASK_INFO_PTR, false, false)];
    }

    /** Lines 105-112. */
    method SetLinkAwaiter(i: nat)
      requires i < |sqes|
      modifies this`sqes
      ensures sqes == old(sqes)[i := Sealed(old(sqes[i]))]
    {
      sqes := sqes[i := sqes[i].(link := true, tag := BitOr(sqes[i].tag, TASK_INFO_PTR_LINK_SQE))];
    }

    /** timeout(io, duration): lines 437-482. */
    method NewTimeout(info: Word64, timer: Word64) returns (last: nat)
      modifies this`sqes, this`requestsToReap
      ensures last == |old(sqes)| && |sqes| == last + 2 && sqes[..last] == old(sqes)
      ensures sqes[last] == Sqe(info, 0, true, false)
      ensures sqes[last + 1] == if skipsTimer then Sqe(timer, 0, false, true) else Sqe(timer, 2, false, false)
      ensures sqes == old(sqes) + [RoleSqe(TimedFinal, info, skipsTimer), RoleSqe(Timer, timer, skipsTimer)]
      ensures requestsToReap == old(requestsToReap) + if skipsTimer then 1 else 2
    {
      last := NewAwaiter(info);
      var t := NewAwaiter(timer);
      if skipsTimer {
        sqes := sqes[t := sqes[t].(skip := true)];
        requestsToReap := requestsToReap - 1;
      } else {
        sqes := sqes[t := Sqe(timer, TASK_INFO_PTR_LINK_SQE, sqes[t].link, sqes[t].skip)];
      }
      sqes := sqes[last := sqes[last].(link := true)];
    }

    /** A whole expression; the result is `last_io`. */
    method Build(e: Expr, infos: seq<Word64>) returns (last: nat)
      requires Supported(e) && |infos| == Entries(e)
      modifies this`sqes, this`requestsToReap
      ensures sqes == old(sqes) + Sqes(Roles(e), infos, skipsTimer)
      ensures last == |old(sqes)| + LastIo(e)
      ensures |sqes| == |old(sqes)| + Entries(e) && Evaluated(sqes[|old(sqes)|..], e, infos, skipsTimer)
      ensures requestsToReap == old(requestsToReap) + |Posting(Roles(e), skipsTimer)|
    {
      EntriesAre(e, infos, skipsTimer);
      Suffix(sqes, Sqes(Roles(e), infos, skipsTimer));
      last := Evaluate(e, infos);
    }

    /** The operands in order, then the operator. */
    method Evaluate(e: Expr, infos: seq<Word64>) returns (last: nat)
      requires Supported(e) && |infos| == Entries(e)
      modifies this`sqes, this`requestsToReap
      ensures sqes == old(sqes) + Sqes(Roles(e), infos, skipsTimer)
      ensures last == |old(sqes)| + LastIo(e)
      ensures requestsToReap == old(requestsToReap) + |Posting(Roles(e), skipsTimer)|
      decreases e, 2
    {
      PostingLeaf(skipsTimer);
      match e
      case Io =>
        last := NewAwaiter(infos[0]);
      case Timeout =>
        last := NewTimeout(infos[0], infos[1]);
      case And(l, r) =>
        last := EvaluateBoth(l, r, infos);
        PostingAnd(l, r, skipsTimer);
    }

    /** The operands of an operator; the result is `last_io` of each. */
    method EvaluateOperands(l: Expr, r: Expr, infos: seq<Word64>) returns (left: nat, right: nat)
      requires Supported(l) && Supported(r) && |infos| == Entries(l) + Entries(r)
      modifies this`sqes, this`requestsToReap
      ensures sqes == Operands(old(sqes), l, r, infos, skipsTimer)
      ensures left == |old(sqes)| + LastIo(l) && right == |old(sqes)| + Entries(l) + LastIo(r)
      ensures requestsToReap ==
        old(requestsToReap) + |Posting(Roles(l), skipsTimer)| + |Posting(Roles(r), skipsTimer)|
      decreases And(l, r), 0
    {
      left := Evaluate(l, infos[..Entries(l)]);
      right := Evaluate(r, infos[Entries(l)..]);
    }

    /** The case of an operator. */
    method EvaluateBoth(l: Expr, r: Expr, infos: seq<Word64>) returns (last: nat)
      requires Supported(l) && Supported(r) && |infos| == Entries(l) + Entries(r)
      modifies this`sqes, this`requestsToReap
      ensures sqes == old(sqes) + Sqes(Seal(Roles(l), LastIo(l)) + Roles(r), infos, skipsTimer)
      ensures last == |old(sqes)| + Entries(l) + LastIo(r)
      ensures requestsToReap ==
        old(requestsToReap) + |Posting(Roles(l), skipsTimer)| + |Posting(Roles(r), skipsTimer)|
      decreases And(l, r), 1
    {
      LinksOperands(sqes, l, r, infos, skipsTimer);
      var left;
      left, last := EvaluateOperands(l, r, infos);
      SetLinkAwaiter(left);
    }

    /** lazy_link_io::await_suspend: the awaiting coroutine is noted at the last awaiter. */
    method AwaitSuspend(info: Word64, current: Handle)
      modifies this`handles
      ensures handles == old(handles)[info := current]
    {
      handles := handles[info := current];
    }

    /**
      `handle_cq_entry` after the bookkeeping of the ring.  Its assertions, a known tag and a
      non-null coroutine, are the precondition; nop is the only reserved value in use here.
     */
    method HandleCqEntry(userData: Word64, res: int)
      requires userData >= RESERVED_NONE ==> TagOf(userData) < 4
      requires userData >= RESERVED_NONE && TagOf(userData) == TASK_INFO_PTR ==> PointerOf(userData) in handles
      modifies this`requestsToReap, this`results, this`forwarded
      // told by the bits themselves: what is forwarded, and which result is stored
      ensures var tag, p := userData % 8, userData - userData % 8;
        && (userData >= 2 && tag == 0 ==> p in handles && forwarded == old(forwarded) + [handles[p]])
        && (userData >= 2 && (tag == 1 || tag == 3) ==> forwarded == old(forwarded) + [p])
        && (userData < 2 || tag == 2 ==> forwarded == old(forwarded))
        && results == (if userData >= 2 && (tag == 0 || tag == 2) then old(results)[p := res] else old(results))
        && requestsToReap == old(requestsToReap) - (if userData >= 2 && tag == 3 then 0 else 1)
      ensures forwarded == old(forwarded) + Resumes(userData, handles)
      ensures results == if StoresResult(userData) then old(results)[PointerOf(userData) := res] else old(results)
      ensures requestsToReap ==
        old(requestsToReap) - if userData >= RESERVED_NONE && TagOf(userData) == MSG_RING then 0 else 1
    {
      requestsToReap := requestsToReap - 1;
      TagIsRemainder(userData);
      PointerIsRest(userData);
      if userData < RESERVED_NONE {
        return;
      }
      var selector, p := TagOf(userData), PointerOf(userData);
      if selector == TASK_INFO_PTR {
        results := results[p := res];
        forwarded := forwarded + [handles[p]];
      } else if selector == COROUTINE_HANDLE {
        forwarded := forwarded + [p];
      } else if selector == TASK_INFO_PTR_LINK_SQE {
        results := results[p := res];
      } else {
        forwarded := forwarded + [p];
        requestsToReap := requestsToReap + 1;
      }
    }

    /** All completions of an expression, in any order. */
    method Reap(e: Expr, infos: seq<Word64>, current: Handle, order: seq<nat>, res: seq<int>)
      requires Supported(e) && |infos| == Entries(e) && |res| == |order|
      requires forall i :: 0 <= i < |infos| ==> Aligned(infos[i])
      requires forall i, j :: 0 <= i < j < |infos| ==> infos[i] != infos[j]
      requires Distinct(order)
      requires forall k :: 0 <= k < |order| ==> order[k] < Entries(e) && Posts(Roles(e)[order[k]], skipsTimer)
      requires sqes == Sqes(Roles(e), infos, skipsTimer) && handles == map[infos[LastIo(e)] := current]
      modifies this`requestsToReap, this`results, this`forwarded
      ensures forwarded == old(forwarded) + if LastIo(e) in order then [current] else []
      ensures forall k :: 0 <= k < |order| ==> infos[order[k]] in results && results[infos[order[k]]] == res[k]
      ensures requestsToReap == old(requestsToReap) - |order|
    {
      var j := 0;
      ghost var last := LastIo(e);
      while j < |order|
        invariant 0 <= j <= |order| && requestsToReap == old(requestsToReap) - j
        invariant forwarded == old(forwarded) + Woken(order, j, last, current)
        invariant Filed(infos, order, res, j, results)
      {
        var i := order[j];
        RoleResumes(e, infos, i, skipsTimer, current);
        WokenStep(order, j, last, current);
        FiledStep(infos, order, res, j, results);
        HandleCqEntry(sqes[i].UserData(), res[j]);
        j := j + 1;
      }
      assert order[..j] == order;
    }
  }

  /** What the first j completions have made ready. */
  function Woken(order: seq<nat>, j: nat, last: nat, current: Handle): seq<Handle>
    requires j <= |order|
  {
    if last in order[..j] then [current] else []
  }

  lemma WokenStep(order: seq<nat>, j: nat, last: nat, current: Handle)
    requires j < |order| && Distinct(order)
    ensures Woken(order, j + 1, last, current) == Woken(order, j, last, current) + if order[j] == last then [current] else []
  {
    assert order[..j + 1] == order[..j] + [order[j]];
  }

  /** The results of the first j completions are where they belong. */
  ghost predicate Filed(infos: seq<Word64>, order: seq<nat>, res: seq<int>, j: nat, results: map<Word64, int>)
    requires j <= |order| == |res| && forall k :: 0 <= k < |order| ==> order[k] < |infos|
  {
    forall k :: 0 <= k < j ==> infos[order[k]] in results && results[infos[order[k]]] == res[k]
  }

  lemma FiledStep(infos: seq<Word64>, order: seq<nat>, res: seq<int>, j: nat, results: map<Word64, int>)
    requires j < |order| == |res| && Distinct(order) && forall k :: 0 <= k < |order| ==> order[k] < |infos|
    requires forall i, j :: 0 <= i < j < |infos| ==> infos[i] != infos[j]
    requires Filed(infos, order, res, j, results)
    ensures Filed(infos, order, res, j + 1, results[infos[order[j]] := res[j]])
  {
    assert forall k :: 0 <= k < j ==> order[k] != order[j] && infos[order[k]] != infos[order[j]];
  }

  /** Which coroutine, if any, the completion of entry i resumes. */
  lemma RoleResumes(e: Expr, infos: seq<Word64>, i: nat, skipsTimer: bool, current: Handle)
    requires Supported(e) && |infos| == Entries(e) && i < Entries(e) && Posts(Roles(e)[i], skipsTimer)
    requires forall j :: 0 <= j < |infos| ==> Aligned(infos[j])
    ensures var data, handles := RoleSqe(Roles(e)[i], infos[i], skipsTimer).UserData(), map[infos[LastIo(e)] := current];
      && RESERVED_NONE <= data < 0x1_0000_0000_0000_0000 && TagOf(data) < MSG_RING && PointerOf(data) == infos[i]
      && (TagOf(data) == TASK_INFO_PTR ==> i == LastIo(e))
      && StoresResult(data) && Resumes(data, handles) == if i == LastIo(e) then [current] else []
  {
    OneResumes(e);
    DataOf(Roles(e)[i], infos[i], skipsTimer);
  }

  predicate StoresResult(data: Word64) {
    data >= RESERVED_NONE && (TagOf(data) == TASK_INFO_PTR || TagOf(data) == TASK_INFO_PTR_LINK_SQE)
  }

  /** The coroutines that a completion makes ready. */
  function Resumes(data: Word64, handles: map<Word64, Handle>): seq<Handle> {
    if data < RESERVED_NONE || TagOf(data) == TASK_INFO_PTR_LINK_SQE then []
    else if TagOf(data) == TASK_INFO_PTR then
      if PointerOf(data) in handles then [handles[PointerOf(data)]] else []
    else [PointerOf(data)]
  }

  // ----- what the expression means for its entries

  datatype Role =
    | Final        // resumes the coroutine
    | Linked       // followed by another entry of the chain; stores its result only
    | TimedFinal   // resumes the coroutine, and is linked to its timer
    | Timer

  function RoleSqe(role: Role, info: Word64, skipsTimer: bool): Sqe {
    match role
    case Final => Sqe(info, TASK_INFO_PTR, false, false)
    case Linked => Sqe(info, TASK_INFO_PTR_LINK_SQE, true, false)
    case TimedFinal => Sqe(info, TASK_INFO_PTR, true, false)
    case Timer =>
      if skipsTimer then Sqe(info, TASK_INFO_PTR, false, true)
      else Sqe(info, TASK_INFO_PTR_LINK_SQE, false, false)
  }

  function Sealed(s: Sqe): Sqe {
    s.(link := true, tag := BitOr(s.tag, TASK_INFO_PTR_LINK_SQE))
  }

  function LastIo(e: Expr): (i: nat)
    ensures i < Entries(e)
  {
    if e.And? then Entries(e.lhs) + LastIo(e.rhs) else 0
  }

  function Seal(roles: seq<Role>, i: nat): seq<Role> {
    if i < |roles| then roles[i := Linked] else roles
  }

  function Roles(e: Expr): (r: seq<Role>)
    ensures |r| == Entries(e)
  {
    match e
    case Io => [Final]
    case Timeout => [TimedFinal, Timer]
    case And(l, r) => Seal(Roles(l), LastIo(l)) + Roles(r)
  }

  function Sqes(roles: seq<Role>, infos: seq<Word64>, skipsTimer: bool): (s: seq<Sqe>)
    requires |roles| == |infos|
    ensures |s| == |roles|
  {
    seq(|roles|, i requires 0 <= i < |roles| => RoleSqe(roles[i], infos[i], skipsTimer))
  }

  lemma Suffix<T>(a: seq<T>, b: seq<T>)
    ensures (a + b)[|a|..] == b
  {
  }

  /** Entry j is the timer of a timeout. */
  predicate IsTimer(e: Expr, j: int) {
    match e
    case Io => false
    case Timeout => j == 1
    case And(l, r) => if j < Entries(l) then IsTimer(l, j) else IsTimer(r, j - Entries(l))
  }

  /** The last operand is a timeout. */
  predicate EndsTimed(e: Expr) {
    if e.And? then EndsTimed(e.rhs) else e.Timeout?
  }

  /** What entry j must be: an operand is linked to what follows it, a timer to nothing. */
  ghost predicate EntryOk(q: Sqe, e: Expr, j: nat, info: Word64, skipsTimer: bool) {
    && q.info == info
    && (q.link <==> !IsTimer(e, j) && (j != LastIo(e) || EndsTimed(e)))
    && (q.skip <==> IsTimer(e, j) && skipsTimer)
    && q.tag == if j == LastIo(e) || (IsTimer(e, j) && skipsTimer) then 0 else 2
  }

  /** Each entry but the last is linked to the next one. */
  ghost predicate Chained(q: seq<Sqe>) {
    forall j :: 0 <= j < |q| ==> (q[j].link <==> j < |q| - 1)
  }

  ghost predicate Evaluated(q: seq<Sqe>, e: Expr, infos: seq<Word64>, skipsTimer: bool) {
    && |q| == |infos| == Entries(e)
    && (forall j :: 0 <= j < |q| ==> EntryOk(q[j], e, j, infos[j], skipsTimer))
    && (Chained(q) <==> TimeoutOnlyLast(e))
  }

  /** `last_io` is the last entry that is not a timer. */
  lemma {:induction false} LastIoIsLast(e: Expr)
    ensures !IsTimer(e, LastIo(e)) && forall j :: LastIo(e) < j < Entries(e) ==> IsTimer(e, j)
  {
    if e.And? {
      LastIoIsLast(e.rhs);
      forall j | LastIo(e) < j < Entries(e) ensures IsTimer(e, j) {
        assert IsTimer(e.rhs, j - Entries(e.lhs));
      }
    }
  }

  function RoleAt(e: Expr, j: nat): Role {
    if IsTimer(e, j) then Timer
    else if j != LastIo(e) then Linked
    else if EndsTimed(e) then TimedFinal else Final
  }

  lemma SealedAt(a: seq<Role>, b: seq<Role>, i: nat, j: nat)
    requires j < |a| + |b|
    ensures (Seal(a, i) + b)[j] == if j >= |a| then b[j - |a|] else if j == i then Linked else a[j]
  {
  }

  lemma RoleAtAnd(l: Expr, r: Expr, j: nat)
    ensures var n := Entries(l);
      RoleAt(And(l, r), j) ==
        if j >= n then RoleAt(r, j - n) else if IsTimer(l, j) then Timer else Linked
  {
  }

  lemma {:induction false} RolesAre(e: Expr, j: nat)
    requires j < Entries(e)
    ensures Roles(e)[j] == RoleAt(e, j)
    decreases e, 1
  {
    if e.And? {
      BothRoles(e.lhs, e.rhs, j);
    }
  }

  lemma {:induction false} BothRoles(l: Expr, r: Expr, j: nat)
    requires j < Entries(l) + Entries(r)
    ensures Roles(And(l, r))[j] == RoleAt(And(l, r), j)
    decreases And(l, r), 0
  {
    var a, b, n := Roles(l), Roles(r), Entries(l);
    LastIoIsLast(l);
    RoleAtAnd(l, r, j);
    SealedAt(a, b, LastIo(l), j);
    if j < n { RolesAre(l, j); } else { RolesAre(r, j - n); }
    assert Roles(And(l, r)) == Seal(a, LastIo(l)) + b;
  }

  lemma RoleEntry(e: Expr, j: nat, info: Word64, skipsTimer: bool)
    requires j < Entries(e)
    ensures EntryOk(RoleSqe(RoleAt(e, j), info, skipsTimer), e, j, info, skipsTimer)
  {
    LastIoIsLast(e);
  }

  /** The entries of an expression, one by one, and the chain they form. */
  lemma EntriesAre(e: Expr, infos: seq<Word64>, skipsTimer: bool)
    requires Supported(e) && |infos| == Entries(e)
    ensures Evaluated(Sqes(Roles(e), infos, skipsTimer), e, infos, skipsTimer)
  {
    var q := Sqes(Roles(e), infos, skipsTimer);
    forall j | 0 <= j < |q| ensures EntryOk(q[j], e, j, infos[j], skipsTimer) {
      RolesAre(e, j);
      RoleEntry(e, j, infos[j], skipsTimer);
    }
    OneChainIff(e);
    ChainOfSqes(Roles(e), infos, skipsTimer);
  }

  lemma ChainOfSqes(roles: seq<Role>, infos: seq<Word64>, skipsTimer: bool)
    requires |roles| == |infos|
    ensures Chained(Sqes(roles, infos, skipsTimer)) <==> OneChain(roles)
  {
    var q := Sqes(roles, infos, skipsTimer);
    assert forall j :: 0 <= j < |q| ==> (q[j].link <==> roles[j] == Linked || roles[j] == TimedFinal);
  }

  /** Whether an entry posts a completion. */
  predicate Posts(role: Role, skipsTimer: bool) {
    role != Timer || !skipsTimer
  }

  /** The entries of a chain that post a completion, in order. */
  function Posting(roles: seq<Role>, skipsTimer: bool): seq<nat> {
    if |roles| == 0 then []
    else Posting(roles[..|roles| - 1], skipsTimer)
         + if Posts(roles[|roles| - 1], skipsTimer) then [|roles| - 1] else []
  }

  lemma PostingLeaf(skipsTimer: bool)
    ensures |Posting(Roles(Io), skipsTimer)| == 1
    ensures |Posting(Roles(Timeout), skipsTimer)| == if skipsTimer then 1 else 2
  {
    assert [Final][..0] == [] && [TimedFinal, Timer][..1] == [TimedFinal] && [TimedFinal][..0] == [];
  }

  lemma {:induction false} PostingConcat(a: seq<Role>, b: seq<Role>, skipsTimer: bool)
    ensures |Posting(a + b, skipsTimer)| == |Posting(a, skipsTimer)| + |Posting(b, skipsTimer)|
  {
    if |b| == 0 {
      assert a + b == a;
    } else {
      assert (a + b)[..|a + b| - 1] == a + b[..|b| - 1];
      PostingConcat(a, b[..|b| - 1], skipsTimer);
    }
  }

  lemma {:induction false} PostingSealed(roles: seq<Role>, i: nat, skipsTimer: bool)
    requires i < |roles| ==> roles[i] != Timer
    ensures |Posting(Seal(roles, i), skipsTimer)| == |Posting(roles, skipsTimer)|
  {
    if |roles| > 0 {
      var n := |roles| - 1;
      assert Seal(roles, i)[..n] == Seal(roles[..n], i);
      PostingSealed(roles[..n], i, skipsTimer);
    }
  }

  lemma {:induction false} PostingAnd(l: Expr, r: Expr, skipsTimer: bool)
    requires Supported(And(l, r))
    ensures |Posting(Roles(And(l, r)), skipsTimer)| == |Posting(Roles(l), skipsTimer)| + |Posting(Roles(r), skipsTimer)|
  {
    OneResumes(l);
    PostingSealed(Roles(l), LastIo(l), skipsTimer);
    PostingConcat(Seal(Roles(l), LastIo(l)), Roles(r), skipsTimer);
  }

  lemma {:induction false} PostingMembers(roles: seq<Role>, skipsTimer: bool)
    ensures Distinct(Posting(roles, skipsTimer))
    ensures forall i: nat :: i in Posting(roles, skipsTimer) <==> i < |roles| && Posts(roles[i], skipsTimer)
  {
    if |roles| > 0 {
      var n := |roles| - 1;
      PostingMembers(roles[..n], skipsTimer);
      if Posts(roles[n], skipsTimer) {
        DistinctConcat(Posting(roles[..n], skipsTimer), [n]);
      }
    }
  }

  /** Exactly one entry of a supported expression resumes the coroutine: the one of `last_io`. */
  lemma {:induction false} OneResumes(e: Expr)
    requires Supported(e)
    ensures forall i :: 0 <= i < Entries(e) ==> (Roles(e)[i] == Final || Roles(e)[i] == TimedFinal <==> i == LastIo(e))
  {
    if e.And? {
      OneResumes(e.lhs);
      OneResumes(e.rhs);
      var a, b := Seal(Roles(e.lhs), LastIo(e.lhs)), Roles(e.rhs);
      forall i | 0 <= i < Entries(e)
        ensures Roles(e)[i] == Final || Roles(e)[i] == TimedFinal <==> i == LastIo(e)
      {
        assert Roles(e)[i] == if i < |a| then a[i] else b[i - |a|];
      }
    }
  }

  lemma LastIsFinal(e: Expr)
    requires Supported(e)
    ensures Roles(e)[LastIo(e)] == Final || Roles(e)[LastIo(e)] == TimedFinal
  {
    OneResumes(e);
  }

  /** A timeout occurs at most as the last operand. */
  predicate TimeoutOnlyLast(e: Expr) {
    e.And? ==> NoTimeout(e.lhs) && TimeoutOnlyLast(e.rhs)
  }

  predicate NoTimeout(e: Expr) {
    match e
    case Io => true
    case Timeout => false
    case And(l, r) => NoTimeout(l) && NoTimeout(r)
  }

  /** The kernel runs the entries as one chain: each but the last is linked to the next. */
  ghost predicate OneChain(roles: seq<Role>) {
    forall i :: 0 <= i < |roles| ==> ((roles[i] == Linked || roles[i] == TimedFinal) <==> i < |roles| - 1)
  }

  /** A timeout followed by another operand: supported, but not one chain. */
  lemma TimeoutInTheMiddle()
    ensures var e := And(And(Io, Timeout), Io); Supported(e) && !OneChain(Roles(e)) && LastIo(e) == 3
  {
    var e := And(And(Io, Timeout), Io);
    assert Roles(And(Io, Timeout)) == [Linked, TimedFinal, Timer];
    assert Roles(e) == [Linked, Linked, Timer, Final];
    assert Roles(e)[2] == Timer;
  }

  ghost predicate AllLinked(roles: seq<Role>) {
    forall i :: 0 <= i < |roles| ==> roles[i] == Linked || roles[i] == TimedFinal
  }

  lemma AllLinkedConcat(a: seq<Role>, b: seq<Role>)
    ensures AllLinked(a + b) <==> AllLinked(a) && AllLinked(b)
  {
    assert forall i :: 0 <= i < |a| ==> (a + b)[i] == a[i];
    assert forall i :: 0 <= i < |b| ==> (a + b)[|a| + i] == b[i];
  }

  lemma ChainConcat(a: seq<Role>, b: seq<Role>)
    requires |b| > 0
    ensures OneChain(a + b) <==> AllLinked(a) && OneChain(b)
  {
    var c := a + b;
    assert forall i :: 0 <= i < |a| ==> c[i] == a[i];
    assert forall i :: 0 <= i < |b| ==> c[|a| + i] == b[i];
  }

  /** One chain is what the expression becomes exactly when no timeout is followed by anything. */
  lemma {:induction false} OneChainIff(e: Expr)
    requires Supported(e)
    ensures OneChain(Roles(e)) <==> TimeoutOnlyLast(e)
  {
    if e.And? {
      SealedLeft(e.lhs);
      OneChainIff(e.rhs);
      ChainConcat(AsLeft(e.lhs), Roles(e.rhs));
    }
  }

  /** The entries of an expression that is the left operand of another one. */
  function AsLeft(e: Expr): seq<Role> {
    Seal(Roles(e), LastIo(e))
  }

  lemma {:induction false} SealedLeft(e: Expr)
    requires Supported(e)
    ensures NoTimeout(e) <==> AllLinked(AsLeft(e))
  {
    match e
    case Io => SealedLeaf();
    case Timeout => SealedLeaf();
    case And(l, r) =>
      SealedLeft(l);
      SealedLeft(r);
      AllLinkedConcat(AsLeft(l), AsLeft(r));
      SealedBoth(l, r);
  }

  lemma SealedLeaf()
    ensures AllLinked(AsLeft(Io)) && !AllLinked(AsLeft(Timeout))
  {
    assert AsLeft(Timeout) == Seal([TimedFinal, Timer], 0);
    assert Seal([TimedFinal, Timer], 0)[1] == Timer;
  }

  lemma {:induction false} SealedBoth(l: Expr, r: Expr)
    ensures AsLeft(And(l, r)) == AsLeft(l) + AsLeft(r)
  {
    var a, b := AsLeft(l), Roles(r);
    assert Roles(And(l, r)) == a + b && LastIo(And(l, r)) == |a| + LastIo(r);
    SealRight(a, b, LastIo(r));
  }

  lemma SealRight(a: seq<Role>, b: seq<Role>, i: nat)
    requires i < |b|
    ensures Seal(a + b, |a| + i) == a + Seal(b, i)
  {
  }

  lemma SealedRole(role: Role, info: Word64, skipsTimer: bool)
    requires role == Final || role == TimedFinal
    ensures Sealed(RoleSqe(role, info, skipsTimer)) == RoleSqe(Linked, info, skipsTimer)
  {
  }

  lemma Splice<T>(s: seq<T>, a: seq<T>, b: seq<T>, i: nat, x: T)
    requires i < |a|
    ensures (s + a + b)[|s| + i] == a[i] && (s + a + b)[|s| + i := x] == s + (a[i := x] + b)
  {
  }

  lemma SealedSqes(roles: seq<Role>, infos: seq<Word64>, i: nat, skipsTimer: bool)
    requires |roles| == |infos| && i < |roles| && (roles[i] == Final || roles[i] == TimedFinal)
    ensures var s := Sqes(roles, infos, skipsTimer); s[i := Sealed(s[i])] == Sqes(Seal(roles, i), infos, skipsTimer)
  {
    SealedRole(roles[i], infos[i], skipsTimer);
  }

  lemma {:induction false} SqesConcat(a: seq<Role>, b: seq<Role>, infos: seq<Word64>, skipsTimer: bool)
    requires |infos| == |a| + |b|
    ensures Sqes(a + b, infos, skipsTimer) == Sqes(a, infos[..|a|], skipsTimer) + Sqes(b, infos[|a|..], skipsTimer)
  {
  }

  /** Linking the last awaiter of the left operand turns the entries into those of the whole. */
  lemma {:induction false} SealsLeft(
      before: seq<Sqe>, left: seq<Role>, right: seq<Role>, i: nat, infos: seq<Word64>, skipsTimer: bool)
    requires |infos| == |left| + |right| && i < |left| && (left[i] == Final || left[i] == TimedFinal)
    ensures
      var a, b := Sqes(left, infos[..|left|], skipsTimer), Sqes(right, infos[|left|..], skipsTimer);
      && (before + a + b)[|before| + i] == a[i]
      && (before + a + b)[|before| + i := Sealed(a[i])] == before + Sqes(Seal(left, i) + right, infos, skipsTimer)
  {
    var a, b := Sqes(left, infos[..|left|], skipsTimer), Sqes(right, infos[|left|..], skipsTimer);
    Splice(before, a, b, i, Sealed(a[i]));
    SealedSqes(left, infos[..|left|], i, skipsTimer);
    SqesConcat(Seal(left, i), right, infos, skipsTimer);
  }

  /** The entries after both operands have been evaluated. */
  function Operands(before: seq<Sqe>, l: Expr, r: Expr, infos: seq<Word64>, skipsTimer: bool): seq<Sqe>
    requires |infos| == Entries(l) + Entries(r)
  {
    before + Sqes(Roles(l), infos[..Entries(l)], skipsTimer) + Sqes(Roles(r), infos[Entries(l)..], skipsTimer)
  }

  lemma {:induction false} LinksOperands(before: seq<Sqe>, l: Expr, r: Expr, infos: seq<Word64>, skipsTimer: bool)
    requires Supported(l) && |infos| == Entries(l) + Entries(r)
    ensures var s, left := Operands(before, l, r, infos, skipsTimer), |before| + LastIo(l);
      && left < |s|
      && s[left := Sealed(s[left])] == before + Sqes(Seal(Roles(l), LastIo(l)) + Roles(r), infos, skipsTimer)
  {
    LastIsFinal(l);
    SealsLeft(before, Roles(l), Roles(r), LastIo(l), infos, skipsTimer);
  }

  lemma {:induction false} SameLength(a: seq<nat>, b: seq<nat>)
    requires Distinct(a) && Distinct(b) && (forall n: nat :: n in a <==> n in b)
    ensures |a| == |b|
  {
    Cardinality(a);
    Cardinality(b);
    assert Members(a) == Members(b);
  }

  function Members(a: seq<nat>): set<nat> {
    set n | n in a
  }

  lemma {:induction false} Cardinality(a: seq<nat>)
    requires Distinct(a)
    ensures |Members(a)| == |a|
  {
    if |a| > 0 {
      DistinctTail(a);
      Cardinality(a[1..]);
      assert Members(a) == Members(a[1..]) + {a[0]};
    } else {
      assert Members(a) == {};
    }
  }

  lemma AllPosted(e: Expr, order: seq<nat>, skipsTimer: bool)
    requires Supported(e) && Distinct(order)
    requires forall i: nat :: i in order <==> i < Entries(e) && Posts(Roles(e)[i], skipsTimer)
    ensures |order| == |Posting(Roles(e), skipsTimer)| && LastIo(e) in order
    ensures forall k :: 0 <= k < |order| ==> order[k] < Entries(e) && Posts(Roles(e)[order[k]], skipsTimer)
  {
    PostingMembers(Roles(e), skipsTimer);
    SameLength(order, Posting(Roles(e), skipsTimer));
    LastIsFinal(e);
    assert forall k :: 0 <= k < |order| ==> order[k] in order;
  }

  /**
    From the expression to the resumption: whatever order the completions come in, the
    awaiting coroutine is resumed exactly once, with the result of the last awaiter, and
    the worker has nothing left to reap.
   */
  method AwaitChain(e: Expr, infos: seq<Word64>, current: Handle, skipsTimer: bool, order: seq<nat>, res: seq<int>)
    returns (forwarded: seq<Handle>, result: int, requestsToReap: int)
    requires Supported(e) && |infos| == Entries(e) && |res| == |order|
    requires forall i :: 0 <= i < |infos| ==> Aligned(infos[i])
    requires forall i, j :: 0 <= i < j < |infos| ==> infos[i] != infos[j]
    requires Distinct(order) && forall i: nat :: i in order <==> i < Entries(e) && Posts(Roles(e)[i], skipsTimer)
    ensures forwarded == [current] && requestsToReap == 0
    ensures forall k :: 0 <= k < |order| && order[k] == LastIo(e) ==> result == res[k]
  {
    var w := new Worker(skipsTimer);
    var last := w.Evaluate(e, infos);
    w.AwaitSuspend(infos[last], current);
    AllPosted(e, order, skipsTimer);
    w.Reap(e, infos, current, order, res);
    var k :| 0 <= k < |order| && order[k] == last;
    assert infos[order[k]] in w.results;
    forwarded, result, requestsToReap := w.forwarded, w.results[infos[last]], w.requestsToReap;
  }

  /** What the tag of each role tells the completion handler. */
  lemma DataOf(role: Role, info: Word64, skipsTimer: bool)
    requires Aligned(info) && Posts(role, skipsTimer)
    ensures var data := RoleSqe(role, info, skipsTimer).UserData();
      && RESERVED_NONE <= data < 0x1_0000_0000_0000_0000 && PointerOf(data) == info
      && TagOf(data) == if role == Final || role == TimedFinal then TASK_INFO_PTR else TASK_INFO_PTR_LINK_SQE
  {
    match role
    case Final => PackRoundTrip(info, TASK_INFO_PTR);
    case TimedFinal => PackRoundTrip(info, TASK_INFO_PTR);
    case Linked => PackRoundTrip(info, TASK_INFO_PTR_LINK_SQE);
    case Timer => PackRoundTrip(info, TASK_INFO_PTR_LINK_SQE);
  }
}
