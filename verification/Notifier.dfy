/** The notification manager as a state machine: calls to `wait` and `notify` run concurrently, and every lock,
    check, sleep and signal is a step of its own. */
module Notifier {
  import opened Wrappers
  import opened Basics

  /** Where a call stands. Calls are numbered in order of arrival; a waiter's number also names its notifier. */
  datatype Pc =
    | WaitEntry        // `wait` was called
    | WaitLocked       // holds the pool
    | Parked           // its notifier is in the pool; about to lock its flag
    | Checking         // holds its flag's lock
    | Dozing           // holds it and read false
    | Asleep           // on the condition variable
    | Woken            // about to lock its flag again
    | Returned
    | NotifyEntry      // `notify` was called
    | NotifyLocked     // holds the pool
    | Waking(w: nat)   // holds the pool and popped `w`; about to lock its flag
    | Setting(w: nat)  // holds both locks
    | Signalling(w: nat) // set the flag
    | Unlocking(w: nat)  // signalled
    | Leaving          // about to release the pool
    | Notified

  /** `owner` holds the pool; `locks` says who holds the lock of a waiter's flag; `flags` are the waiters notified;
      `released` are the waiters some notification was spent on. */
  datatype State = State(
    pcs: seq<Pc>,
    owner: Option<nat>,
    stack: seq<nat>,
    pending: nat,
    locks: map<nat, nat>,
    flags: set<nat>,
    released: set<nat>)

  datatype Event = CallWait | CallNotify | Go(i: nat) | Spurious(i: nat)

  const INIT := State([], None, [], 0, map[], {}, {})

  function At(s: State, i: nat, pc: Pc): State
    requires i < |s.pcs|
  {
    s.(pcs := s.pcs[i := pc])
  }

  /** The next step of call `i`; nothing if it is blocked or over. */
  function Next(s: State, i: nat): Option<State>
    requires i < |s.pcs|
  {
    match s.pcs[i]
    case WaitEntry => if s.owner.Some? then None else Some(At(s, i, WaitLocked).(owner := Some(i)))
    case WaitLocked =>
      if s.pending > 0 then
        Some(At(s, i, Returned).(owner := None, pending := s.pending - 1, released := s.released + {i}))
      else Some(At(s, i, Parked).(owner := None, stack := s.stack + [i]))
    case Parked => if i in s.locks then None else Some(At(s, i, Checking).(locks := s.locks[i := i]))
    case Checking =>
      if i in s.flags then Some(At(s, i, Returned).(locks := s.locks - {i})) else Some(At(s, i, Dozing))
    case Dozing => Some(At(s, i, Asleep).(locks := s.locks - {i}))
    case Asleep => None
    case Woken => if i in s.locks then None else Some(At(s, i, Checking).(locks := s.locks[i := i]))
    case Returned => None
    case NotifyEntry => if s.owner.Some? then None else Some(At(s, i, NotifyLocked).(owner := Some(i)))
    case NotifyLocked =>
      if s.stack == [] then Some(At(s, i, Leaving).(pending := s.pending + 1))
      else
        var n := |s.stack| - 1;
        Some(At(s, i, Waking(s.stack[n])).(stack := s.stack[..n], released := s.released + {s.stack[n]}))
    case Waking(w) => if w in s.locks then None else Some(At(s, i, Setting(w)).(locks := s.locks[w := i]))
    case Setting(w) => Some(At(s, i, Signalling(w)).(flags := s.flags + {w}))
    case Signalling(w) =>
      if w < |s.pcs| && s.pcs[w].Asleep? then Some(At(At(s, w, Woken), i, Unlocking(w)))
      else Some(At(s, i, Unlocking(w)))
    case Unlocking(w) => Some(At(s, i, Leaving).(locks := s.locks - {w}))
    case Leaving => Some(At(s, i, Notified).(owner := None))
    case Notified => None
  }

  /** Calls may arrive, and sleepers may wake without a signal, at any time. */
  function Step(s: State, e: Event): Option<State> {
    match e
    case CallWait => Some(s.(pcs := s.pcs + [WaitEntry]))
    case CallNotify => Some(s.(pcs := s.pcs + [NotifyEntry]))
    case Go(i) => if i < |s.pcs| then Next(s, i) else None
    case Spurious(i) => if i < |s.pcs| && s.pcs[i].Asleep? then Some(At(s, i, Woken)) else None
  }

  /** The state after the events, if all of them could happen. */
  ghost function Run(s: State, es: seq<Event>): Option<State>
    decreases |es|
  {
    if es == [] then Some(s)
    else
      match Step(s, es[0])
      case None => None
      case Some(s') => Run(s', es[1..])
  }

  // ----- the invariant

  predicate HoldsPool(pc: Pc) {
    pc.WaitLocked? || pc.NotifyLocked? || pc.Leaving? || Targets(pc)
  }

  /** A notifier at work on a waiter. */
  predicate Targets(pc: Pc) {
    pc.Waking? || Touches(pc)
  }

  predicate Touches(pc: Pc) {
    pc.Setting? || pc.Signalling? || pc.Unlocking?
  }

  /** A waiter past the pool. */
  predicate Entered(pc: Pc) {
    pc.Parked? || pc.Checking? || pc.Dozing? || pc.Asleep? || pc.Woken? || pc.Returned?
  }

  /** A notifier past the pool. */
  predicate Served(pc: Pc) {
    Targets(pc) || pc.Leaving? || pc.Notified?
  }

  predicate IsWait(pc: Pc) {
    pc.WaitEntry? || pc.WaitLocked? || Entered(pc)
  }

  ghost predicate Holds(s: State, i: nat, w: nat) {
    w in s.locks && s.locks[w] == i
  }

  ghost predicate OwnerAt(s: State, pc: Pc) {
    s.owner.Some? && s.owner.value < |s.pcs| && s.pcs[s.owner.value] == pc
  }

  /** What holds of every call, where it stands. */
  ghost predicate CallOk(s: State, i: nat)
    requires i < |s.pcs|
  {
    var pc := s.pcs[i];
    && (s.owner == Some(i) <==> HoldsPool(pc))
    && (Entered(pc) <==> i in s.released || i in s.stack)
    && (i in s.released ==> i !in s.stack)
    && (pc.Checking? || pc.Dozing? ==> Holds(s, i, i))
    && (Targets(pc) ==> pc.w in s.released)
    && (Touches(pc) ==> Holds(s, i, pc.w))
    && (pc.Returned? ==> i in s.released)
    && (i in s.released ==>
          pc.Returned? || i in s.flags || OwnerAt(s, Waking(i)) || OwnerAt(s, Setting(i)))
    && (pc.Dozing? ==> i !in s.flags)
    && (pc.Asleep? && i in s.flags ==> OwnerAt(s, Signalling(i)))
  }

  /** A flag's lock is held by its waiter, to check it, or by the notifier at work on it. */
  ghost predicate LockOk(s: State, w: nat)
    requires w in s.locks
  {
    var o := s.locks[w];
    && o < |s.pcs|
    && ((o == w && (s.pcs[w].Checking? || s.pcs[w].Dozing?)) || (Touches(s.pcs[o]) && s.pcs[o].w == w))
  }

  ghost function ServedCalls(pcs: seq<Pc>): set<nat> {
    set i | 0 <= i < |pcs| && Served(pcs[i])
  }

  ghost predicate Calls(s: State) {
    forall i: nat {:trigger CallOk(s, i)} :: i < |s.pcs| ==> CallOk(s, i)
  }

  ghost predicate Locks(s: State) {
    forall w {:trigger LockOk(s, w)} :: w in s.locks ==> LockOk(s, w)
  }

  ghost predicate InRange(s: State) {
    && (s.owner.Some? ==> s.owner.value < |s.pcs|)
    && (forall w :: w in s.released || w in s.flags || w in s.stack ==> w < |s.pcs|)
    && s.flags <= s.released && NoDuplicates(s.stack)
  }

  /** Notifications are spent on released waiters or pending, and none is pending while a waiter is parked. */
  ghost predicate Counted(s: State) {
    |ServedCalls(s.pcs)| == |s.released| + s.pending && (s.pending == 0 || s.stack == [])
  }

  ghost predicate Inv(s: State) {
    Calls(s) && Locks(s) && InRange(s) && Counted(s)
  }

  // ----- every step keeps it

  ghost predicate MayStep(s: State, i: nat, s': State) {
    Calls(s) && Locks(s) && InRange(s) && i < |s.pcs| && Next(s, i) == Some(s')
  }

  lemma PoolKept(s: State, i: nat, s': State, k: nat)
    requires MayStep(s, i, s') && k < |s.pcs|
    requires var pc := s.pcs[i]; pc.WaitEntry? || pc.NotifyEntry? || pc.Leaving?
    ensures CallOk(s', k)
  {
    assert CallOk(s, i) && CallOk(s, k);
  }

  lemma ParkKept(s: State, i: nat, s': State, k: nat)
    requires MayStep(s, i, s') && k < |s.pcs|
    requires var pc := s.pcs[i]; pc.WaitLocked?
    ensures CallOk(s', k)
  {
    assert CallOk(s, i) && CallOk(s, k);
  }

  lemma PopKept(s: State, i: nat, s': State, k: nat)
    requires MayStep(s, i, s') && k < |s.pcs|
    requires var pc := s.pcs[i]; pc.NotifyLocked?
    ensures CallOk(s', k)
  {
    assert CallOk(s, i) && CallOk(s, k);
  }

  lemma LockingKept(s: State, i: nat, s': State, k: nat)
    requires MayStep(s, i, s') && k < |s.pcs|
    requires var pc := s.pcs[i]; pc.Parked? || pc.Woken?
    ensures CallOk(s', k)
  {
    assert CallOk(s, i) && CallOk(s, k);
  }

  lemma CheckingKept(s: State, i: nat, s': State, k: nat)
    requires MayStep(s, i, s') && k < |s.pcs|
    requires var pc := s.pcs[i]; pc.Checking? || pc.Dozing?
    ensures CallOk(s', k)
  {
    assert CallOk(s, i) && CallOk(s, k);
  }

  lemma SetKept(s: State, i: nat, s': State, k: nat)
    requires MayStep(s, i, s') && k < |s.pcs|
    requires var pc := s.pcs[i]; pc.Waking? || pc.Setting?
    ensures CallOk(s', k)
  {
    assert CallOk(s, i) && CallOk(s, k);
    assert CallOk(s, s.pcs[i].w);
  }

  lemma SignalKept(s: State, i: nat, s': State, k: nat)
    requires MayStep(s, i, s') && k < |s.pcs|
    requires var pc := s.pcs[i]; pc.Signalling? || pc.Unlocking?
    ensures CallOk(s', k)
  {
    assert CallOk(s, i) && CallOk(s, k);
    assert CallOk(s, s.pcs[i].w);
  }

  lemma CallKept(s: State, i: nat, s': State, k: nat)
    requires MayStep(s, i, s') && k < |s.pcs|
    ensures CallOk(s', k)
  {
    match s.pcs[i]
    case WaitEntry | NotifyEntry | Leaving => PoolKept(s, i, s', k);
    case WaitLocked => ParkKept(s, i, s', k);
    case NotifyLocked => PopKept(s, i, s', k);
    case Parked | Woken => LockingKept(s, i, s', k);
    case Checking | Dozing => CheckingKept(s, i, s', k);
    case Waking(_) | Setting(_) => SetKept(s, i, s', k);
    case Signalling(_) | Unlocking(_) => SignalKept(s, i, s', k);
  }

  lemma WaiterLockKept(s: State, i: nat, s': State, w: nat)
    requires MayStep(s, i, s') && w in s'.locks && IsWait(s.pcs[i])
    ensures LockOk(s', w)
  {
    assert CallOk(s, i);
    assert w in s.locks ==> LockOk(s, w);
  }

  lemma NotifierLockKept(s: State, i: nat, s': State, w: nat)
    requires MayStep(s, i, s') && w in s'.locks && !IsWait(s.pcs[i])
    ensures LockOk(s', w)
  {
    assert CallOk(s, i);
    assert w in s.locks ==> LockOk(s, w);
  }

  lemma LockKept(s: State, i: nat, s': State, w: nat)
    requires MayStep(s, i, s') && w in s'.locks
    ensures LockOk(s', w)
  {
    if IsWait(s.pcs[i]) {
      WaiterLockKept(s, i, s', w);
    } else {
      NotifierLockKept(s, i, s', w);
    }
  }

  lemma RangeParked(s: State, i: nat, s': State)
    requires MayStep(s, i, s') && s.pcs[i].WaitLocked?
    ensures InRange(s')
  {
    assert CallOk(s, i);
  }

  lemma RangePopped(s: State, i: nat, s': State)
    requires MayStep(s, i, s') && s.pcs[i].NotifyLocked?
    ensures InRange(s')
  {
    if s.stack != [] {
      var n := |s.stack| - 1;
      assert s.stack[n] in s.stack;
      assert forall w :: w in s.stack[..n] ==> w in s.stack;
    }
  }

  lemma RangeSet(s: State, i: nat, s': State)
    requires MayStep(s, i, s') && s.pcs[i].Setting?
    ensures InRange(s')
  {
    assert CallOk(s, i);
  }

  lemma RangeSame(s: State, i: nat, s': State)
    requires i < |s.pcs| && Next(s, i) == Some(s')
    requires !s.pcs[i].WaitLocked? && !s.pcs[i].NotifyLocked? && !s.pcs[i].Setting?
    ensures |s'.pcs| == |s.pcs| && s'.stack == s.stack && s'.released == s.released && s'.flags == s.flags
    ensures s'.owner == s.owner || s'.owner == None || s'.owner == Some(i)
  {
  }

  lemma RangeKept(s: State, i: nat, s': State)
    requires MayStep(s, i, s')
    ensures InRange(s')
  {
    if s.pcs[i].WaitLocked? {
      RangeParked(s, i, s');
    } else if s.pcs[i].NotifyLocked? {
      RangePopped(s, i, s');
    } else if s.pcs[i].Setting? {
      RangeSet(s, i, s');
    } else {
      RangeSame(s, i, s');
    }
  }

  lemma CountPopped(s: State, i: nat, s': State)
    requires MayStep(s, i, s') && Counted(s) && s.pcs[i].NotifyLocked?
    ensures Counted(s')
  {
    ServedMore(s.pcs, i, s'.pcs[i]);
    if s.stack != [] {
      var w := s.stack[|s.stack| - 1];
      assert w in s.stack && CallOk(s, w);
    }
  }

  lemma ServedMore(pcs: seq<Pc>, i: nat, pc: Pc)
    requires i < |pcs| && !Served(pcs[i])
    ensures Served(pc) ==> |ServedCalls(pcs[i := pc])| == |ServedCalls(pcs)| + 1
    ensures !Served(pc) ==> ServedCalls(pcs[i := pc]) == ServedCalls(pcs)
  {
    if Served(pc) {
      assert ServedCalls(pcs[i := pc]) == ServedCalls(pcs) + {i};
    } else {
      assert ServedCalls(pcs[i := pc]) == ServedCalls(pcs);
    }
  }

  lemma CountParked(s: State, i: nat, s': State)
    requires MayStep(s, i, s') && Counted(s) && s.pcs[i].WaitLocked?
    ensures Counted(s')
  {
    assert CallOk(s, i);
    ServedMore(s.pcs, i, s'.pcs[i]);
  }

  ghost predicate SameCounts(s: State, s': State) {
    && s'.released == s.released && s'.pending == s.pending && s'.stack == s.stack
    && |s'.pcs| == |s.pcs| && forall k :: 0 <= k < |s.pcs| ==> Served(s'.pcs[k]) == Served(s.pcs[k])
  }

  lemma WaitSame(s: State, i: nat, s': State)
    requires i < |s.pcs| && Next(s, i) == Some(s') && IsWait(s.pcs[i]) && !s.pcs[i].WaitLocked?
    ensures SameCounts(s, s')
  {
  }

  lemma NotifySame(s: State, i: nat, s': State)
    requires i < |s.pcs| && Next(s, i) == Some(s') && !IsWait(s.pcs[i]) && !s.pcs[i].NotifyLocked?
    ensures SameCounts(s, s')
  {
  }

  lemma CountKept(s: State, i: nat, s': State)
    requires MayStep(s, i, s') && Counted(s)
    ensures Counted(s')
  {
    if s.pcs[i].NotifyLocked? {
      CountPopped(s, i, s');
    } else if s.pcs[i].WaitLocked? {
      CountParked(s, i, s');
    } else {
      if IsWait(s.pcs[i]) {
        WaitSame(s, i, s');
      } else {
        NotifySame(s, i, s');
      }
      assert ServedCalls(s'.pcs) == ServedCalls(s.pcs);
    }
  }

  lemma GoKeeps(s: State, i: nat, s': State)
    requires Inv(s) && i < |s.pcs| && Next(s, i) == Some(s')
    ensures Inv(s')
  {
    forall k: nat | k < |s'.pcs| ensures CallOk(s', k) {
      CallKept(s, i, s', k);
    }
    forall w | w in s'.locks ensures LockOk(s', w) {
      LockKept(s, i, s', w);
    }
    RangeKept(s, i, s');
    CountKept(s, i, s');
  }

  /** A new call changes nothing for the others. */
  lemma ArrivalKeeps(s: State, pc: Pc, s': State)
    requires Inv(s) && (pc.WaitEntry? || pc.NotifyEntry?) && s' == s.(pcs := s.pcs + [pc])
    ensures Inv(s')
  {
    forall k: nat | k < |s'.pcs| ensures CallOk(s', k) {
      assert k < |s.pcs| ==> CallOk(s, k);
    }
    forall w | w in s'.locks ensures LockOk(s', w) {
      assert LockOk(s, w);
    }
    assert ServedCalls(s'.pcs) == ServedCalls(s.pcs);
  }

  /** A sleeper may wake by itself. */
  lemma SpuriousKeeps(s: State, i: nat, s': State)
    requires Inv(s) && i < |s.pcs| && s.pcs[i].Asleep? && s' == At(s, i, Woken)
    ensures Inv(s')
  {
    forall k: nat | k < |s'.pcs| ensures CallOk(s', k) {
      assert CallOk(s, k);
    }
    forall w | w in s'.locks ensures LockOk(s', w) {
      assert LockOk(s, w);
    }
    assert ServedCalls(s'.pcs) == ServedCalls(s.pcs);
  }

  lemma OtherKeeps(s: State, e: Event, s': State)
    requires Inv(s) && !e.Go? && Step(s, e) == Some(s')
    ensures Inv(s')
  {
    match e
    case CallWait => ArrivalKeeps(s, WaitEntry, s');
    case CallNotify => ArrivalKeeps(s, NotifyEntry, s');
    case Spurious(i) => SpuriousKeeps(s, i, s');
  }

  lemma InitOk()
    ensures Inv(INIT)
  {
    assert ServedCalls(INIT.pcs) == {};
  }

  /** Every state that any interleaving leads to is in order. */
  lemma {:induction false} RunKeeps(s: State, es: seq<Event>)
    requires Inv(s) && Run(s, es).Some?
    ensures Inv(Run(s, es).value)
    decreases |es|
  {
    if es != [] {
      var s' := Step(s, es[0]).value;
      if es[0].Go? {
        GoKeeps(s, es[0].i, s');
      } else {
        OtherKeeps(s, es[0], s');
      }
      RunKeeps(s', es[1..]);
    }
  }

  // ----- who is released

  ghost predicate Above(stack: seq<nat>, a: nat, b: nat) {
    exists j, k :: 0 <= j < k < |stack| && stack[j] == a && stack[k] == b
  }

  /** `b` was released, or is parked above `a`. */
  ghost predicate Over(s: State, a: nat, b: nat) {
    b in s.released || (a !in s.released && Above(s.stack, a, b))
  }

  /** Nobody leaves the stack. */
  ghost predicate Stays(s: State, s': State) {
    s.stack <= s'.stack && s.released <= s'.released
    && forall w :: w in s.stack && w in s'.released ==> w in s.released
  }

  /** The top of the stack is released. */
  ghost predicate Pops(s: State, s': State) {
    && s.stack != [] && s'.stack == s.stack[..|s.stack| - 1]
    && s'.released == s.released + {s.stack[|s.stack| - 1]}
  }

  lemma StackStep(s: State, i: nat, s': State)
    requires MayStep(s, i, s')
    ensures Stays(s, s') || Pops(s, s')
  {
    assert CallOk(s, i);
  }

  lemma KeepsOver(s: State, s': State, a: nat, b: nat)
    requires NoDuplicates(s.stack) && (Stays(s, s') || Pops(s, s')) && Over(s, a, b)
    ensures Over(s', a, b)
  {
    if b !in s.released {
      var j, k :| 0 <= j < k < |s.stack| && s.stack[j] == a && s.stack[k] == b;
      if Stays(s, s') || k < |s.stack| - 1 {
        assert s'.stack[j] == a && s'.stack[k] == b;
      }
    }
  }

  lemma {:induction false} RunKeepsOver(s: State, es: seq<Event>, a: nat, b: nat)
    requires Inv(s) && Run(s, es).Some? && Over(s, a, b)
    ensures Over(Run(s, es).value, a, b)
    decreases |es|
  {
    if es != [] {
      var s' := Step(s, es[0]).value;
      RunKeeps(s, [es[0]]);
      assert [es[0]][1..] == [] && Run(s', []) == Some(s');
      if es[0].Go? {
        StackStep(s, es[0].i, s');
        KeepsOver(s, s', a, b);
      }
      RunKeepsOver(s', es[1..], a, b);
    }
  }

  /** The pool is a stack: whoever parks while `a` is parked is released before `a`, in every interleaving. */
  lemma LastParkedFirst(s: State, b: nat, a: nat, es: seq<Event>)
    requires Inv(s) && b < |s.pcs| && s.pcs[b].WaitLocked? && a in s.stack
    requires Next(s, b).Some? && Run(Next(s, b).value, es).Some?
    ensures a in Run(Next(s, b).value, es).value.released ==> b in Run(Next(s, b).value, es).value.released
  {
    var s' := Next(s, b).value;
    GoKeeps(s, b, s');
    var j :| 0 <= j < |s.stack| && s.stack[j] == a;
    assert CallOk(s, a) && CallOk(s, b);
    assert s'.pcs[b].Parked? ==> s'.stack[j] == a && s'.stack[|s.stack|] == b;
    RunKeepsOver(s', es, a, b);
  }

  ghost function EnteredCalls(pcs: seq<Pc>): set<nat> {
    set i | 0 <= i < |pcs| && Entered(pcs[i])
  }

  lemma {:induction false} StackSize(stack: seq<nat>)
    requires NoDuplicates(stack)
    ensures |Elements(stack)| == |stack|
  {
    if stack != [] {
      var n := |stack| - 1;
      StackSize(stack[..n]);
      assert Elements(stack) == Elements(stack[..n]) + {stack[n]} && stack[n] !in stack[..n];
    }
  }

  lemma EnteredAre(s: State)
    requires Calls(s) && InRange(s)
    ensures |EnteredCalls(s.pcs)| == |s.released| + |s.stack|
  {
    forall i: nat | i < |s.pcs|
      ensures (Entered(s.pcs[i]) <==> i in s.released || i in s.stack) && (i in s.released ==> i !in s.stack)
    {
      assert CallOk(s, i);
    }
    StackSize(s.stack);
    assert EnteredCalls(s.pcs) == s.released + Elements(s.stack) && s.released !! Elements(s.stack);
  }

  /** In every interleaving, notifications past the pool are spent or pending, waiters past the pool are released or
      parked, pending and parked are never both positive, and a released waiter that sleeps is about to be woken. */
  lemma ReachableAccounts(es: seq<Event>, s: State)
    requires Run(INIT, es) == Some(s)
    ensures |ServedCalls(s.pcs)| == |s.released| + s.pending
    ensures |EnteredCalls(s.pcs)| == |s.released| + |s.stack|
    ensures s.pending == 0 || s.stack == []
    ensures forall i: nat :: i < |s.pcs| && s.pcs[i].Asleep? && i in s.released ==>
              OwnerAt(s, Waking(i)) || OwnerAt(s, Setting(i)) || OwnerAt(s, Signalling(i))
  {
    InitOk();
    RunKeeps(INIT, es);
    EnteredAre(s);
    forall i: nat | i < |s.pcs| && s.pcs[i].Asleep? && i in s.released
      ensures OwnerAt(s, Waking(i)) || OwnerAt(s, Setting(i)) || OwnerAt(s, Signalling(i))
    {
      assert CallOk(s, i);
    }
  }

  // ----- at rest

  /** No call can take a step. */
  ghost predicate Quiet(s: State) {
    forall i: nat :: i < |s.pcs| ==> Next(s, i).None?
  }

  ghost function Waits(pcs: seq<Pc>): set<nat> {
    set i | 0 <= i < |pcs| && IsWait(pcs[i])
  }

  ghost function Notifies(pcs: seq<Pc>): set<nat> {
    set i | 0 <= i < |pcs| && !IsWait(pcs[i])
  }

  ghost function Returns(pcs: seq<Pc>): set<nat> {
    set i | 0 <= i < |pcs| && pcs[i].Returned?
  }

  /** Whoever holds the pool can move, or waits for a waiter that can. */
  lemma OwnerMoves(s: State) returns (i: nat)
    requires Inv(s) && s.owner.Some?
    ensures i < |s.pcs| && Next(s, i).Some?
  {
    i := s.owner.value;
    assert CallOk(s, i);
    if s.pcs[i].Waking? && s.pcs[i].w in s.locks {
      var w := s.pcs[i].w;
      assert LockOk(s, w) && CallOk(s, s.locks[w]);
      i := w;
    }
  }

  /** At rest nobody holds the pool, */
  lemma QuietPool(s: State)
    requires Inv(s) && Quiet(s)
    ensures s.owner.None?
  {
    if s.owner.Some? {
      var i := OwnerMoves(s);
    }
  }

  /** and every call has returned, or is a waiter asleep in the pool. */
  lemma QuietCall(s: State, i: nat)
    requires Inv(s) && Quiet(s) && i < |s.pcs|
    ensures s.pcs[i].Returned? || s.pcs[i].Notified? || (s.pcs[i].Asleep? && i in s.stack)
    ensures s.pcs[i].Returned? <==> i in s.released
  {
    QuietPool(s);
    assert CallOk(s, i);
    assert i in s.locks ==> LockOk(s, i) && CallOk(s, s.locks[i]);
    assert Next(s, i).None?;
  }

  /** No notification is lost: when no call can take a step, as many waits have returned as there were calls of the
      rarer kind. */
  lemma NoneLost(es: seq<Event>, s: State)
    requires Run(INIT, es) == Some(s) && Quiet(s)
    ensures var waits := |Waits(s.pcs)|; var notifies := |Notifies(s.pcs)|;
            |Returns(s.pcs)| == if waits < notifies then waits else notifies
  {
    InitOk();
    RunKeeps(INIT, es);
    QuietCounts(s);
  }

  ghost predicate RestsAt(pc: Pc, released: bool, parked: bool) {
    && (pc.Returned? || pc.Notified? || (pc.Asleep? && parked))
    && (pc.Returned? <==> released) && (parked ==> pc.Asleep?)
  }

  ghost predicate AtRest(pcs: seq<Pc>, released: set<nat>, parked: set<nat>) {
    && (forall i: nat {:trigger pcs[i]} :: i < |pcs| ==> RestsAt(pcs[i], i in released, i in parked))
    && (forall i :: i in released || i in parked ==> i < |pcs|)
  }

  lemma RestCounts(pcs: seq<Pc>, released: set<nat>, parked: set<nat>)
    requires AtRest(pcs, released, parked)
    ensures |Returns(pcs)| == |released| && |Waits(pcs)| == |released| + |parked|
    ensures Notifies(pcs) == ServedCalls(pcs)
  {
    assert Returns(pcs) == released;
    assert released !! parked by {
      assert forall i :: i in released ==> pcs[i].Returned?;
      assert forall i :: i in parked ==> pcs[i].Asleep?;
    }
    assert Waits(pcs) == released + parked;
  }

  lemma QuietCounts(s: State)
    requires Inv(s) && Quiet(s)
    ensures |Returns(s.pcs)| == |s.released| && |Waits(s.pcs)| == |s.released| + |s.stack|
    ensures |Notifies(s.pcs)| == |s.released| + s.pending && (s.pending == 0 || |s.stack| == 0)
  {
    var parked := Elements(s.stack);
    forall i: nat | i < |s.pcs| ensures RestsAt(s.pcs[i], i in s.released, i in parked) {
      QuietCall(s, i);
      assert CallOk(s, i);
    }
    StackSize(s.stack);
    RestCounts(s.pcs, s.released, parked);
  }

  // ----- rest is reached

  /** How many steps a call may still take, counting the wake-up a notifier gives. */
  function Rank(pc: Pc): nat {
    match pc
    case WaitEntry => 5
    case WaitLocked => 4
    case Parked => 3
    case Woken => 3
    case Checking => 2
    case Dozing => 1
    case Asleep => 0
    case Returned => 0
    case NotifyEntry => 10
    case NotifyLocked => 9
    case Waking(_) => 8
    case Setting(_) => 7
    case Signalling(_) => 6
    case Unlocking(_) => 2
    case Leaving => 1
    case Notified => 0
  }

  ghost function Total(pcs: seq<Pc>): nat {
    if pcs == [] then 0 else Total(pcs[..|pcs| - 1]) + Rank(pcs[|pcs| - 1])
  }

  lemma {:induction false} TotalUpdate(pcs: seq<Pc>, i: nat, pc: Pc)
    requires i < |pcs|
    ensures Total(pcs[i := pc]) == Total(pcs) - Rank(pcs[i]) + Rank(pc)
  {
    var n := |pcs| - 1;
    if i == n {
      assert pcs[i := pc][..n] == pcs[..n];
    } else {
      assert pcs[i := pc][..n] == pcs[..n][i := pc];
      TotalUpdate(pcs[..n], i, pc);
    }
  }

  ghost predicate OwnStep(s: State, i: nat, s': State)
    requires i < |s.pcs|
  {
    |s'.pcs| == |s.pcs| && s'.pcs == s.pcs[i := s'.pcs[i]] && Rank(s'.pcs[i]) < Rank(s.pcs[i])
  }

  lemma WaitFalls(s: State, i: nat, s': State)
    requires i < |s.pcs| && Next(s, i) == Some(s') && IsWait(s.pcs[i])
    ensures OwnStep(s, i, s')
  {
  }

  lemma NotifyFalls(s: State, i: nat, s': State)
    requires i < |s.pcs| && Next(s, i) == Some(s') && !IsWait(s.pcs[i]) && !s.pcs[i].Signalling?
    ensures OwnStep(s, i, s')
  {
  }

  lemma GoFalls(s: State, i: nat, s': State)
    requires i < |s.pcs| && Next(s, i) == Some(s')
    ensures Total(s'.pcs) < Total(s.pcs)
  {
    if s.pcs[i].Signalling? {
      var w := s.pcs[i].w;
      if w < |s.pcs| && s.pcs[w].Asleep? {
        TotalUpdate(s.pcs, w, Woken);
        TotalUpdate(s.pcs[w := Woken], i, Unlocking(w));
      } else {
        TotalUpdate(s.pcs, i, Unlocking(w));
      }
    } else {
      if IsWait(s.pcs[i]) {
        WaitFalls(s, i, s');
      } else {
        NotifyFalls(s, i, s');
      }
      TotalUpdate(s.pcs, i, s'.pcs[i]);
    }
  }

  /** However calls are scheduled, once no call arrives and nobody wakes by itself, rest is reached within a bounded
      number of steps. */
  lemma {:induction false} RestIsReached(s: State, es: seq<Event>)
    requires Run(s, es).Some? && forall k :: 0 <= k < |es| ==> es[k].Go?
    ensures |es| <= Total(s.pcs)
    decreases |es|
  {
    if es != [] {
      var s' := Step(s, es[0]).value;
      GoFalls(s, es[0].i, s');
      RestIsReached(s', es[1..]);
    }
  }
}
