/** Which locks the flows of the application hold and in which order they take them
    (lock_actions.py, auth_engine.py, relock_manager.py, hub_sync.py).  The orders disagree:
    a command takes the barrier and then a generation lock, a relock takes the generation
    lock and then the barrier.  Any number of flows may run at once. */
module LockOrder {
  import opened Common

  type EntityKey = nat

  datatype Lock =
    | EntityLock(key: EntityKey)      // write and readback of one endpoint
    | GenerationLock(key: EntityKey)  // RelockManager._entity_locks
    | Barrier                         // the app-wide physical command lock
    | Manager                         // RelockManager._lock
    | Poll                            // HubSyncManager._poll_lock
    | Transition                      // AuthEngine._lockdown_transition_lock

  /** The locks a hub poll or a lockdown transition holds around everything it does. */
  datatype Outer = NoOuter | Polling | Enforcing

  /** What a call into the relock manager is nested in. */
  datatype Nesting = Outermost | InEntity | InBarrier

  /** Where a flow is suspended. */
  datatype Point =
    | Idle
    // a command on one endpoint: entity lock, then barrier, then readback without it
    | WantEntity(outer: Outer, key: EntityKey)
    | HasEntity(outer: Outer, key: EntityKey)
    | WantBarrier(outer: Outer, key: EntityKey)
    | HasBarrier(outer: Outer, key: EntityKey)
    // one critical section of the relock manager
    | WantGeneration(nesting: Nesting, outer: Outer, key: EntityKey)
    | WantManager(nesting: Nesting, outer: Outer, key: EntityKey)
    | HasManager(nesting: Nesting, outer: Outer, key: EntityKey)
    // one attempt of `_call_ha_lock`
    | RelockWantEntity(key: EntityKey)
    | RelockWantGeneration(key: EntityKey)
    | RelockWantBarrier(key: EntityKey)
    | RelockWantManager(key: EntityKey)
    | RelockHasManager(key: EntityKey)
    | RelockCommand(key: EntityKey)
    | RelockConfirm(key: EntityKey)
    // hub polls and lockdown transitions
    | WantPoll(enforcing: bool)
    | HasPoll(enforcing: bool)
    | WantTransition
    | HasTransition
    | WantDrain
    | Draining
    // alarm commands and client publication; shutdown of the relock manager
    | WantBarrierOnly
    | HasBarrierOnly
    | WantManagerOnly
    | HasManagerOnly

  function OuterLocks(o: Outer): set<Lock> {
    match o
    case NoOuter => {}
    case Polling => {Poll}
    case Enforcing => {Transition, Poll}
  }

  function NestedLocks(n: Nesting, o: Outer, k: EntityKey): set<Lock> {
    match n
    case Outermost => OuterLocks(o)
    case InEntity => OuterLocks(o) + {EntityLock(k)}
    case InBarrier => OuterLocks(o) + {EntityLock(k), Barrier}
  }

  function Held(p: Point): set<Lock> {
    match p
    case WantEntity(o, _) => OuterLocks(o)
    case HasEntity(o, k) => OuterLocks(o) + {EntityLock(k)}
    case WantBarrier(o, k) => OuterLocks(o) + {EntityLock(k)}
    case HasBarrier(o, k) => OuterLocks(o) + {EntityLock(k), Barrier}
    case WantGeneration(n, o, k) => NestedLocks(n, o, k)
    case WantManager(n, o, k) => NestedLocks(n, o, k) + {GenerationLock(k)}
    case HasManager(n, o, k) => NestedLocks(n, o, k) + {GenerationLock(k), Manager}
    case RelockWantGeneration(k) => {EntityLock(k)}
    case RelockWantBarrier(k) => {EntityLock(k), GenerationLock(k)}
    case RelockWantManager(k) => {EntityLock(k), GenerationLock(k), Barrier}
    case RelockHasManager(k) => {EntityLock(k), GenerationLock(k), Barrier, Manager}
    case RelockCommand(k) => {EntityLock(k), GenerationLock(k), Barrier}
    case RelockConfirm(k) => {EntityLock(k), GenerationLock(k)}
    case WantPoll(enforcing) => if enforcing then {Transition} else {}
    case HasPoll(enforcing) => if enforcing then {Transition, Poll} else {Poll}
    case HasTransition => {Transition}
    case WantDrain => {Transition}
    case Draining => {Transition, Barrier}
    case HasBarrierOnly => {Barrier}
    case HasManagerOnly => {Manager}
    case _ => {}
  }

  function Wanted(p: Point): Option<Lock> {
    match p
    case WantEntity(_, k) => Some(EntityLock(k))
    case WantBarrier(_, _) => Some(Barrier)
    case WantGeneration(_, _, k) => Some(GenerationLock(k))
    case WantManager(_, _, _) => Some(Manager)
    case RelockWantEntity(k) => Some(EntityLock(k))
    case RelockWantGeneration(k) => Some(GenerationLock(k))
    case RelockWantBarrier(_) => Some(Barrier)
    case RelockWantManager(_) => Some(Manager)
    case WantPoll(_) => Some(Poll)
    case WantTransition => Some(Transition)
    case WantDrain => Some(Barrier)
    case WantBarrierOnly => Some(Barrier)
    case WantManagerOnly => Some(Manager)
    case _ => None
  }

  /** Where a flow returns once it has let go of everything inside its outer locks. */
  function Base(o: Outer): Point {
    match o
    case NoOuter => Idle
    case Polling => HasPoll(false)
    case Enforcing => HasPoll(true)
  }

  function Around(n: Nesting, o: Outer, k: EntityKey): Point {
    match n
    case Outermost => Base(o)
    case InEntity => HasEntity(o, k)
    case InBarrier => HasBarrier(o, k)
  }

  function PollOuter(enforcing: bool): Outer {
    if enforcing then Enforcing else Polling
  }

  /** One step of a flow; a flow that waits may also be cancelled and unwinds. */
  predicate Follows(p: Point, q: Point) {
    match p
    case Idle =>
      || (q.WantEntity? && q.outer.NoOuter?) || (q.WantGeneration? && q.nesting.Outermost? && q.outer.NoOuter?)
      || q.RelockWantEntity? || q == WantPoll(false) || q == WantTransition
      || q == WantBarrierOnly || q == WantManagerOnly
    case WantEntity(o, k) => q == HasEntity(o, k) || q == Base(o)
    case HasEntity(o, k) => q == WantBarrier(o, k) || q == WantGeneration(InEntity, o, k) || q == Base(o)
    case WantBarrier(o, k) => q == HasBarrier(o, k) || q == HasEntity(o, k)
    case HasBarrier(o, k) => q == HasEntity(o, k) || q == WantGeneration(InBarrier, o, k)
    case WantGeneration(n, o, k) => q == WantManager(n, o, k) || q == Around(n, o, k)
    case WantManager(n, o, k) => q == HasManager(n, o, k) || q == Around(n, o, k)
    case HasManager(n, o, k) => q == Around(n, o, k)
    case RelockWantEntity(k) => q == RelockWantGeneration(k) || q == Idle
    case RelockWantGeneration(k) => q == RelockWantBarrier(k) || q == Idle
    case RelockWantBarrier(k) => q == RelockWantManager(k) || q == Idle
    case RelockWantManager(k) => q == RelockHasManager(k) || q == Idle
    case RelockHasManager(k) => q == RelockCommand(k) || q == Idle
    case RelockCommand(k) => q == RelockConfirm(k) || q == Idle
    case RelockConfirm(_) => q == Idle
    case WantPoll(enforcing) => q == HasPoll(enforcing) || q == if enforcing then HasTransition else Idle
    case HasPoll(enforcing) =>
      || (q.WantEntity? && q.outer == PollOuter(enforcing))
      || (q.WantGeneration? && q.nesting.Outermost? && q.outer == PollOuter(enforcing))
      || q == if enforcing then HasTransition else Idle
    case WantTransition => q == HasTransition || q == Idle
    case HasTransition => q == WantDrain || q == WantPoll(true) || q == Idle
    case WantDrain => q == Draining || q == HasTransition
    case Draining => q == HasTransition
    case WantBarrierOnly => q == HasBarrierOnly || q == Idle
    case HasBarrierOnly => q == Idle
    case WantManagerOnly => q == HasManagerOnly || q == Idle
    case HasManagerOnly => q == Idle
  }

  /** All flows of the process, by number. */
  type System = seq<Point>

  predicate FreeFor(s: System, i: nat, l: Lock) {
    forall j :: 0 <= j < |s| && j != i ==> l !in Held(s[j])
  }

  predicate Step(s: System, i: nat, q: Point) {
    i < |s| && Follows(s[i], q) && forall l :: l in Held(q) && l !in Held(s[i]) ==> FreeFor(s, i, l)
  }

  predicate Exclusive(s: System) {
    forall i, j :: 0 <= i < j < |s| ==> Held(s[i]) !! Held(s[j])
  }

  function Gain(p: Point): set<Lock> {
    if Wanted(p).Some? then {Wanted(p).value} else {}
  }

  predicate InRelock(p: Point) {
    || p.RelockWantEntity? || p.RelockWantGeneration? || p.RelockWantBarrier? || p.RelockWantManager?
    || p.RelockHasManager? || p.RelockCommand? || p.RelockConfirm?
  }

  predicate InCommand(p: Point) {
    || p.WantEntity? || p.HasEntity? || p.WantBarrier? || p.HasBarrier?
    || p.WantGeneration? || p.WantManager? || p.HasManager?
  }

  lemma RelockGains(p: Point, q: Point)
    requires Follows(p, q) && InRelock(p)
    ensures Held(q) <= Held(p) + Gain(p)
  {
  }

  lemma CommandGains(p: Point, q: Point)
    requires Follows(p, q) && InCommand(p)
    ensures Held(q) <= Held(p) + Gain(p)
  {
  }

  lemma IdleGains(q: Point)
    requires Follows(Idle, q)
    ensures Held(q) == {}
  {
  }

  lemma OtherGains(p: Point, q: Point)
    requires Follows(p, q) && p != Idle && !InRelock(p) && !InCommand(p)
    ensures Held(q) <= Held(p) + Gain(p)
  {
  }

  /** A flow gains a lock only by waiting for it. */
  lemma LocksAreWaitedFor(p: Point, q: Point, l: Lock)
    requires Follows(p, q) && l in Held(q) && l !in Held(p)
    ensures Wanted(p) == Some(l)
  {
    if InRelock(p) {
      RelockGains(p, q);
    } else if InCommand(p) {
      CommandGains(p, q);
    } else if p == Idle {
      IdleGains(q);
    } else {
      OtherGains(p, q);
    }
  }

  lemma StepKeepsExclusive(s: System, i: nat, q: Point)
    requires Exclusive(s) && Step(s, i, q)
    ensures Exclusive(s[i := q])
  {
    var t := s[i := q];
    forall a, b | 0 <= a < b < |t| ensures Held(t[a]) !! Held(t[b]) {
      if a == i {
        assert forall l :: l in Held(q) ==> l !in Held(s[b]);
      } else if b == i {
        assert forall l :: l in Held(q) ==> l !in Held(s[a]);
      }
    }
  }

  datatype Move = Move(flow: nat, to: Point)

  function After(s: System, moves: seq<Move>): (t: System)
    ensures |t| == |s|
    decreases |moves|
  {
    if moves == [] then s
    else
      var t := After(s, moves[..|moves| - 1]);
      var m := moves[|moves| - 1];
      if m.flow < |t| then t[m.flow := m.to] else t
  }

  predicate IsRun(s: System, moves: seq<Move>)
    decreases |moves|
  {
    if moves == [] then forall i :: 0 <= i < |s| ==> s[i] == Idle
    else
      var n := |moves| - 1;
      IsRun(s, moves[..n]) && Step(After(s, moves[..n]), moves[n].flow, moves[n].to)
  }

  /** Locks exclude each other in every reachable state. */
  lemma {:induction false} ExclusiveAlongRun(s: System, moves: seq<Move>)
    requires IsRun(s, moves)
    ensures Exclusive(After(s, moves))
    decreases |moves|
  {
    if moves != [] {
      var n := |moves| - 1;
      ExclusiveAlongRun(s, moves[..n]);
      StepKeepsExclusive(After(s, moves[..n]), moves[n].flow, moves[n].to);
    }
  }

  // ---------------------------------------------------------------------------
  // Waiting
  // ---------------------------------------------------------------------------

  predicate WaitsFor(s: System, i: nat, j: nat) {
    && i < |s| && j < |s| && i != j
    && Wanted(s[i]).Some? && Wanted(s[i]).value in Held(s[j])
  }

  /** How much a flow may still have to wait for. */
  function Rank(p: Point): nat {
    match Wanted(p)
    case None => 0
    case Some(l) =>
      match l
      case Manager => 1
      case GenerationLock(_) => if Barrier in Held(p) then 2 else 4
      case Barrier => 3
      case EntityLock(_) => 5
      case Poll => 6
      case Transition => 7
  }

  lemma WaitingLowersRank(s: System, i: nat, j: nat)
    requires Exclusive(s) && WaitsFor(s, i, j)
    ensures Rank(s[j]) < Rank(s[i])
  {
    assert Held(s[i]) !! Held(s[j]) by {
      if i < j { } else { assert Held(s[j]) !! Held(s[i]); }
    }
    RankOfHolder(s[i], s[j]);
  }

  lemma RankOfHolder(p: Point, q: Point)
    requires Held(p) !! Held(q) && Wanted(p).Some? && Wanted(p).value in Held(q)
    ensures Rank(q) < Rank(p)
  {
  }

  /** No reachable state has a cycle of waiting flows, of any length. */
  lemma NoWaitCycle(s: System, moves: seq<Move>, path: seq<nat>)
    requires IsRun(s, moves) && |path| > 1
    requires forall i :: 0 <= i < |path| - 1 ==> WaitsFor(After(s, moves), path[i], path[i + 1])
    ensures path[0] != path[|path| - 1]
  {
    ExclusiveAlongRun(s, moves);
    RankFallsAlong(After(s, moves), path);
  }

  lemma {:induction false} RankFallsAlong(s: System, path: seq<nat>)
    requires Exclusive(s) && |path| > 1
    requires forall i :: 0 <= i < |path| - 1 ==> WaitsFor(s, path[i], path[i + 1])
    ensures path[0] < |s| && path[|path| - 1] < |s|
    ensures Rank(s[path[|path| - 1]]) < Rank(s[path[0]])
  {
    WaitingLowersRank(s, path[0], path[1]);
    if |path| > 2 {
      var rest := path[1..];
      forall i | 0 <= i < |rest| - 1 ensures WaitsFor(s, rest[i], rest[i + 1]) {
        assert WaitsFor(s, path[i + 1], path[i + 2]);
      }
      RankFallsAlong(s, rest);
    }
  }

  predicate Blocked(s: System, i: nat) {
    i < |s| && Wanted(s[i]).Some? && exists j :: 0 <= j < |s| && WaitsFor(s, i, j)
  }

  /** Whoever waits, somebody down the chain can move: there is no deadlock. */
  lemma {:induction false} SomebodyCanMove(s: System, i: nat) returns (j: nat)
    requires Exclusive(s) && Blocked(s, i)
    ensures j < |s| && j != i && !Blocked(s, j) && Held(s[j]) != {}
    decreases Rank(s[i])
  {
    var k :| 0 <= k < |s| && WaitsFor(s, i, k);
    WaitingLowersRank(s, i, k);
    if Blocked(s, k) {
      j := SomebodyCanMove(s, k);
      if j == i {
        // `i` waits, so it is blocked, and `j` is not
        assert false;
      }
    } else {
      j := k;
    }
  }

  /** An unblocked flow that waits gets its lock. */
  lemma UnblockedFlowsProceed(s: System, i: nat)
    requires i < |s| && !Blocked(s, i) && s[i] != Idle
    ensures exists q :: Step(s, i, q) && (Wanted(s[i]).Some? ==> Wanted(s[i]).value in Held(q))
  {
    var q := Granted(s[i]);
    GrantedFollows(s[i]);
    if Wanted(s[i]).Some? {
      forall j | 0 <= j < |s| && j != i ensures Wanted(s[i]).value !in Held(s[j]) {
        assert !WaitsFor(s, i, j);
      }
    }
    assert Step(s, i, q) by {
      forall l | l in Held(q) && l !in Held(s[i]) ensures FreeFor(s, i, l) {
        LocksAreWaitedFor(s[i], q, l);
      }
    }
  }

  /** The next point when nothing goes wrong. */
  function Granted(p: Point): Point {
    match p
    case WantEntity(o, k) => HasEntity(o, k)
    case HasEntity(o, k) => Base(o)
    case WantBarrier(o, k) => HasBarrier(o, k)
    case HasBarrier(o, k) => HasEntity(o, k)
    case WantGeneration(n, o, k) => WantManager(n, o, k)
    case WantManager(n, o, k) => HasManager(n, o, k)
    case HasManager(n, o, k) => Around(n, o, k)
    case RelockWantEntity(k) => RelockWantGeneration(k)
    case RelockWantGeneration(k) => RelockWantBarrier(k)
    case RelockWantBarrier(k) => RelockWantManager(k)
    case RelockWantManager(k) => RelockHasManager(k)
    case RelockHasManager(k) => RelockCommand(k)
    case RelockCommand(k) => RelockConfirm(k)
    case RelockConfirm(_) => Idle
    case WantPoll(enforcing) => HasPoll(enforcing)
    case HasPoll(enforcing) => if enforcing then HasTransition else Idle
    case WantTransition => HasTransition
    case HasTransition => Idle
    case WantDrain => Draining
    case Draining => HasTransition
    case WantBarrierOnly => HasBarrierOnly
    case WantManagerOnly => HasManagerOnly
    case _ => Idle
  }

  lemma GrantedFollows(p: Point)
    requires p != Idle
    ensures Follows(p, Granted(p)) && Gain(p) <= Held(Granted(p))
  {
  }

  /** What the entity lock is there for: a command and a relock of the same door would wait
      for each other in these two positions, and the one lock both of them hold is what keeps
      any run from getting there. */
  lemma OnlyTheEntityLockPreventsTheCycle(o: Outer, k: EntityKey)
    ensures var s := [WantGeneration(InBarrier, o, k), RelockWantBarrier(k)];
            WaitsFor(s, 0, 1) && WaitsFor(s, 1, 0) && Held(s[0]) * Held(s[1]) == {EntityLock(k)}
  {
  }
}
