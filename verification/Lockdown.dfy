/** Incident lockdown (auth_engine.py, with the rechecks in lock_actions.py and hub_sync.py).
    Enabling publishes the flag, persists it and drains the command barrier; disabling does
    it in the opposite order while holding the barrier.  Every flow that may open a door
    checks the flag after it got the barrier and starts its command before it lets go. */
module Lockdown {
  import opened Common

  type FlowId = nat

  /** An unsafe flow: HA unlock, momentary unlock, hold-open or schedule restore. */
  datatype Flow =
    | Away
    | Waiting
    | Entered     // holds the barrier, has not looked at the flag yet
    | Passed      // holds the barrier and saw the flag down
    | Commanding  // holds the barrier, command issued
    | Reading     // readback without the barrier

  /** The one transition that may be under way. */
  datatype Transition =
    | Rest
    | Persisting
    | WantDrain(persisted: bool)
    | Enforcing(persisted: bool)
    | WantClear
    | Clearing
    | Cleared

  datatype State = State(
    flag: bool,           // AuthEngine._lockdown
    stored: bool,         // the config row is "1"
    loaded: bool,         // load_persisted_lockdown has run in this process
    flows: map<FlowId, Flow>,
    transition: Transition,
    drained: bool,        // the barrier was drained since the flag went up
    late: nat,            // unsafe commands started since the flag went up
    acknowledged: bool)   // the last enable that returned normally was not revoked

  datatype Action =
    | Load(readable: bool)
    | Crash
    | Arrive(id: FlowId)
    | Enter(id: FlowId)
    | Check(id: FlowId)
    | Start(id: FlowId)
    | Written(id: FlowId)
    | Leave(id: FlowId)
    | Enable
    | Persist(written: bool)
    | Drain
    | FinishEnable(enforced: bool)
    | Disable
    | TakeBarrier
    | Clear(written: bool, interrupted: bool)
    | FinishDisable
    | Abort

  predicate HoldsBarrier(f: Flow) {
    f == Entered || f == Passed || f == Commanding
  }

  function FlowOf(s: State, id: FlowId): Flow {
    if id in s.flows then s.flows[id] else Away
  }

  predicate BarrierFree(s: State) {
    s.transition != Clearing && forall id :: id in s.flows ==> !HoldsBarrier(s.flows[id])
  }

  predicate Enabled(s: State, a: Action) {
    match a
    case Load(_) => !s.loaded
    case Crash => true
    case Arrive(id) => s.loaded && FlowOf(s, id) == Away
    case Enter(id) => FlowOf(s, id) == Waiting && BarrierFree(s)
    case Check(id) => FlowOf(s, id) == Entered
    case Start(id) => FlowOf(s, id) == Passed
    case Written(id) => FlowOf(s, id) == Commanding
    case Leave(id) => FlowOf(s, id) != Away
    case Enable => s.loaded && s.transition == Rest
    case Persist(_) => s.transition == Persisting
    case Drain => s.transition.WantDrain? && BarrierFree(s)
    case FinishEnable(_) => s.transition.Enforcing?
    case Disable => s.loaded && s.transition == Rest
    case TakeBarrier => s.transition == WantClear && BarrierFree(s)
    case Clear(_, _) => s.transition == Clearing
    case FinishDisable => s.transition == Cleared
    case Abort => s.transition != Rest
  }

  function Set(s: State, id: FlowId, f: Flow): State {
    s.(flows := s.flows[id := f])
  }

  function Next(s: State, a: Action): State
    requires Enabled(s, a)
  {
    match a
    case Load(readable) => s.(flag := if readable then s.stored else true, loaded := true)
    case Crash => State(false, s.stored, false, map[], Rest, false, 0, s.acknowledged)
    case Arrive(id) => Set(s, id, Waiting)
    case Enter(id) => Set(s, id, Entered)
    case Check(id) => Set(s, id, if s.flag then Away else Passed)
    case Start(id) => Set(s, id, Commanding).(late := if s.flag then s.late + 1 else s.late)
    case Written(id) => Set(s, id, Reading)
    case Leave(id) => Set(s, id, Away)
    case Enable =>
      s.(flag := true, transition := Persisting,
         late := if s.flag then s.late else 0, drained := s.drained && s.flag)
    case Persist(written) => s.(stored := s.stored || written, transition := WantDrain(written))
    case Drain => s.(transition := Enforcing(s.transition.persisted), drained := true)
    case FinishEnable(enforced) =>
      s.(transition := Rest, acknowledged := s.acknowledged || (s.transition.persisted && enforced))
    case Disable => s.(transition := WantClear)
    case TakeBarrier => s.(transition := Clearing)
    case Clear(written, interrupted) =>
      // A cancellation that arrives with the commit leaves the flag up.
      if !written then s.(transition := Cleared)
      else if interrupted then s.(stored := false, acknowledged := false, transition := Cleared)
      else s.(stored := false, flag := false, drained := false, acknowledged := false, transition := Cleared)
    case FinishDisable => s.(transition := Rest)
    case Abort => s.(transition := Rest)
  }

  // ---------------------------------------------------------------------------
  // Invariant
  // ---------------------------------------------------------------------------

  /** At most one flow is inside the barrier, and none beside a disable. */
  predicate Exclusive(s: State) {
    && (forall a, b :: a in s.flows && b in s.flows && a != b ==>
          !(HoldsBarrier(s.flows[a]) && HoldsBarrier(s.flows[b])))
    && (s.transition == Clearing ==> forall a :: a in s.flows ==> !HoldsBarrier(s.flows[a]))
  }

  predicate NonePassed(s: State) {
    forall id :: id in s.flows ==> s.flows[id] != Passed
  }

  /** Flows past their check against the flag: none after a drain, and at most one command
      started since the flag went up. */
  predicate FlowsOk(s: State) {
    && (s.drained ==> s.flag && NonePassed(s))
    && (s.flag ==> s.late <= 1 && (s.late == 1 ==> NonePassed(s)))
  }

  predicate TransitionOk(s: State) {
    && (s.transition.Persisting? || s.transition.WantDrain? || s.transition.Enforcing? ==> s.flag && s.loaded)
    && (s.transition.Enforcing? ==> s.drained)
    && ((s.transition.WantDrain? || s.transition.Enforcing?) && s.transition.persisted ==> s.stored)
  }

  predicate StoredOk(s: State) {
    && (s.loaded && !s.flag ==> !s.stored)
    && (s.acknowledged ==> s.stored)
    && (!s.loaded ==> s.flows == map[] && s.transition == Rest && !s.drained && s.late == 0)
  }

  predicate Inv(s: State) {
    Exclusive(s) && FlowsOk(s) && TransitionOk(s) && StoredOk(s)
  }

  predicate ByFlow(a: Action) {
    a.Arrive? || a.Enter? || a.Check? || a.Start? || a.Written? || a.Leave?
  }

  lemma FlowKeepsExclusive(s: State, a: Action)
    requires Exclusive(s) && Enabled(s, a) && ByFlow(a)
    ensures Exclusive(Next(s, a))
  {
  }

  lemma OtherKeepsExclusive(s: State, a: Action)
    requires Exclusive(s) && Enabled(s, a) && !ByFlow(a)
    ensures Exclusive(Next(s, a))
  {
  }

  lemma FlowKeepsFlowsOk(s: State, a: Action)
    requires Exclusive(s) && FlowsOk(s) && Enabled(s, a) && ByFlow(a)
    ensures FlowsOk(Next(s, a))
  {
  }

  lemma OtherKeepsFlowsOk(s: State, a: Action)
    requires Inv(s) && Enabled(s, a) && !ByFlow(a)
    ensures FlowsOk(Next(s, a))
  {
  }

  lemma StepKeepsTransitionOk(s: State, a: Action)
    requires TransitionOk(s) && StoredOk(s) && Enabled(s, a)
    ensures TransitionOk(Next(s, a))
  {
  }

  lemma StepKeepsStoredOk(s: State, a: Action)
    requires TransitionOk(s) && StoredOk(s) && Enabled(s, a)
    ensures StoredOk(Next(s, a))
  {
  }

  lemma StepKeepsInv(s: State, a: Action)
    requires Inv(s) && Enabled(s, a)
    ensures Inv(Next(s, a))
  {
    if ByFlow(a) {
      FlowKeepsExclusive(s, a);
      FlowKeepsFlowsOk(s, a);
    } else {
      OtherKeepsExclusive(s, a);
      OtherKeepsFlowsOk(s, a);
    }
    StepKeepsTransitionOk(s, a);
    StepKeepsStoredOk(s, a);
  }

  // ---------------------------------------------------------------------------
  // Runs
  // ---------------------------------------------------------------------------

  /** A process start over whatever an earlier installation stored. */
  predicate Init(s: State) {
    s == State(false, s.stored, false, map[], Rest, false, 0, false)
  }

  ghost predicate IsRun(states: seq<State>, actions: seq<Action>) {
    && |states| == |actions| + 1
    && Init(states[0])
    && forall i :: 0 <= i < |actions| ==> Enabled(states[i], actions[i]) && states[i + 1] == Next(states[i], actions[i])
  }

  lemma {:induction false} InvAlongRun(states: seq<State>, actions: seq<Action>, i: nat)
    requires IsRun(states, actions) && i < |states|
    ensures Inv(states[i])
    decreases i
  {
    if i > 0 {
      InvAlongRun(states, actions, i - 1);
      StepKeepsInv(states[i - 1], actions[i - 1]);
    }
  }

  /** The stored flag is taken back, whether or not the process learns of it. */
  predicate Unstores(a: Action) {
    a.Clear? && a.written
  }

  /** The flag in memory goes down. */
  predicate Lowers(a: Action) {
    a == Clear(true, false) || a == Crash
  }

  /** Stored and, once loaded, in force; no flow is past its check. */
  predicate Sealed(s: State) {
    s.stored && (s.loaded ==> s.flag) && NonePassed(s)
  }

  lemma StepKeepsSealed(s: State, a: Action)
    requires Inv(s) && Enabled(s, a) && Sealed(s) && !Unstores(a)
    ensures Sealed(Next(s, a)) && !a.Start?
  {
  }

  lemma StepKeepsDrained(s: State, a: Action)
    requires Inv(s) && Enabled(s, a) && s.drained && !Lowers(a)
    ensures Next(s, a).drained && !a.Start? && s.flag
  {
  }

  lemma StaysSealed(states: seq<State>, actions: seq<Action>, i: nat, j: nat)
    requires IsRun(states, actions) && i <= j < |states| && Sealed(states[i])
    requires forall k :: i <= k < j ==> !Unstores(actions[k])
    ensures Sealed(states[j])
  {
    forall k | i <= k < j && Sealed(states[k]) ensures Sealed(states[k + 1]) {
      InvAlongRun(states, actions, k);
      StepKeepsSealed(states[k], actions[k]);
    }
    Persists(states, Sealed, i, j);
  }

  lemma StaysDrained(states: seq<State>, actions: seq<Action>, i: nat, j: nat)
    requires IsRun(states, actions) && i <= j < |states| && states[i].drained
    requires forall k :: i <= k < j ==> !Lowers(actions[k])
    ensures states[j].drained
  {
    forall k | i <= k < j && states[k].drained ensures states[k + 1].drained {
      InvAlongRun(states, actions, k);
      StepKeepsDrained(states[k], actions[k]);
    }
    Persists(states, (s: State) => s.drained, i, j);
  }

  lemma DrainSeals(s: State)
    requires Inv(s) && Enabled(s, Drain)
    ensures Next(s, Drain).drained && (s.transition.persisted ==> Sealed(Next(s, Drain)))
  {
  }

  /** Once an enable has persisted the flag and drained the barrier, no unsafe command of any
      flow starts before a disable has taken the stored flag back, through any number of
      crashes and restarts. */
  lemma NothingOpensAfterTheDrain(states: seq<State>, actions: seq<Action>, i: nat, j: nat)
    requires IsRun(states, actions) && i < j < |actions|
    requires actions[i] == Drain && states[i].transition == WantDrain(true)
    requires forall k :: i <= k < j ==> !Unstores(actions[k])
    ensures !actions[j].Start? && (states[j].loaded ==> states[j].flag)
  {
    InvAlongRun(states, actions, i);
    DrainSeals(states[i]);
    StaysSealed(states, actions, i + 1, j);
    InvAlongRun(states, actions, j);
    assert Enabled(states[j], actions[j]);
  }

  /** If the flag could not be persisted, the same holds until the process crashes or a disable
      has lowered the flag. */
  lemma NothingOpensInThisProcess(states: seq<State>, actions: seq<Action>, i: nat, j: nat)
    requires IsRun(states, actions) && i < j < |actions| && actions[i] == Drain
    requires forall k :: i <= k < j ==> !Lowers(actions[k])
    ensures !actions[j].Start? && states[j].flag
  {
    InvAlongRun(states, actions, i);
    DrainSeals(states[i]);
    StaysDrained(states, actions, i + 1, j);
    InvAlongRun(states, actions, j);
    assert Enabled(states[j], actions[j]);
  }

  lemma ExtendRun(states: seq<State>, actions: seq<Action>, a: Action) returns (more: seq<State>, also: seq<Action>)
    requires IsRun(states, actions) && Enabled(states[|states| - 1], a)
    ensures IsRun(more, also) && also == actions + [a] && more[|more| - 1] == Next(states[|states| - 1], a)
  {
    more, also := states + [Next(states[|states| - 1], a)], actions + [a];
  }

  const FRESH := State(false, false, false, map[], Rest, false, 0, false)

  lemma UnpersistedEnable() returns (states: seq<State>, actions: seq<Action>)
    ensures IsRun(states, actions) && actions == [Load(true), Enable, Persist(false), Drain, Crash, Load(true)]
    ensures states[|states| - 1] == FRESH.(loaded := true)
  {
    states, actions := ExtendRun([FRESH], [], Load(true));
    states, actions := ExtendRun(states, actions, Enable);
    states, actions := ExtendRun(states, actions, Persist(false));
    states, actions := ExtendRun(states, actions, Drain);
    states, actions := ExtendRun(states, actions, Crash);
    assert states[|states| - 1] == FRESH;
    states, actions := ExtendRun(states, actions, Load(true));
  }

  /** The stored flag is what carries the lockdown over: an enable that could not persist it is
      forgotten by a crash, and a command starts in the next process without any disable. */
  lemma UnpersistedLockdownEndsWithTheProcess() returns (states: seq<State>, actions: seq<Action>)
    ensures IsRun(states, actions) && |actions| == 10 && actions[..4] == [Load(true), Enable, Persist(false), Drain]
    ensures actions[|actions| - 1].Start? && forall k :: 0 <= k < |actions| ==> !actions[k].Clear?
  {
    states, actions := UnpersistedEnable();
    states, actions := ExtendRun(states, actions, Arrive(0));
    states, actions := ExtendRun(states, actions, Enter(0));
    states, actions := ExtendRun(states, actions, Check(0));
    assert states[|states| - 1] == FRESH.(loaded := true, flows := map[0 := Passed]);
    states, actions := ExtendRun(states, actions, Start(0));
  }

  /** Before the drain at most one command slips through: the one whose flow had passed its
      check inside the barrier when the flag went up. */
  lemma AtMostOneLateCommand(states: seq<State>, actions: seq<Action>, i: nat)
    requires IsRun(states, actions) && i < |states| && states[i].flag
    ensures states[i].late <= 1
  {
    InvAlongRun(states, actions, i);
  }

  /** At every point of every run, crashes included: a process that has loaded the flag and
      finds it down has no lockdown on disk. */
  lemma FlagDownMeansStoredDown(states: seq<State>, actions: seq<Action>, i: nat)
    requires IsRun(states, actions) && i < |states| && states[i].loaded && !states[i].flag
    ensures !states[i].stored
  {
    InvAlongRun(states, actions, i);
  }

  lemma StepKeepsAcknowledged(s: State, a: Action)
    requires Enabled(s, a) && s.acknowledged && !Unstores(a)
    ensures Next(s, a).acknowledged
  {
  }

  lemma StaysAcknowledged(states: seq<State>, actions: seq<Action>, i: nat, j: nat)
    requires IsRun(states, actions) && i <= j < |states| && states[i].acknowledged
    requires forall k :: i <= k < j ==> !Unstores(actions[k])
    ensures states[j].acknowledged
  {
    forall k | i <= k < j && states[k].acknowledged ensures states[k + 1].acknowledged {
      StepKeepsAcknowledged(states[k], actions[k]);
    }
    Persists(states, (s: State) => s.acknowledged, i, j);
  }

  /** A lockdown whose enable returned normally is in force after any number of crashes, until
      a disable has cleared it on disk. */
  lemma AcknowledgedLockdownSurvivesCrashes(states: seq<State>, actions: seq<Action>, i: nat, j: nat)
    requires IsRun(states, actions) && i < j < |states|
    requires actions[i] == FinishEnable(true) && states[i].transition.Enforcing? && states[i].transition.persisted
    requires forall k :: i < k < j ==> !Unstores(actions[k])
    ensures states[j].stored && (states[j].loaded ==> states[j].flag)
  {
    assert states[i + 1] == Next(states[i], actions[i]);
    StaysAcknowledged(states, actions, i + 1, j);
    InvAlongRun(states, actions, j);
  }

  // ---------------------------------------------------------------------------
  // The engine's own methods
  // ---------------------------------------------------------------------------

  datatype Event = Published(bool) | Persisted(bool) | BarrierDrained | Enforced

  /** The part of `AuthEngine` that holds the flag, and the config row. */
  class Engine {
    var lockdown: bool
    var config: Option<bool>
    ghost var trace: seq<Event>

    /** `_set_lockdown_serialized` after the drain or inside the barrier, as `value` says. */
    method SetLockdown(value: bool, written: bool, callback: bool, enforced: bool) returns (raised: bool)
      modifies this
      ensures value ==> lockdown && config == if written then Some(true) else old(config)
      ensures !value ==>
                if written then !lockdown && config == Some(false)
                else lockdown == old(lockdown) && config == old(config)
      ensures raised <==> !written || (value && callback && !enforced)
      ensures trace == old(trace) +
                       if value then [Published(true)] + (if written then [Persisted(true)] else [])
                                     + [BarrierDrained] + (if callback then [Enforced] else [])
                       else if written then [Persisted(false), Published(false)] else []
    {
      var persistenceError := !written;
      if value {
        lockdown := true;
        trace := trace + [Published(true)];
        if written {
          config := Some(true);
          trace := trace + [Persisted(true)];
        }
        trace := trace + [BarrierDrained];
      } else if written {
        config := Some(false);
        trace := trace + [Persisted(false)];
        lockdown := false;
        trace := trace + [Published(false)];
      }
      var enforcementError := false;
      if value && callback {
        trace := trace + [Enforced];
        enforcementError := !enforced;
      }
      raised := persistenceError || enforcementError;
    }

    /** `load_persisted_lockdown`: an unreadable table reads as enabled. */
    method LoadPersisted(readable: bool)
      modifies `lockdown
      ensures !lockdown <==> readable && config != Some(true)
    {
      if !readable {
        lockdown := true;
        return;
      }
      lockdown := config == Some(true);
    }
  }
}
