/** Why a durable relock is carried out in the end (relock_manager.py), whatever a cut has left
    behind and in whatever order the event loop serves timers and sweeps: a measure that none
    of their steps increases, and that some enabled step decreases until the lock command for
    the row is out. */
module RelockProgress {
  import opened Common
  import opened RelockCore
  import opened RelockProtocol

  /** The lock command for the durable row is out, or the row is gone because a confirmed lock
      of that very row was settled. */
  predicate Carried(s: State) {
    s.holder.Commanding? || s.core.row == None
  }

  /** The row and the timer beside it are due, and no client is at work on the entity. */
  predicate Due(s: State) {
    && Inv(s) && !s.holder.Client? && !s.core.down && !s.core.paused
    && (s.core.row.Some? ==> s.core.row.value.deadline <= s.now)
    && (s.core.live.Some? ==> s.core.live.value.deadline <= s.now)
  }

  /** Time alone makes a row due, from every state without a client, pause or shutdown. */
  lemma TimeMakesDue(s: State)
    requires Inv(s) && !s.holder.Client? && !s.core.down && !s.core.paused && s.core.row.Some?
    ensures Enabled(s, Tick(DueAt(s))) && Due(Next(s, Tick(DueAt(s))))
  {
    StepKeepsInv(s, Tick(DueAt(s)));
  }

  /** Time passes, and timers and sweeps take their steps in any order; their reads succeed. */
  predicate Unhindered(a: Action) {
    match a
    case Tick(_) => true
    case Snapshot(_) => true
    case Inspect(_, read) => read
    case Fire(_) => true
    case Validate(_, read) => read
    case Settle(_) => true
    case _ => false
  }

  /** The flow that has taken its turn and is about to end. */
  predicate Leaving(s: State, id: TaskId) {
    s.holder.Deciding? && s.holder.id == id
  }

  /** The live timer, unless it has had its turn. */
  predicate TimerAhead(s: State) {
    s.core.live.Some? && !Leaving(s, s.core.live.value.id)
  }

  /** A recovery that will be let through. */
  predicate Useful(s: State, id: TaskId)
    requires id in s.workers
  {
    !TimerAhead(s) && s.workers[id].Recovery? && !Leaving(s, id) && Owns(s.core, s.workers[id].deadline)
  }

  /** Flows that will be refused, but may come first in the queue for the command lock. */
  predicate Idle(s: State, id: TaskId)
    requires id in s.workers
  {
    !s.workers[id].Scan? && !Leaving(s, id) && !IsLive(s.core, id) && !Useful(s, id)
  }

  function IdleFlows(s: State): set<TaskId> {
    set id | id in s.workers && Idle(s, id)
  }

  predicate RecoveryReady(s: State) {
    exists id :: id in s.workers && Useful(s, id)
  }

  predicate ScanReady(s: State) {
    s.core.live == None && exists id :: id in s.workers && s.workers[id].Scan? && Owns(s.core, s.workers[id].deadline)
  }

  /** Steps on the way of the flow that will command. */
  function Ahead(s: State): nat {
    if TimerAhead(s) then
      if s.core.live.value.id in s.workers && Ready(s.workers[s.core.live.value.id]) then 5 else 6
    else if RecoveryReady(s) then 1
    else if ScanReady(s) then 2
    else 3
  }

  /** How far the row is from its lock command. */
  function Distance(s: State): nat {
    if Carried(s) then 0
    else 2 * |IdleFlows(s)| + Ahead(s) + if s.holder.Deciding? then 1 else 0
  }

  lemma Smaller(a: set<TaskId>, b: set<TaskId>)
    requires a <= b
    ensures |a| <= |b|
  {
    if a != b {
      var x :| x in b && x !in a;
      Smaller(a, b - {x});
    }
  }

  // ---------------------------------------------------------------------------
  // No step leads away
  // ---------------------------------------------------------------------------

  lemma StaysDue(s: State, a: Action)
    requires Due(s) && Enabled(s, a) && Unhindered(a) && !Carried(s)
    ensures Carried(Next(s, a)) || Due(Next(s, a))
  {
    StepKeepsInv(s, a);
  }

  lemma NoNewIdleFlow(s: State, a: Action, id: TaskId)
    requires Due(s) && Enabled(s, a) && Unhindered(a) && !Carried(s) && !Carried(Next(s, a))
    requires id in Next(s, a).workers && Idle(Next(s, a), id)
    ensures id in s.workers && Idle(s, id)
    ensures a.Validate? ==> id != a.id
  {
    assert id in s.workers ==> WorkerOk(s, id);
  }

  lemma NoNewTimerAhead(s: State, a: Action)
    requires Due(s) && Enabled(s, a) && Unhindered(a) && !Carried(s) && !Carried(Next(s, a))
    requires TimerAhead(Next(s, a))
    ensures TimerAhead(s) && Next(s, a).core.live == s.core.live
    ensures Ready(s.workers[s.core.live.value.id]) ==> Ready(Next(s, a).workers[s.core.live.value.id])
  {
  }

  lemma UsefulStays(s: State, a: Action, id: TaskId)
    requires Due(s) && Enabled(s, a) && Unhindered(a) && !Carried(s) && !Carried(Next(s, a))
    requires id in s.workers && Useful(s, id)
    ensures id in Next(s, a).workers && Useful(Next(s, a), id)
  {
  }

  lemma ScanStaysReady(s: State, a: Action)
    requires Due(s) && Enabled(s, a) && Unhindered(a) && !Carried(s) && !Carried(Next(s, a)) && ScanReady(s)
    ensures ScanReady(Next(s, a)) || RecoveryReady(Next(s, a))
  {
    var t := Next(s, a);
    var id :| id in s.workers && s.workers[id].Scan? && Owns(s.core, s.workers[id].deadline);
    assert id in t.workers;
    if t.workers[id].Recovery? {
      assert Useful(t, id);
    } else {
      assert t.workers[id].Scan? && Owns(t.core, t.workers[id].deadline);
    }
  }

  lemma AheadNeverGrows(s: State, a: Action)
    requires Due(s) && Enabled(s, a) && Unhindered(a) && !Carried(s) && !Carried(Next(s, a))
    ensures Ahead(Next(s, a)) <= Ahead(s)
    ensures TimerAhead(s) && !TimerAhead(Next(s, a)) ==> Ahead(Next(s, a)) <= 3 < Ahead(s)
  {
    var t := Next(s, a);
    if TimerAhead(t) {
      NoNewTimerAhead(s, a);
    } else if !TimerAhead(s) {
      if RecoveryReady(s) {
        var id :| id in s.workers && Useful(s, id);
        UsefulStays(s, a, id);
      } else if ScanReady(s) {
        ScanStaysReady(s, a);
      }
    }
  }

  lemma IdleFlowsNeverGrow(s: State, a: Action)
    requires Due(s) && Enabled(s, a) && Unhindered(a) && !Carried(s) && !Carried(Next(s, a))
    ensures |IdleFlows(Next(s, a))| <= |IdleFlows(s)|
    ensures a.Validate? && a.id in IdleFlows(s) ==> |IdleFlows(Next(s, a))| < |IdleFlows(s)|
  {
    var t := Next(s, a);
    forall id | id in IdleFlows(t) ensures id in IdleFlows(s) && (a.Validate? ==> id != a.id) {
      NoNewIdleFlow(s, a, id);
    }
    Smaller(IdleFlows(t), IdleFlows(s));
    if a.Validate? && a.id in IdleFlows(s) {
      Smaller(IdleFlows(t), IdleFlows(s) - {a.id});
    }
  }

  /** Whoever gets the command lock and is refused was counted. */
  lemma RefusedWasCounted(s: State, id: TaskId)
    requires Due(s) && Enabled(s, Validate(id, true)) && !Carried(s) && !Carried(Next(s, Validate(id, true)))
    ensures id in IdleFlows(s) || (TimerAhead(s) && !TimerAhead(Next(s, Validate(id, true))))
  {
  }

  lemma DistanceNeverGrows(s: State, a: Action)
    requires Due(s) && Enabled(s, a) && Unhindered(a) && !Carried(s)
    ensures Distance(Next(s, a)) <= Distance(s)
  {
    if !Carried(Next(s, a)) {
      IdleFlowsNeverGrow(s, a);
      AheadNeverGrows(s, a);
      if a.Validate? {
        RefusedWasCounted(s, a.id);
      }
    }
  }

  // ---------------------------------------------------------------------------
  // Some step leads on
  // ---------------------------------------------------------------------------

  /** The steps that lead on: the turn of any flow at the command lock, its end, and what the
      flow that will command still needs before its turn. */
  predicate Leads(s: State, a: Action)
    requires Enabled(s, a)
  {
    match a
    case Settle(_) => true
    case Validate(_, read) => read
    case Fire(id) => TimerAhead(s) && IsLive(s.core, id) && !s.workers[id].fired
    case Inspect(id, read) => read && s.core.live == None && !RecoveryReady(s) && Owns(s.core, s.workers[id].deadline)
    case Snapshot(_) => s.core.live == None && !RecoveryReady(s) && !ScanReady(s)
    case _ => false
  }

  /** A step that leads on brings the row closer. */
  lemma LeadingStepIsCloser(s: State, a: Action)
    requires Due(s) && Enabled(s, a) && Unhindered(a) && !Carried(s) && Leads(s, a)
    ensures Distance(Next(s, a)) < Distance(s)
  {
    var t := Next(s, a);
    if !Carried(t) {
      IdleFlowsNeverGrow(s, a);
      AheadNeverGrows(s, a);
      match a
      case Validate(id, _) => RefusedWasCounted(s, id);
      case Inspect(id, _) => assert Useful(t, id);
      case Snapshot(_) => assert t.workers[s.next].Scan?;
      case _ =>
    }
  }

  /** Until the row is carried out, some step that leads on is enabled. */
  lemma SomeStepLeads(s: State) returns (a: Action)
    requires Due(s) && !Carried(s)
    ensures Enabled(s, a) && Unhindered(a) && Leads(s, a)
  {
    if s.holder.Deciding? {
      a := Settle(false);
    } else if TimerAhead(s) {
      var id := s.core.live.value.id;
      a := if Ready(s.workers[id]) then Validate(id, true) else Fire(id);
    } else if RecoveryReady(s) {
      var id :| id in s.workers && Useful(s, id);
      a := Validate(id, true);
    } else if ScanReady(s) {
      var id :| id in s.workers && s.workers[id].Scan? && Owns(s.core, s.workers[id].deadline);
      a := Inspect(id, true);
    } else {
      a := Snapshot(false);
    }
  }

  lemma NothingNewToInspect(s: State, a: Action)
    requires Due(s) && Enabled(s, a) && Unhindered(a) && !Carried(s) && !Leads(s, a)
    requires s.core.live == None && !RecoveryReady(s)
    ensures !RecoveryReady(Next(s, a))
    ensures !ScanReady(s) ==> !ScanReady(Next(s, a))
  {
    var t := Next(s, a);
    if id :| id in t.workers && Useful(t, id) {
      assert id in s.workers && Useful(s, id);
    }
  }

  /** A step that leads on stays enabled and goes on leading until one such step is taken, so an
      event loop that starves nobody takes one. */
  lemma LeadingStepStays(s: State, a: Action, b: Action)
    requires Due(s) && Enabled(s, a) && Unhindered(a) && !Carried(s) && !Leads(s, a)
    requires Enabled(s, b) && Unhindered(b) && Leads(s, b)
    ensures Enabled(Next(s, a), b) && Leads(Next(s, a), b)
  {
    if s.core.live == None && !RecoveryReady(s) {
      NothingNewToInspect(s, a);
    }
  }

  // ---------------------------------------------------------------------------
  // Every fair order
  // ---------------------------------------------------------------------------

  ghost predicate IsUnhindered(states: seq<State>, actions: seq<Action>) {
    IsPath(states, actions) && forall i :: 0 <= i < |actions| ==> Unhindered(actions[i])
  }

  /** How many steps of a path lead on. */
  ghost function LeadingSteps(states: seq<State>, actions: seq<Action>): nat
    requires IsPath(states, actions)
  {
    if actions == [] then 0
    else
      var n := |actions| - 1;
      LeadingSteps(states[..n + 1], actions[..n]) + if Leads(states[n], actions[n]) then 1 else 0
  }

  lemma {:induction false} DistanceAlongPath(states: seq<State>, actions: seq<Action>)
    requires IsUnhindered(states, actions) && Due(states[0])
    requires forall i :: 0 <= i < |states| ==> !Carried(states[i])
    ensures Due(Last(states)) && Distance(Last(states)) + LeadingSteps(states, actions) <= Distance(states[0])
    ensures LeadingSteps(states, actions) < Distance(states[0])
    decreases |actions|
  {
    if actions != [] {
      var n := |actions| - 1;
      DistanceAlongPath(states[..n + 1], actions[..n]);
      StepOfPath(states[n], actions[n], states[n + 1]);
    }
  }

  lemma StepOfPath(s: State, a: Action, t: State)
    requires Due(s) && Enabled(s, a) && Unhindered(a) && t == Next(s, a) && !Carried(s) && !Carried(t)
    ensures Due(t) && Distance(t) + (if Leads(s, a) then 1 else 0) <= Distance(s) && Distance(t) > 0
  {
    StaysDue(s, a);
    DistanceNeverGrows(s, a);
    if Leads(s, a) {
      LeadingStepIsCloser(s, a);
    }
  }

  /** Every due row is locked in the end, in whatever order time, timers and sweeps take their
      steps: once as many steps that lead on have been taken as the row was away, its lock
      command has gone out. */
  lemma RowIsLockedInTheEnd(states: seq<State>, actions: seq<Action>)
    requires IsUnhindered(states, actions) && Due(states[0])
    requires LeadingSteps(states, actions) >= Distance(states[0])
    ensures exists i :: 0 <= i < |states| && Carried(states[i])
  {
    if forall i :: 0 <= i < |states| ==> !Carried(states[i]) {
      DistanceAlongPath(states, actions);
    }
  }

  /** What carried out means: the command in flight is for the row that was due, or a confirmed
      lock of that row has been settled. */
  lemma {:induction false} CarriedIsForTheRow(states: seq<State>, actions: seq<Action>, i: nat)
    requires IsUnhindered(states, actions) && Due(states[0]) && i < |states|
    requires forall k :: 0 <= k < i ==> !Carried(states[k])
    ensures Inv(states[i]) && (Carried(states[i]) || Due(states[i]))
    ensures states[i].core.row.Some? ==> states[i].core.row == states[0].core.row
    ensures states[i].holder.Commanding? ==>
              && states[i].holder.id in states[i].workers
              && states[0].core.row == Some(Row(states[i].workers[states[i].holder.id].deadline, states[i].holder.gen))
    ensures states[i].core.row == None && states[0].core.row.Some? ==>
              && i > 0 && actions[i - 1].Settle? && states[i - 1].holder.ok
              && states[i - 1].holder.gen == states[0].core.row.value.gen
    decreases i
  {
    if i > 0 {
      CarriedIsForTheRow(states, actions, i - 1);
      StepIsForTheRow(states[i - 1], actions[i - 1]);
      StaysDue(states[i - 1], actions[i - 1]);
    }
  }

  lemma StepIsForTheRow(s: State, a: Action)
    requires Due(s) && Enabled(s, a) && Unhindered(a) && !Carried(s)
    ensures Inv(Next(s, a))
    ensures Next(s, a).core.row == s.core.row
            || (Next(s, a).core.row == None && a.Settle? && s.holder.ok && s.holder.gen == s.core.row.value.gen)
  {
    StepKeepsInv(s, a);
  }
}
