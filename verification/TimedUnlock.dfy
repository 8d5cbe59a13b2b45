/** One manual lock action on a Home Assistant lock (lock_actions.py): the entity lock, the
    command barrier, and the relock intent or pause that every exit has to resolve.  Every
    await may succeed, raise or be cancelled, as `World` dictates, and while the command is
    out a synchronised hub may schedule a relock of its own. */
module TimedUnlock {
  import opened Common
  import Core = RelockCore
  import opened RelockManagement

  datatype Await = Ok | Raises | Cancelled

  datatype Verb = Buzz | Unlock | Lock

  datatype Result = Granted | Denied | Error | Unconfirmed

  datatype Exit = Finished(result: Result) | Failed | Interrupted

  datatype Published = PublishedState(state: LockState) | PublishedUnknown

  datatype World = World(
    lockdownAtEntry: bool, buzzEnabled: bool,
    entityWait: Await, barrierWait: Await, client: bool, lease: Await, lockdown: bool, manager: bool,
    now: int, duration: int, later: int,
    prepare: Await,        // schedule of a buzz, pause of a hold
    prepareWritten: bool,  // whether a cancelled schedule had already committed
    mark: Await,           // the synchronous bookkeeping before the command; it can only raise
    command: Await, accepted: bool,
    external: Option<int>, // duration of a concurrent hub schedule
    confirm: Await, confirmed: bool,
    settle: Await,         // extend, cancel, retain or resume on the straight path
    settleWritten: bool,   // whether a cancelled settle had already committed
    cleanup: bool,         // whether the shielded cleanup reaches the database
    cleanupCancelled: bool)

  predicate Dangerous(v: Verb) {
    v != Lock
  }

  function Expected(v: Verb): LockState {
    if v == Lock then Locked else Unlocked
  }

  /** What an awaited critical section has written: a cancellation arrives before the commit or
      right behind it, never after the rest of the section. */
  function Ended(a: Await, written: bool): Core.Write {
    match a
    case Ok => Core.Done
    case Raises => Core.Failed
    case Cancelled => if written then Core.Cut else Core.Failed
  }

  function Settled(w: World): Core.Write {
    Ended(w.settle, w.settleWritten)
  }

  /** The shielded cleanup runs to its end or does not reach the database. */
  function Cleanup(w: World): Core.Write {
    if w.cleanup then Core.Done else Core.Failed
  }

  /** A hub has scheduled a relock of its own while the command was out. */
  predicate Overtaken(w: World) {
    w.mark == Ok && w.external.Some?
  }

  /** The command was accepted and the readback showed the expected state. */
  predicate Confirmed(w: World) {
    w.mark == Ok && w.command == Ok && w.accepted && w.confirm == Ok && w.confirmed
  }

  /** The straight path reached its own resolution of an unconfirmed command. */
  predicate Unresolved(w: World) {
    w.mark == Ok && w.command == Ok && (!w.accepted || (w.confirm == Ok && !w.confirmed))
  }

  /** The extension of a confirmed buzz was cut while it moved the deadline. */
  predicate ExtensionCut(w: World) {
    Confirmed(w) && Settled(w).Cut? && w.later != w.now
  }

  /** The deadline of the row a buzz leaves behind, whatever happened after its write-ahead row:
      a concurrent schedule wins, an extension counts once it is committed, everything else
      keeps the earlier of the predecessor and the write-ahead deadline if the database can be
      reached. */
  function BuzzDeadline(w: World, previous: Option<Core.Row>): int {
    var ahead := w.now + w.duration;
    if Overtaken(w) then w.now + w.external.value
    else if Confirmed(w) && w.settle == Raises then ahead
    else if Confirmed(w) && (w.settle == Ok || ExtensionCut(w)) then w.later + w.duration
    else if w.cleanup || (Unresolved(w) && !Settled(w).Failed?) then Core.Earliest(ahead, previous)
    else ahead
  }

  /** When the row is durable but not armed: the last write of the action was cut while it
      moved the deadline, so the timer beside the row is the one of the old deadline. */
  predicate OnlyDurable(w: World, previous: Option<Core.Row>) {
    var ahead := w.now + w.duration;
    && !Overtaken(w)
    && (ExtensionCut(w) || (Unresolved(w) && Settled(w).Cut? && Core.Earliest(ahead, previous) < ahead))
  }

  /** The row has the promised deadline, and a timer of that deadline unless `OnlyDurable`. */
  predicate Promised(c: Core.Core, w: World, previous: Option<Core.Row>) {
    && Core.Owns(c, BuzzDeadline(w, previous))
    && (Core.Armed(c) <==> !OnlyDurable(w, previous))
  }

  /** The schedule of a buzz committed its row and was cancelled before it started a timer. */
  predicate ScheduleCut(c0: Core.Core, w: World) {
    w.manager && !c0.down && Ended(w.prepare, w.prepareWritten).Cut?
  }

  /** What a buzz that was not prepared leaves behind. */
  predicate Unprepared(c0: Core.Core, c: Core.Core, w: World) {
    && c.live == c0.live && c.paused == c0.paused && c.down == c0.down
    && if ScheduleCut(c0, w) then Core.Owns(c, w.now + w.duration) else c.row == c0.row
  }

  /** Where the body of a buzz leaves the relock and its intent. */
  predicate BuzzLeft(c0: Core.Core, c: Core.Core, intent: Option<Core.Intent>, exit: Exit, w: World) {
    if !w.manager || c0.down || w.prepare != Ok then
      && Unprepared(c0, c, w) && intent == None
      && exit == if !w.manager then Finished(Error) else if w.prepare == Cancelled then Interrupted else Failed
    else if exit.Finished? then
      && intent == None && Promised(c, w, c0.row) && Core.Armed(c)
      && (Confirmed(w) || Unresolved(w)) && w.settle != Cancelled
      && exit.result == if Confirmed(w) then Granted else if w.accepted then Unconfirmed else Error
    else
      && intent.Some? && Pending(c0, c, intent.value, w)
      && !(Confirmed(w) && w.settle != Cancelled) && !(Unresolved(w) && w.settle == Ok)
  }

  /** A relock whose intent is still to be resolved by the cleanup: either the intent owns the
      row, and the cleanup decides, or nothing can change what was promised. */
  predicate Pending(c0: Core.Core, c: Core.Core, i: Core.Intent, w: World) {
    && !c.down && !c.paused && i.previous == c0.row
    && i.row.deadline == w.now + w.duration == i.task.deadline
    && if Core.Owns(c, i.row.deadline) && c.live == Some(i.task)
       then !OnlyDurable(w, c0.row)
            && BuzzDeadline(w, c0.row) ==
               if w.cleanup then Core.Earliest(w.now + w.duration, c0.row) else w.now + w.duration
       else Promised(c, w, c0.row)
  }

  /** A pause ends with the resume of the row it found; without a row there is nothing to resume. */
  predicate StaysPaused(c0: Core.Core, resumed: bool) {
    if c0.row.Some? then !resumed else c0.paused
  }

  /** The durable row a hold leaves when it does not clear it. */
  predicate HoldRow(c0: Core.Core, c: Core.Core, w: World) {
    if Overtaken(w) then Core.Owns(c, w.now + w.external.value) else c.row == c0.row
  }

  /** A hold that is not cleared: its row and, once resumed, the row's own timer. */
  predicate HoldKept(c0: Core.Core, c: Core.Core, w: World, resumed: bool) {
    && HoldRow(c0, c, w)
    && (c.paused <==> !Overtaken(w) && StaysPaused(c0, resumed))
    && if (resumed || Overtaken(w)) && c.row.Some? then Core.Armed(c) else c.live == None
  }

  /** A confirmed hold whose row is gone.  A cut deletion leaves the pause to the cleanup, and
      the timer of a concurrent schedule without a row to act on. */
  predicate HoldCleared(c0: Core.Core, c: Core.Core, w: World, resumed: bool) {
    && c.row == None
    && (c.live.Some? <==> Settled(w).Cut? && Overtaken(w))
    && (c.paused <==> Settled(w).Cut? && !Overtaken(w) && StaysPaused(c0, resumed))
  }

  predicate HoldEnds(c0: Core.Core, c: Core.Core, w: World, resumed: bool) {
    if Confirmed(w) && !Settled(w).Failed? then HoldCleared(c0, c, w, resumed)
    else HoldKept(c0, c, w, resumed || (Unresolved(w) && w.settle == Ok))
  }

  /** What a manual hold leaves behind: cleared after a confirmed command, re-armed after any
      other if the pause could be resolved, otherwise durable and still paused. */
  predicate HoldLeft(c0: Core.Core, c: Core.Core, w: World) {
    if !w.manager || w.prepare != Ok then c == c0 else HoldEnds(c0, c, w, w.cleanup)
  }

  /** The same before the cleanup of a failed or interrupted hold. */
  predicate HoldPending(c0: Core.Core, c: Core.Core, w: World) {
    HoldEnds(c0, c, w, false)
  }

  lemma CleanupResolvesHold(c0: Core.Core, c: Core.Core, w: World, name: Core.TaskId)
    requires !c0.down && !c.down && HoldPending(c0, c, w) && w.manager && w.prepare == Ok
    ensures HoldLeft(c0, if c0.row.Some? then Core.Resume(c, c0.row.value, name, w.cleanup) else c, w)
  {
  }

  lemma CleanupResolvesBuzz(c0: Core.Core, c: Core.Core, i: Core.Intent, w: World, name: Core.TaskId)
    requires Pending(c0, c, i, w)
    ensures Promised(Core.Retain(c, i, name, Cleanup(w)), w, c0.row)
  {
  }

  function HoldExit(w: World, row: Option<Core.Row>): Exit {
    var awaits := w.manager && (Confirmed(w) || row.Some?);
    if Confirmed(w) || Unresolved(w) then
      if awaits && w.settle != Ok then if w.settle == Cancelled then Interrupted else Failed
      else Finished(if Confirmed(w) then Granted else if w.accepted then Unconfirmed else Error)
    else if w.confirm == Cancelled then Interrupted else Failed
  }

  function HoldCore(c: Core.Core, row: Option<Core.Row>, w: World, name: Core.TaskId): Core.Core {
    if !w.manager then c
    else if Confirmed(w) then Core.Cancel(c, Settled(w))
    else if Unresolved(w) && row.Some? then Core.Resume(c, row.value, name, w.settle == Ok)
    else c
  }

  function ResolveExit(w: World): Exit
    requires w.mark == Ok && w.command == Ok
  {
    if Confirmed(w) then if w.settle == Cancelled then Interrupted else Finished(Granted)
    else if Unresolved(w) then
      if w.settle == Ok then Finished(if w.accepted then Unconfirmed else Error)
      else if w.settle == Cancelled then Interrupted else Failed
    else if w.confirm == Cancelled then Interrupted else Failed
  }

  function ResolveCore(c: Core.Core, i: Core.Intent, w: World, name: Core.TaskId): Core.Core {
    if Confirmed(w) then
      Core.Extend(c, i, Core.Row(w.later + w.duration, name), name, Settled(w))
    else if Unresolved(w) then Core.Retain(c, i, name, Settled(w))
    else c
  }

  /** The relock state once the command is out: a hub may have scheduled a relock meanwhile. */
  function AfterCommand(c: Core.Core, w: World, name: Core.TaskId): Core.Core {
    if w.external.Some? && w.manager then
      Core.Schedule(c, Core.Row(w.now + w.external.value, name), name, Core.Done)
    else c
  }

  /** The same for a buzz with its write-ahead schedule. */
  function Sent(c0: Core.Core, i: Core.Intent, w: World, name: Core.TaskId): Core.Core {
    AfterCommand(Core.Schedule(c0, i.row, i.task.id, Core.Done), w, name)
  }

  lemma BuzzComposes(c0: Core.Core, i: Core.Intent, w: World, name: Core.TaskId, again: Core.TaskId)
    requires w.manager && !c0.down && w.prepare == Ok
    requires i.row.deadline == w.now + w.duration == i.task.deadline && i.previous == c0.row
    requires i.task.id < name && name <= again
    ensures w.mark != Ok ==> BuzzLeft(c0, Core.Schedule(c0, i.row, i.task.id, Core.Done), Some(i), Failed, w)
    ensures w.mark == Ok && w.command != Ok ==>
              BuzzLeft(c0, Sent(c0, i, w, name), Some(i), if w.command == Cancelled then Interrupted else Failed, w)
    ensures w.mark == Ok && w.command == Ok ==>
              BuzzLeft(c0, ResolveCore(Sent(c0, i, w, name), i, w, again),
                       if ResolveExit(w).Finished? then None else Some(i), ResolveExit(w), w)
  {
  }


  function CommandCore(c: Core.Core, row: Option<Core.Row>, w: World, name: Core.TaskId, again: Core.TaskId): Core.Core
  {
    if w.mark != Ok then c
    else if w.command != Ok then AfterCommand(c, w, name)
    else HoldCore(AfterCommand(c, w, name), row, w, again)
  }

  function CommandExit(w: World, row: Option<Core.Row>): Exit {
    if w.mark != Ok then Failed
    else if w.command != Ok then if w.command == Cancelled then Interrupted else Failed
    else HoldExit(w, row)
  }

  lemma HoldComposes(c0: Core.Core, w: World, name: Core.TaskId, again: Core.TaskId)
    requires !c0.down && (w.manager ==> w.prepare == Ok)
    ensures var c := CommandCore(if w.manager then Core.Pause(c0, true) else c0,
                                 if w.manager then c0.row else None, w, name, again);
            if w.manager && !CommandExit(w, c0.row).Finished? then HoldPending(c0, c, w) else HoldLeft(c0, c, w)
  {
  }

  class LockAction {
    const entity: EntityId
    const verb: Verb
    var barrierHeld: bool
    var entityHeld: bool
    var intent: Option<Core.Intent>
    var pausedRow: Option<Core.Row>
    var pausedNeedsResolution: bool
    var attempted: bool
    var published: Option<Published>
    ghost var barrierTaken: nat
    ghost var barrierGiven: nat
    ghost var entityTaken: nat
    ghost var entityGiven: nat

    /** Each lock is given back as often as it was taken, and never taken twice. */
    ghost predicate Balanced()
      reads this
    {
      && barrierTaken == barrierGiven + (if barrierHeld then 1 else 0) && barrierTaken <= 1
      && entityTaken == entityGiven + (if entityHeld then 1 else 0) && entityTaken <= 1
    }

    constructor (e: EntityId, v: Verb)
      ensures entity == e && verb == v && Balanced() && !barrierHeld && !entityHeld && entityTaken == 0
      ensures barrierTaken == 0
      ensures intent == None && !pausedNeedsResolution && !attempted && published == None
    {
      entity, verb := e, v;
      barrierHeld, entityHeld, intent, pausedRow, pausedNeedsResolution := false, false, None, None, false;
      attempted, published := false, None;
      barrierTaken, barrierGiven, entityTaken, entityGiven := 0, 0, 0, 0;
    }

    /** `release_barrier_now`: safe to call on every path. */
    method ReleaseBarrierNow()
      requires Balanced()
      modifies `barrierHeld, `barrierGiven
      ensures Balanced() && !barrierHeld
    {
      if barrierHeld {
        barrierHeld := false;
        barrierGiven := barrierGiven + 1;
      }
    }

    /** The write to Home Assistant, and whatever the hubs schedule while it is out. */
    method Issue(rm: RelockManager, w: World) returns (outcome: Await)
      requires entityHeld && barrierHeld && !attempted && (Dangerous(verb) ==> !w.lockdown)
      modifies `attempted, rm
      ensures attempted && outcome == w.command
      ensures w.external == None || !w.manager ==> rm.next == old(rm.next)
      ensures rm.View(entity) == AfterCommand(old(rm.View(entity)), w, old(rm.next))
      ensures rm.next >= old(rm.next)
    {
      attempted := true;
      if w.external.Some? && w.manager {
        var other := rm.Schedule(entity, w.now, w.external.value, Core.Done);
      }
      outcome := w.command;
    }

    /** The buzz branch between the lockdown check and the exception handlers. */
    method BuzzBody(rm: RelockManager, w: World) returns (exit: Exit)
      requires Balanced() && barrierHeld && entityHeld && !attempted && intent == None && !w.lockdown && verb == Buzz
      modifies `barrierHeld, `barrierGiven, `intent, `attempted, `published, rm
      ensures Balanced()
      ensures BuzzLeft(old(rm.View(entity)), rm.View(entity), intent, exit, w)
      ensures attempted ==> w.manager && w.prepare == Ok && w.mark == Ok && !old(rm.View(entity)).down
      ensures attempted && exit.Finished? ==> published == Some(Readback(exit.result))
      ensures !attempted ==> published == old(published) && exit != Finished(Granted)
    {
      if !w.manager {
        return Finished(Error);
      }
      intent := rm.Schedule(entity, w.now, w.duration, Ended(w.prepare, w.prepareWritten));
      if intent == None {
        return if w.prepare == Cancelled then Interrupted else Failed;
      }
      ghost var name := rm.next;
      ghost var c0 := old(rm.View(entity));
      assert rm.View(entity) == Core.Schedule(c0, intent.value.row, intent.value.task.id, Core.Done);
      BuzzComposes(c0, intent.value, w, name, name);
      if w.mark != Ok {
        return Failed;
      }
      var outcome := Issue(rm, w);
      if outcome != Ok {
        return if outcome == Cancelled then Interrupted else Failed;
      }
      assert rm.View(entity) == Sent(c0, intent.value, w, name);
      BuzzComposes(c0, intent.value, w, name, rm.next);
      exit := BuzzResolve(rm, w, intent.value);
    }

    /** Readback, and what it means for the intent. */
    method BuzzResolve(rm: RelockManager, w: World, i: Core.Intent) returns (exit: Exit)
      requires Balanced() && intent == Some(i) && w.mark == Ok && w.command == Ok && verb == Buzz
      modifies `barrierHeld, `barrierGiven, `intent, `published, rm
      ensures Balanced() && !barrierHeld
      ensures exit.Finished? ==> published == Some(Readback(exit.result))
      ensures exit == ResolveExit(w) && intent == if exit.Finished? then None else Some(i)
      ensures rm.View(entity) == ResolveCore(old(rm.View(entity)), i, w, old(rm.next))
    {
      ReleaseBarrierNow();
      if w.accepted && w.confirm != Ok {
        return if w.confirm == Cancelled then Interrupted else Failed;
      }
      if w.accepted && w.confirmed {
        published := Some(PublishedState(Unlocked));
        var extended := rm.ExtendAfterSuccess(entity, i, w.later, w.duration, Settled(w));
        if w.settle == Cancelled {
          return Interrupted;
        }
        intent := None;
        return Finished(Granted);
      }
      var retained := rm.RetainAfterUncertainUnlock(entity, i, Settled(w));
      if w.settle != Ok {
        return if w.settle == Cancelled then Interrupted else Failed;
      }
      intent := None;
      published := Some(PublishedUnknown);
      exit := Finished(if w.accepted then Unconfirmed else Error);
    }

    /** The lock and unlock branch: pause, command, then cancel or resume. */
    method HoldBody(rm: RelockManager, w: World) returns (exit: Exit)
      requires Balanced() && barrierHeld && entityHeld && !attempted && !pausedNeedsResolution
      requires Dangerous(verb) ==> !w.lockdown
      modifies `barrierHeld, `barrierGiven, `pausedRow, `pausedNeedsResolution, `attempted, `published, rm
      ensures Balanced()
      ensures attempted <==> (w.manager ==> w.prepare == Ok) && w.mark == Ok
      ensures HoldState(old(rm.View(entity)), rm.View(entity), exit, w)
      ensures exit.Finished? ==> published == Some(Readback(exit.result))
      ensures !attempted ==> published == old(published)
    {
      ghost var c0 := rm.View(entity);
      if w.manager {
        if w.prepare != Ok {
          return if w.prepare == Cancelled then Interrupted else Failed;
        }
        pausedRow := rm.Pause(entity, true);
        pausedNeedsResolution := true;
      } else {
        pausedRow := None;
      }
      ghost var c := rm.View(entity);
      ghost var name, again;
      exit, name, again := HoldCommand(rm, w);
      assert rm.View(entity) == CommandCore(if w.manager then Core.Pause(c0, true) else c0,
                                            if w.manager then c0.row else None, w, name, again);
      if !c0.down {
        HoldComposes(c0, w, name, again);
      }
    }

    /** The command of a hold with its bookkeeping and readback. */
    method HoldCommand(rm: RelockManager, w: World)
      returns (exit: Exit, ghost name: Core.TaskId, ghost again: Core.TaskId)
      requires Balanced() && barrierHeld && entityHeld && !attempted && pausedNeedsResolution == w.manager
      requires Dangerous(verb) ==> !w.lockdown
      modifies `barrierHeld, `barrierGiven, `pausedNeedsResolution, `attempted, `published, rm
      ensures Balanced() && (attempted <==> w.mark == Ok)
      ensures exit == CommandExit(w, pausedRow) && pausedNeedsResolution == (w.manager && !exit.Finished?)
      ensures rm.View(entity) == CommandCore(old(rm.View(entity)), pausedRow, w, name, again)
      ensures rm.View(entity).down == old(rm.View(entity)).down
      ensures exit.Finished? ==> published == Some(Readback(exit.result))
      ensures !attempted ==> published == old(published)
    {
      name, again := rm.next, rm.next;
      if w.mark != Ok {
        return Failed, name, again;
      }
      var outcome := Issue(rm, w);
      assert rm.View(entity) == AfterCommand(old(rm.View(entity)), w, name);
      if outcome != Ok {
        return if outcome == Cancelled then Interrupted else Failed, name, again;
      }
      again := rm.next;
      exit := HoldResolve(rm, w);
    }

    /** Readback, and what it means for the pause. */
    method HoldResolve(rm: RelockManager, w: World) returns (exit: Exit)
      requires Balanced() && w.mark == Ok && w.command == Ok && pausedNeedsResolution == w.manager
      modifies `barrierHeld, `barrierGiven, `pausedNeedsResolution, `published, rm
      ensures Balanced() && !barrierHeld
      ensures exit == HoldExit(w, pausedRow) && pausedNeedsResolution == (w.manager && !exit.Finished?)
      ensures rm.View(entity) == HoldCore(old(rm.View(entity)), pausedRow, w, old(rm.next))
      ensures exit.Finished? ==> published == Some(Readback(exit.result))
    {
      ReleaseBarrierNow();
      if w.accepted && w.confirm != Ok {
        return if w.confirm == Cancelled then Interrupted else Failed;
      }
      if w.accepted && w.confirmed {
        published := Some(PublishedState(Expected(verb)));
        if w.manager {
          rm.Cancel(entity, Settled(w));
          if w.settle != Ok {
            return if w.settle == Cancelled then Interrupted else Failed;
          }
          pausedNeedsResolution := false;
        }
        return Finished(Granted);
      }
      if w.manager && pausedRow.Some? {
        var resumed := rm.Resume(entity, pausedRow.value, w.settle == Ok);
        if w.settle != Ok {
          return if w.settle == Cancelled then Interrupted else Failed;
        }
      }
      pausedNeedsResolution := false;
      published := Some(PublishedUnknown);
      exit := Finished(if w.accepted then Unconfirmed else Error);
    }

    ghost predicate HoldState(c0: Core.Core, c: Core.Core, exit: Exit, w: World)
      reads this
    {
      && (pausedNeedsResolution <==> w.manager && w.prepare == Ok && !exit.Finished?)
      && (pausedNeedsResolution ==> pausedRow == c0.row)
      && (attempted ==> exit == CommandExit(w, c0.row))
      && (!attempted ==> !exit.Finished?)
      && c.down == c0.down
      && (!c0.down ==>
            if pausedNeedsResolution then HoldPending(c0, c, w) else HoldLeft(c0, c, w))
    }

    function Readback(result: Result): Published {
      if result == Granted then PublishedState(Expected(verb)) else PublishedUnknown
    }

    /** Where the branch of the verb leaves relock, intent and pause. */
    ghost predicate BodyLeft(c0: Core.Core, c: Core.Core, exit: Exit, w: World)
      reads this
    {
      && (verb == Buzz ==>
            && !pausedNeedsResolution && BuzzLeft(c0, c, intent, exit, w)
            && (attempted ==> w.manager && w.prepare == Ok && w.mark == Ok && !c0.down)
            && (!attempted ==> exit != Finished(Granted)))
      && (verb != Buzz ==> intent == None && HoldState(c0, c, exit, w))
    }

    predicate Announced(exit: Exit)
      reads this
    {
      (attempted && exit.Finished? ==> published == Some(Readback(exit.result))) && (!attempted ==> published == None)
    }

    /** The branch of the verb. */
    method Branch(rm: RelockManager, w: World) returns (exit: Exit)
      requires Balanced() && barrierHeld && entityHeld && Fresh() && (Dangerous(verb) ==> !w.lockdown)
      modifies `barrierHeld, `barrierGiven, `intent, `pausedRow, `pausedNeedsResolution, `attempted, `published, rm
      ensures Balanced() && BodyLeft(old(rm.View(entity)), rm.View(entity), exit, w) && Announced(exit)
    {
      if verb == Buzz {
        exit := BuzzBody(rm, w);
      } else {
        exit := HoldBody(rm, w);
      }
    }

    /** Everything inside the outer `try`. */
    method TryAction(rm: RelockManager, w: World) returns (exit: Exit)
      requires Balanced() && barrierTaken == 0 == entityTaken && Fresh()
      modifies this, rm
      ensures Balanced() && barrierTaken <= 1 && (barrierHeld ==> entityHeld)
      ensures Reaches(w) ==>
                entityHeld && BodyLeft(old(rm.View(entity)), rm.View(entity), exit, w) && Announced(exit)
      ensures !Reaches(w) ==> rm.View(entity) == old(rm.View(entity)) && Fresh()
      ensures !Reaches(w) && exit.Finished? ==> exit.result != Granted
    {
      if w.entityWait != Ok {
        return Interrupted;
      }
      entityHeld, entityTaken := true, entityTaken + 1;
      if w.barrierWait != Ok {
        return Interrupted;
      }
      barrierHeld, barrierTaken := true, barrierTaken + 1;
      if w.client && w.lease != Ok {
        return if w.lease == Cancelled then Interrupted else Failed;
      }
      if Dangerous(verb) && w.lockdown {
        ReleaseBarrierNow();
        return Finished(Denied);
      }
      if !w.client {
        return Finished(Error);
      }
      exit := Branch(rm, w);
    }

    predicate Fresh()
      reads this
    {
      intent == None && !pausedNeedsResolution && !attempted && published == None
    }

    /** The action gets as far as preparing its command. */
    predicate Reaches(w: World) {
      && w.entityWait == Ok && w.barrierWait == Ok && w.client && w.lease == Ok
      && !(Dangerous(verb) && w.lockdown)
    }

    /** `retain_intent` or `resume_paused` of an exception handler, shielded to completion. */
    method CleanUp(rm: RelockManager, w: World)
      modifies rm
      ensures rm.View(entity) == CleanedUp(old(rm.View(entity)), w, old(rm.next))
    {
      if intent.Some? {
        var retained := rm.RetainAfterUncertainUnlock(entity, intent.value, Cleanup(w));
      } else if pausedNeedsResolution && pausedRow.Some? {
        var resumed := rm.Resume(entity, pausedRow.value, w.cleanup);
      }
    }

    function CleanedUp(c: Core.Core, w: World, name: Core.TaskId): Core.Core
      reads this
    {
      if intent.Some? then Core.Retain(c, intent.value, name, Cleanup(w))
      else if pausedNeedsResolution && pausedRow.Some? then Core.Resume(c, pausedRow.value, name, w.cleanup)
      else c
    }

    /** The `except` clauses: a cancellation gives the barrier back before it cleans up, any
        other exception keeps it until `finally`. */
    method Handle(rm: RelockManager, w: World, exit: Exit) returns (result: Option<Result>)
      requires Balanced()
      modifies `barrierHeld, `barrierGiven, `published, rm
      ensures Balanced()
      ensures exit.Finished? ==> result == Some(exit.result) && rm.View(entity) == old(rm.View(entity))
                                 && published == old(published)
      ensures !exit.Finished? ==> result in {None, Some(Error)} && (exit.Interrupted? ==> result == None)
                                  && rm.View(entity) == CleanedUp(old(rm.View(entity)), w, old(rm.next))
                                  && published == if attempted then Some(PublishedUnknown) else old(published)
    {
      match exit {
        case Finished(r) =>
          result := Some(r);
        case Interrupted =>
          ReleaseBarrierNow();
          Abandon(rm, w);
          result := None;
        case Failed =>
          Abandon(rm, w);
          var resolving := intent.Some? || pausedNeedsResolution;
          result := if resolving && w.cleanupCancelled then None else Some(Error);
      }
    }

    /** What both handlers do: publish the doubt, then complete the safety cleanup. */
    method Abandon(rm: RelockManager, w: World)
      modifies `published, rm
      ensures published == if attempted then Some(PublishedUnknown) else old(published)
      ensures rm.View(entity) == CleanedUp(old(rm.View(entity)), w, old(rm.next))
    {
      if attempted {
        published := Some(PublishedUnknown);
      }
      CleanUp(rm, w);
    }

    /** The write-ahead schedule of a buzz succeeded, whether or not its command goes out. */
    predicate Prepared(c0: Core.Core, w: World) {
      Reaches(w) && w.manager && !c0.down && w.prepare == Ok
    }

    /** What an action leaves behind. */
    ghost predicate Concluded(c0: Core.Core, c: Core.Core, result: Option<Result>, w: World)
      reads this
    {
      && (attempted ==> published == Some(if result.Some? then Readback(result.value) else PublishedUnknown))
      && (!attempted ==> published == None)
      && (result == Some(Granted) <==>
            attempted && Confirmed(w)
            && (if verb == Buzz then w.settle != Cancelled else w.settle == Ok || !w.manager))
      && (verb == Buzz && (attempted || Prepared(c0, w)) ==> Promised(c, w, c0.row))
      && (verb == Buzz && Reaches(w) && ScheduleCut(c0, w) ==> !attempted && Unprepared(c0, c, w))
      && (verb != Buzz && Reaches(w) && !c0.down ==> HoldLeft(c0, c, w))
    }

    lemma HandledConcludes(c0: Core.Core, c: Core.Core, exit: Exit, result: Option<Result>, w: World, name: Core.TaskId)
      requires Reaches(w)
      requires BodyLeft(c0, c, exit, w)
      requires attempted ==> published == Some(if exit.Finished? then Readback(exit.result) else PublishedUnknown)
      requires !attempted ==> published == None
      requires if exit.Finished? then result == Some(exit.result) else result in {None, Some(Error)}
      ensures Concluded(c0, if exit.Finished? then c else CleanedUp(c, w, name), result, w)
    {
      if verb != Buzz && pausedNeedsResolution && !c0.down {
        CleanupResolvesHold(c0, c, w, name);
      }
      if verb == Buzz && intent.Some? {
        CleanupResolvesBuzz(c0, c, intent.value, w, name);
      }
    }

    /** The `try` with its handlers. */
    method Run(rm: RelockManager, w: World) returns (result: Option<Result>)
      requires Balanced() && barrierTaken == 0 == entityTaken && Fresh()
      modifies this, rm
      ensures Balanced() && barrierTaken <= 1
      ensures attempted ==> (Dangerous(verb) ==> !w.lockdown)
      ensures Concluded(old(rm.View(entity)), rm.View(entity), result, w)
      ensures !Reaches(w) ==> !attempted && rm.View(entity) == old(rm.View(entity))
    {
      var exit := TryAction(rm, w);
      ghost var c, name := rm.View(entity), rm.next;
      result := Handle(rm, w, exit);
      if Reaches(w) {
        HandledConcludes(old(rm.View(entity)), c, exit, result, w, name);
      }
    }

    /** `execute_lock_action`; `None` stands for a re-raised cancellation. */
    method Execute(rm: RelockManager, w: World) returns (result: Option<Result>)
      requires Balanced() && barrierTaken == 0 == entityTaken && Fresh()
      modifies this, rm
      ensures !barrierHeld && barrierGiven == barrierTaken <= 1
      ensures !entityHeld && entityGiven == entityTaken <= 1
      ensures attempted && Dangerous(verb) ==> !w.lockdown && !w.lockdownAtEntry
      ensures if (Dangerous(verb) && w.lockdownAtEntry) || (verb == Buzz && !w.buzzEnabled)
              then result == Some(Denied) && !attempted && rm.View(entity) == old(rm.View(entity))
              else Concluded(old(rm.View(entity)), rm.View(entity), result, w)
      ensures !Reaches(w) ==> !attempted && rm.View(entity) == old(rm.View(entity))
    {
      if (Dangerous(verb) && w.lockdownAtEntry) || (verb == Buzz && !w.buzzEnabled) {
        return Some(Denied);
      }
      result := Run(rm, w);
      ReleaseBarrierNow();
      if entityHeld {
        entityHeld, entityGiven := false, entityGiven + 1;
      }
    }
  }
}
