/** The relock manager as the object it is (relock_manager.py): dictionaries of live tasks and
    a set of paused entities beside the durable table.  Every method is one critical section;
    its contract is the operation of `RelockCore` on its entity and nothing on any other. */
module RelockManagement {
  import opened Common
  import Core = RelockCore

  type EntityId = string

  datatype Pending = Pending(entity: EntityId, deadline: int)

  /** What one recovered snapshot row leaves behind. */
  predicate IsRecovered(before: Core.Core, after: Core.Core, deadline: int, now: int, future: bool, locked: bool) {
    var verdict := Core.Inspect(before, deadline, now);
    && after.row == (if verdict.Overdue? && locked then None else before.row)
    && (after.live.Some? <==> before.live.Some? || (verdict.Arm? && future))
    && after.paused == before.paused && after.down == before.down
  }

  /** And what is reported of it. */
  predicate IsSwept(before: Core.Core, after: Core.Core, deadline: int, now: int, future: bool, locked: bool,
                    removed: bool)
  {
    IsRecovered(before, after, deadline, now, future, locked) && (removed <==> after.row != before.row)
  }

  function Trues(flags: seq<bool>): nat {
    if flags == [] then 0 else Trues(flags[..|flags| - 1]) + if flags[|flags| - 1] then 1 else 0
  }

  class RelockManager {
    var rows: map<EntityId, Core.Row>
    var tasks: map<EntityId, Core.Task>
    var paused: set<EntityId>
    var shuttingDown: bool
    var next: nat

    /** What the manager knows about one entity. */
    function View(e: EntityId): Core.Core
      reads this
    {
      Core.Core(if e in rows then Some(rows[e]) else None,
                if e in tasks then Some(tasks[e]) else None, e in paused, shuttingDown)
    }

    twostate predicate OthersKept(e: EntityId)
      reads this
    {
      forall o :: o != e ==> View(o) == old(View(o))
    }

    constructor (stored: map<EntityId, Core.Row>, names: nat)
      ensures forall e :: View(e) == Core.Core(if e in stored then Some(stored[e]) else None, None, false, false)
      ensures next == names
    {
      rows, tasks, paused, shuttingDown, next := stored, map[], {}, false, names;
    }

    method Schedule(e: EntityId, now: int, duration: int, write: Core.Write) returns (intent: Option<Core.Intent>)
      modifies this
      ensures View(e) == Core.Schedule(old(View(e)), Core.Row(now + duration, old(next)), old(next), write)
      ensures intent == if old(shuttingDown) || !write.Done? then None
                        else Some(Core.Intent(Core.Row(now + duration, old(next)), old(View(e)).row,
                                              Core.Task(old(next), now + duration)))
      ensures OthersKept(e) && next > old(next)
    {
      next := next + 1;
      if shuttingDown {
        return None;
      }
      var previous := if e in rows then Some(rows[e]) else None;
      var row := Core.Row(now + duration, next - 1);
      if !write.Failed? {
        rows := rows[e := row];
      }
      if !write.Done? {
        return None;
      }
      var task := Core.Task(next - 1, row.deadline);
      tasks := tasks[e := task];
      paused := paused - {e};
      intent := Some(Core.Intent(row, previous, task));
    }

    method RestoreAfterFailedUnlock(e: EntityId, i: Core.Intent, write: Core.Write) returns (restored: bool)
      modifies this
      ensures View(e) == Core.Restore(old(View(e)), i, old(next), write)
      ensures restored <==> old(Core.MayRestore(View(e), i)) && write.Done?
      ensures OthersKept(e) && next >= old(next)
    {
      if e !in rows || rows[e].deadline != i.row.deadline {
        return false;
      }
      if !(e in tasks && tasks[e] == i.task) {
        if !(shuttingDown && e !in tasks) {
          return false;
        }
      }
      if !write.Failed? {
        match i.previous {
          case None => rows := rows - {e};
          case Some(row) => rows := rows[e := row];
        }
      }
      if !write.Done? {
        return false;
      }
      tasks := tasks - {e};
      paused := paused - {e};
      if i.previous.Some? && !shuttingDown {
        tasks := tasks[e := Core.Task(next, i.previous.value.deadline)];
        next := next + 1;
      }
      restored := true;
    }

    method RetainAfterUncertainUnlock(e: EntityId, i: Core.Intent, write: Core.Write) returns (retained: bool)
      modifies this
      ensures View(e) == Core.Retain(old(View(e)), i, old(next), write)
      ensures !Core.RetainRestores(i) ==> (retained <==> Core.Owns(View(e), i.row.deadline))
      ensures OthersKept(e) && next >= old(next)
    {
      if i.previous.Some? && i.previous.value.deadline <= i.row.deadline {
        retained := RestoreAfterFailedUnlock(e, i, write);
        return;
      }
      retained := e in rows && rows[e].deadline == i.row.deadline;
    }

    method ExtendAfterSuccess(e: EntityId, i: Core.Intent, now: int, duration: int, write: Core.Write)
      returns (extended: bool)
      modifies this
      ensures View(e) == Core.Extend(old(View(e)), i, Core.Row(now + duration, old(next)), old(next), write)
      ensures extended <==> old(Core.MayExtend(View(e), i)) && write.Done?
      ensures OthersKept(e) && next >= old(next)
    {
      if shuttingDown || e !in rows || rows[e].deadline != i.row.deadline || e !in tasks || tasks[e] != i.task {
        return false;
      }
      if !write.Failed? {
        rows := rows[e := Core.Row(now + duration, next)];
      }
      if !write.Done? {
        next := next + 1;
        return false;
      }
      tasks := tasks[e := Core.Task(next, now + duration)];
      next := next + 1;
      extended := true;
    }

    method Cancel(e: EntityId, write: Core.Write)
      modifies this
      ensures View(e) == Core.Cancel(old(View(e)), write)
      ensures OthersKept(e) && next == old(next)
    {
      if !write.Failed? {
        rows := rows - {e};
      }
      if write.Done? {
        tasks := tasks - {e};
        paused := paused - {e};
      }
    }

    method Pause(e: EntityId, read: bool) returns (row: Option<Core.Row>)
      modifies this
      ensures View(e) == Core.Pause(old(View(e)), read)
      ensures row == if read then old(View(e)).row else None
      ensures OthersKept(e) && next == old(next)
    {
      if !read {
        return None;
      }
      row := if e in rows then Some(rows[e]) else None;
      tasks := tasks - {e};
      if row.Some? {
        paused := paused + {e};
      }
    }

    method Resume(e: EntityId, row: Core.Row, read: bool) returns (restored: bool)
      modifies this
      ensures View(e) == Core.Resume(old(View(e)), row, old(next), read)
      ensures restored <==> read && old(Core.MayResume(View(e), row))
      ensures OthersKept(e) && next >= old(next)
    {
      if !read {
        return false;
      }
      if shuttingDown || e !in rows || rows[e].deadline != row.deadline || e in tasks {
        paused := paused - {e};
        return false;
      }
      tasks := tasks[e := Core.Task(next, row.deadline)];
      next := next + 1;
      paused := paused - {e};
      restored := true;
    }

    method Shutdown()
      modifies this
      ensures forall e :: View(e) == if old(shuttingDown && tasks == map[]) then old(View(e))
                                     else Core.Core(old(View(e)).row, None, false, true)
    {
      if shuttingDown && |tasks| == 0 {
        return;
      }
      shuttingDown := true;
      tasks := map[];
      paused := {};
    }

    /** The first critical section of `_recover_or_schedule`. */
    method InspectRow(p: Pending, now: int, future: bool) returns (overdue: bool)
      modifies this
      ensures View(p.entity) == Core.Inspected(old(View(p.entity)), p.deadline, now, future, old(next))
      ensures overdue <==> old(Core.Inspect(View(p.entity), p.deadline, now)).Overdue?
      ensures OthersKept(p.entity)
    {
      var e := p.entity;
      if shuttingDown || e in paused || e !in rows || rows[e].deadline != p.deadline || e in tasks {
        return false;
      }
      if p.deadline > now {
        if future {
          tasks := tasks[e := Core.Task(next, p.deadline)];
          next := next + 1;
        }
        return false;
      }
      overdue := true;
    }

    /** The last one, after the lock command. */
    method FinishRecovery(p: Pending, ok: bool, written: bool) returns (removed: bool)
      modifies this
      ensures View(p.entity) == Core.SettleRecovery(old(View(p.entity)), p.deadline, ok, written)
      ensures removed <==> View(p.entity).row != old(View(p.entity)).row
      ensures OthersKept(p.entity)
    {
      var e := p.entity;
      if !ok || shuttingDown || e in paused || e !in rows || rows[e].deadline != p.deadline || !written {
        return false;
      }
      rows := rows - {e};
      removed := true;
    }

    /** `rehydrate` and `sweep_overdue` over an undisturbed table: overdue rows are locked in
        snapshot order and removed when the lock was confirmed, future rows get a timer. */
    method RecoverRows(snapshot: seq<Pending>, now: int, future: bool, locked: seq<bool>)
      returns (swept: nat, ghost removed: seq<bool>)
      requires |locked| == |snapshot|
      requires forall i, j :: 0 <= i < j < |snapshot| ==> snapshot[i].entity != snapshot[j].entity
      modifies this
      ensures |removed| == |snapshot| && swept == Trues(removed)
      ensures forall i :: 0 <= i < |snapshot| ==>
                IsSwept(old(View(snapshot[i].entity)), View(snapshot[i].entity), snapshot[i].deadline, now, future,
                        locked[i], removed[i])
      ensures forall e :: (forall i :: 0 <= i < |snapshot| ==> snapshot[i].entity != e) ==> View(e) == old(View(e))
    {
      swept := 0;
      removed := [];
      for n := 0 to |snapshot|
        invariant |removed| == n && swept == Trues(removed)
        invariant forall i :: 0 <= i < n ==>
                    IsSwept(old(View(snapshot[i].entity)), View(snapshot[i].entity), snapshot[i].deadline, now, future,
                            locked[i], removed[i])
        invariant forall e :: (forall i :: 0 <= i < n ==> snapshot[i].entity != e) ==> View(e) == old(View(e))
      {
        var gone := RecoverRow(snapshot[n], now, future, locked[n]);
        if gone {
          swept := swept + 1;
        }
        assert (removed + [gone])[..n] == removed;
        removed := removed + [gone];
      }
    }

    method RecoverRow(p: Pending, now: int, future: bool, locked: bool) returns (removed: bool)
      modifies this
      ensures IsSwept(old(View(p.entity)), View(p.entity), p.deadline, now, future, locked, removed)
      ensures OthersKept(p.entity)
    {
      var overdue := InspectRow(p, now, future);
      removed := false;
      if overdue {
        removed := FinishRecovery(p, locked, true);
      }
    }
  }
}
