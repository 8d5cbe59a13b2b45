/** What the operations of the relock manager do to one entity (relock_manager.py): the
    durable row, the live timer and the pause mark.  Each operation runs under the entity's
    generation lock and the manager lock, so it is one atomic change of this record. */
module RelockCore {
  import opened Common

  type TaskId = nat

  /** A `pending_relocks` row.  `gen` tells apart two rows that share a deadline; the code
      has no such field and compares deadlines only. */
  datatype Row = Row(deadline: int, gen: nat)

  /** A timer task: its identity and the deadline it was started for. */
  datatype Task = Task(id: TaskId, deadline: int)

  /** The token a pre-unlock schedule hands back. */
  datatype Intent = Intent(row: Row, previous: Option<Row>, task: Task)

  datatype Core = Core(row: Option<Row>, live: Option<Task>, paused: bool, down: bool)

  /** How the write of a critical section ends.  A `Cut` write has committed, but the await
      behind the commit was cancelled (or closing the connection raised), so the section ends
      there: the row has changed and nothing else. */
  datatype Write = Failed | Cut | Done

  predicate Owns(c: Core, deadline: int) {
    c.row.Some? && c.row.value.deadline == deadline
  }

  /** A live timer is one for the durable row. */
  predicate Matched(c: Core) {
    c.live.Some? ==> Owns(c, c.live.value.deadline)
  }

  /** The row has a live timer of its own deadline and nothing holds that timer back. */
  predicate Armed(c: Core) {
    c.live.Some? && Owns(c, c.live.value.deadline) && !c.paused
  }

  /** `schedule`: the row first, then the old timer is replaced.  A failed write raises. */
  function Schedule(c: Core, row: Row, id: TaskId, write: Write): Core {
    if c.down || write.Failed? then c
    else if write.Cut? then c.(row := Some(row))
    else c.(row := Some(row), live := Some(Task(id, row.deadline)), paused := false)
  }

  /** `restore_after_failed_unlock` may act: the intent still owns the entity. */
  predicate MayRestore(c: Core, i: Intent) {
    Owns(c, i.row.deadline) && (c.live == Some(i.task) || (c.down && c.live == None))
  }

  function Restore(c: Core, i: Intent, id: TaskId, write: Write): Core {
    if !MayRestore(c, i) || write.Failed? then c
    else if write.Cut? then c.(row := i.previous)
    else c.(row := i.previous,
            live := if i.previous.Some? && !c.down then Some(Task(id, i.previous.value.deadline)) else None,
            paused := false)
  }

  predicate RetainRestores(i: Intent) {
    i.previous.Some? && i.previous.value.deadline <= i.row.deadline
  }

  /** `retain_after_uncertain_unlock`. */
  function Retain(c: Core, i: Intent, id: TaskId, write: Write): Core {
    if RetainRestores(i) then Restore(c, i, id, write) else c
  }

  predicate MayExtend(c: Core, i: Intent) {
    !c.down && Owns(c, i.row.deadline) && c.live == Some(i.task)
  }

  /** `extend_after_success`: compare-and-swap of the deadline, then a new timer. */
  function Extend(c: Core, i: Intent, row: Row, id: TaskId, write: Write): Core {
    if !MayExtend(c, i) || write.Failed? then c
    else if write.Cut? then c.(row := Some(row))
    else c.(row := Some(row), live := Some(Task(id, row.deadline)))
  }

  function Cancel(c: Core, write: Write): Core {
    match write
    case Failed => c
    case Cut => c.(row := None)
    case Done => c.(row := None, live := None, paused := false)
  }

  /** `pause` only reads before it acts, so a cancellation finds nothing done. */
  function Pause(c: Core, read: bool): Core {
    if !read then c else c.(live := None, paused := c.paused || c.row.Some?)
  }

  predicate MayResume(c: Core, paused: Row) {
    !c.down && Owns(c, paused.deadline) && c.live == None
  }

  /** `resume`: whatever happens the entity is no longer paused; a timer starts only if the
      paused deadline is still the durable one. */
  function Resume(c: Core, row: Row, id: TaskId, read: bool): Core {
    if !read then c
    else c.(paused := false, live := if MayResume(c, row) then Some(Task(id, row.deadline)) else c.live)
  }

  function Shutdown(c: Core): Core {
    if c.down && c.live == None then c else c.(live := None, paused := false, down := true)
  }

  datatype Verdict = Skip | Arm | Overdue

  /** The first half of `_recover_or_schedule` for one snapshot row. */
  function Inspect(c: Core, deadline: int, now: int): Verdict {
    if c.down || c.paused || !Owns(c, deadline) || c.live.Some? then Skip
    else if deadline > now then Arm
    else Overdue
  }

  function Inspected(c: Core, deadline: int, now: int, future: bool, id: TaskId): Core {
    if Inspect(c, deadline, now).Arm? && future then c.(live := Some(Task(id, deadline))) else c
  }

  /** The revalidation inside `_call_ha_lock`, for a timer (`owner`) or a recovery. */
  predicate MayCommand(c: Core, deadline: int, owner: Option<Task>) {
    !c.down && !c.paused && Owns(c, deadline) && c.live == owner
  }

  /** The end of `_wait_and_lock`. */
  function SettleTimer(c: Core, task: Task, ok: bool, written: bool): Core {
    if c.live != Some(task) then c
    else c.(live := None, row := if ok && written && Owns(c, task.deadline) then None else c.row)
  }

  /** The end of `_recover_or_schedule`. */
  function SettleRecovery(c: Core, deadline: int, ok: bool, written: bool): Core {
    if ok && written && !c.down && !c.paused && Owns(c, deadline) then c.(row := None) else c
  }

  // ---------------------------------------------------------------------------
  // How the operations undo and yield to each other
  // ---------------------------------------------------------------------------

  function Earliest(a: int, b: Option<Row>): int {
    if b.Some? && b.value.deadline <= a then b.value.deadline else a
  }

  /** An ambiguous unlock leaves a durable row with the earlier of the two deadlines, or the
      write-ahead row itself when the write of `retain` fails.  It is armed unless that write
      was cut while it moved the deadline. */
  lemma RetainLeavesARelock(c: Core, row: Row, id: TaskId, again: TaskId, write: Write)
    requires !c.down
    ensures var i := Intent(row, c.row, Task(id, row.deadline));
            var t := Retain(Schedule(c, row, id, Done), i, again, write);
            && t.row.Some? && !t.paused
            && t.row.value.deadline == (if write.Failed? then row.deadline else Earliest(row.deadline, c.row))
            && (Armed(t) <==> !(write.Cut? && Earliest(row.deadline, c.row) < row.deadline))
  {
  }

  /** A rollback gives back the exact predecessor row. */
  lemma RestoreUndoesSchedule(c: Core, row: Row, id: TaskId, again: TaskId, write: Write)
    requires !c.down && !write.Failed?
    ensures var t := Restore(Schedule(c, row, id, Done), Intent(row, c.row, Task(id, row.deadline)), again, write);
            t.row == c.row && !t.paused && (write.Done? && c.row.Some? ==> Armed(t))
  {
  }

  lemma ResumeUndoesPause(c: Core, again: TaskId)
    requires !c.down && c.row.Some? && !c.paused
    ensures Pause(c, true).paused && Pause(c, true).live == None && Pause(c, true).row == c.row
    ensures Resume(Pause(c, true), c.row.value, again, true) == c.(live := Some(Task(again, c.row.value.deadline)))
    ensures Resume(Pause(c, true), c.row.value, again, false) == Pause(c, true)
  {
  }

  /** A schedule that linearizes after the token was issued wins against every use of the
      token: nothing of it is changed as long as its deadline differs, even if it was cut. */
  lemma NewerScheduleWins(c: Core, i: Intent, newer: Row, id: TaskId, again: TaskId, moved: Row,
                          schedule: Write, write: Write, read: bool)
    requires !c.down && newer.deadline != i.row.deadline && i.task.deadline == i.row.deadline && !schedule.Failed?
    ensures var t := Schedule(c, newer, id, schedule);
            && Restore(t, i, again, write) == t && Retain(t, i, again, write) == t
            && Extend(t, i, moved, again, write) == t
            && Resume(t, i.row, again, read).row == t.row && Resume(t, i.row, again, read).live == t.live
            && SettleRecovery(t, i.row.deadline, true, true) == t
            && Inspect(t, i.row.deadline, i.row.deadline).Skip?
            && !MayCommand(t, i.row.deadline, None) && !MayCommand(t, i.row.deadline, Some(i.task))
            && SettleTimer(t, i.task, true, true).row == t.row
  {
  }

  /** Even with the same deadline, the task identity protects a completed newer schedule from
      tokens and timers of a running manager. */
  lemma NewerTaskWins(c: Core, i: Intent, newer: Row, id: TaskId, again: TaskId, moved: Row, ok: bool, write: Write)
    requires !c.down && id != i.task.id
    ensures var t := Schedule(c, newer, id, Done);
            && Restore(t, i, again, write) == t && Extend(t, i, moved, again, write) == t
            && SettleTimer(t, i.task, ok, true) == t
            && !MayCommand(t, i.row.deadline, Some(i.task))
  {
  }
}
