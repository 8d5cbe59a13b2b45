/** The relock manager as a state machine (relock_manager.py), for one entity: the durable
    row, the timers and recoveries in flight, the clients of the entity's command lock, and
    a clock that never runs backwards.  Writes and reads may fail at any time, a cancellation
    may cut a critical section short right behind its commit, a crash drops everything but the
    row, and a cancelled timer may go on running until a check stops it. */
module RelockProtocol {
  import opened Common
  import opened RelockCore

  /** A background flow.  `Scan` holds a snapshot row that was not inspected yet. */
  datatype Worker =
    | Timer(deadline: int, gen: nat, fired: bool)
    | Scan(deadline: int, future: bool)
    | Recovery(deadline: int)

  /** How far the client that holds the command lock has come.  It schedules or pauses at most
      once per hold of the lock, a timed one then extends or retains, and one that has paused
      (there may have been no row to pause) cancels or resumes. */
  datatype Token = Nothing | Timed(intent: Intent) | Paused(row: Option<Row>) | Spent

  /** The holder of the entity's command lock.  A worker that commands also holds the
      generation lock; it keeps its place until it has settled, because `asyncio.Lock` serves
      waiters in order and a client needs the generation lock for its first change. */
  datatype Holder =
    | Free
    | Client(token: Token)
    | Commanding(id: TaskId, gen: nat)
    | Deciding(id: TaskId, gen: nat, ok: bool)

  datatype State = State(
    core: Core,
    workers: map<TaskId, Worker>,
    holder: Holder,
    boot: bool,       // no rehydration of this process has reached the row yet
    now: int,
    next: nat)        // fresh names, for tasks and generations alike

  datatype Outcome = Confirmed | Retry | Exhausted | Aborted

  datatype Action =
    | Tick(to: int)
    | Acquire
    | Release
    | Schedule(duration: int, write: Write)
    | ScheduleExternally(duration: int, write: Write)
    | Retain(write: Write)
    | Extend(duration: int, write: Write)
    | Cancel(write: Write)
    | Pause(read: bool)
    | Resume(read: bool)
    | Shutdown
    | Crash
    | Snapshot(future: bool)
    | Inspect(id: TaskId, read: bool)
    | Fire(id: TaskId)
    | Validate(id: TaskId, read: bool)
    | Command(outcome: Outcome)
    | Settle(written: bool)

  predicate Enabled(s: State, a: Action) {
    match a
    case Tick(to) => s.now <= to
    case Acquire => s.holder.Free?
    case Release => s.holder.Client?
    case Schedule(_, _) => s.holder == Client(Nothing)
    case ScheduleExternally(_, _) => !s.holder.Commanding?
    case Retain(_) => s.holder.Client? && s.holder.token.Timed?
    case Extend(_, _) => s.holder.Client? && s.holder.token.Timed?
    case Cancel(_) => s.holder.Client? && s.holder.token.Paused?
    case Pause(_) => s.holder == Client(Nothing)
    case Resume(_) => s.holder.Client? && s.holder.token.Paused? && s.holder.token.row.Some?
    case Shutdown => true
    case Crash => true
    case Snapshot(_) => true
    case Inspect(id, _) => !s.holder.Commanding? && id in s.workers && s.workers[id].Scan?
    case Fire(id) => id in s.workers && s.workers[id].Timer? && s.workers[id].deadline <= s.now
    case Validate(id, _) => s.holder.Free? && id in s.workers && Ready(s.workers[id])
    case Command(outcome) =>
      s.holder.Commanding? && (outcome == Aborted ==> !IsLive(s.core, s.holder.id))
    case Settle(_) => s.holder.Deciding?
  }

  predicate IsLive(c: Core, id: TaskId) {
    c.live.Some? && c.live.value.id == id
  }

  predicate Ready(w: Worker) {
    w.Recovery? || (w.Timer? && w.fired)
  }

  function Owner(id: TaskId, w: Worker): Option<Task> {
    if w.Timer? then Some(Task(id, w.deadline)) else None
  }

  /** A critical section that may start a timer for the row it leaves behind. */
  function Started(s: State, c: Core): State {
    var started := IsLive(c, s.next) && c.row.Some?;
    s.(core := c,
       workers := if started then s.workers[s.next := Timer(c.row.value.deadline, c.row.value.gen, false)]
                  else s.workers,
       next := s.next + 1)
  }

  /** A call that failed or was cancelled leaves the client something to clean up. */
  function Resolved(s: State, done: bool): State {
    if done then s.(holder := Client(Spent)) else s
  }

  function Next(s: State, a: Action): State
    requires Enabled(s, a)
  {
    match a
    case Tick(to) => s.(now := to)
    case Acquire => s.(holder := Client(Nothing))
    case Release => s.(holder := Free)
    case Schedule(duration, write) =>
      var row := Row(s.now + duration, s.next);
      var t := Started(s, RelockCore.Schedule(s.core, row, s.next, write));
      t.(holder := Client(if s.core.down || !write.Done? then Spent
                          else Timed(Intent(row, s.core.row, Task(s.next, row.deadline)))))
    case ScheduleExternally(duration, write) =>
      Started(s, RelockCore.Schedule(s.core, Row(s.now + duration, s.next), s.next, write))
    case Retain(write) =>
      Resolved(Started(s, RelockCore.Retain(s.core, s.holder.token.intent, s.next, write)), write.Done?)
    case Extend(duration, write) =>
      var row := Row(s.now + duration, s.next);
      Resolved(Started(s, RelockCore.Extend(s.core, s.holder.token.intent, row, s.next, write)), write.Done?)
    case Cancel(write) => Resolved(s.(core := RelockCore.Cancel(s.core, write)), write.Done?)
    case Pause(read) =>
      s.(core := RelockCore.Pause(s.core, read), holder := Client(if read then Paused(s.core.row) else Spent))
    case Resume(read) =>
      Resolved(Started(s, RelockCore.Resume(s.core, s.holder.token.row.value, s.next, read)), read)
    case Shutdown => s.(core := RelockCore.Shutdown(s.core))
    case Crash => State(Core(s.core.row, None, false, false), map[], Free, true, s.now, s.next)
    case Snapshot(future) =>
      if s.core.row.Some? then
        s.(workers := s.workers[s.next := Scan(s.core.row.value.deadline, future)], next := s.next + 1)
      else s.(boot := s.boot && !future)
    case Inspect(id, read) =>
      var w := s.workers[id];
      if !read then s.(workers := s.workers - {id})
      else
        var overdue := RelockCore.Inspect(s.core, w.deadline, s.now).Overdue?;
        var t := Started(s, Inspected(s.core, w.deadline, s.now, w.future, s.next));
        t.(workers := if overdue then t.workers[id := Recovery(w.deadline)] else t.workers - {id},
           boot := s.boot && !w.future)
    case Fire(id) => s.(workers := s.workers[id := s.workers[id].(fired := true)])
    case Validate(id, read) =>
      var w := s.workers[id];
      if !read then
        s.(workers := s.workers - {id}, core := if IsLive(s.core, id) then s.core.(live := None) else s.core)
      else if MayCommand(s.core, w.deadline, Owner(id, w)) then s.(holder := Commanding(id, s.core.row.value.gen))
      else s.(holder := Deciding(id, 0, false))
    case Command(outcome) =>
      (match outcome
       case Confirmed => s.(holder := Deciding(s.holder.id, s.holder.gen, true))
       case Retry => s.(holder := Free)
       case Exhausted => s.(holder := Deciding(s.holder.id, s.holder.gen, false))
       case Aborted => s.(holder := Free, workers := s.workers - {s.holder.id}))
    case Settle(written) =>
      var id := s.holder.id;
      var c := if id !in s.workers then s.core
               else if s.workers[id].Timer?
               then SettleTimer(s.core, Task(id, s.workers[id].deadline), s.holder.ok, written)
               else SettleRecovery(s.core, s.workers[id].deadline, s.holder.ok, written);
      s.(core := c, workers := s.workers - {id}, holder := Free)
  }

  // ---------------------------------------------------------------------------
  // What holds whatever is cut
  // ---------------------------------------------------------------------------

  /** The critical sections that write the row. */
  datatype Section = OfSchedule | OfExternal | OfRetain | OfExtend | OfCancel

  function SectionOf(a: Action): Option<Section> {
    match a
    case Schedule(_, _) => Some(OfSchedule)
    case ScheduleExternally(_, _) => Some(OfExternal)
    case Retain(_) => Some(OfRetain)
    case Extend(_, _) => Some(OfExtend)
    case Cancel(_) => Some(OfCancel)
    case _ => None
  }

  /** Steps of the callers, as opposed to those of timers, sweeps and the process. */
  predicate ByCaller(a: Action) {
    SectionOf(a).Some? || a.Pause? || a.Resume?
  }

  predicate LiveOk(s: State) {
    s.core.live.Some? ==>
      && !s.core.down && !s.core.paused
      && s.core.live.value.id in s.workers
      && s.workers[s.core.live.value.id].Timer?
      && s.workers[s.core.live.value.id].deadline == s.core.live.value.deadline
  }

  predicate TokenOk(s: State) {
    s.holder.Client? && s.holder.token.Timed? ==>
      var i := s.holder.token.intent;
      && i.task.id < s.next && i.row.gen < s.next && i.task.deadline == i.row.deadline
      && (i.previous.Some? ==> i.previous.value.gen < i.row.gen)
      && (i.task.id in s.workers ==> s.workers[i.task.id].Timer? && s.workers[i.task.id].gen == i.row.gen)
  }

  /** The holder of the command lock against the row: while a lock command is in flight the
      row is the one it was issued for; afterwards a different row has a later deadline. */
  predicate HolderOk(s: State) {
    match s.holder
    case Commanding(id, gen) =>
      && id in s.workers && Ready(s.workers[id]) && s.workers[id].deadline <= s.now
      && s.core.row == Some(Row(s.workers[id].deadline, gen))
      && (s.workers[id].Recovery? ==> s.core.live == None)
    case Deciding(id, gen, ok) =>
      && id in s.workers && Ready(s.workers[id])
      && (ok ==>
            && s.workers[id].deadline <= s.now
            && s.core.row.Some?
            && gen < s.next
            && (s.core.row.value == Row(s.workers[id].deadline, gen)
                || (s.core.row.value.gen != gen && s.workers[id].deadline < s.core.row.value.deadline))
            && (s.core.row.value.gen == gen && s.workers[id].Recovery? ==> s.core.live == None))
    case _ => true
  }

  predicate WorkerOk(s: State, id: TaskId)
    requires id in s.workers
  {
    var w := s.workers[id];
    && id < s.next
    && (Ready(w) ==> w.deadline <= s.now)
    && (w.Timer? ==> w.gen < s.next)
  }

  predicate Names(s: State) {
    && (forall id :: id in s.workers ==> WorkerOk(s, id))
    && (s.core.row.Some? ==> s.core.row.value.gen < s.next)
  }

  predicate Inv(s: State) {
    LiveOk(s) && TokenOk(s) && HolderOk(s) && Names(s)
  }

  /** The schedules the configuration allows: at least a second ahead. */
  predicate Positive(a: Action) {
    a.ScheduleExternally? ==> a.duration > 0
  }

  lemma CallerKeepsLiveOk(s: State, a: Action)
    requires Inv(s) && Enabled(s, a) && Positive(a) && ByCaller(a)
    ensures LiveOk(Next(s, a))
  {
  }

  lemma OtherKeepsLiveOk(s: State, a: Action)
    requires Inv(s) && Enabled(s, a) && Positive(a) && !ByCaller(a)
    ensures LiveOk(Next(s, a))
  {
  }

  lemma StepKeepsLiveOk(s: State, a: Action)
    requires Inv(s) && Enabled(s, a) && Positive(a)
    ensures LiveOk(Next(s, a))
  {
    if ByCaller(a) {
      CallerKeepsLiveOk(s, a);
    } else {
      OtherKeepsLiveOk(s, a);
    }
  }

  lemma CallerKeepsTokenOk(s: State, a: Action)
    requires Inv(s) && Enabled(s, a) && Positive(a) && ByCaller(a)
    ensures TokenOk(Next(s, a))
  {
  }

  lemma OtherKeepsTokenOk(s: State, a: Action)
    requires Inv(s) && Enabled(s, a) && Positive(a) && !ByCaller(a)
    ensures TokenOk(Next(s, a))
  {
  }

  lemma StepKeepsTokenOk(s: State, a: Action)
    requires Inv(s) && Enabled(s, a) && Positive(a)
    ensures TokenOk(Next(s, a))
  {
    if ByCaller(a) {
      CallerKeepsTokenOk(s, a);
    } else {
      OtherKeepsTokenOk(s, a);
    }
  }

  lemma CallerKeepsHolderOk(s: State, a: Action)
    requires Inv(s) && Enabled(s, a) && Positive(a) && ByCaller(a)
    ensures HolderOk(Next(s, a))
  {
  }

  lemma OtherKeepsHolderOk(s: State, a: Action)
    requires Inv(s) && Enabled(s, a) && Positive(a) && !ByCaller(a)
    ensures HolderOk(Next(s, a))
  {
  }

  lemma StepKeepsHolderOk(s: State, a: Action)
    requires Inv(s) && Enabled(s, a) && Positive(a)
    ensures HolderOk(Next(s, a))
  {
    if ByCaller(a) {
      CallerKeepsHolderOk(s, a);
    } else {
      OtherKeepsHolderOk(s, a);
    }
  }

  lemma CallerKeepsWorkerOk(s: State, a: Action, id: TaskId)
    requires Inv(s) && Enabled(s, a) && id in Next(s, a).workers && ByCaller(a)
    ensures WorkerOk(Next(s, a), id)
  {
    assert id in s.workers ==> WorkerOk(s, id);
  }

  lemma OtherKeepsWorkerOk(s: State, a: Action, id: TaskId)
    requires Inv(s) && Enabled(s, a) && id in Next(s, a).workers && !ByCaller(a)
    ensures WorkerOk(Next(s, a), id)
  {
    assert id in s.workers ==> WorkerOk(s, id);
  }

  lemma WorkerStaysOk(s: State, a: Action, id: TaskId)
    requires Inv(s) && Enabled(s, a) && id in Next(s, a).workers
    ensures WorkerOk(Next(s, a), id)
  {
    if ByCaller(a) {
      CallerKeepsWorkerOk(s, a, id);
    } else {
      OtherKeepsWorkerOk(s, a, id);
    }
  }

  lemma StepKeepsNames(s: State, a: Action)
    requires Inv(s) && Enabled(s, a) && Positive(a)
    ensures Names(Next(s, a))
  {
    var t := Next(s, a);
    assert t.core.row.Some? ==> t.core.row.value.gen < t.next;
    forall id | id in t.workers ensures WorkerOk(t, id) {
      WorkerStaysOk(s, a, id);
    }
  }

  lemma StepKeepsInv(s: State, a: Action)
    requires Inv(s) && Enabled(s, a) && Positive(a)
    ensures Inv(Next(s, a))
  {
    StepKeepsLiveOk(s, a);
    StepKeepsTokenOk(s, a);
    StepKeepsHolderOk(s, a);
    StepKeepsNames(s, a);
  }

  // ---------------------------------------------------------------------------
  // Attended rows
  // ---------------------------------------------------------------------------

  /** A row that nothing will act on before its deadline unless somebody looks at the table. */
  predicate Uncovered(s: State) {
    && s.core.row.Some? && s.core.live == None && !s.core.paused && !s.core.down
    && s.now < s.core.row.value.deadline
  }

  /** A live timer is one for the durable row, and once a process has rehydrated, no row of a
      running manager is uncovered. */
  predicate Attended(s: State) {
    Matched(s.core) && (Uncovered(s) ==> s.boot)
  }

  /** The row a cut section leaves, if it commits one. */
  function CutRow(s: State, a: Action): Option<Option<Row>>
    requires Enabled(s, a)
  {
    match a
    case Schedule(duration, Cut) => if s.core.down then None else Some(Some(Row(s.now + duration, s.next)))
    case ScheduleExternally(duration, Cut) => if s.core.down then None else Some(Some(Row(s.now + duration, s.next)))
    case Extend(duration, Cut) =>
      if MayExtend(s.core, s.holder.token.intent) then Some(Some(Row(s.now + duration, s.next))) else None
    case Retain(Cut) =>
      if RetainRestores(s.holder.token.intent) && MayRestore(s.core, s.holder.token.intent)
      then Some(s.holder.token.intent.previous) else None
    case Cancel(Cut) => Some(None)
    case _ => None
  }

  /** The row would be a future one that has neither timer nor pause in a rehydrated process. */
  predicate Forgotten(s: State, row: Option<Row>) {
    row.Some? && s.now < row.value.deadline && s.core.live == None && !s.core.paused && !s.core.down && !s.boot
  }

  predicate CutExposes(s: State, row: Option<Row>) {
    if s.core.live.Some? then row.None? || row.value.deadline != s.core.live.value.deadline
    else Forgotten(s, row)
  }

  /** The steps that leave a row unattended.  A cut section does, if it moves the deadline
      beside a live timer or leaves a future row that has none.  So does, later, whoever acts
      for a row that a cut has replaced: a client that resumes the row it paused, and a
      rehydration that inspects the row it took a snapshot of. */
  predicate Exposes(s: State, a: Action)
    requires Enabled(s, a)
  {
    match a
    case Resume(read) =>
      && read && !Owns(s.core, s.holder.token.row.value.deadline)
      && Forgotten(s.(core := s.core.(paused := false)), s.core.row)
    case Inspect(id, read) =>
      && read && s.workers[id].future && !Owns(s.core, s.workers[id].deadline)
      && Forgotten(s.(boot := false), s.core.row)
    case _ => CutRow(s, a).Some? && CutExposes(s, CutRow(s, a).value)
  }

  lemma CallerIsAttendedIff(s: State, a: Action)
    requires Inv(s) && Enabled(s, a) && Positive(a) && Attended(s) && ByCaller(a)
    ensures Attended(Next(s, a)) <==> !Exposes(s, a)
  {
  }

  lemma OtherIsAttendedIff(s: State, a: Action)
    requires Inv(s) && Enabled(s, a) && Positive(a) && Attended(s) && !ByCaller(a)
    ensures Attended(Next(s, a)) <==> !Exposes(s, a)
  {
  }

  lemma StepIsAttendedIff(s: State, a: Action)
    requires Inv(s) && Enabled(s, a) && Positive(a) && Attended(s)
    ensures Attended(Next(s, a)) <==> !Exposes(s, a)
  {
    if ByCaller(a) {
      CallerIsAttendedIff(s, a);
    } else {
      OtherIsAttendedIff(s, a);
    }
  }

  // ---------------------------------------------------------------------------
  // What holds as long as nothing is cut
  // ---------------------------------------------------------------------------

  predicate IsCut(a: Action) {
    match a
    case Schedule(_, write) => write == Cut
    case ScheduleExternally(_, write) => write == Cut
    case Retain(write) => write == Cut
    case Extend(_, write) => write == Cut
    case Cancel(write) => write == Cut
    case _ => false
  }

  /** The live timer is the one started for this very row. */
  predicate LiveIsOfRow(s: State) {
    s.core.live.Some? ==>
      && s.core.row.Some?
      && s.core.live.value.id in s.workers && s.workers[s.core.live.value.id].Timer?
      && s.workers[s.core.live.value.id].gen == s.core.row.value.gen
  }

  /** Whoever will act for a paused or not yet rehydrated row knows the right deadline. */
  predicate Remembered(s: State) {
    && (s.core.paused && s.holder.Client? && s.holder.token.Paused? && s.holder.token.row.Some? ==>
          Owns(s.core, s.holder.token.row.value.deadline))
    && (Uncovered(s) ==>
          forall id :: id in s.workers && s.workers[id].Scan? && s.workers[id].future
                       ==> Owns(s.core, s.workers[id].deadline))
  }

  predicate Sound(s: State) {
    Inv(s) && Attended(s) && LiveIsOfRow(s) && Remembered(s)
  }

  lemma UncutStepIsAttended(s: State, a: Action)
    requires Sound(s) && Enabled(s, a) && Positive(a) && !IsCut(a)
    ensures Attended(Next(s, a))
  {
    StepIsAttendedIff(s, a);
  }

  lemma CallerKeepsLiveOfRow(s: State, a: Action)
    requires Sound(s) && Enabled(s, a) && Positive(a) && !IsCut(a) && ByCaller(a)
    ensures LiveIsOfRow(Next(s, a))
  {
  }

  lemma OtherKeepsLiveOfRow(s: State, a: Action)
    requires Sound(s) && Enabled(s, a) && Positive(a) && !IsCut(a) && !ByCaller(a)
    ensures LiveIsOfRow(Next(s, a))
  {
  }

  lemma UncutStepKeepsLiveOfRow(s: State, a: Action)
    requires Sound(s) && Enabled(s, a) && Positive(a) && !IsCut(a)
    ensures LiveIsOfRow(Next(s, a))
  {
    if ByCaller(a) {
      CallerKeepsLiveOfRow(s, a);
    } else {
      OtherKeepsLiveOfRow(s, a);
    }
  }

  lemma CallerKeepsRemembered(s: State, a: Action)
    requires Sound(s) && Enabled(s, a) && Positive(a) && !IsCut(a) && ByCaller(a)
    ensures Remembered(Next(s, a))
  {
  }

  lemma OtherKeepsRemembered(s: State, a: Action)
    requires Sound(s) && Enabled(s, a) && Positive(a) && !IsCut(a) && !ByCaller(a)
    ensures Remembered(Next(s, a))
  {
  }

  lemma UncutStepKeepsRemembered(s: State, a: Action)
    requires Sound(s) && Enabled(s, a) && Positive(a) && !IsCut(a)
    ensures Remembered(Next(s, a))
  {
    if ByCaller(a) {
      CallerKeepsRemembered(s, a);
    } else {
      OtherKeepsRemembered(s, a);
    }
  }

  lemma UncutStepKeepsSound(s: State, a: Action)
    requires Sound(s) && Enabled(s, a) && Positive(a) && !IsCut(a)
    ensures Sound(Next(s, a))
  {
    StepKeepsInv(s, a);
    UncutStepIsAttended(s, a);
    UncutStepKeepsLiveOfRow(s, a);
    UncutStepKeepsRemembered(s, a);
  }

  // ---------------------------------------------------------------------------
  // Runs
  // ---------------------------------------------------------------------------

  /** A process that has just started over whatever row the last one left. */
  predicate Init(s: State) {
    && s.core == Core(s.core.row, None, false, false) && s.workers == map[] && s.holder.Free? && s.boot
    && (s.core.row.Some? ==> s.core.row.value.gen < s.next)
  }

  ghost predicate IsPath(states: seq<State>, actions: seq<Action>) {
    && |states| == |actions| + 1
    && forall i :: 0 <= i < |actions| ==> Enabled(states[i], actions[i]) && states[i + 1] == Next(states[i], actions[i])
  }

  ghost predicate IsRun(states: seq<State>, actions: seq<Action>) {
    IsPath(states, actions) && Init(states[0])
  }

  predicate AllPositive(actions: seq<Action>) {
    forall i :: 0 <= i < |actions| ==> Positive(actions[i])
  }

  /** Nothing was cut before step `n`. */
  predicate UncutUntil(actions: seq<Action>, n: nat) {
    forall i :: 0 <= i < |actions| && i < n ==> !IsCut(actions[i])
  }

  lemma {:induction false} InvAlongRun(states: seq<State>, actions: seq<Action>, i: nat)
    requires IsRun(states, actions) && AllPositive(actions) && i < |states|
    ensures Inv(states[i])
    decreases i
  {
    if i > 0 {
      InvAlongRun(states, actions, i - 1);
      StepKeepsInv(states[i - 1], actions[i - 1]);
    }
  }

  lemma {:induction false} SoundAlongRun(states: seq<State>, actions: seq<Action>, i: nat)
    requires IsRun(states, actions) && AllPositive(actions) && UncutUntil(actions, i) && i < |states|
    ensures Sound(states[i])
    decreases i
  {
    if i > 0 {
      SoundAlongRun(states, actions, i - 1);
      UncutStepKeepsSound(states[i - 1], actions[i - 1]);
    }
  }

  lemma {:induction false} UnexposedStaysAttended(states: seq<State>, actions: seq<Action>, i: nat, j: nat)
    requires IsRun(states, actions) && AllPositive(actions) && i <= j < |states|
    requires Attended(states[i]) && forall k :: i <= k < j ==> !Exposes(states[k], actions[k])
    ensures Attended(states[j])
    decreases j - i
  {
    if i < j {
      UnexposedStaysAttended(states, actions, i, j - 1);
      InvAlongRun(states, actions, j - 1);
      StepIsAttendedIff(states[j - 1], actions[j - 1]);
    }
  }

  /** No relock is forgotten, exactly as long as no step exposes it: from any attended state
      on (the start of a process is one, and so is every completed schedule), live timers are
      for the durable row and rehydrated rows are timed, paused or overdue in every state if
      and only if no step of that stretch is an exposing one. */
  lemma AttendedIffUnexposed(states: seq<State>, actions: seq<Action>, i: nat, j: nat)
    requires IsRun(states, actions) && AllPositive(actions) && i <= j < |states| && Attended(states[i])
    ensures (forall k :: i <= k <= j ==> Attended(states[k]))
            <==> (forall k :: i <= k < j ==> !Exposes(states[k], actions[k]))
  {
    if forall k :: i <= k < j ==> !Exposes(states[k], actions[k]) {
      forall k | i <= k <= j ensures Attended(states[k]) {
        UnexposedStaysAttended(states, actions, i, k);
      }
    } else if forall k :: i <= k <= j ==> Attended(states[k]) {
      var k :| i <= k < j && Exposes(states[k], actions[k]);
      InvAlongRun(states, actions, k);
      StepIsAttendedIff(states[k], actions[k]);
      assert Attended(states[k]) && Attended(states[k + 1]);
    }
  }

  /** A completed schedule re-arms the row, whatever was cut before. */
  lemma ScheduleRearms(s: State, duration: int)
    requires Inv(s) && !s.core.down
    ensures Enabled(s, ScheduleExternally(duration, Done)) ==>
              var t := Next(s, ScheduleExternally(duration, Done));
              Attended(t) && RelockCore.Armed(t.core)
    ensures Enabled(s, Action.Schedule(duration, Done)) ==>
              var t := Next(s, Action.Schedule(duration, Done));
              Attended(t) && RelockCore.Armed(t.core)
  {
  }

  /** So does a client that pauses the entity and resumes what it found, also after a pause that
      was never resolved. */
  lemma PauseThenResumeRearms(s: State)
    requires Inv(s) && !s.core.down && s.core.row.Some? && s.holder == Client(Nothing)
    ensures var t := Next(s, Action.Pause(true));
            Enabled(t, Action.Resume(true)) && RelockCore.Armed(Next(t, Action.Resume(true)).core)
  {
  }

  /** Every exposing step is a cut or comes after one. */
  lemma ExposureNeedsACut(states: seq<State>, actions: seq<Action>, k: nat)
    requires IsRun(states, actions) && AllPositive(actions) && k < |actions| && Exposes(states[k], actions[k])
    ensures exists i :: 0 <= i <= k && IsCut(actions[i])
  {
    if UncutUntil(actions, k + 1) {
      assert !IsCut(actions[k]);
      SoundAlongRun(states, actions, k);
      UncutStepIsAttended(states[k], actions[k]);
      StepIsAttendedIff(states[k], actions[k]);
    }
  }

  /** Before the first cut: the row of a rehydrated, running manager has the
      live timer that was started for it, is paused by a client, or is overdue. */
  lemma EveryRowIsCovered(states: seq<State>, actions: seq<Action>, i: nat)
    requires IsRun(states, actions) && AllPositive(actions) && UncutUntil(actions, i) && i < |states|
    ensures Attended(states[i])
    ensures var s := states[i];
            s.core.row.Some? && !s.core.down && !s.boot ==>
              || (RelockCore.Armed(s.core) && s.core.live.value.id in s.workers
                  && s.workers[s.core.live.value.id].Timer?
                  && s.workers[s.core.live.value.id].gen == s.core.row.value.gen)
              || s.core.paused
              || s.core.row.value.deadline <= s.now
  {
    SoundAlongRun(states, actions, i);
  }

  ghost function Last(states: seq<State>): State
    requires |states| > 0
  {
    states[|states| - 1]
  }

  lemma ExtendPath(states: seq<State>, actions: seq<Action>, a: Action) returns (more: seq<State>, also: seq<Action>)
    requires IsPath(states, actions) && Enabled(Last(states), a)
    ensures IsPath(more, also) && Last(more) == Next(Last(states), a) && also == actions + [a]
    ensures more[..|states|] == states && more[0] == states[0]
  {
    more, also := states + [Next(Last(states), a)], actions + [a];
  }

  // ---------------------------------------------------------------------------
  // What survives every cut
  // ---------------------------------------------------------------------------

  predicate ByWorker(a: Action) {
    a.Snapshot? || a.Inspect? || a.Fire? || a.Validate? || a.Command? || a.Settle?
  }

  /** A timer that is not the live one of the durable deadline, superseded or left behind by a
      cut, neither commands nor touches the row. */
  lemma MismatchedTimerIsHarmless(s: State, id: TaskId)
    requires Inv(s) && id in s.workers && s.workers[id].Timer?
    requires !(IsLive(s.core, id) && Owns(s.core, s.workers[id].deadline))
    ensures forall read :: Enabled(s, Validate(id, read)) ==>
              !Next(s, Validate(id, read)).holder.Commanding? && Next(s, Validate(id, read)).core.row == s.core.row
    ensures forall written :: s.holder.Deciding? && s.holder.id == id ==>
              Next(s, Settle(written)).core.row == s.core.row
  {
  }

  /** The steps of a sweep that finds an overdue row without a timer. */
  lemma SweepReachesOverdueRow(states: seq<State>, actions: seq<Action>)
    returns (more: seq<State>, also: seq<Action>)
    requires IsPath(states, actions) && forall i :: 0 <= i < |actions| ==> ByWorker(actions[i]) || actions[i].Tick?
    requires var s := Last(states);
             && Inv(s) && s.holder.Free? && !s.core.down && !s.core.paused && s.core.live == None
             && s.core.row.Some? && s.core.row.value.deadline <= s.now
    ensures IsPath(more, also) && more[0] == states[0]
    ensures forall i :: 0 <= i < |also| ==> ByWorker(also[i]) || also[i].Tick?
    ensures Last(more).holder.Commanding? && Last(more).core.row == Last(states).core.row
  {
    var s := Last(states);
    more, also := ExtendPath(states, actions, Snapshot(false));
    assert Last(more).workers[s.next] == Scan(s.core.row.value.deadline, false);
    more, also := ExtendPath(more, also, Action.Inspect(s.next, true));
    assert Last(more).workers[s.next] == Recovery(s.core.row.value.deadline);
    assert Last(more).core == s.core && Last(more).holder == Free;
    more, also := ExtendPath(more, also, Validate(s.next, true));
  }

  function LaterOf(a: int, b: int): int {
    if a < b then b else a
  }

  /** Time passes until the row and the timer beside it, if any, are due. */
  function DueAt(s: State): int
    requires s.core.row.Some?
  {
    LaterOf(s.now, LaterOf(s.core.row.value.deadline,
                           if s.core.live.Some? then s.core.live.value.deadline else s.now))
  }

  /** The turn of the live timer at the command lock. */
  lemma TurnOfTheTimer(s: State, id: TaskId)
    requires Inv(s) && s.holder.Free? && IsLive(s.core, id) && s.core.live.value.deadline <= s.now
    ensures Enabled(s, Fire(id)) && Enabled(Next(s, Fire(id)), Validate(id, true))
    ensures var t := Next(Next(s, Fire(id)), Validate(id, true));
            && Inv(t) && t.core == s.core && t.now == s.now
            && if RelockCore.Armed(s.core) then t.holder.Commanding? else t.holder == Deciding(id, 0, false)
  {
    StepKeepsInv(s, Fire(id));
    StepKeepsInv(Next(s, Fire(id)), Validate(id, true));
  }

  /** Its end, if it was refused. */
  lemma EndOfTheTimer(s: State, id: TaskId)
    requires Inv(s) && s.holder == Deciding(id, 0, false) && IsLive(s.core, id)
    ensures Enabled(s, Settle(false)) && Inv(Next(s, Settle(false)))
    ensures var t := Next(s, Settle(false));
            t.holder.Free? && t.core == s.core.(live := None) && t.now == s.now
  {
    StepKeepsInv(s, Settle(false));
  }

  /** The live timer of a due row either commands or gives way to the sweep. */
  lemma TimerCommandsOrYields(states: seq<State>, actions: seq<Action>)
    returns (more: seq<State>, also: seq<Action>)
    requires IsPath(states, actions) && forall i :: 0 <= i < |actions| ==> ByWorker(actions[i]) || actions[i].Tick?
    requires var s := Last(states);
             && Inv(s) && s.holder.Free? && s.core.live.Some? && s.core.live.value.deadline <= s.now
    ensures IsPath(more, also) && more[0] == states[0]
    ensures forall i :: 0 <= i < |also| ==> ByWorker(also[i]) || also[i].Tick?
    ensures var s, t := Last(states), Last(more);
            && t.core.row == s.core.row && t.now == s.now && Inv(t)
            && if RelockCore.Armed(s.core) then t.holder.Commanding?
               else t.holder.Free? && t.core == s.core.(live := None)
  {
    var s := Last(states);
    var id := s.core.live.value.id;
    TurnOfTheTimer(s, id);
    more, also := ExtendPath(states, actions, Fire(id));
    more, also := ExtendPath(more, also, Validate(id, true));
    if !RelockCore.Armed(s.core) {
      EndOfTheTimer(Last(more), id);
      more, also := ExtendPath(more, also, Settle(false));
    }
  }

  /** From every state of every run, cuts included: if nobody pauses the entity, shuts down or
      changes the row, then time, timers and sweeps can run such that a lock command for exactly
      the durable row goes out. */
  lemma RowCanBeLocked(s: State) returns (states: seq<State>, actions: seq<Action>)
    requires Inv(s) && s.holder.Free? && !s.core.down && !s.core.paused && s.core.row.Some?
    ensures IsPath(states, actions) && states[0] == s
    ensures forall i :: 0 <= i < |actions| ==> ByWorker(actions[i]) || actions[i].Tick?
    ensures Last(states).holder.Commanding? && Last(states).core.row == s.core.row
  {
    states, actions := ExtendPath([s], [], Tick(DueAt(s)));
    StepKeepsInv(s, Tick(DueAt(s)));
    if s.core.live.Some? {
      states, actions := TimerCommandsOrYields(states, actions);
    }
    if Last(states).holder.Free? {
      states, actions := SweepReachesOverdueRow(states, actions);
    }
  }

  /** The only ways a durable row disappears. */
  lemma RowDisappearsOnlyWhenDone(states: seq<State>, actions: seq<Action>, i: nat)
    requires IsRun(states, actions) && AllPositive(actions) && i < |actions|
    requires states[i].core.row.Some? && states[i + 1].core.row == None
    ensures var s := states[i];
            var row := s.core.row.value;
            || actions[i].Cancel?
            || (actions[i].Settle? && s.holder.Deciding? && s.holder.ok && s.holder.gen == row.gen
                && s.holder.id in s.workers && s.workers[s.holder.id].deadline == row.deadline)
  {
    InvAlongRun(states, actions, i);
    assert states[i + 1] == Next(states[i], actions[i]);
  }

  /** A lock command is in flight only for the row that is durable at that moment, and the row
      cannot change under it. */
  lemma CommandsAreForTheCurrentRow(states: seq<State>, actions: seq<Action>, i: nat)
    requires IsRun(states, actions) && AllPositive(actions) && i < |actions|
    requires states[i].holder.Commanding?
    ensures var s := states[i];
            && s.holder.id in s.workers
            && s.core.row == Some(Row(s.workers[s.holder.id].deadline, s.holder.gen))
            && s.workers[s.holder.id].deadline <= s.now
            && states[i + 1].core.row == s.core.row
  {
    InvAlongRun(states, actions, i);
    assert states[i + 1] == Next(states[i], actions[i]);
  }

  /** Workers overwrite nothing and delete only what their command was issued for. */
  predicate Faithful(s: State, a: Action, t: State) {
    ByWorker(a) ==>
      || t.core.row == s.core.row
      || (t.core.row == None && s.core.row.Some? && s.holder.Deciding? && s.holder.gen == s.core.row.value.gen)
  }

  /** Timers and recoveries never overwrite a row, and the one they delete is the very row
      their confirmed command was issued for, never a newer one. */
  lemma WorkersNeverTouchANewerRow(states: seq<State>, actions: seq<Action>, i: nat)
    requires IsRun(states, actions) && AllPositive(actions) && i < |actions|
    ensures Faithful(states[i], actions[i], states[i + 1])
  {
    InvAlongRun(states, actions, i);
    assert states[i + 1] == Next(states[i], actions[i]);
  }

  // ---------------------------------------------------------------------------
  // Which calls need a shield
  // ---------------------------------------------------------------------------

  /** Only calls to these sections are ever cut; the others are shielded from cancellation. */
  predicate CutsOnly(actions: seq<Action>, cuttable: Section -> bool) {
    forall i :: 0 <= i < |actions| && IsCut(actions[i]) ==>
                SectionOf(actions[i]).Some? && cuttable(SectionOf(actions[i]).value)
  }

  ghost predicate AllAttended(states: seq<State>) {
    forall i :: 0 <= i < |states| ==> Attended(states[i])
  }

  const FIRST := Row(5, 0)
  const SECOND := Row(6, 2)

  /** A process without a row has rehydrated. */
  const EMPTY := State(Core(None, None, false, false), map[], Free, false, 0, 0)

  /** One timed unlock is over and its relock pending; a second later the next client has the
      command lock. */
  const PENDING := State(Core(Some(FIRST), Some(Task(0, 5)), false, false), map[0 := Timer(5, 0, false)],
                         Client(Nothing), false, 1, 2)

  /** That client has scheduled a timed unlock of its own. */
  const TWICE := State(Core(Some(SECOND), Some(Task(2, 6)), false, false),
                       map[0 := Timer(5, 0, false), 2 := Timer(6, 2, false)],
                       Client(Timed(Intent(SECOND, Some(FIRST), Task(2, 6)))), false, 1, 3)

  /** It is a manual hold instead, whose pause a schedule of the hub poll has overtaken. */
  const OVERTAKEN := State(Core(Some(SECOND), Some(Task(2, 6)), false, false),
                           map[0 := Timer(5, 0, false), 2 := Timer(6, 2, false)],
                           Client(Paused(Some(FIRST))), false, 1, 3)

  lemma Rehydrated() returns (states: seq<State>, actions: seq<Action>)
    ensures IsRun(states, actions) && AllPositive(actions) && UncutUntil(actions, |actions|) && Last(states) == EMPTY
  {
    states, actions := ExtendPath([EMPTY.(boot := true)], [], Snapshot(true));
  }

  lemma ScheduledOnce() returns (states: seq<State>, actions: seq<Action>)
    ensures IsRun(states, actions) && AllPositive(actions) && UncutUntil(actions, |actions|)
    ensures Last(states) == PENDING.(holder := Client(Timed(Intent(FIRST, None, Task(0, 5)))), now := 0, next := 1)
  {
    states, actions := Rehydrated();
    states, actions := ExtendPath(states, actions, Acquire);
    assert Last(states) == EMPTY.(holder := Client(Nothing));
    states, actions := ExtendPath(states, actions, Action.Schedule(5, Done));
  }

  lemma SecondClient() returns (states: seq<State>, actions: seq<Action>)
    ensures IsRun(states, actions) && AllPositive(actions) && UncutUntil(actions, |actions|) && Last(states) == PENDING
  {
    states, actions := ScheduledOnce();
    states, actions := ExtendPath(states, actions, Action.Retain(Done));
    states, actions := ExtendPath(states, actions, Release);
    assert Last(states) == PENDING.(holder := Free, now := 0);
    states, actions := ExtendPath(states, actions, Tick(1));
    states, actions := ExtendPath(states, actions, Acquire);
  }

  lemma ScheduledTwice() returns (states: seq<State>, actions: seq<Action>)
    ensures IsRun(states, actions) && AllPositive(actions) && UncutUntil(actions, |actions|) && Last(states) == TWICE
  {
    states, actions := SecondClient();
    states, actions := ExtendPath(states, actions, Action.Schedule(5, Done));
  }

  lemma PauseOvertaken() returns (states: seq<State>, actions: seq<Action>)
    ensures IsRun(states, actions) && AllPositive(actions) && UncutUntil(actions, |actions|)
    ensures Last(states) == OVERTAKEN
  {
    states, actions := SecondClient();
    states, actions := ExtendPath(states, actions, Action.Pause(true));
    assert Last(states) == PENDING.(core := Core(Some(FIRST), None, true, false),
                                    holder := Client(Paused(Some(FIRST))));
    states, actions := ExtendPath(states, actions, ScheduleExternally(5, Done));
  }

  /** A cut call of the section: the second client's own, or the poll's beside it. */
  function CutCall(section: Section): Action {
    match section
    case OfSchedule => Action.Schedule(5, Cut)
    case OfExternal => ScheduleExternally(5, Cut)
    case OfRetain => Action.Retain(Cut)
    case OfExtend => Action.Extend(5, Cut)
    case OfCancel => Action.Cancel(Cut)
  }

  /** The run up to that call. */
  lemma BeforeTheCut(section: Section) returns (states: seq<State>, actions: seq<Action>)
    ensures IsRun(states, actions) && AllPositive(actions) && UncutUntil(actions, |actions|)
    ensures Last(states) == match section
                            case OfSchedule => PENDING
                            case OfExternal => PENDING
                            case OfRetain => TWICE
                            case OfExtend => TWICE.(now := 2)
                            case OfCancel => OVERTAKEN
  {
    match section
    case OfSchedule => states, actions := SecondClient();
    case OfExternal => states, actions := SecondClient();
    case OfRetain => states, actions := ScheduledTwice();
    case OfExtend =>
      states, actions := ScheduledTwice();
      states, actions := ExtendPath(states, actions, Tick(2));
    case OfCancel => states, actions := PauseOvertaken();
  }

  /** For every section a run in which clients act in order, one call of that section is cut
      and nothing else, and the row is unattended in the end. */
  lemma EveryCutCanExpose(section: Section) returns (states: seq<State>, actions: seq<Action>)
    ensures IsRun(states, actions) && AllPositive(actions) && !Attended(Last(states))
    ensures |actions| > 0 && UncutUntil(actions, |actions| - 1)
    ensures IsCut(actions[|actions| - 1]) && SectionOf(actions[|actions| - 1]) == Some(section)
  {
    var before, steps := BeforeTheCut(section);
    states, actions := ExtendPath(before, steps, CutCall(section));
  }

  /** A cut deletion is harmless right behind the pause; it exposes the row exactly if a
      schedule has overtaken the pause and started a timer. */
  lemma CutCancelExposesIff(s: State)
    requires Inv(s) && Attended(s) && Enabled(s, Action.Cancel(Cut))
    ensures Attended(Next(s, Action.Cancel(Cut))) <==> s.core.live == None
    ensures s.core.paused ==> s.core.live == None
  {
  }

  /** Exactly which calls have to be shielded from cancellation for every row to be attended in
      every state of every run: all of them. */
  lemma ShieldsAreNeededIff(cuttable: Section -> bool)
    ensures (forall states, actions ::
               IsRun(states, actions) && AllPositive(actions) && CutsOnly(actions, cuttable) ==> AllAttended(states))
            <==> forall section :: !cuttable(section)
  {
    if section :| cuttable(section) {
      var states, actions := EveryCutCanExpose(section);
      assert !Attended(states[|states| - 1]);
      assert CutsOnly(actions, cuttable) && !AllAttended(states);
    } else {
      forall states, actions | IsRun(states, actions) && AllPositive(actions) && CutsOnly(actions, cuttable)
        ensures AllAttended(states)
      {
        assert UncutUntil(actions, |actions|);
        forall i | 0 <= i < |states| ensures Attended(states[i]) {
          SoundAlongRun(states, actions, i);
        }
      }
    }
  }

  // ---------------------------------------------------------------------------
  // Which durations are safe
  // ---------------------------------------------------------------------------

  /** The window of `_recover_or_schedule`: a lock was confirmed and the row is about to be
      deleted when a schedule that does not take the command lock comes in between.  The
      newer row survives the deletion exactly if its deadline is a different one. */
  lemma NewerRowSurvivesIff(s: State, duration: int)
    requires Inv(s) && s.holder.Deciding? && s.holder.ok && !s.core.down
    ensures Enabled(Next(s, ScheduleExternally(duration, Done)), Settle(true))
    ensures var t := Next(Next(s, ScheduleExternally(duration, Done)), Settle(true));
            t.core.row.Some? <==> s.workers[s.holder.id].Timer? || s.now + duration != s.workers[s.holder.id].deadline
    ensures duration > 0 ==> s.now + duration != s.workers[s.holder.id].deadline
  {
  }

  const OVERDUE := Core(Some(Row(5, 0)), None, false, false)

  lemma SweepStarts(now: int)
    requires now >= 5
    ensures var s := State(OVERDUE, map[], Free, true, now, 1);
            var t := State(OVERDUE, map[1 := Recovery(5)], Free, true, now, 3);
            Init(s) && Next(s, Snapshot(false)) == State(OVERDUE, map[1 := Scan(5, false)], Free, true, now, 2)
            && Next(Next(s, Snapshot(false)), Action.Inspect(1, true)) == t
  {
    var s := State(OVERDUE, map[1 := Scan(5, false)], Free, true, now, 2);
    assert Next(s, Action.Inspect(1, true)).workers == map[1 := Recovery(5)];
  }

  lemma SweepCommands(now: int)
    requires now >= 5
    ensures var t := State(OVERDUE, map[1 := Recovery(5)], Free, true, now, 3);
            var u := State(OVERDUE, map[1 := Recovery(5)], Commanding(1, 0), true, now, 3);
            Next(t, Validate(1, true)) == u
            && Next(u, Command(Confirmed)) == State(OVERDUE, map[1 := Recovery(5)], Deciding(1, 0, true), true, now, 3)
  {
  }

  predicate NoneExternal(actions: seq<Action>) {
    forall i :: 0 <= i < |actions| ==> !actions[i].ScheduleExternally?
  }

  lemma SweepInspected(now: int) returns (states: seq<State>, actions: seq<Action>)
    requires now >= 5
    ensures IsRun(states, actions) && |actions| == 2 && NoneExternal(actions)
    ensures Last(states) == State(OVERDUE, map[1 := Recovery(5)], Free, true, now, 3)
  {
    SweepStarts(now);
    states, actions := [State(OVERDUE, map[], Free, true, now, 1)], [];
    states, actions := ExtendPath(states, actions, Snapshot(false));
    states, actions := ExtendPath(states, actions, Action.Inspect(1, true));
  }

  lemma SweepConfirmed(now: int) returns (states: seq<State>, actions: seq<Action>)
    requires now >= 5
    ensures IsRun(states, actions) && |actions| == 4 && NoneExternal(actions)
    ensures Last(states) == State(OVERDUE, map[1 := Recovery(5)], Deciding(1, 0, true), true, now, 3)
  {
    states, actions := SweepInspected(now);
    SweepCommands(now);
    states, actions := ExtendPath(states, actions, Validate(1, true));
    states, actions := ExtendPath(states, actions, Command(Confirmed));
  }

  /** With a duration that is not positive the window is real: a sweep locks an overdue door, a
      schedule for a new unlock lands with the same deadline, and the sweep deletes its row
      while its timer is still waiting. */
  lemma UselessDurationLosesTheRow(duration: int) returns (states: seq<State>, actions: seq<Action>)
    requires duration <= 0
    ensures IsRun(states, actions) && |actions| == 6
    ensures forall i :: 0 <= i < 6 && actions[i].ScheduleExternally? ==> actions[i].duration == duration
    ensures actions[5] == Settle(true) && states[5].core.row == Some(Row(5, 3)) && states[5].holder.gen == 0
    ensures states[6].core.row == None && states[6].core.live == Some(Task(3, 5))
  {
    states, actions := SweepConfirmed(5 - duration);
    states, actions := ExtendPath(states, actions, ScheduleExternally(duration, Done));
    assert Last(states) == State(Core(Some(Row(5, 3)), Some(Task(3, 5)), false, false),
                                 map[1 := Recovery(5), 3 := Timer(5, 3, false)], Deciding(1, 0, true), true,
                                 5 - duration, 4);
    ghost var before := states;
    states, actions := ExtendPath(states, actions, Settle(true));
    assert states[5] == Last(before);
  }

  ghost predicate AllFaithful(states: seq<State>, actions: seq<Action>) {
    |states| == |actions| + 1 && forall i :: 0 <= i < |actions| ==> Faithful(states[i], actions[i], states[i + 1])
  }

  predicate Schedules(actions: seq<Action>, allowed: int -> bool) {
    forall i :: 0 <= i < |actions| && actions[i].ScheduleExternally? ==> allowed(actions[i].duration)
  }

  /** Exactly which durations keep newer rows safe from timers and sweeps in all runs: the
      positive ones. */
  lemma DurationsAreSafeIff(allowed: int -> bool)
    ensures (forall states, actions ::
               IsRun(states, actions) && Schedules(actions, allowed) ==> AllFaithful(states, actions))
            <==> forall d :: allowed(d) ==> d > 0
  {
    if d :| allowed(d) && d <= 0 {
      var states, actions := UselessDurationLosesTheRow(d);
      assert !Faithful(states[5], actions[5], states[6]);
      assert Schedules(actions, allowed) && !AllFaithful(states, actions);
    } else {
      forall states, actions | IsRun(states, actions) && Schedules(actions, allowed)
        ensures AllFaithful(states, actions)
      {
        assert AllPositive(actions);
        forall i | 0 <= i < |actions| ensures Faithful(states[i], actions[i], states[i + 1]) {
          WorkersNeverTouchANewerRow(states, actions, i);
        }
      }
    }
  }
}
