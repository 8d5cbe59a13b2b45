/** Operation leases and closing of the two HTTP clients (access_client.py, ha_client.py): a
    client that is being retired lets running operations finish, admits no new ones, and never
    opens a session again. */
module ClientLifecycle {
  import opened Common

  type OperationId = nat

  /** The two clients differ in when they stop their WebSocket. */
  datatype Kind = AccessClient | HAClient

  datatype Closer =
    | NotStarted
    | Created             // the close task exists
    | Stopping            // HAClient: latched, stopping the WebSocket before the drain
    | Draining(woken: bool)
    | Drained             // AccessClient: closed, WebSocket and sessions still to go
    | Done

  datatype Client = Client(
    kind: Kind,
    active: int,                    // _active_operations
    closing: bool,
    closed: bool,
    session: bool,                  // an HTTP session exists
    running: set<OperationId>,      // inside an operation lease
    releasing: set<OperationId>,    // left it, shielded decrement still to run
    closer: Closer)

  datatype Action =
    | Acquire(id: OperationId)
    | Leave(id: OperationId)      // the body returned, raised or was cancelled
    | Release(id: OperationId)
    | OpenSession
    | Close                       // a caller enters close()
    | CancelCaller                // its await is cancelled; the close task is shielded
    | Latch
    | WebsocketStopped
    | Drain
    | Retire

  predicate Enabled(c: Client, a: Action) {
    match a
    case Acquire(id) => id !in c.running + c.releasing
    case Leave(id) => id in c.running
    case Release(id) => id in c.releasing
    case OpenSession => true
    case Close => true
    case CancelCaller => c.closer != NotStarted
    case Latch => c.closer == Created
    case WebsocketStopped => c.closer == Stopping
    case Drain => c.closer == Draining(true)
    case Retire => c.closer == Drained
  }

  /** The test the drain loop makes each time it is awake. */
  function TryDrain(c: Client): Client {
    if c.active != 0 then c.(closer := Draining(false)) else c.(closed := true, closer := Drained)
  }

  function Next(c: Client, a: Action): Client
    requires Enabled(c, a)
  {
    match a
    case Acquire(id) =>
      if c.closing || c.closed then c else c.(active := c.active + 1, running := c.running + {id})
    case Leave(id) => c.(running := c.running - {id}, releasing := c.releasing + {id})
    case Release(id) =>
      var left := c.active - 1;
      c.(active := left, releasing := c.releasing - {id},
         closer := if left == 0 && c.closer == Draining(false) then Draining(true) else c.closer)
    case OpenSession => if c.closed then c else c.(session := true)
    case Close => c.(closer := if c.closer == NotStarted then Created else c.closer)
    case CancelCaller => c
    case Latch =>
      if c.closed then c.(closer := Done)
      else if c.kind.AccessClient? then TryDrain(c.(closing := true))
      else c.(closing := true, closer := Stopping)
    case WebsocketStopped => TryDrain(c)
    case Drain => TryDrain(c)
    case Retire => c.(session := false, closer := Done)
  }

  predicate Fresh(c: Client) {
    c == Client(c.kind, 0, false, false, false, {}, {}, NotStarted)
  }

  predicate Inv(c: Client) {
    && c.active == |c.running| + |c.releasing| && c.running !! c.releasing
    && (c.closed ==> c.closing && c.active == 0)
    && (c.closer in {NotStarted, Created} ==> !c.closing)
    && (c.closing && !c.closed ==> c.closer == Stopping || c.closer.Draining?)
    && (c.closer == Draining(false) ==> c.active > 0)
    && (c.closer == Draining(true) ==> c.active == 0)
    && (c.closer == Stopping || c.closer.Draining? ==> c.closing && !c.closed)
    && (c.closer == Drained ==> c.closed)
    && (c.closer == Done ==> c.closed && !c.session)
  }

  lemma OperationKeepsInv(c: Client, a: Action)
    requires Inv(c) && Enabled(c, a) && (a.Acquire? || a.Leave? || a.Release?)
    ensures Inv(Next(c, a))
  {
    var t := Next(c, a);
    assert |c.running + {a.id}| == |c.running| + if a.id in c.running then 0 else 1;
    assert |c.releasing + {a.id}| == |c.releasing| + if a.id in c.releasing then 0 else 1;
    assert a.Leave? ==> |t.running| == |c.running| - 1;
    assert a.Release? ==> |t.releasing| == |c.releasing| - 1;
  }

  lemma StepKeepsInv(c: Client, a: Action)
    requires Inv(c) && Enabled(c, a)
    ensures Inv(Next(c, a))
  {
    if a.Acquire? || a.Leave? || a.Release? {
      OperationKeepsInv(c, a);
    }
  }

  /** The fields themselves.  `running`, `releasing` and the position of the close task are the
      suspended coroutines, which the object does not store. */
  class HttpClient {
    const kind: Kind
    var active: int
    var closing: bool
    var closed: bool
    var session: bool
    ghost var running: set<OperationId>
    ghost var releasing: set<OperationId>
    ghost var closer: Closer

    ghost function View(): Client
      reads this
    {
      Client(kind, active, closing, closed, session, running, releasing, closer)
    }

    constructor (k: Kind)
      ensures kind == k && Fresh(View())
    {
      kind, active, closing, closed, session := k, 0, false, false, false;
      running, releasing, closer := {}, {}, NotStarted;
    }

    /** Entering `operation_lease`. */
    method AcquireLease(ghost id: OperationId) returns (granted: bool)
      requires Enabled(View(), Acquire(id))
      modifies this
      ensures View() == Next(old(View()), Acquire(id)) && (granted <==> id in running)
    {
      if closing || closed {
        return false;
      }
      active := active + 1;
      running := running + {id};
      granted := true;
    }

    /** `_release_operation_lease`; a drain that waits is woken with the last lease. */
    method ReleaseLease(ghost id: OperationId)
      requires Enabled(View(), Release(id))
      modifies this
      ensures View() == Next(old(View()), Release(id))
    {
      active := active - 1;
      releasing := releasing - {id};
      if active == 0 {
        closer := if closer == Draining(false) then Draining(true) else closer;
      }
    }

    method EnsureSession() returns (raised: bool)
      modifies this
      ensures View() == Next(old(View()), OpenSession) && (raised <==> old(closed))
    {
      if closed {
        return true;
      }
      session := true;
      raised := false;
    }

    /** The first critical section of `_close_impl`. */
    method LatchClosing()
      requires Enabled(View(), Latch)
      modifies this
      ensures View() == Next(old(View()), Latch)
    {
      if closed {
        closer := Done;
        return;
      }
      closing := true;
      if kind == AccessClient {
        FinishDrain();
      } else {
        closer := Stopping;
      }
    }

    /** One turn of the drain loop. */
    method FinishDrain()
      modifies this
      ensures View() == TryDrain(old(View()))
    {
      if active != 0 {
        closer := Draining(false);
        return;
      }
      closed := true;
      closer := Drained;
    }

    method RetireSession()
      requires Enabled(View(), Retire)
      modifies this
      ensures View() == Next(old(View()), Retire)
    {
      session := false;
      closer := Done;
    }
  }

  // ---------------------------------------------------------------------------
  // Runs
  // ---------------------------------------------------------------------------

  ghost predicate IsRun(states: seq<Client>, actions: seq<Action>) {
    && |states| == |actions| + 1
    && Fresh(states[0])
    && forall i :: 0 <= i < |actions| ==> Enabled(states[i], actions[i]) && states[i + 1] == Next(states[i], actions[i])
  }

  /** In every reachable state the counter is the number of leases in flight, and a closed
      client has none. */
  lemma {:induction false} CounterIsLeasesInFlight(states: seq<Client>, actions: seq<Action>, i: nat)
    requires IsRun(states, actions) && i < |states|
    ensures Inv(states[i])
    ensures states[i].active == |states[i].running + states[i].releasing|
    ensures states[i].closed ==> states[i].running == {} && states[i].releasing == {}
    decreases i
  {
    if i > 0 {
      CounterIsLeasesInFlight(states, actions, i - 1);
      StepKeepsInv(states[i - 1], actions[i - 1]);
    }
  }

  /** Whatever is latched in `c` is latched in `later`. */
  predicate Latched(c: Client, later: Client) {
    (c.closing ==> later.closing) && (c.closed ==> later.closed) && (c.closer == Done ==> later.closer == Done)
  }

  lemma StepKeepsLatches(c: Client, a: Action)
    requires Inv(c) && Enabled(c, a)
    ensures Latched(c, Next(c, a))
  {
  }

  lemma StepOfRun(states: seq<Client>, actions: seq<Action>, i: nat)
    requires IsRun(states, actions) && i < |actions|
    ensures Enabled(states[i], actions[i]) && states[i + 1] == Next(states[i], actions[i])
  {
  }

  lemma NextKeepsLatches(states: seq<Client>, actions: seq<Action>, i: nat)
    requires IsRun(states, actions) && i < |actions|
    ensures Latched(states[i], states[i + 1])
  {
    CounterIsLeasesInFlight(states, actions, i);
    StepKeepsLatches(states[i], actions[i]);
    StepOfRun(states, actions, i);
  }

  lemma {:induction false} LatchesStay(states: seq<Client>, actions: seq<Action>, i: nat, j: nat)
    requires IsRun(states, actions) && i <= j < |states|
    ensures Latched(states[i], states[j])
    decreases j - i
  {
    if i < j {
      LatchesStay(states, actions, i, j - 1);
      NextKeepsLatches(states, actions, j - 1);
    }
  }

  /** No lease starts once closing is set, and no session is created once the client is closed;
      a retired client has no session for good. */
  lemma NothingStartsAfterClosing(states: seq<Client>, actions: seq<Action>, i: nat, j: nat)
    requires IsRun(states, actions) && i <= j < |actions|
    ensures states[i].closing ==> states[j + 1].running <= states[j].running
    ensures states[i].closed ==> (states[j + 1].session ==> states[j].session)
    ensures states[i].closer == Done ==> !states[j + 1].session
  {
    LatchesStay(states, actions, i, j);
    LatchesStay(states, actions, i, j + 1);
    CounterIsLeasesInFlight(states, actions, j + 1);
    assert states[j + 1] == Next(states[j], actions[j]);
  }

  /** What is left to do before the close task is done. */
  function Work(c: Client): nat {
    2 * |c.running| + |c.releasing| +
    match c.closer
    case NotStarted => 8
    case Created => 6
    case Stopping => 5
    case Draining(_) => 3
    case Drained => 2
    case Done => 0
  }

  lemma NextWork(c: Client) returns (a: Action)
    requires Inv(c) && c.closer != NotStarted && c.closer != Done
    ensures Enabled(c, a) && Work(Next(c, a)) < Work(c)
  {
    match c.closer
    case Created => a := Latch;
    case Stopping => a := WebsocketStopped;
    case Drained => a := Retire;
    case Draining(woken) => a := DrainWork(c);
  }

  lemma DrainWork(c: Client) returns (a: Action)
    requires Inv(c) && c.closer.Draining?
    ensures Enabled(c, a) && Work(Next(c, a)) < Work(c)
  {
    if c.closer.woken {
      a := Drain;
    } else if c.releasing != {} {
      var id :| id in c.releasing;
      a := Release(id);
      assert |c.releasing - {id}| == |c.releasing| - 1;
    } else {
      var id :| id in c.running;
      a := Leave(id);
      assert |c.running - {id}| == |c.running| - 1;
      assert |c.releasing + {id}| == |c.releasing| + 1;
    }
  }

  /** Closing gets there: while the close task is not done some step is enabled that brings it
      closer, so no wake-up is lost, and a cancelled caller does not disturb it. */
  lemma CloseAlwaysProgresses(states: seq<Client>, actions: seq<Action>, i: nat) returns (a: Action)
    requires IsRun(states, actions) && i < |states| && states[i].closer != NotStarted && states[i].closer != Done
    ensures Enabled(states[i], a) && Work(Next(states[i], a)) < Work(states[i])
    ensures Enabled(states[i], CancelCaller) ==> Next(states[i], CancelCaller) == states[i]
  {
    CounterIsLeasesInFlight(states, actions, i);
    a := NextWork(states[i]);
  }
}
