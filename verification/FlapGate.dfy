/** Flap damping of hold-open drives (hub_sync.py): a minimum spacing, a bounded number of
    drives per window, and a suspension that clears the drive list. */
module FlapGate {
  import opened Common

  const MIN_INTERVAL := 10
  const WINDOW := 300
  const THRESHOLD := 8
  const SUSPEND := 600

  /** The list comprehension that drops drives older than the window. */
  function Recent(times: seq<int>, now: int): (r: seq<int>)
    ensures forall t :: t in r <==> t in times && now - t <= WINDOW
  {
    if times == [] then []
    else (if now - times[0] <= WINDOW then [times[0]] else []) + Recent(times[1..], now)
  }

  predicate Ascending(times: seq<int>) {
    forall i, j :: 0 <= i < j < |times| ==> times[i] <= times[j]
  }

  /** Of an ascending list only a prefix is dropped. */
  lemma {:induction false} RecentIsSuffix(times: seq<int>, now: int) returns (n: nat)
    requires Ascending(times)
    ensures n <= |times| && Recent(times, now) == times[n..]
    ensures forall i :: 0 <= i < n ==> now - times[i] > WINDOW
  {
    if times == [] {
      n := 0;
    } else if now - times[0] <= WINDOW {
      var m := RecentIsSuffix(times[1..], now);
      n := 0;
      assert Recent(times[1..], now) == times[1..];
      assert times == [times[0]] + times[1..];
    } else {
      var m := RecentIsSuffix(times[1..], now);
      n := m + 1;
      forall i | 0 <= i < n ensures now - times[i] > WINDOW {
        if i > 0 {
          assert times[i] == times[1..][i - 1];
        }
      }
    }
  }

  /** The recorded times whose drive was a hold-open. */
  function Opens(times: seq<int>, marks: seq<bool>): (r: seq<int>)
    requires |times| == |marks|
    ensures |r| <= |times|
  {
    if times == [] then [] else (if marks[0] then [times[0]] else []) + Opens(times[1..], marks[1..])
  }

  lemma {:induction false} OpensOfConcat(t1: seq<int>, m1: seq<bool>, t2: seq<int>, m2: seq<bool>)
    requires |t1| == |m1| && |t2| == |m2|
    ensures Opens(t1 + t2, m1 + m2) == Opens(t1, m1) + Opens(t2, m2)
  {
    if t1 == [] {
      assert t1 + t2 == t2 && m1 + m2 == m2;
    } else {
      OpensOfConcat(t1[1..], m1[1..], t2, m2);
      TailOfConcat(t1, t2);
      TailOfConcat(m1, m2);
      Reassociate(if m1[0] then [t1[0]] else [], Opens(t1[1..], m1[1..]), Opens(t2, m2));
    }
  }

  lemma TailOfConcat<T>(a: seq<T>, b: seq<T>)
    requires a != []
    ensures a + b != [] && (a + b)[0] == a[0] && (a + b)[1..] == a[1..] + b
  {
  }

  lemma Reassociate<T>(a: seq<T>, b: seq<T>, c: seq<T>)
    ensures a + (b + c) == (a + b) + c
  {
  }

  lemma {:induction false} OpensComeFromTimes(times: seq<int>, marks: seq<bool>)
    requires |times| == |marks|
    ensures forall t :: t in Opens(times, marks) ==> t in times
  {
    if times != [] {
      OpensComeFromTimes(times[1..], marks[1..]);
    }
  }

  /** One recorded hold-open drive: when it was let through and when it was recorded. */
  datatype Drive = Drive(start: int, recorded: int, previous: Option<int>)

  /** Nine hold-open drives in a row never fit into one window. */
  predicate Bounded(opens: seq<Drive>) {
    forall i :: 0 <= i && i + THRESHOLD < |opens| ==> opens[i + THRESHOLD].recorded - opens[i].recorded > WINDOW
  }

  predicate Spaced(opens: seq<Drive>) {
    forall i :: 0 <= i < |opens| ==>
      && opens[i].start <= opens[i].recorded
      && (opens[i].previous.Some? ==> opens[i].previous.value + MIN_INTERVAL <= opens[i].start)
  }

  function CountWithin(opens: seq<Drive>, from: int): nat {
    if opens == [] then 0
    else (if from <= opens[0].recorded <= from + WINDOW then 1 else 0) + CountWithin(opens[1..], from)
  }

  predicate InOrder(opens: seq<Drive>) {
    forall i, j :: 0 <= i < j < |opens| ==> opens[i].recorded <= opens[j].recorded
  }

  lemma {:induction false} CountIsRunLength(opens: seq<Drive>, from: int)
    requires InOrder(opens)
    requires |opens| > 0 && from <= opens[0].recorded
    ensures CountWithin(opens, from) <= |opens|
    ensures CountWithin(opens, from) > 0 ==>
              CountWithin(opens, from) <= |opens| && opens[CountWithin(opens, from) - 1].recorded <= from + WINDOW
  {
    if |opens| == 1 {
      assert opens[1..] == [];
    } else {
      CountIsRunLength(opens[1..], from);
      var n := CountWithin(opens[1..], from);
      if n > 0 {
        assert opens[1..][n - 1] == opens[n];
      }
    }
  }

  /** Any window of 300 seconds holds at most 8 recorded hold-open drives. */
  lemma {:induction false} WindowHoldsAtMostThreshold(opens: seq<Drive>, from: int)
    requires InOrder(opens) && Bounded(opens)
    ensures CountWithin(opens, from) <= THRESHOLD
  {
    if opens != [] {
      if opens[0].recorded < from {
        assert forall i :: 0 <= i < |opens| - 1 ==> opens[1..][i] == opens[i + 1];
        WindowHoldsAtMostThreshold(opens[1..], from);
      } else {
        CountIsRunLength(opens, from);
        assert |opens| > THRESHOLD ==> opens[0 + THRESHOLD].recorded - opens[0].recorded > WINDOW;
      }
    }
  }

  function Times(opens: seq<Drive>): (r: seq<int>)
    ensures |r| == |opens| && forall i :: 0 <= i < |r| ==> r[i] == opens[i].recorded
  {
    seq(|opens|, i requires 0 <= i < |opens| => opens[i].recorded)
  }

  /** The marked entries of the drive list are the hold-opens from number `kept` on. */
  ghost predicate Matches(times: seq<int>, marks: seq<bool>, opens: seq<Drive>, kept: nat) {
    && |marks| == |times|
    && Ascending(times)
    && kept <= |opens|
    && Opens(times, marks) == Times(opens)[kept..]
  }

  lemma PruneKeepsMatching(times: seq<int>, marks: seq<bool>, opens: seq<Drive>, kept: nat, now: int)
    returns (n: nat, rest: nat)
    requires Matches(times, marks, opens, kept)
    ensures n <= |times| && Recent(times, now) == times[n..]
    ensures Matches(times[n..], marks[n..], opens, rest)
    ensures kept <= rest && forall i :: kept <= i < rest ==> now - opens[i].recorded > WINDOW
  {
    n := RecentIsSuffix(times, now);
    var dropped := Opens(times[..n], marks[..n]);
    OpensOfConcat(times[..n], marks[..n], times[n..], marks[n..]);
    assert times[..n] + times[n..] == times && marks[..n] + marks[n..] == marks;
    OpensComeFromTimes(times[..n], marks[..n]);
    rest := kept + |dropped|;
    var tail := Times(opens)[kept..];
    assert tail == dropped + Opens(times[n..], marks[n..]);
    forall i | kept <= i < rest ensures now - opens[i].recorded > WINDOW {
      assert tail[i - kept] == dropped[i - kept];
      assert dropped[i - kept] in dropped;
    }
    assert Times(opens)[rest..] == tail[|dropped|..];
  }

  lemma RecordKeepsMatching(times: seq<int>, marks: seq<bool>, opens: seq<Drive>, kept: nat, d: Drive, open: bool)
    requires Matches(times, marks, opens, kept)
    requires forall t :: t in times ==> t <= d.recorded
    ensures Matches(times + [d.recorded], marks + [open], if open then opens + [d] else opens, kept)
  {
    OpensOfConcat(times, marks, [d.recorded], [open]);
    assert Opens([d.recorded], [open]) == if open then [d.recorded] else [] by {
      assert Opens([d.recorded][1..], [open][1..]) == [];
    }
    assert forall i :: 0 <= i < |times| ==> times[i] in times;
    if open {
      assert Times(opens + [d]) == Times(opens) + [d.recorded];
    }
  }

  /** What is kept of the drives themselves, whatever the lists were cleared to. */
  predicate History(opens: seq<Drive>, clock: int) {
    InOrder(opens) && Bounded(opens) && Spaced(opens) && forall i :: 0 <= i < |opens| ==> opens[i].recorded <= clock
  }

  lemma AppendKeepsHistory(opens: seq<Drive>, d: Drive, clock: int)
    requires History(opens, clock) && clock <= d.recorded && d.start <= d.recorded
    requires d.previous.Some? ==> d.previous.value + MIN_INTERVAL <= d.start
    requires |opens| >= THRESHOLD ==> d.start - opens[|opens| - THRESHOLD].recorded > WINDOW
    ensures History(opens + [d], d.recorded)
  {
    var after := opens + [d];
    forall i | 0 <= i && i + THRESHOLD < |after|
      ensures after[i + THRESHOLD].recorded - after[i].recorded > WINDOW
    {
      if i + THRESHOLD < |opens| {
        assert opens[i + THRESHOLD].recorded - opens[i].recorded > WINDOW;
      }
    }
  }

  /** The drive list against the history: hold-opens that are no longer listed have left the
      window, or will have by the end of the suspension that dropped them. */
  ghost predicate ListsOk(times: seq<int>, marks: seq<bool>, opens: seq<Drive>, kept: nat, clock: int,
                          suspended: Option<int>)
  {
    && Matches(times, marks, opens, kept)
    && (forall t :: t in times ==> t <= clock)
    && (forall i :: 0 <= i < kept ==>
          clock - opens[i].recorded > WINDOW
          || (suspended.Some? && suspended.value - opens[i].recorded > WINDOW))
  }

  predicate LastOk(last: Option<int>, clock: int, applied: Option<int>, suspended: Option<int>) {
    last.Some? ==>
      && last.value <= clock
      && (applied == last || (suspended.Some? && last.value + SUSPEND <= suspended.value))
  }

  lemma RecordKeepsLists(times: seq<int>, marks: seq<bool>, opens: seq<Drive>, kept: nat, d: Drive, open: bool,
                         suspended: Option<int>)
    requires ListsOk(times, marks, opens, kept, d.recorded, suspended)
    ensures ListsOk(times + [d.recorded], marks + [open], if open then opens + [d] else opens, kept, d.recorded,
                    suspended)
  {
    RecordKeepsMatching(times, marks, opens, kept, d, open);
  }

  lemma PruneKeepsLists(times: seq<int>, marks: seq<bool>, opens: seq<Drive>, kept: nat, now: int,
                        suspended: Option<int>)
    returns (n: nat, rest: nat)
    requires ListsOk(times, marks, opens, kept, now, suspended)
    ensures n <= |times| == |marks| && Recent(times, now) == times[n..]
    ensures ListsOk(times[n..], marks[n..], opens, rest, now, suspended)
  {
    n, rest := PruneKeepsMatching(times, marks, opens, kept, now);
  }

  /** A full list of recent drives is what lets nine hold-opens come close together: with
      fewer than eight left, the eighth-last hold-open is out of the window. */
  lemma RoomMeansSpread(times: seq<int>, marks: seq<bool>, opens: seq<Drive>, kept: nat, now: int,
                        suspended: Option<int>)
    requires ListsOk(times, marks, opens, kept, now, suspended) && |times| < THRESHOLD <= |opens|
    requires suspended.Some? ==> suspended.value <= now
    ensures now - opens[|opens| - THRESHOLD].recorded > WINDOW
  {
    assert |Times(opens)[kept..]| <= |times|;
  }

  /** The damping state of one entity.  The ghost history outlives the lists it is about. */
  class Gate {
    var suspendedUntil: Option<int>
    var backoffUntil: Option<int>
    var lastAppliedAt: Option<int>
    var applyTimes: seq<int>
    ghost var marks: seq<bool>
    ghost var opens: seq<Drive>
    ghost var kept: nat
    ghost var clock: int
    ghost var lastRecord: Option<int>

    ghost predicate Valid()
      reads this
    {
      && ListsOk(applyTimes, marks, opens, kept, clock, suspendedUntil)
      && History(opens, clock)
      && LastOk(lastRecord, clock, lastAppliedAt, suspendedUntil)
    }

    /** What the gate establishes for a drive that starts at `start`. */
    ghost predicate Allowed(start: int)
      reads this
    {
      && start <= clock
      && (suspendedUntil.Some? ==> suspendedUntil.value <= start)
      && (lastRecord.Some? ==> lastRecord.value + MIN_INTERVAL <= start)
      && (|opens| >= THRESHOLD ==> start - opens[|opens| - THRESHOLD].recorded > WINDOW)
    }

    /** The damping tests of a pass that is about to hold the door open. */
    predicate Quiet(now: int)
      reads this
    {
      && (suspendedUntil.Some? ==> suspendedUntil.value <= now)
      && (backoffUntil.Some? ==> backoffUntil.value <= now)
      && (lastAppliedAt.Some? ==> lastAppliedAt.value + MIN_INTERVAL <= now)
    }

    constructor ()
      ensures Valid() && opens == [] && clock == 0 && lastRecord == None
    {
      suspendedUntil, backoffUntil, lastAppliedAt, applyTimes := None, None, None, [];
      marks, opens, kept, clock, lastRecord := [], [], 0, 0, None;
    }

    /** The damping block of the reconcile pass: may a hold-open drive start now?  A full
        window suspends the entity instead and drops its drive list. */
    method HoldOpenAllowed(now: int) returns (go: bool)
      requires Valid() && clock <= now
      modifies this
      ensures Valid() && clock == now
      ensures opens == old(opens) && lastRecord == old(lastRecord)
      ensures go ==> Allowed(now)
      ensures go <==> old(Quiet(now)) && |Recent(old(applyTimes), now)| < THRESHOLD
      ensures old(Quiet(now)) && !go ==> suspendedUntil == Some(now + SUSPEND) && applyTimes == []
      ensures !old(Quiet(now)) ==> applyTimes == old(applyTimes) && suspendedUntil == old(suspendedUntil)
    {
      clock := now;
      if suspendedUntil.Some? && suspendedUntil.value > now {
        return false;
      }
      if backoffUntil.Some? && backoffUntil.value > now {
        return false;
      }
      if lastAppliedAt.Some? && now - lastAppliedAt.value < MIN_INTERVAL {
        return false;
      }
      go := HasRoom(now);
    }

    /** The last test of the block, and what a full window leads to. */
    method HasRoom(now: int) returns (go: bool)
      requires Valid() && clock == now && Quiet(now)
      modifies this
      ensures Valid() && clock == now && opens == old(opens) && lastRecord == old(lastRecord)
      ensures go ==> Allowed(now)
      ensures go <==> |Recent(old(applyTimes), now)| < THRESHOLD
      ensures !go ==> suspendedUntil == Some(now + SUSPEND) && applyTimes == []
    {
      Prune(now);
      if |applyTimes| >= THRESHOLD {
        Suspend(now);
        return false;
      }
      if |opens| >= THRESHOLD {
        RoomMeansSpread(applyTimes, marks, opens, kept, now, suspendedUntil);
      }
      go := true;
    }

    /** Drop the drives that left the window. */
    method Prune(now: int)
      requires Valid() && clock == now
      modifies `applyTimes, `marks, `kept
      ensures Valid()
      ensures applyTimes == Recent(old(applyTimes), now)
      ensures forall t :: t in applyTimes ==> now - t <= WINDOW
    {
      ghost var n, rest := PruneKeepsLists(applyTimes, marks, opens, kept, now, suspendedUntil);
      applyTimes := Recent(applyTimes, now);
      marks := marks[n..];
      kept := rest;
    }

    /** `_suspend_flapping`. */
    method Suspend(now: int)
      requires Valid() && clock == now
      modifies this
      ensures Valid() && clock == now && opens == old(opens) && lastRecord == old(lastRecord)
      ensures suspendedUntil == Some(now + SUSPEND) && applyTimes == [] && lastAppliedAt == None
    {
      suspendedUntil := Some(now + SUSPEND);
      lastAppliedAt, applyTimes, backoffUntil := None, [], None;
      marks, kept := [], |opens|;
    }

    /** A failed unsafe drive is retried only after a backoff. */
    method BackOff(until: int)
      requires Valid()
      modifies `backoffUntil
      ensures Valid() && backoffUntil == Some(until)
    {
      backoffUntil := Some(until);
    }

    /** The bookkeeping at the end of `_apply_state`, for either direction. */
    method RecordDrive(now: int, open: bool, ghost start: int)
      requires Valid() && clock <= now
      requires open ==> Allowed(start)
      modifies this
      ensures Valid() && clock == now && lastRecord == Some(now)
      ensures opens == if open then old(opens) + [Drive(start, now, old(lastRecord))] else old(opens)
      ensures applyTimes == Recent(old(applyTimes), now) + [now]
    {
      ghost var d := Drive(start, now, lastRecord);
      if open {
        AppendKeepsHistory(opens, d, clock);
      }
      clock := now;
      Prune(now);
      Append(now, d, open);
    }

    method Append(now: int, ghost d: Drive, open: bool)
      requires ListsOk(applyTimes, marks, opens, kept, now, suspendedUntil) && d.recorded == now == clock
      requires History(if open then opens + [d] else opens, now)
      modifies `applyTimes, `marks, `opens, `lastAppliedAt, `lastRecord
      ensures Valid() && lastRecord == Some(now)
      ensures opens == if open then old(opens) + [d] else old(opens)
      ensures applyTimes == old(applyTimes) + [now]
    {
      RecordKeepsLists(applyTimes, marks, opens, kept, d, open, suspendedUntil);
      applyTimes := applyTimes + [now];
      marks := marks + [open];
      opens := if open then opens + [d] else opens;
      lastAppliedAt, lastRecord := Some(now), Some(now);
    }
  }

  /** One thing that happens to an entity: an attempt to hold the door open (which may drive
      no hub), or a drive toward locked. */
  datatype Attempt = TryOpen(at: int, drove: bool, recorded: int) | DriveLocked(recorded: int) | Refuse(until: int)

  function RecordedBy(attempt: Attempt, go: bool, before: seq<Drive>, last: Option<int>): seq<Drive> {
    if attempt.TryOpen? && go && attempt.drove then before + [Drive(attempt.at, attempt.recorded, last)] else before
  }

  function LastBy(attempt: Attempt, go: bool, last: Option<int>): Option<int> {
    match attempt
    case TryOpen(_, drove, recorded) => if go && drove then Some(recorded) else last
    case DriveLocked(recorded) => Some(recorded)
    case Refuse(_) => last
  }

  function LastRecord(script: seq<Attempt>, go: seq<bool>): Option<int>
    requires |go| == |script|
  {
    if script == [] then None
    else
      var n := |script| - 1;
      LastBy(script[n], go[n], LastRecord(script[..n], go[..n]))
  }

  /** The drives a run records, given which attempts the gate let through. */
  function Recorded(script: seq<Attempt>, go: seq<bool>): seq<Drive>
    requires |go| == |script|
  {
    if script == [] then []
    else
      var n := |script| - 1;
      RecordedBy(script[n], go[n], Recorded(script[..n], go[..n]), LastRecord(script[..n], go[..n]))
  }

  predicate Follows(attempt: Attempt, from: int) {
    match attempt
    case TryOpen(at, _, recorded) => from <= at <= recorded
    case DriveLocked(recorded) => from <= recorded
    case Refuse(_) => true
  }

  function EndOf(attempt: Attempt, from: int): int {
    if attempt.Refuse? then from else attempt.recorded
  }

  predicate Chronological(script: seq<Attempt>, from: int) {
    script == [] || (Follows(script[0], from) && Chronological(script[1..], EndOf(script[0], from)))
  }

  /** One attempt of a run. */
  method OneAttempt(gate: Gate, attempt: Attempt, ghost from: int) returns (go: bool)
    requires gate.Valid() && gate.clock <= from && Follows(attempt, from)
    modifies gate
    ensures gate.Valid() && gate.clock <= EndOf(attempt, from)
    ensures gate.opens == RecordedBy(attempt, go, old(gate.opens), old(gate.lastRecord))
    ensures gate.lastRecord == LastBy(attempt, go, old(gate.lastRecord))
  {
    go := false;
    match attempt {
      case TryOpen(at, drove, recorded) =>
        go := gate.HoldOpenAllowed(at);
        if go && drove {
          gate.RecordDrive(recorded, true, at);
        }
      case DriveLocked(recorded) =>
        gate.RecordDrive(recorded, false, 0);
      case Refuse(until) =>
        gate.BackOff(until);
    }
  }

  /** Over any chronological run, however often the gate suspends and clears its list, every
      window of 300 seconds holds at most 8 hold-open drives and each of them started at
      least 10 seconds after the drive recorded before it. */
  method AnyRun(script: seq<Attempt>) returns (go: seq<bool>)
    requires Chronological(script, 0)
    ensures |go| == |script|
    ensures Spaced(Recorded(script, go))
    ensures forall from :: CountWithin(Recorded(script, go), from) <= THRESHOLD
  {
    var gate := new Gate();
    go := [];
    ghost var from := 0;
    while |go| < |script|
      invariant |go| <= |script|
      invariant fresh(gate) && gate.Valid() && gate.clock <= from && Chronological(script[|go|..], from)
      invariant gate.opens == Recorded(script[..|go|], go) && gate.lastRecord == LastRecord(script[..|go|], go)
    {
      var i := |go|;
      assert script[i..][0] == script[i] && script[i..][1..] == script[i + 1..];
      var allowed := OneAttempt(gate, script[i], from);
      from := EndOf(script[i], from);
      assert script[..i + 1][..i] == script[..i] && (go + [allowed])[..i] == go;
      go := go + [allowed];
    }
    assert script[..|go|] == script;
    forall w ensures CountWithin(Recorded(script, go), w) <= THRESHOLD {
      WindowHoldsAtMostThreshold(Recorded(script, go), w);
    }
  }
}
