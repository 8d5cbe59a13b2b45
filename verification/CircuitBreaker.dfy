/** The circuit breaker in front of Home Assistant calls (circuit_breaker.py). */
module Circuit {

  datatype Mode = Closed | Open | HalfOpen

  /** Its fields; the clock is monotonic. */
  datatype Breaker = Breaker(mode: Mode, failures: nat, openedAt: int, probe: bool)

  const NEW := Breaker(Closed, 0, 0, false)

  datatype Call = Ask(now: int) | Success | Failure(now: int) | Abort(now: int)

  datatype Settings = Settings(threshold: int, recovery: int)

  /** `is_open() == False`: the caller may go ahead. */
  predicate Admits(b: Breaker, now: int, s: Settings) {
    match b.mode
    case Closed => true
    case HalfOpen => !b.probe
    case Open => now - b.openedAt >= s.recovery
  }

  function After(b: Breaker, c: Call, s: Settings): Breaker {
    match c
    case Ask(now) =>
      if b.mode == Open && Admits(b, now, s) then b.(mode := HalfOpen, probe := true) else b
    case Success => b.(mode := Closed, failures := 0, probe := false)
    case Failure(now) =>
      (match b.mode
       case Closed =>
         if b.failures + 1 >= s.threshold then b.(failures := b.failures + 1, openedAt := now, mode := Open)
         else b.(failures := b.failures + 1)
       case HalfOpen => b.(failures := b.failures + 1, openedAt := now, mode := Open, probe := false)
       case Open => b.(failures := b.failures + 1))
    case Abort(now) =>
      if b.mode == HalfOpen && b.probe then b.(mode := Open, openedAt := now, probe := false) else b
  }

  class CircuitBreaker {
    const settings: Settings
    var mode: Mode
    var failures: nat
    var openedAt: int
    var probeInFlight: bool

    function State(): Breaker
      reads this
    {
      Breaker(mode, failures, openedAt, probeInFlight)
    }

    constructor (s: Settings)
      ensures settings == s && State() == NEW
    {
      settings, mode, failures, openedAt, probeInFlight := s, Closed, 0, 0, false;
    }

    method IsOpen(now: int) returns (blocked: bool)
      modifies this
      ensures blocked <==> !Admits(old(State()), now, settings)
      ensures State() == After(old(State()), Ask(now), settings)
    {
      if mode == Closed {
        return false;
      }
      if mode == HalfOpen {
        return probeInFlight;
      }
      if now - openedAt >= settings.recovery {
        mode, probeInFlight := HalfOpen, true;
        return false;
      }
      blocked := true;
    }

    method RecordSuccess()
      modifies this
      ensures State() == After(old(State()), Success, settings)
    {
      mode, failures, probeInFlight := Closed, 0, false;
    }

    method RecordFailure(now: int)
      modifies this
      ensures State() == After(old(State()), Failure(now), settings)
    {
      failures := failures + 1;
      if mode == Closed {
        if failures >= settings.threshold {
          openedAt, mode := now, Open;
        }
      } else if mode == HalfOpen {
        openedAt, mode, probeInFlight := now, Open, false;
      }
    }

    method AbortProbe(now: int)
      modifies this
      ensures State() == After(old(State()), Abort(now), settings)
    {
      if mode == HalfOpen && probeInFlight {
        mode, openedAt, probeInFlight := Open, now, false;
      }
    }
  }

  // ---------------------------------------------------------------------------
  // Runs
  // ---------------------------------------------------------------------------

  function AfterAll(b: Breaker, calls: seq<Call>, s: Settings): Breaker
    decreases |calls|
  {
    if calls == [] then b else After(AfterAll(b, calls[..|calls| - 1], s), calls[|calls| - 1], s)
  }

  predicate Inv(b: Breaker, s: Settings) {
    && (b.mode == HalfOpen <==> b.probe)
    && (b.mode == Closed <==> b.failures < s.threshold)
  }

  /** Half-open means that a probe is reserved, closed that too few failures came in a row: in
      every state of every run if and only if the threshold is positive. */
  lemma {:induction false} ModesMeanWhatTheySay(calls: seq<Call>, s: Settings)
    ensures s.threshold >= 1 ==> Inv(AfterAll(NEW, calls, s), s)
    ensures s.threshold < 1 ==> !Inv(AfterAll(NEW, [], s), s)
    decreases |calls|
  {
    if calls != [] {
      ModesMeanWhatTheySay(calls[..|calls| - 1], s);
    }
  }

  predicate Chronological(calls: seq<Call>) {
    forall i, j :: 0 <= i < j < |calls| && !calls[i].Success? && !calls[j].Success? ==> calls[i].now <= calls[j].now
  }

  predicate Admitted(b: Breaker, calls: seq<Call>, i: nat, s: Settings) {
    i < |calls| && calls[i].Ask? && Admits(AfterAll(b, calls[..i], s), calls[i].now, s)
  }

  predicate NoSuccess(calls: seq<Call>) {
    forall i :: 0 <= i < |calls| ==> !calls[i].Success?
  }

  /** Without a success, an open breaker keeps the clock of its last opening or has moved on to
      a probe that started a recovery time after it. */
  lemma {:induction false} StaysTripped(b: Breaker, calls: seq<Call>, s: Settings)
    requires b.mode != Closed && NoSuccess(calls) && (b.mode == HalfOpen <==> b.probe)
    ensures var t := AfterAll(b, calls, s);
            t.mode != Closed && (t.mode == HalfOpen <==> t.probe)
    decreases |calls|
  {
    if calls != [] {
      StaysTripped(b, calls[..|calls| - 1], s);
    }
  }

  /** Since an opening or an admission at `since`: still waiting for the probe to resolve, or
      opened again no earlier than `since`. */
  lemma {:induction false} WaitsSince(b: Breaker, calls: seq<Call>, s: Settings, since: int)
    requires b.probe <==> b.mode == HalfOpen
    requires b.mode == HalfOpen || (b.mode == Open && since <= b.openedAt)
    requires NoSuccess(calls) && forall i :: 0 <= i < |calls| ==> since <= calls[i].now
    requires forall i :: 0 <= i < |calls| ==> !Admitted(b, calls, i, s)
    ensures var t := AfterAll(b, calls, s);
            (t.probe <==> t.mode == HalfOpen) && (t.mode == HalfOpen || (t.mode == Open && since <= t.openedAt))
    decreases |calls|
  {
    if calls != [] {
      var n := |calls| - 1;
      forall i | 0 <= i < n ensures !Admitted(b, calls[..n], i, s) {
        assert calls[..n][..i] == calls[..i];
        assert !Admitted(b, calls, i, s);
      }
      WaitsSince(b, calls[..n], s, since);
      assert !Admitted(b, calls, n, s);
    }
  }

  /** After the breaker opens, and as long as nothing succeeds, nobody is admitted before the
      recovery time has passed. */
  lemma NobodyBeforeRecovery(b: Breaker, calls: seq<Call>, i: nat, s: Settings)
    requires b.mode == Open && !b.probe && NoSuccess(calls)
    requires forall k :: 0 <= k < |calls| ==> b.openedAt <= calls[k].now
    requires Admitted(b, calls, i, s) && forall k :: 0 <= k < i ==> !Admitted(b, calls, k, s)
    ensures calls[i].now >= b.openedAt + s.recovery
  {
    Prefix(b, calls, i, s);
    WaitsSince(b, calls[..i], s, b.openedAt);
  }

  lemma Prefix(b: Breaker, calls: seq<Call>, i: nat, s: Settings)
    requires i <= |calls| && forall k :: 0 <= k < i ==> !Admitted(b, calls, k, s)
    ensures forall k :: 0 <= k < i ==> !Admitted(b, calls[..i], k, s)
  {
    forall k | 0 <= k < i ensures !Admitted(b, calls[..i], k, s) {
      assert calls[..i][..k] == calls[..k];
      assert !Admitted(b, calls, k, s);
    }
  }

  lemma {:induction false} AfterAllSplits(b: Breaker, calls: seq<Call>, n: nat, s: Settings)
    requires n <= |calls|
    ensures AfterAll(b, calls, s) == AfterAll(AfterAll(b, calls[..n], s), calls[n..], s)
    decreases |calls|
  {
    if n < |calls| {
      var m := |calls| - 1;
      AfterAllSplits(b, calls[..m], n, s);
      assert calls[..m][..n] == calls[..n] && calls[..m][n..] == calls[n..][..m - n];
    } else {
      assert calls[..n] == calls && calls[n..] == [];
    }
  }

  lemma NoneAdmittedBetween(b: Breaker, calls: seq<Call>, i: nat, j: nat, s: Settings, k: nat)
    requires i < j <= |calls| && k < j - i - 1 && !Admitted(b, calls, i + 1 + k, s)
    ensures !Admitted(AfterAll(b, calls[..i + 1], s), calls[i + 1..j], k, s)
  {
    var rest, m := calls[i + 1..j], i + 1 + k;
    SlicesOf(calls, i + 1, m, j);
    AfterAllSplits(b, calls[..m], i + 1, s);
    assert rest[k] == calls[m];
  }

  lemma SlicesOf(calls: seq<Call>, n: nat, m: nat, j: nat)
    requires n <= m <= j <= |calls|
    ensures calls[..m][..n] == calls[..n]
    ensures calls[..m][n..] == calls[n..j][..m - n]
  {
    assert |calls[..m][n..]| == m - n == |calls[n..j][..m - n]|;
  }

  lemma AdmissionStartsProbe(b: Breaker, calls: seq<Call>, i: nat, s: Settings)
    requires b.mode != Closed && (b.probe <==> b.mode == HalfOpen) && NoSuccess(calls) && Admitted(b, calls, i, s)
    ensures AfterAll(b, calls[..i + 1], s).mode == HalfOpen && AfterAll(b, calls[..i + 1], s).probe
  {
    assert NoSuccess(calls[..i]);
    StaysTripped(b, calls[..i], s);
    assert calls[..i + 1][..i] == calls[..i];
  }

  /** One caller per half-open episode: while nothing succeeds, two callers admitted one after
      the other are at least a recovery time apart. */
  lemma ProbesAreSpaced(b: Breaker, calls: seq<Call>, i: nat, j: nat, s: Settings)
    requires b.mode != Closed && (b.probe <==> b.mode == HalfOpen) && NoSuccess(calls) && Chronological(calls)
    requires i < j && Admitted(b, calls, i, s) && Admitted(b, calls, j, s)
    requires forall k :: i < k < j ==> !Admitted(b, calls, k, s)
    ensures calls[j].now >= calls[i].now + s.recovery
  {
    AdmissionStartsProbe(b, calls, i, s);
    var probing := AfterAll(b, calls[..i + 1], s);
    var rest := calls[i + 1..j];
    assert forall k :: 0 <= k < |rest| ==> rest[k] == calls[i + 1 + k];
    assert NoSuccess(rest);
    forall k | 0 <= k < |rest| ensures !Admitted(probing, rest, k, s) {
      NoneAdmittedBetween(b, calls, i, j, s, k);
    }
    WaitsSince(probing, rest, s, calls[i].now);
    AfterAllSplits(b, calls[..j], i + 1, s);
    SlicesOf(calls, i + 1, j, j);
    assert rest[..|rest|] == rest;
  }
}
