/** The durable sliding-window limiter (database.py): one row per scope and subject holding
    the recent attempts and a lockout, and a pruner that drops rows nobody can need. */
module RateLimit {
  import opened Common

  /** `until == 0` means no lockout; clock readings are positive. */
  datatype Row = Row(attempts: seq<int>, until: int)

  datatype Limits = Limits(max: nat, window: int, lockout: int)

  /** Attempts that still count at a time whose cutoff is `cutoff`. */
  function Live(attempts: seq<int>, cutoff: int): (r: seq<int>)
    ensures |r| <= |attempts|
  {
    if attempts == [] then []
    else (if attempts[0] > cutoff then [attempts[0]] else []) + Live(attempts[1..], cutoff)
  }

  function Attempts(s: Option<Row>): seq<int> {
    if s.Some? then s.value.attempts else []
  }

  predicate Locked(s: Option<Row>, now: int) {
    s.Some? && s.value.until != 0 && now < s.value.until
  }

  // ---------------------------------------------------------------------------
  // The operations on one row
  // ---------------------------------------------------------------------------

  function Consume(s: Option<Row>, now: int, l: Limits): (Option<Row>, bool) {
    if Locked(s, now) then (s, false)
    else
      var live := Live(Attempts(s), now - l.window);
      if |live| >= l.max then (Some(Row([], now + l.lockout)), false)
      else (Some(Row(live + [now], 0)), true)
  }

  function RecordFailure(s: Option<Row>, now: int, l: Limits): (Option<Row>, bool) {
    if Locked(s, now) then (s, true)
    else
      var attempts := Live(Attempts(s), now - l.window) + [now];
      if |attempts| >= l.max && now + l.lockout != 0 then (Some(Row([], now + l.lockout)), true)
      else (Some(Row(attempts, 0)), false)
  }

  function Check(s: Option<Row>, now: int): (Option<Row>, bool) {
    if Locked(s, now) then (s, true)
    else if s.Some? && s.value.until != 0 then (None, false)
    else (s, false)
  }

  /** The `WHERE` clause of the pruner. */
  predicate Prunable(r: Row, now: int, staleAfter: int) {
    && r.until <= now
    && ((r.until != 0 && r.attempts == [])
        || (if r.attempts == [] then 0 else r.attempts[|r.attempts| - 1]) <= now - staleAfter)
  }

  function Prune(s: Option<Row>, now: int, staleAfter: int): Option<Row> {
    if s.Some? && Prunable(s.value, now, staleAfter) then None else s
  }

  // ---------------------------------------------------------------------------
  // The table
  // ---------------------------------------------------------------------------

  datatype Key = Key(scope: string, subject: string)

  class RateLimits {
    var rows: map<Key, Row>

    function Stored(k: Key): Option<Row>
      reads this
    {
      if k in rows then Some(rows[k]) else None
    }

    method ConsumeRateLimit(k: Key, now: int, l: Limits) returns (allowed: bool)
      modifies this
      ensures (Stored(k), allowed) == Consume(old(Stored(k)), now, l)
      ensures forall o :: o != k ==> Stored(o) == old(Stored(o))
    {
      var until := if k in rows then rows[k].until else 0;
      if until != 0 && now < until {
        return false;
      }
      var attempts := if k in rows then rows[k].attempts else [];
      attempts := Live(attempts, now - l.window);
      if |attempts| >= l.max {
        rows := rows[k := Row([], now + l.lockout)];
        return false;
      }
      rows := rows[k := Row(attempts + [now], 0)];
      allowed := true;
    }

    method RecordRateLimitFailure(k: Key, now: int, l: Limits) returns (locked: bool)
      modifies this
      ensures (Stored(k), locked) == RecordFailure(old(Stored(k)), now, l)
      ensures forall o :: o != k ==> Stored(o) == old(Stored(o))
    {
      if k in rows && rows[k].until != 0 && now < rows[k].until {
        return true;
      }
      var attempts := if k in rows then rows[k].attempts else [];
      attempts := Live(attempts, now - l.window) + [now];
      var until := if |attempts| >= l.max then now + l.lockout else 0;
      rows := rows[k := Row(if until != 0 then [] else attempts, until)];
      locked := until != 0;
    }

    method IsRateLimited(k: Key, now: int) returns (locked: bool)
      modifies this
      ensures (Stored(k), locked) == Check(old(Stored(k)), now)
      ensures forall o :: o != k ==> Stored(o) == old(Stored(o))
    {
      if k !in rows {
        return false;
      }
      if now < rows[k].until && rows[k].until != 0 {
        return true;
      }
      if rows[k].until != 0 {
        rows := rows - {k};
      }
      locked := false;
    }

    method PruneRuntimeState(now: int, staleAfter: int)
      modifies this
      ensures forall k :: Stored(k) == Prune(old(Stored(k)), now, staleAfter)
    {
      rows := map k | k in rows && !Prunable(rows[k], now, staleAfter) :: rows[k];
    }
  }

  // ---------------------------------------------------------------------------
  // Runs
  // ---------------------------------------------------------------------------

  datatype Call = DoConsume(now: int) | DoFail(now: int) | DoCheck(now: int) | DoClear(now: int)
                | DoPrune(now: int, staleAfter: int)

  predicate Chronological(script: seq<Call>, from: int) {
    script == [] || (from <= script[0].now && Chronological(script[1..], script[0].now))
  }

  function Apply(s: Option<Row>, c: Call, l: Limits): (Option<Row>, bool) {
    match c
    case DoConsume(now) => Consume(s, now, l)
    case DoFail(now) => RecordFailure(s, now, l)
    case DoCheck(now) => Check(s, now)
    case DoClear(_) => (None, true)
    case DoPrune(now, staleAfter) => (Prune(s, now, staleAfter), true)
  }

  /** What a run answers to its callers; the pruner has none. */
  function Answers(s: Option<Row>, script: seq<Call>, l: Limits): seq<bool>
    decreases |script|
  {
    if script == [] then []
    else
      var (t, answer) := Apply(s, script[0], l);
      (if script[0].DoPrune? then [] else [answer]) + Answers(t, script[1..], l)
  }

  function WithoutPrunes(script: seq<Call>): seq<Call> {
    if script == [] then []
    else (if script[0].DoPrune? then [] else [script[0]]) + WithoutPrunes(script[1..])
  }

  /** What the limiter keeps of its row. */
  predicate RowOk(s: Option<Row>, clock: int) {
    s.Some? ==>
      && (s.value.until != 0 ==> s.value.attempts == [])
      && Ascending(s.value.attempts, clock)
  }

  /** Two rows that no caller can tell apart from `clock` on.  Where nothing is ever allowed
      only the lockout matters. */
  predicate Alike(s: Option<Row>, t: Option<Row>, clock: int, l: Limits) {
    && (Locked(s, clock) || Locked(t, clock) ==> s == t)
    && (l.max > 0 ==> Live(Attempts(s), clock - l.window) == Live(Attempts(t), clock - l.window))
  }

  /** A retention that keeps whatever the limits can still count. */
  predicate Retains(l: Limits, staleAfter: int) {
    l.max == 0 || l.window <= 0 || l.window <= staleAfter
  }

  lemma {:induction false} LiveOfLive(attempts: seq<int>, a: int, b: int)
    requires a <= b
    ensures Live(Live(attempts, a), b) == Live(attempts, b)
  {
    if attempts != [] {
      LiveOfLive(attempts[1..], a, b);
      if attempts[0] > a {
        assert Live(attempts, a)[1..] == Live(attempts[1..], a);
      } else {
        assert Live(attempts, a) == Live(attempts[1..], a);
        assert Live(attempts, b) == Live(attempts[1..], b);
      }
    }
  }

  predicate Ascending(times: seq<int>, clock: int) {
    && (forall i, j :: 0 <= i < j < |times| ==> times[i] <= times[j])
    && (forall i :: 0 <= i < |times| ==> times[i] <= clock)
  }

  lemma {:induction false} LiveIsSuffix(attempts: seq<int>, cutoff: int, clock: int) returns (n: nat)
    requires Ascending(attempts, clock)
    ensures n <= |attempts| && Live(attempts, cutoff) == attempts[n..]
    ensures forall i :: 0 <= i < n ==> attempts[i] <= cutoff
    ensures n < |attempts| ==> cutoff < attempts[n]
  {
    if attempts == [] {
      n := 0;
    } else if attempts[0] > cutoff {
      n := 0;
      AllAboveAreLive(attempts, cutoff);
    } else {
      var m := LiveIsSuffix(attempts[1..], cutoff, clock);
      n := m + 1;
      forall i | 0 <= i < n ensures attempts[i] <= cutoff {
        assert i > 0 ==> attempts[i] == attempts[1..][i - 1];
      }
    }
  }

  lemma {:induction false} AllAboveAreLive(times: seq<int>, cutoff: int)
    requires forall i :: 0 <= i < |times| ==> cutoff < times[i]
    ensures Live(times, cutoff) == times
  {
    if times != [] {
      AllAboveAreLive(times[1..], cutoff);
      assert times == [times[0]] + times[1..];
    }
  }

  lemma {:induction false} NothingLive(attempts: seq<int>, cutoff: int)
    requires forall i :: 0 <= i < |attempts| ==> attempts[i] <= cutoff
    ensures Live(attempts, cutoff) == []
  {
    if attempts != [] {
      NothingLive(attempts[1..], cutoff);
    }
  }

  lemma LiveWithNow(attempts: seq<int>, now: int, window: int, clock: int)
    requires Ascending(attempts, clock) && clock <= now
    ensures Ascending(Live(attempts, now - window) + [now], now)
  {
    var n := LiveIsSuffix(attempts, now - window, clock);
    assert Live(attempts, now - window) + [now] == attempts[n..] + [now];
  }

  lemma StepKeepsRowOk(s: Option<Row>, c: Call, l: Limits, clock: int)
    requires RowOk(s, clock) && clock <= c.now
    ensures RowOk(Apply(s, c, l).0, c.now)
  {
    if c.DoConsume? || c.DoFail? {
      LiveWithNow(Attempts(s), c.now, l.window, clock);
    }
  }

  lemma PrunableHasNothingLive(r: Row, now: int, staleAfter: int, clock: int, window: int)
    requires RowOk(Some(r), clock) && clock <= now && Prunable(r, now, staleAfter)
    requires window <= staleAfter || window <= 0
    ensures Live(r.attempts, now - window) == []
  {
    var attempts := r.attempts;
    if attempts != [] {
      assert attempts[|attempts| - 1] <= now - window;
    }
    NothingLive(attempts, now - window);
  }

  lemma PruneIsAlike(s: Option<Row>, t: Option<Row>, now: int, staleAfter: int, clock: int, l: Limits)
    requires RowOk(s, clock) && Alike(s, t, clock, l) && clock <= now && Retains(l, staleAfter)
    ensures Alike(Prune(s, now, staleAfter), t, now, l)
  {
    AlikeStays(s, t, clock, now, l);
    if s.Some? && Prunable(s.value, now, staleAfter) && l.max > 0 {
      PrunableHasNothingLive(s.value, now, staleAfter, clock, l.window);
    }
  }

  lemma AlikeStays(s: Option<Row>, t: Option<Row>, clock: int, now: int, l: Limits)
    requires Alike(s, t, clock, l) && clock <= now
    ensures Alike(s, t, now, l)
  {
    LiveOfLive(Attempts(s), clock - l.window, now - l.window);
    LiveOfLive(Attempts(t), clock - l.window, now - l.window);
  }

  lemma ConsumeIsAlike(s: Option<Row>, t: Option<Row>, now: int, l: Limits)
    requires Alike(s, t, now, l)
    ensures Consume(s, now, l).1 == Consume(t, now, l).1
    ensures Alike(Consume(s, now, l).0, Consume(t, now, l).0, now, l)
  {
  }

  lemma FailIsAlike(s: Option<Row>, t: Option<Row>, now: int, l: Limits)
    requires Alike(s, t, now, l)
    ensures RecordFailure(s, now, l).1 == RecordFailure(t, now, l).1
    ensures Alike(RecordFailure(s, now, l).0, RecordFailure(t, now, l).0, now, l)
  {
  }

  lemma CheckIsAlike(s: Option<Row>, t: Option<Row>, now: int, clock: int, l: Limits)
    requires RowOk(s, clock) && RowOk(t, clock) && Alike(s, t, now, l)
    ensures Check(s, now).1 == Check(t, now).1
    ensures Alike(Check(s, now).0, Check(t, now).0, now, l)
  {
    assert s.Some? && s.value.until != 0 ==> Attempts(s) == [];
    assert t.Some? && t.value.until != 0 ==> Attempts(t) == [];
  }

  lemma AlikeRowsAnswerAlike(s: Option<Row>, t: Option<Row>, c: Call, clock: int, l: Limits)
    requires RowOk(s, clock) && RowOk(t, clock) && Alike(s, t, clock, l) && clock <= c.now && !c.DoPrune?
    ensures Apply(s, c, l).1 == Apply(t, c, l).1
    ensures Alike(Apply(s, c, l).0, Apply(t, c, l).0, c.now, l)
  {
    AlikeStays(s, t, clock, c.now, l);
    match c
    case DoConsume(now) => ConsumeIsAlike(s, t, now, l);
    case DoFail(now) => FailIsAlike(s, t, now, l);
    case DoCheck(now) => CheckIsAlike(s, t, now, clock, l);
    case DoClear(now) =>
  }

  lemma AnswersToPrune(s: Option<Row>, script: seq<Call>, l: Limits)
    requires script != [] && script[0].DoPrune?
    ensures WithoutPrunes(script) == WithoutPrunes(script[1..])
    ensures Answers(s, script, l) == Answers(Apply(s, script[0], l).0, script[1..], l)
  {
  }

  lemma AnswersToCall(s: Option<Row>, t: Option<Row>, script: seq<Call>, l: Limits)
    requires script != [] && !script[0].DoPrune?
    ensures Answers(s, script, l) == [Apply(s, script[0], l).1] + Answers(Apply(s, script[0], l).0, script[1..], l)
    ensures Answers(t, WithoutPrunes(script), l) ==
            [Apply(t, script[0], l).1] + Answers(Apply(t, script[0], l).0, WithoutPrunes(script[1..]), l)
  {
    assert WithoutPrunes(script) == [script[0]] + WithoutPrunes(script[1..]);
    assert WithoutPrunes(script)[1..] == WithoutPrunes(script[1..]);
  }

  /** Pruning is invisible: any chronological mix of calls gets the same answers with every
      prune removed, as long as no prune drops what the limits can still count. */
  lemma {:induction false} PruningNeverChangesADecision(s: Option<Row>, t: Option<Row>, script: seq<Call>, clock: int,
                                                        l: Limits)
    requires RowOk(s, clock) && RowOk(t, clock) && Alike(s, t, clock, l) && Chronological(script, clock)
    requires forall i :: 0 <= i < |script| && script[i].DoPrune? ==> Retains(l, script[i].staleAfter)
    ensures Answers(s, script, l) == Answers(t, WithoutPrunes(script), l)
    decreases |script|
  {
    if script != [] {
      var c := script[0];
      StepKeepsRowOk(s, c, l, clock);
      if c.DoPrune? {
        PruneIsAlike(s, t, c.now, c.staleAfter, clock, l);
        PruningNeverChangesADecision(Apply(s, c, l).0, t, script[1..], c.now, l);
        AnswersToPrune(s, script, l);
      } else {
        StepKeepsRowOk(t, c, l, clock);
        AlikeRowsAnswerAlike(s, t, c, clock, l);
        PruningNeverChangesADecision(Apply(s, c, l).0, Apply(t, c, l).0, script[1..], c.now, l);
        AnswersToCall(s, t, script, l);
      }
    }
  }

  /** `n` consumes at the same moment. */
  function Burst(n: nat, now: int): (r: seq<Call>)
    ensures |r| == n && forall i :: 0 <= i < n ==> r[i] == DoConsume(now)
  {
    if n == 0 then [] else [DoConsume(now)] + Burst(n - 1, now)
  }

  lemma BurstStep(n: nat, now: int, tail: seq<Call>)
    requires n > 0
    ensures Burst(n, now) + tail == [DoConsume(now)] + (Burst(n - 1, now) + tail)
    ensures (Burst(n, now) + tail)[0] == DoConsume(now) && (Burst(n, now) + tail)[1..] == Burst(n - 1, now) + tail
  {
  }

  function Trues(n: nat): seq<bool> {
    if n == 0 then [] else [true] + Trues(n - 1)
  }

  lemma TruesStep(n: nat, rest: seq<bool>)
    ensures Trues(n) + rest == if n == 0 then rest else [true] + (Trues(n - 1) + rest)
  {
  }

  predicate AllAt(times: seq<int>, now: int) {
    forall i :: 0 <= i < |times| ==> times[i] == now
  }

  lemma OneMoreIsAllowed(times: seq<int>, now: int, l: Limits)
    requires AllAt(times, now) && |times| < l.max && l.window > 0
    ensures Apply(Some(Row(times, 0)), DoConsume(now), l) == (Some(Row(times + [now], 0)), true)
  {
    AllAboveAreLive(times, now - l.window);
  }

  lemma AnswersFirst(s: Option<Row>, script: seq<Call>, l: Limits)
    requires script != [] && !script[0].DoPrune?
    ensures Answers(s, script, l) == [Apply(s, script[0], l).1] + Answers(Apply(s, script[0], l).0, script[1..], l)
  {
  }

  /** A burst that still fits is allowed, and leaves its times in the row. */
  lemma {:induction false} BurstIsAllowed(times: seq<int>, n: nat, now: int, l: Limits, tail: seq<Call>)
    returns (all: seq<int>)
    requires AllAt(times, now) && |times| + n <= l.max && l.window > 0
    ensures AllAt(all, now) && |all| == |times| + n
    ensures Answers(Some(Row(times, 0)), Burst(n, now) + tail, l) == Trues(n) + Answers(Some(Row(all, 0)), tail, l)
    decreases n
  {
    if n == 0 {
      all := times;
      assert Burst(0, now) + tail == tail;
      TruesStep(0, Answers(Some(Row(all, 0)), tail, l));
    } else {
      all := BurstIsAllowed(times + [now], n - 1, now, l, tail);
      OneMoreIsAllowed(times, now, l);
      BurstStep(n, now, tail);
      AnswersFirst(Some(Row(times, 0)), Burst(n, now) + tail, l);
      TruesStep(n, Answers(Some(Row(all, 0)), tail, l));
    }
  }

  /** The pruner visits between a full burst and one attempt more. */
  function PrunedBurst(l: Limits, staleAfter: int): seq<Call> {
    Burst(l.max, 1) + [DoPrune(VisitAt(staleAfter), staleAfter), DoConsume(VisitAt(staleAfter))]
  }

  function VisitAt(staleAfter: int): int {
    1 + if staleAfter < 0 then 0 else staleAfter
  }

  lemma EmptyRowIsNoRow(script: seq<Call>, l: Limits)
    requires script != [] && script[0].DoConsume?
    ensures Answers(None, script, l) == Answers(Some(Row([], 0)), script, l)
  {
    assert Apply(None, script[0], l) == Apply(Some(Row([], 0)), script[0], l);
  }

  lemma PrunedBurstAllowsMore(l: Limits, staleAfter: int)
    requires !Retains(l, staleAfter)
    ensures Answers(None, PrunedBurst(l, staleAfter), l) == Trues(l.max) + [true]
  {
    var at := VisitAt(staleAfter);
    var tail := [DoPrune(at, staleAfter), DoConsume(at)];
    EmptyRowIsNoRow(PrunedBurst(l, staleAfter), l);
    var all := BurstIsAllowed([], l.max, 1, l, tail);
    assert Prunable(Row(all, 0), at, staleAfter);
    assert tail[1..] == [DoConsume(at)] && [DoConsume(at)][1..] == [];
    assert Apply(Some(Row(all, 0)), tail[0], l).0 == None;
    assert Live([], at - l.window) == [];
    assert Answers(None, [DoConsume(at)], l) == [true];
  }

  lemma UnprunedBurstRefuses(l: Limits, staleAfter: int)
    requires !Retains(l, staleAfter)
    ensures Answers(None, Burst(l.max, 1) + [DoConsume(VisitAt(staleAfter))], l) == Trues(l.max) + [false]
  {
    var at := VisitAt(staleAfter);
    var tail := [DoConsume(at)];
    EmptyRowIsNoRow(Burst(l.max, 1) + tail, l);
    var all := BurstIsAllowed([], l.max, 1, l, tail);
    AllAboveAreLive(all, at - l.window);
    assert tail[1..] == [];
    assert Apply(Some(Row(all, 0)), tail[0], l).1 == false;
    assert Answers(Some(Row(all, 0)), tail, l) == [false];
  }

  lemma {:induction false} BurstWithoutPrunes(n: nat, now: int, tail: seq<Call>)
    ensures WithoutPrunes(Burst(n, now) + tail) == Burst(n, now) + WithoutPrunes(tail)
  {
    if n == 0 {
      assert Burst(0, now) + tail == tail;
    } else {
      BurstWithoutPrunes(n - 1, now, tail);
      BurstStep(n, now, tail);
      BurstStep(n, now, WithoutPrunes(tail));
    }
  }

  lemma {:induction false} BurstIsChronological(n: nat, now: int, from: int, tail: seq<Call>)
    requires from <= now && Chronological(tail, now)
    ensures Chronological(Burst(n, now) + tail, if n == 0 then now else from)
    decreases n
  {
    if n == 0 {
      assert Burst(0, now) + tail == tail;
    } else {
      BurstIsChronological(n - 1, now, now, tail);
      BurstStep(n, now, tail);
    }
  }

  predicate PrunesWith(script: seq<Call>, staleAfter: int) {
    forall i :: 0 <= i < |script| && script[i].DoPrune? ==> script[i].staleAfter == staleAfter
  }

  /** For which limits a retention is invisible: exactly if nothing is ever allowed, nothing
      ever counts, or the retention covers the window. */
  lemma PruningIsInvisibleIff(l: Limits, staleAfter: int)
    ensures (forall script: seq<Call> :: Chronological(script, 1) && PrunesWith(script, staleAfter) ==>
               Answers(None, script, l) == Answers(None, WithoutPrunes(script), l))
            <==> Retains(l, staleAfter)
  {
    if Retains(l, staleAfter) {
      forall script: seq<Call> | Chronological(script, 1) && PrunesWith(script, staleAfter)
        ensures Answers(None, script, l) == Answers(None, WithoutPrunes(script), l)
      {
        PruningNeverChangesADecision(None, None, script, 1, l);
      }
    } else {
      var at := VisitAt(staleAfter);
      var tail := [DoPrune(at, staleAfter), DoConsume(at)];
      var script := PrunedBurst(l, staleAfter);
      assert Chronological([DoConsume(at)], at) && tail[1..] == [DoConsume(at)] && Chronological(tail, 1);
      BurstIsChronological(l.max, 1, 1, tail);
      BurstWithoutPrunes(l.max, 1, tail);
      assert WithoutPrunes([DoConsume(at)]) == [DoConsume(at)] && WithoutPrunes(tail) == [DoConsume(at)];
      PrunedBurstAllowsMore(l, staleAfter);
      UnprunedBurstRefuses(l, staleAfter);
      assert (Trues(l.max) + [true])[|Trues(l.max)|] != (Trues(l.max) + [false])[|Trues(l.max)|];
      assert Chronological(script, 1) && PrunesWith(script, staleAfter);
    }
  }

  // ---------------------------------------------------------------------------
  // How much gets through
  // ---------------------------------------------------------------------------

  /** One allowed attempt, and how many lockouts came before it. */
  datatype Entry = Entry(time: int, epoch: nat)

  /** A run of consume, check and prune calls with its history. */
  datatype History = History(row: Option<Row>, log: seq<Entry>, epoch: nat, reopens: int, clock: int)

  function Follow(h: History, c: Call, l: Limits): History {
    var (row, answer) := Apply(h.row, c, l);
    if !c.DoConsume? || Locked(h.row, c.now) then h.(row := row, clock := c.now)
    else if answer then h.(row := row, log := h.log + [Entry(c.now, h.epoch)], clock := c.now)
    else h.(row := row, epoch := h.epoch + 1, reopens := c.now + l.lockout, clock := c.now)
  }

  function FollowAll(h: History, script: seq<Call>, l: Limits): History
    decreases |script|
  {
    if script == [] then h else FollowAll(Follow(h, script[0], l), script[1..], l)
  }

  const START := History(None, [], 0, 0, 0)

  /** The calls of the claim; a prune keeps at least a window. */
  predicate Metered(c: Call, l: Limits) {
    c.DoConsume? || c.DoCheck? || (c.DoPrune? && c.staleAfter >= l.window)
  }

  function Times(log: seq<Entry>): (r: seq<int>)
    ensures |r| == |log| && forall i :: 0 <= i < |r| ==> r[i] == log[i].time
  {
    seq(|log|, i requires 0 <= i < |log| => log[i].time)
  }

  /** The row's attempts are the last entries of the log, all of this epoch; entries of this
      epoch that are no longer in the row have left the window. */
  ghost predicate RowIsTail(h: History, k: nat, l: Limits) {
    && k <= |h.log| && Attempts(h.row) == Times(h.log)[k..]
    && CurrentFrom(h.log, k, h.epoch) && OldBefore(h.log, k, h.epoch, h.clock - l.window)
  }

  predicate CurrentFrom(log: seq<Entry>, k: nat, epoch: nat) {
    forall i :: k <= i < |log| ==> log[i].epoch == epoch
  }

  predicate OldBefore(log: seq<Entry>, k: nat, epoch: nat, cutoff: int) {
    forall i :: 0 <= i < k && i < |log| && log[i].epoch == epoch ==> log[i].time <= cutoff
  }

  predicate Ordered(h: History) {
    && (forall i, j :: 0 <= i < j < |h.log| ==> h.log[i].time <= h.log[j].time && h.log[i].epoch <= h.log[j].epoch)
    && (forall i :: 0 <= i < |h.log| ==> h.log[i].time <= h.clock && h.log[i].epoch <= h.epoch)
  }

  /** Within one epoch, `max + 1` attempts span at least a window. */
  predicate Dense(log: seq<Entry>, l: Limits) {
    forall j :: 0 <= j && j + l.max < |log| && log[j + l.max].epoch == log[j].epoch ==>
                log[j + l.max].time - log[j].time >= l.window
  }

  /** The length of `n` lockouts. */
  function Gap(n: int, lockout: int): int
    decreases n
  {
    if n <= 0 then 0 else Gap(n - 1, lockout) + lockout
  }

  lemma {:induction false} GapIsProduct(n: nat, lockout: int)
    ensures Gap(n, lockout) == n * lockout
  {
    if n > 0 {
      GapIsProduct(n - 1, lockout);
    }
  }

  lemma {:induction false} GapGrows(m: nat, n: nat, lockout: nat)
    requires m <= n
    ensures Gap(m, lockout) <= Gap(n, lockout)
    decreases n
  {
    if m < n {
      GapGrows(m, n - 1, lockout);
    }
  }

  /** Every lockout in between puts its length between two attempts. */
  predicate Spread(log: seq<Entry>, l: Limits) {
    forall i, j :: 0 <= i < j < |log| ==> log[j].time - log[i].time >= Gap(log[j].epoch - log[i].epoch, l.lockout)
  }

  /** When the current epoch opened, and that the row still says so until then. */
  predicate Reopening(h: History, l: Limits) {
    && (forall i :: 0 <= i < |h.log| && h.log[i].epoch < h.epoch ==>
          h.reopens - h.log[i].time >= Gap(h.epoch - h.log[i].epoch, l.lockout))
    && (h.epoch == 0 || h.reopens <= h.clock || (h.row.Some? && h.row.value.until == h.reopens != 0))
  }

  ghost predicate Inv(h: History, l: Limits) {
    && RowOk(h.row, h.clock) && Ordered(h) && Dense(h.log, l) && Spread(h.log, l) && Reopening(h, l)
    && h.clock >= 0 && exists k :: RowIsTail(h, k, l)
  }

  lemma TailOfConcat(times: seq<int>, now: int, k: nat, m: nat)
    requires k <= |times| && m <= |times[k..]|
    ensures (times + [now])[k + m..] == times[k..][m..] + [now]
  {
  }

  lemma TimesOfConcat(log: seq<Entry>, e: Entry)
    ensures Times(log + [e]) == Times(log) + [e.time]
  {
  }

  /** The history after an allowed attempt. */
  function Allowed(h: History, now: int, l: Limits): History {
    History(Some(Row(Live(Attempts(h.row), now - l.window) + [now], 0)),
            h.log + [Entry(now, h.epoch)], h.epoch, h.reopens, now)
  }

  lemma AllowKeepsTail(h: History, now: int, l: Limits, k: nat) returns (rest: nat)
    requires RowOk(h.row, h.clock) && RowIsTail(h, k, l) && h.clock <= now
    ensures RowIsTail(Allowed(h, now, l), rest, l)
  {
    var m := LiveIsSuffix(Attempts(h.row), now - l.window, h.clock);
    rest := k + m;
    KeptAreInTheRow(h, now, l, k, m);
    KeptAreCurrent(h, now, l, k, m);
    DroppedAreOld(h, now, l, k, m);
  }

  lemma KeptAreInTheRow(h: History, now: int, l: Limits, k: nat, m: nat)
    requires k <= |h.log| && Attempts(h.row) == Times(h.log)[k..] && m <= |Attempts(h.row)|
    requires Live(Attempts(h.row), now - l.window) == Attempts(h.row)[m..]
    ensures k + m <= |Allowed(h, now, l).log|
    ensures Attempts(Allowed(h, now, l).row) == Times(Allowed(h, now, l).log)[k + m..]
  {
    TimesOfConcat(h.log, Entry(now, h.epoch));
    TailOfConcat(Times(h.log), now, k, m);
  }

  lemma KeptAreCurrent(h: History, now: int, l: Limits, k: nat, m: nat)
    requires CurrentFrom(h.log, k, h.epoch)
    ensures CurrentFrom(Allowed(h, now, l).log, k + m, Allowed(h, now, l).epoch)
  {
  }

  lemma DroppedAreOld(h: History, now: int, l: Limits, k: nat, m: nat)
    requires RowIsTail(h, k, l) && h.clock <= now && m <= |Attempts(h.row)|
    requires forall i :: 0 <= i < m ==> Attempts(h.row)[i] <= now - l.window
    ensures var t := Allowed(h, now, l); OldBefore(t.log, k + m, t.epoch, t.clock - l.window)
  {
    var log := h.log + [Entry(now, h.epoch)];
    forall i | 0 <= i < k + m && i < |log| && log[i].epoch == h.epoch ensures log[i].time <= now - l.window {
      if i >= k {
        assert Attempts(h.row)[i - k] == Times(h.log)[i];
      }
    }
  }

  lemma DropKeepsTail(h: History, now: int, l: Limits, k: nat)
    requires RowIsTail(h, k, l) && h.clock <= now
    requires forall i :: 0 <= i < |Attempts(h.row)| ==> Attempts(h.row)[i] <= now - l.window
    ensures RowIsTail(h.(row := None, clock := now), |h.log|, l)
  {
    forall i | k <= i < |h.log| ensures h.log[i].time <= now - l.window {
      assert Attempts(h.row)[i - k] == Times(h.log)[i];
    }
  }

  lemma FollowKeepsTail(h: History, c: Call, l: Limits, k: nat) returns (rest: nat)
    requires RowOk(h.row, h.clock) && RowIsTail(h, k, l) && Metered(c, l) && h.clock <= c.now
    requires forall i :: 0 <= i < |h.log| ==> h.log[i].epoch <= h.epoch
    ensures RowIsTail(Follow(h, c, l), rest, l)
  {
    var t := Follow(h, c, l);
    if c.DoConsume? && !Locked(h.row, c.now) {
      if t.epoch == h.epoch {
        rest := AllowKeepsTail(h, c.now, l, k);
      } else {
        rest := |t.log|;
      }
    } else if t.row == None {
      rest := |t.log|;
      if h.row.Some? && h.row.value.attempts != [] {
        assert h.row.value.attempts[|h.row.value.attempts| - 1] <= c.now - l.window;
      }
      DropKeepsTail(h, c.now, l, k);
    } else {
      rest := k;
    }
  }

  lemma FollowKeepsDense(h: History, c: Call, l: Limits, k: nat)
    requires RowOk(h.row, h.clock) && RowIsTail(h, k, l) && Dense(h.log, l) && c.DoConsume? && h.clock <= c.now
    ensures Dense(Follow(h, c, l).log, l)
  {
    var t := Follow(h, c, l);
    var j := |h.log| - l.max;
    if |t.log| > |h.log| && j >= 0 && l.max > 0 && h.log[j].epoch == h.epoch {
      LeftTheWindow(h, c.now, l, k, j);
    }
  }

  /** When an attempt is allowed, the one `max` before it has left the window. */
  lemma LeftTheWindow(h: History, now: int, l: Limits, k: nat, j: nat)
    requires RowOk(h.row, h.clock) && RowIsTail(h, k, l) && h.clock <= now
    requires |Live(Attempts(h.row), now - l.window)| < l.max && j == |h.log| - l.max < |h.log|
    requires h.log[j].epoch == h.epoch
    ensures now - h.log[j].time >= l.window
  {
    var attempts := Attempts(h.row);
    var m := LiveIsSuffix(attempts, now - l.window, h.clock);
    assert j < k + m;
    if k <= j {
      assert attempts[j - k] == Times(h.log)[j];
    }
  }

  lemma Distribute(d: int, k: int)
    ensures (d + 1) * k == d * k + k
  {
  }

  lemma FollowKeepsSpread(h: History, c: Call, l: Limits)
    requires Ordered(h) && Spread(h.log, l) && Reopening(h, l)
    requires 0 <= h.clock <= c.now && l.lockout > 0
    ensures Spread(Follow(h, c, l).log, l)
  {
    var log := Follow(h, c, l).log;
    if |log| > |h.log| {
      assert h.epoch == 0 || h.reopens <= c.now;
      forall i | 0 <= i < |h.log| ensures c.now - h.log[i].time >= Gap(h.epoch - h.log[i].epoch, l.lockout) {
      }
    }
  }

  lemma FollowKeepsReopening(h: History, c: Call, l: Limits)
    requires Ordered(h) && Reopening(h, l) && Metered(c, l)
    requires 0 <= h.clock <= c.now && l.lockout > 0
    ensures Reopening(Follow(h, c, l), l)
  {
    var t := Follow(h, c, l);
    if t.epoch > h.epoch {
      assert h.epoch == 0 || h.reopens <= c.now;
      forall i | 0 <= i < |h.log|
        ensures t.reopens - h.log[i].time >= Gap(t.epoch - h.log[i].epoch, l.lockout)
      {
        assert Gap(t.epoch - h.log[i].epoch, l.lockout) == Gap(h.epoch - h.log[i].epoch, l.lockout) + l.lockout;
      }
    }
  }

  lemma FollowKeepsOrdered(h: History, c: Call, l: Limits)
    requires Ordered(h) && h.clock <= c.now
    ensures Ordered(Follow(h, c, l))
  {
  }

  lemma FollowKeepsInv(h: History, c: Call, l: Limits)
    requires Inv(h, l) && Metered(c, l) && h.clock <= c.now && l.lockout > 0
    ensures Inv(Follow(h, c, l), l)
  {
    var t := Follow(h, c, l);
    StepKeepsRowOk(h.row, c, l, h.clock);
    assert t.row == Apply(h.row, c, l).0 && t.clock == c.now;
    FollowKeepsOrdered(h, c, l);
    FollowKeepsSpread(h, c, l);
    FollowKeepsReopening(h, c, l);
    var k :| RowIsTail(h, k, l);
    if c.DoConsume? {
      FollowKeepsDense(h, c, l, k);
    } else {
      assert t.log == h.log;
    }
    var rest := FollowKeepsTail(h, c, l, k);
  }

  lemma {:induction false} InvAlongRun(h: History, script: seq<Call>, l: Limits)
    requires Inv(h, l) && Chronological(script, h.clock) && l.lockout > 0
    requires forall i :: 0 <= i < |script| ==> Metered(script[i], l)
    ensures Inv(FollowAll(h, script, l), l)
    decreases |script|
  {
    if script != [] {
      assert Metered(script[0], l);
      FollowKeepsInv(h, script[0], l);
      InvAlongRun(Follow(h, script[0], l), script[1..], l);
    }
  }

  predicate InOrder(log: seq<Entry>) {
    forall i, j :: 0 <= i < j < |log| ==> log[i].time <= log[j].time && log[i].epoch <= log[j].epoch
  }

  lemma EpochGrows(log: seq<Entry>, l: Limits, a: nat, b: nat, m: nat)
    requires Dense(log, l) && InOrder(log)
    requires a < b <= |log| && log[b - 1].time - log[a].time < l.window && a + l.max * m < b
    ensures log[a + l.max * m].epoch >= log[a].epoch + m
  {
    GapIsProduct(m, l.max);
    EpochGrowsAlong(log, l, a, b, a + l.max * m, m);
  }

  /** The same with the place of the last attempt reached in strides of `max`. */
  lemma {:induction false} EpochGrowsAlong(log: seq<Entry>, l: Limits, a: nat, b: nat, p: nat, m: nat)
    requires Dense(log, l) && InOrder(log)
    requires a < b <= |log| && log[b - 1].time - log[a].time < l.window && p == a + Gap(m, l.max) < b
    ensures log[p].epoch >= log[a].epoch + m
    decreases m
  {
    if m > 0 {
      GapGrows(0, m - 1, l.max);
      EpochGrowsAlong(log, l, a, b, p - l.max, m - 1);
      EpochStep(log, l, a, b, p - l.max);
    }
  }

  /** Inside a window, the attempt `max` places on belongs to a later epoch. */
  lemma EpochStep(log: seq<Entry>, l: Limits, a: nat, b: nat, p: nat)
    requires Dense(log, l) && InOrder(log)
    requires a <= p && p + l.max < b <= |log| && log[b - 1].time - log[a].time < l.window
    ensures log[p + l.max].epoch > log[p].epoch
  {
    assert log[p + l.max].time <= log[b - 1].time && log[a].time <= log[p].time;
    assert log[p + l.max].epoch != log[p].epoch;
  }

  lemma RunIsDenseAndSpread(script: seq<Call>, l: Limits)
    requires Chronological(script, 0) && l.lockout > 0
    requires forall i :: 0 <= i < |script| ==> Metered(script[i], l)
    ensures var log := FollowAll(START, script, l).log;
            Dense(log, l) && Spread(log, l) && InOrder(log)
  {
    assert RowIsTail(START, 0, l);
    InvAlongRun(START, script, l);
  }

  /** The rate bound, for any run of calls with fixed limits: attempts allowed within less than
      a window number at most `max` per lockout that fits into it, and at most `max` when the
      lockout is at least as long as the window. */
  lemma {:induction false} AllowedWithinAWindow(script: seq<Call>, l: Limits, log: seq<Entry>, a: nat, b: nat)
    requires Chronological(script, 0) && l.lockout > 0
    requires forall i :: 0 <= i < |script| ==> Metered(script[i], l)
    requires log == FollowAll(START, script, l).log
    requires a < b <= |log| && log[b - 1].time - log[a].time < l.window
    ensures b - a <= l.max * ((l.window - 1) / l.lockout + 1)
    ensures l.lockout >= l.window ==> b - a <= l.max
  {
    RunIsDenseAndSpread(script, l);
    LockoutsInWindow(l.window, l.lockout);
    BurstIsBounded(log, l, a, b, (l.window - 1) / l.lockout + 1);
  }

  /** As many lockouts as it takes to fill a window. */
  lemma LockoutsInWindow(window: int, lockout: int)
    requires window > 0 && lockout > 0
    ensures var m := (window - 1) / lockout + 1;
            m >= 1 && m * lockout >= window && (lockout >= window ==> m == 1)
  {
    var q := (window - 1) / lockout;
    Distribute(q, lockout);
    assert window - 1 == q * lockout + (window - 1) % lockout;
  }

  lemma BurstIsBounded(log: seq<Entry>, l: Limits, a: nat, b: nat, m: nat)
    requires Dense(log, l) && Spread(log, l) && l.lockout > 0 && m >= 1 && m * l.lockout >= l.window
    requires InOrder(log)
    requires a < b <= |log| && log[b - 1].time - log[a].time < l.window
    ensures b - a <= l.max * m
  {
    Positive(l.max, m);
    var c := a + l.max * m;
    if c < b {
      assert log[c].time <= log[b - 1].time;
      EpochGrows(log, l, a, b, m);
      GapIsProduct(m, l.lockout);
      GapGrows(m, log[c].epoch - log[a].epoch, l.lockout);
    }
  }

  lemma Positive(m: int, k: int)
    requires m >= 0 && k >= 0
    ensures m * k >= 0
  {
  }
}
