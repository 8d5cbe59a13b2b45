/** Two-sided arbitration between an HA lock and its Access door (`_reconcile_bidirectional`
    in hub_sync.py).

    `Pass` is one reconciliation of one pair as a function of the remembered baselines, the
    readings and the answers the world gives; the class at the end performs it step by step
    on its fields.  The lemmas in between are the promises of the arbitration. */
module Reconcile {
  import opened Common

  const TRANSITION_GRACE := 30

  // ---------------------------------------------------------------------------
  // Readings
  // ---------------------------------------------------------------------------

  datatype RuleClass = Schedule | OtherOpen | Closed | Native

  /** `_observe_access_hub`: a rule and a relay reading become one effective state. */
  function Effective(rule: RuleClass, door: LockState): Option<LockState> {
    match rule
    case Schedule => Some(door)
    case OtherOpen => if door == Unlocked then Some(Unlocked) else None
    case Closed => Some(Locked)
    case Native => Some(Locked)
  }

  datatype HubReading = HubReading(rule: RuleClass, door: LockState, authoritative: bool)

  datatype Side = Side(state: Option<LockState>, scheduleActive: bool, relay: Option<LockState>)

  /** `_observe_access_side`: several hubs count as one side only while they agree; an
      unreadable hub is `None`. */
  function ObserveSide(hubs: seq<Option<HubReading>>): Side {
    if |hubs| == 0
       || exists i :: 0 <= i < |hubs| && (hubs[i].None? || Effective(hubs[i].value.rule, hubs[i].value.door).None?) then
      Side(None, false, None)
    else
      var first := Effective(hubs[0].value.rule, hubs[0].value.door);
      if exists i :: 0 <= i < |hubs| && Effective(hubs[i].value.rule, hubs[i].value.door) != first then
        Side(None, false, None)
      else
        var relay := if forall i :: 0 <= i < |hubs| ==>
                            hubs[i].value.authoritative && hubs[i].value.door == hubs[0].value.door
                     then Some(hubs[0].value.door) else None;
        Side(first, forall i :: 0 <= i < |hubs| ==> hubs[i].value.rule == Schedule, relay)
  }

  /** An open side is never inferred: every hub reported an opening rule and an open relay. */
  lemma OpenSideMeansOpenRelays(hubs: seq<Option<HubReading>>)
    ensures ObserveSide(hubs).state == Some(Unlocked) <==>
              && |hubs| > 0
              && forall i :: 0 <= i < |hubs| ==> hubs[i].Some? && hubs[i].value.door == Unlocked
                                                 && hubs[i].value.rule in {Schedule, OtherOpen}
    ensures ObserveSide(hubs).relay == Some(Locked) ==> ObserveSide(hubs).state == Some(Locked)
  {
    if |hubs| > 0 {
      assert hubs[0] in hubs;
    }
  }

  datatype HaReading = Steady(state: LockState) | MidThrow | Untrusted

  /** Fingerprint of the Access rule, or the marker left by the manager's own drive. */
  datatype RuleMark = Observed(fingerprint: nat) | Commanded(state: LockState)

  datatype Observation = Observation(
    ha: HaReading,
    access: Option<LockState>,
    rule: nat,
    scheduleActive: bool,
    relay: Option<LockState>)

  /** Everything the pass asks of the world, answered in advance. */
  datatype World = World(
    now: int,
    relockSatisfied: bool,  // _ensure_ha_origin_relock: no relock is asked for, or one is owned
    damped: bool,           // the flap gate defers or suspends a hold-open
    spaced: bool,           // a repeated hard rejection spaces locked retries
    haDrive: bool,          // HA command accepted and confirmed
    apply: Option<bool>,    // Access drive confirmed, and whether by an authoritative relay
    persist: bool)          // the convergence row was written

  // ---------------------------------------------------------------------------
  // One pass
  // ---------------------------------------------------------------------------

  datatype Pair = Pair(
    latched: bool,                                  // in _fail_safe_reset_eids
    ha: Option<LockState>,                          // _last_ha_observed
    access: Option<LockState>,                      // _last_access_observed
    rule: Option<RuleMark>,                         // _last_access_rule
    throwSince: Option<int>,                        // _ha_transition_started
    leaseUntil: Option<int>,                        // _access_momentary_until
    persisted: Option<(LockState, RuleMark)>)       // _last_persisted_convergence

  const Unknown := Pair(false, None, None, None, None, None, None)

  datatype Command = DriveHa(state: LockState) | DriveAccess(state: LockState, keep: bool)

  datatype Source =
    | UntrustedState | AlreadyConverged | ScheduleStartup | ScheduleStartupClosed | StartupConflict
    | FromHa | FromAccess | BothSame | ConcurrentConflict | RelockUnavailable

  datatype Decision = Decision(desired: LockState, source: Source, failSafe: bool)

  datatype Exit = Deferred | Failed | ReleasedOnSight | Unpersisted | Converged

  datatype Outcome = Outcome(pair: Pair, commands: seq<Command>, changed: bool, exit: Exit)

  datatype Screened = Stop(pair: Pair) | Go(pair: Pair, trusted: bool)

  /** A bolt mid-throw and a live momentary lease postpone every decision. */
  function Screen(p: Pair, o: Observation, now: int): Screened {
    var since := if p.throwSince.Some? then p.throwSince.value else now;
    var waits := o.ha.MidThrow? && !p.latched;
    if waits && now - since < TRANSITION_GRACE then Stop(p.(throwSince := Some(since)))
    else
      var p1 := p.(throwSince := if waits then Some(since) else None);
      if p1.leaseUntil.None? then Go(p1, o.ha.Steady?)
      else if o.ha == Steady(Locked) then Go(p1.(leaseUntil := None), true)
      else if now < p1.leaseUntil.value && o.ha == Steady(Unlocked) then
        var p2 := p1.(ha := Some(Unlocked));
        Stop(if o.access.Some? then p2.(access := o.access, rule := Some(Observed(o.rule))) else p2)
      else if now >= p1.leaseUntil.value then Go(p1.(leaseUntil := None), false)
      else Go(p1, o.ha.Steady?)
  }

  /** Who moved, judged against the baselines. */
  function Arbitrate(p: Pair, o: Observation, trusted: bool): Decision
    requires trusted ==> o.ha.Steady?
  {
    if !trusted || o.access.None? then Decision(Locked, UntrustedState, true)
    else
      var ha, access := o.ha.state, o.access.value;
      if ha == access then Decision(ha, AlreadyConverged, false)
      else if p.ha.None? || p.access.None? then
        if o.scheduleActive && access == Unlocked then Decision(Unlocked, ScheduleStartup, false)
        else if o.scheduleActive then Decision(Locked, ScheduleStartupClosed, false)
        else Decision(Locked, StartupConflict, true)
      else
        var haChanged := ha != p.ha.value;
        var accessChanged :=
          if p.rule.Some? && p.rule.value.Commanded? then access != p.access.value
          else access != p.access.value || p.rule != Some(Observed(o.rule));
        if haChanged && !accessChanged then Decision(ha, FromHa, false)
        else if accessChanged && !haChanged then Decision(access, FromAccess, false)
        else if haChanged && accessChanged && ha == access then Decision(ha, BothSame, false)
        else Decision(Locked, ConcurrentConflict, true)
  }

  /** The latch overrides the arbitration, and a hold-open from HA needs a durable relock. */
  function Decide(p: Pair, o: Observation, trusted: bool, relockSatisfied: bool): (Pair, Decision)
    requires trusted ==> o.ha.Steady?
  {
    var d := Arbitrate(p, o, trusted);
    var p1 := p.(latched := p.latched || d.failSafe);
    var d1 := if p1.latched then d.(desired := Locked, failSafe := true) else d;
    if d1.desired == Unlocked && d1.source == FromHa && !relockSatisfied then
      (p1.(latched := true), Decision(Locked, RelockUnavailable, true))
    else
      (p1, d1)
  }

  function Remember(p: Pair, s: LockState, rule: RuleMark): Pair {
    p.(ha := Some(s), access := Some(s), rule := Some(rule))
  }

  /** Persist the convergence, or compensate when that fails while open. */
  function Finish(p: Pair, desired: LockState, rule: RuleMark, relay: Option<LockState>,
                  commands: seq<Command>, w: World): Outcome
  {
    if p.persisted != Some((desired, rule)) && !w.persist then
      if desired == Unlocked then
        Outcome(p.(latched := true), commands + [DriveHa(Locked), DriveAccess(Locked, true)], false, Unpersisted)
      else Outcome(p, commands, false, Unpersisted)
    else
      var p1 := Remember(p, desired, rule).(persisted := Some((desired, rule)));
      Outcome(p1.(latched := p.latched && !(desired == Locked && relay == Some(Locked))),
              commands, commands != [], Converged)
  }

  function Execute(p: Pair, o: Observation, trusted: bool, d: Decision, w: World): Outcome {
    if d.desired == Locked && w.spaced && d.source != RelockUnavailable then Outcome(p, [], false, Deferred)
    else if d.desired == Unlocked && (o.ha != Steady(Unlocked) || o.access != Some(Unlocked)) && w.damped then
      Outcome(p, [], false, Deferred)
    else
      var first := if o.ha != Steady(d.desired) then [DriveHa(d.desired)] else [];
      if first != [] && !w.haDrive then Outcome(p, first, false, Failed)
      else
        var release := p.latched && d.desired == Locked && o.access == Some(Locked) && o.relay == Some(Locked);
        var prove := p.latched && d.desired == Locked && o.relay != Some(Locked);
        if o.access != Some(d.desired) || release || prove then
          var commands := first + [DriveAccess(d.desired, d.failSafe && !release)];
          if w.apply.None? then
            if release && trusted && o.ha == Steady(Locked) then
              Outcome(Remember(p, Locked, Observed(o.rule)).(latched := false), commands, false, ReleasedOnSight)
            else Outcome(p, commands, false, Failed)
          else
            Finish(p, d.desired, Commanded(d.desired), if w.apply.value then Some(d.desired) else None, commands, w)
        else
          Finish(p, d.desired, Observed(o.rule), o.relay, first, w)
  }

  function Pass(p: Pair, o: Observation, w: World): Outcome {
    match Screen(p, o, w.now)
    case Stop(p1) => Outcome(p1, [], false, Deferred)
    case Go(p1, trusted) =>
      var (p2, d) := Decide(p1, o, trusted, w.relockSatisfied);
      Execute(p2, o, trusted, d, w)
  }

  // ---------------------------------------------------------------------------
  // What a pass may send
  // ---------------------------------------------------------------------------

  predicate SendsUnlock(commands: seq<Command>) {
    exists i :: 0 <= i < |commands| && commands[i].state == Unlocked
  }

  /** Remembered baselines never say "HA locked, door open". */
  predicate Consistent(p: Pair) {
    p.ha == Some(Locked) && p.access.Some? ==> p.access == Some(Locked)
  }

  /** Postponing moves baselines only to what an open lease shows. */
  lemma ScreenKeepsBaselines(p: Pair, o: Observation, now: int)
    ensures match Screen(p, o, now)
            case Go(q, trusted) =>
              q.ha == p.ha && q.access == p.access && q.rule == p.rule && q.latched == p.latched
              && (trusted ==> o.ha.Steady?)
            case Stop(q) => q.latched == p.latched && ((q.ha == p.ha && q.access == p.access) || q.ha == Some(Unlocked))
  {
  }

  /** Executing a decision leaves the baselines or makes them agree. */
  lemma ExecuteAgreesOrKeeps(p: Pair, o: Observation, trusted: bool, d: Decision, w: World)
    ensures var q := Execute(p, o, trusted, d, w).pair;
            (q.ha == p.ha && q.access == p.access && q.rule == p.rule) || (q.ha.Some? && q.access == q.ha)
    ensures Execute(p, o, trusted, d, w).exit == Failed ==>
              Execute(p, o, trusted, d, w).pair == p
  {
  }

  lemma PassKeepsConsistent(p: Pair, o: Observation, w: World)
    requires Consistent(p)
    ensures Consistent(Pass(p, o, w).pair)
  {
    ScreenKeepsBaselines(p, o, w.now);
    var screened := Screen(p, o, w.now);
    if screened.Go? {
      var (q, d) := Decide(screened.pair, o, screened.trusted, w.relockSatisfied);
      ExecuteAgreesOrKeeps(q, o, screened.trusted, d, w);
    }
  }

  /** Why an unlock is sent: both sides were readable, nothing was latched, and either an
      active schedule with an open relay sets the first baseline or exactly one side moved
      to unlocked while the other stayed locked. */
  predicate Justified(p: Pair, o: Observation) {
    && o.ha.Steady? && o.access.Some? && !p.latched
    && (|| ((p.ha.None? || p.access.None?) && o.scheduleActive && o.access == Some(Unlocked) && o.ha == Steady(Locked))
        || (&& p.ha == Some(Locked) && p.access == Some(Locked)
            && ((o.ha == Steady(Unlocked)) != (o.access == Some(Unlocked)))))
  }

  lemma UnlocksAreJustified(p: Pair, o: Observation, w: World)
    requires Consistent(p)
    ensures SendsUnlock(Pass(p, o, w).commands) ==> Justified(p, o)
    ensures SendsUnlock(Pass(p, o, w).commands) && Screen(p, o, w.now).Go? ==>
              Decide(Screen(p, o, w.now).pair, o, Screen(p, o, w.now).trusted, w.relockSatisfied).1.source
              in {ScheduleStartup, FromHa, FromAccess}
  {
    ScreenKeepsBaselines(p, o, w.now);
    var screened := Screen(p, o, w.now);
    if screened.Go? {
      var (q, d) := Decide(screened.pair, o, screened.trusted, w.relockSatisfied);
      UnlocksAreDesired(q, o, screened.trusted, d, w);
      if SendsUnlock(Pass(p, o, w).commands) {
        UnlockDecisionsAreJustified(screened.pair, o, screened.trusted, w.relockSatisfied);
      }
    }
  }

  lemma UnlocksAreDesired(p: Pair, o: Observation, trusted: bool, d: Decision, w: World)
    ensures SendsUnlock(Execute(p, o, trusted, d, w).commands) ==>
              d.desired == Unlocked && !(o.ha == Steady(Unlocked) && o.access == Some(Unlocked))
  {
  }

  lemma UnlockDecisionsAreJustified(p: Pair, o: Observation, trusted: bool, relockSatisfied: bool)
    requires Consistent(p) && (trusted ==> o.ha.Steady?)
    requires !(o.ha == Steady(Unlocked) && o.access == Some(Unlocked))
    ensures var d := Decide(p, o, trusted, relockSatisfied).1;
            d.desired == Unlocked ==> Justified(p, o) && d.source in {ScheduleStartup, FromHa, FromAccess}
  {
  }

  /** An unlock goes to the side that is still locked, and to that side only. */
  lemma UnlockTargetsTheLockedSide(p: Pair, o: Observation, w: World, i: nat)
    requires i < |Pass(p, o, w).commands| && Pass(p, o, w).commands[i].state == Unlocked
    ensures i == 0
    ensures Pass(p, o, w).commands[i].DriveHa? ==> o.ha == Steady(Locked) && o.access == Some(Unlocked)
    ensures Pass(p, o, w).commands[i].DriveAccess? ==>
              o.ha == Steady(Unlocked) && o.access == Some(Locked) && w.relockSatisfied
  {
  }

  // ---------------------------------------------------------------------------
  // The latch
  // ---------------------------------------------------------------------------

  lemma LatchedSendsNoUnlock(p: Pair, o: Observation, w: World)
    requires p.latched
    ensures !SendsUnlock(Pass(p, o, w).commands)
  {
  }

  /** HA was read locked or driven there and confirmed, and an authoritative relay says
      locked, by reading or by the confirmation of this pass's own drive. */
  predicate SeenBothLocked(o: Observation, w: World) {
    && (o.ha == Steady(Locked) || w.haDrive)
    && (o.relay == Some(Locked) || w.apply == Some(true))
  }

  lemma LatchReleaseNeedsBothLocked(p: Pair, o: Observation, w: World)
    requires p.latched
    ensures !Pass(p, o, w).pair.latched ==>
              && SeenBothLocked(o, w)
              && Pass(p, o, w).pair.ha == Some(Locked) && Pass(p, o, w).pair.access == Some(Locked)
  {
  }

  // ---------------------------------------------------------------------------
  // Retry stability and quiescence
  // ---------------------------------------------------------------------------

  /** The state a pass converges to, or `None` while the pass postpones the decision. */
  function DesiredOf(p: Pair, o: Observation, now: int, relockSatisfied: bool): Option<LockState> {
    match Screen(p, o, now)
    case Stop(_) => None
    case Go(p1, trusted) => Some(Decide(p1, o, trusted, relockSatisfied).1.desired)
  }

  /** A failed drive leaves the three baselines alone, so the same readings at any later time
      ask for the same state again. */
  lemma FailedDriveIsRetried(p: Pair, o: Observation, w: World, later: int)
    requires Pass(p, o, w).exit == Failed && w.now <= later
    ensures var q := Pass(p, o, w).pair;
            && q.ha == p.ha && q.access == p.access && q.rule == p.rule
            && DesiredOf(q, o, later, w.relockSatisfied) == DesiredOf(p, o, w.now, w.relockSatisfied)
            && DesiredOf(q, o, later, w.relockSatisfied).Some?
  {
    ScreenKeepsBaselines(p, o, w.now);
    var screened := Screen(p, o, w.now);
    var (q, d) := Decide(screened.pair, o, screened.trusted, w.relockSatisfied);
    ExecuteAgreesOrKeeps(q, o, screened.trusted, d, w);
    DecideAgain(p, o, w.now, later, w.relockSatisfied);
  }

  /** Deciding again on what a decision left in memory comes to the same state. */
  lemma DecideAgain(p: Pair, o: Observation, now: int, later: int, owned: bool)
    requires Screen(p, o, now).Go? && now <= later
    ensures var q := Decide(Screen(p, o, now).pair, o, Screen(p, o, now).trusted, owned).0;
            DesiredOf(q, o, later, owned) == DesiredOf(p, o, now, owned) && DesiredOf(p, o, now, owned).Some?
  {
    var p1, trusted := Screen(p, o, now).pair, Screen(p, o, now).trusted;
    var q := Decide(p1, o, trusted, owned).0;
    assert q == p1.(latched := q.latched);
    var again := Screen(q, o, later);
    assert again.Go?;
    assert again.pair.(throwSince := None, leaseUntil := None) == q.(throwSince := None, leaseUntil := None);
    assert again.trusted == trusted || q.latched;
  }

  /** The one exception is the release on sight: it moves the baselines although the drive
      failed, and only to what both sides were read to be. */
  lemma ReleaseOnSightMatchesReadings(p: Pair, o: Observation, w: World)
    requires Pass(p, o, w).exit == ReleasedOnSight
    ensures o.ha == Steady(Locked) && o.access == Some(Locked) && o.relay == Some(Locked)
    ensures w.apply.None? && !Pass(p, o, w).pair.latched
    ensures Remember(Pass(p, o, w).pair, Locked, Observed(o.rule)) == Pass(p, o, w).pair
  {
  }

  /** Both baselines agree on `s`, nothing is latched, and no lease covers an open state. */
  predicate Settled(p: Pair, s: LockState) {
    !p.latched && p.ha == Some(s) && p.access == Some(s) && (p.leaseUntil.Some? ==> s == Locked)
  }

  lemma ConvergedPassSettles(p: Pair, o: Observation, w: World)
    requires Pass(p, o, w).exit == Converged && !Pass(p, o, w).pair.latched
    ensures Pass(p, o, w).pair.ha.Some? && Settled(Pass(p, o, w).pair, Pass(p, o, w).pair.ha.value)
  {
  }

  /** Readings that show what was agreed, whatever the rule fingerprint reads. */
  predicate Undisturbed(o: Observation, s: LockState) {
    o.ha == Steady(s) && o.access == Some(s)
  }

  lemma SettledPassIsQuiet(p: Pair, o: Observation, w: World, s: LockState)
    requires Settled(p, s) && Undisturbed(o, s) && w.persist
    ensures Pass(p, o, w).commands == [] && Settled(Pass(p, o, w).pair, s)
  {
  }

  // ---------------------------------------------------------------------------
  // Runs
  // ---------------------------------------------------------------------------

  /** Everything that touches one pair's memory. */
  datatype Event =
    | Poll(o: Observation, w: World)
    | Lease(until: int)                  // mark_access_momentary
    | Latch                              // shared hub, HA outage, lockdown lifted, recovery
    | PairingChange                      // baselines invalidated
    | Adopt                              // a hold re-adopted by recovery
    | LoadState(agreed: LockState, rule: RuleMark)   // confirmed snapshot restored at startup
    | Forget                             // opt-out, shutdown or restart

  function After(p: Pair, ev: Event): Pair {
    match ev
    case Poll(o, w) => Pass(p, o, w).pair
    case Lease(until) => p.(leaseUntil := Some(until))
    case Latch => p.(latched := true)
    case PairingChange => p.(ha := None, access := None, rule := None)
    case Adopt => p.(ha := Some(Unlocked), access := Some(Unlocked))
    case LoadState(s, r) => Remember(p, s, r)
    case Forget => Unknown
  }

  ghost predicate IsRun(pairs: seq<Pair>, events: seq<Event>) {
    && |pairs| == |events| + 1
    && pairs[0] == Unknown
    && forall i :: 0 <= i < |events| ==> pairs[i + 1] == After(pairs[i], events[i])
  }

  lemma EventKeepsConsistent(p: Pair, ev: Event)
    requires Consistent(p)
    ensures Consistent(After(p, ev))
  {
    if ev.Poll? {
      PassKeepsConsistent(p, ev.o, ev.w);
    }
  }

  lemma {:induction false} ConsistentAlongRun(pairs: seq<Pair>, events: seq<Event>, i: nat)
    requires IsRun(pairs, events) && i < |pairs|
    ensures Consistent(pairs[i])
    decreases i
  {
    if i > 0 {
      ConsistentAlongRun(pairs, events, i - 1);
      EventKeepsConsistent(pairs[i - 1], events[i - 1]);
      assert pairs[i] == After(pairs[i - 1], events[i - 1]);
    }
  }

  /** In every run, every unlock ever sent is justified by the readings and baselines of the
      pass that sent it. */
  lemma EveryUnlockIsJustified(pairs: seq<Pair>, events: seq<Event>, i: nat)
    requires IsRun(pairs, events) && i < |events| && events[i].Poll?
    requires SendsUnlock(Pass(pairs[i], events[i].o, events[i].w).commands)
    ensures Justified(pairs[i], events[i].o)
  {
    ConsistentAlongRun(pairs, events, i);
    UnlocksAreJustified(pairs[i], events[i].o, events[i].w);
  }

  predicate ClearsLatch(p: Pair, ev: Event) {
    ev.Forget? || (ev.Poll? && SeenBothLocked(ev.o, ev.w) && p.latched)
  }

  /** From the moment the latch is set until an event that saw both sides locked, an opt-out
      or a shutdown, the pair stays latched and no pass sends an unlock. */
  lemma LatchHolds(pairs: seq<Pair>, events: seq<Event>, i: nat, j: nat)
    requires IsRun(pairs, events) && i <= j < |pairs| && pairs[i].latched
    requires forall k :: i <= k < j ==> !ClearsLatch(pairs[k], events[k])
    ensures pairs[j].latched
    ensures forall k :: i <= k < j ==> !Unlocks(pairs[k], events[k])
  {
    forall k | i <= k < j && pairs[k].latched ensures pairs[k + 1].latched && !Unlocks(pairs[k], events[k]) {
      LatchedEvent(pairs[k], events[k], pairs[k + 1]);
    }
    Persists(pairs, (p: Pair) => p.latched, i, j);
  }

  /** A pass that sends an unlock. */
  predicate Unlocks(p: Pair, ev: Event) {
    ev.Poll? && SendsUnlock(Pass(p, ev.o, ev.w).commands)
  }

  lemma LatchedEvent(p: Pair, ev: Event, q: Pair)
    requires p.latched && !ClearsLatch(p, ev) && q == After(p, ev)
    ensures q.latched && !Unlocks(p, ev)
  {
    if ev.Poll? {
      LatchedSendsNoUnlock(p, ev.o, ev.w);
      LatchReleaseNeedsBothLocked(p, ev.o, ev.w);
    }
  }

  /** A pass over the readings `o` whose drive fails. */
  predicate DriveFails(p: Pair, ev: Event, o: Observation, owned: bool) {
    ev.Poll? && ev.o == o && ev.w.relockSatisfied == owned && Pass(p, o, ev.w).exit == Failed
  }

  /** At `later` the baselines of `q` are those of `p`, and it asks for what `p` asked for at
      `now`. */
  predicate AsksAgain(p: Pair, now: int, q: Pair, later: int, o: Observation, owned: bool) {
    && q.ha == p.ha && q.access == p.access && q.rule == p.rule
    && DesiredOf(q, o, later, owned) == DesiredOf(p, o, now, owned)
  }

  lemma FailureAsksAgain(p: Pair, ev: Event, q: Pair, o: Observation, owned: bool, later: int)
    requires ev.Poll? && DriveFails(p, ev, o, owned) && q == After(p, ev) && ev.w.now <= later
    ensures AsksAgain(p, ev.w.now, q, later, o, owned)
  {
    FailedDriveIsRetried(p, o, ev.w, later);
  }

  lemma {:induction false} KeepsAsking(pairs: seq<Pair>, times: seq<int>, i: nat, j: nat, o: Observation, owned: bool)
    requires i < j < |pairs| <= |times|
    requires forall k :: i <= k < j ==> AsksAgain(pairs[k], times[k], pairs[k + 1], times[k + 1], o, owned)
    ensures AsksAgain(pairs[i], times[i], pairs[j], times[j], o, owned)
    decreases j
  {
    assert AsksAgain(pairs[j - 1], times[j - 1], pairs[j - 1 + 1], times[j - 1 + 1], o, owned);
    if i < j - 1 {
      KeepsAsking(pairs, times, i, j - 1, o, owned);
    }
  }

  /** Retry stability: however often the drive for the same readings fails, the baselines
      stay what they were and the next attempt asks for the same state. */
  lemma FailedDrivesKeepAsking(
    pairs: seq<Pair>, events: seq<Event>, i: nat, j: nat, o: Observation, owned: bool, later: int)
    requires IsRun(pairs, events) && i < j < |pairs|
    requires forall k :: i <= k < j ==> events[k].Poll? && DriveFails(pairs[k], events[k], o, owned)
    requires forall k :: i <= k < j - 1 ==> events[k].w.now <= events[k + 1].w.now
    requires events[j - 1].w.now <= later
    ensures AsksAgain(pairs[i], events[i].w.now, pairs[j], later, o, owned)
  {
    var times := seq(|pairs|, k requires 0 <= k < |pairs| => if i <= k < j then events[k].w.now else later);
    forall k | i <= k < j ensures AsksAgain(pairs[k], times[k], pairs[k + 1], times[k + 1], o, owned) {
      FailureAsksAgain(pairs[k], events[k], pairs[k + 1], o, owned, times[k + 1]);
    }
    KeepsAsking(pairs, times, i, j, o, owned);
  }

  predicate Quiet(p: Pair, ev: Event) {
    ev.Poll? && Pass(p, ev.o, ev.w).commands == []
  }

  predicate UndisturbedPoll(ev: Event, s: LockState) {
    ev.Poll? && Undisturbed(ev.o, s) && ev.w.persist
  }

  lemma UndisturbedPollIsQuiet(p: Pair, ev: Event, q: Pair, s: LockState)
    requires Settled(p, s) && UndisturbedPoll(ev, s) && q == After(p, ev)
    ensures Quiet(p, ev) && Settled(q, s)
  {
    SettledPassIsQuiet(p, ev.o, ev.w, s);
  }

  lemma ConvergedPollSettles(p: Pair, ev: Event, q: Pair, s: LockState)
    requires ev.Poll? && Pass(p, ev.o, ev.w).exit == Converged && q == After(p, ev)
    requires !q.latched && q.ha == Some(s)
    ensures Settled(q, s)
  {
    ConvergedPassSettles(p, ev.o, ev.w);
  }

  /** Quiescence: once a pass has converged without a latch, passes over undisturbed readings
      send nothing, for as long as the readings stay undisturbed. */
  lemma ConvergedPairStaysQuiet(pairs: seq<Pair>, events: seq<Event>, i: nat, j: nat, s: LockState)
    requires IsRun(pairs, events) && i < j < |pairs| && events[i].Poll?
    requires Pass(pairs[i], events[i].o, events[i].w).exit == Converged
    requires !pairs[i + 1].latched && pairs[i + 1].ha == Some(s)
    requires forall k :: i < k < j ==> UndisturbedPoll(events[k], s)
    ensures Settled(pairs[j], s)
    ensures forall k :: i < k < j ==> Quiet(pairs[k], events[k])
  {
    ConvergedPollSettles(pairs[i], events[i], pairs[i + 1], s);
    forall k | i < k < j && Settled(pairs[k], s) ensures Settled(pairs[k + 1], s) && Quiet(pairs[k], events[k]) {
      UndisturbedPollIsQuiet(pairs[k], events[k], pairs[k + 1], s);
    }
    Persists(pairs, (p: Pair) => Settled(p, s), i + 1, j);
  }

  // ---------------------------------------------------------------------------
  // The manager's own steps
  // ---------------------------------------------------------------------------

  /** One pair of the manager's dictionaries, updated in place. */
  class PairMemory {
    var latched: bool
    var lastHa: Option<LockState>
    var lastAccess: Option<LockState>
    var lastRule: Option<RuleMark>
    var throwSince: Option<int>
    var leaseUntil: Option<int>
    var lastPersisted: Option<(LockState, RuleMark)>

    constructor ()
      ensures Snapshot() == Unknown
    {
      latched := false;
      lastHa, lastAccess, lastRule := None, None, None;
      throwSince, leaseUntil, lastPersisted := None, None, None;
    }

    function Snapshot(): Pair
      reads this
    {
      Pair(latched, lastHa, lastAccess, lastRule, throwSince, leaseUntil, lastPersisted)
    }

    /** `_release_fail_safe_latch` and the baseline writes of `_persist_convergence`. */
    method Agree(state: LockState, rule: RuleMark)
      modifies `lastHa, `lastAccess, `lastRule
      ensures Snapshot() == Remember(old(Snapshot()), state, rule)
    {
      lastHa, lastAccess, lastRule := Some(state), Some(state), Some(rule);
    }

    /** The source classification of one pass. */
    method Classify(o: Observation, trusted: bool) returns (d: Decision)
      requires trusted ==> o.ha.Steady?
      ensures d == Arbitrate(Snapshot(), o, trusted)
    {
      if !trusted || o.access.None? {
        return Decision(Locked, UntrustedState, true);
      }
      var ha, access := o.ha.state, o.access.value;
      if ha == access {
        return Decision(ha, AlreadyConverged, false);
      }
      if lastHa.None? || lastAccess.None? {
        if o.scheduleActive && access == Unlocked {
          return Decision(Unlocked, ScheduleStartup, false);
        } else if o.scheduleActive && access == Locked {
          return Decision(Locked, ScheduleStartupClosed, false);
        }
        return Decision(Locked, StartupConflict, true);
      }
      var haChanged := ha != lastHa.value;
      var accessChanged := access != lastAccess.value;
      if lastRule.None? || lastRule.value.Observed? {
        accessChanged := accessChanged || lastRule != Some(Observed(o.rule));
      }
      if haChanged && !accessChanged {
        d := Decision(ha, FromHa, false);
      } else if accessChanged && !haChanged {
        d := Decision(access, FromAccess, false);
      } else {
        d := Decision(Locked, ConcurrentConflict, true);
      }
    }

    /** The two postponements: `go` is false when this pass must not decide. */
    method Await(o: Observation, now: int) returns (go: bool, trusted: bool)
      modifies `throwSince, `leaseUntil, `lastHa, `lastAccess, `lastRule
      ensures Screen(old(Snapshot()), o, now) == if go then Go(Snapshot(), trusted) else Stop(Snapshot())
    {
      trusted := o.ha.Steady?;
      if o.ha.MidThrow? && !latched {
        if throwSince.None? {
          throwSince := Some(now);
        }
        if now - throwSince.value < TRANSITION_GRACE {
          return false, trusted;
        }
      } else {
        throwSince := None;
      }
      if leaseUntil.Some? {
        if o.ha == Steady(Locked) {
          leaseUntil := None;
        } else if now < leaseUntil.value && o.ha == Steady(Unlocked) {
          lastHa := Some(Unlocked);
          if o.access.Some? {
            lastAccess, lastRule := o.access, Some(Observed(o.rule));
          }
          return false, trusted;
        } else if now >= leaseUntil.value {
          leaseUntil := None;
          trusted := false;
        }
      }
      go := true;
    }

    /** Arbitration, latch and the durable-relock requirement. */
    method Resolve(o: Observation, trusted: bool, relockSatisfied: bool) returns (d: Decision)
      requires trusted ==> o.ha.Steady?
      modifies `latched
      ensures (Snapshot(), d) == Decide(old(Snapshot()), o, trusted, relockSatisfied)
    {
      d := Classify(o, trusted);
      if d.failSafe {
        latched := true;
      }
      if latched {
        d := d.(desired := Locked, failSafe := true);
      }
      if d.desired == Unlocked && d.source == FromHa && !relockSatisfied {
        latched := true;
        d := Decision(Locked, RelockUnavailable, true);
      }
    }

    /** Persist the agreement; an open state that cannot be recorded is closed again. */
    method Conclude(desired: LockState, rule: RuleMark, relay: Option<LockState>, sent: seq<Command>, w: World)
      returns (commands: seq<Command>, changed: bool, ghost exit: Exit)
      modifies this
      ensures Outcome(Snapshot(), commands, changed, exit) ==
              Finish(old(Snapshot()), desired, rule, relay, sent, w)
    {
      commands := sent;
      if lastPersisted != Some((desired, rule)) && !w.persist {
        exit, changed := Unpersisted, false;
        if desired == Unlocked {
          latched := true;
          commands := commands + [DriveHa(Locked), DriveAccess(Locked, true)];
        }
        return;
      }
      lastPersisted := Some((desired, rule));
      Agree(desired, rule);
      if !latched || (desired == Locked && relay == Some(Locked)) {
        latched := false;
      }
      exit, changed := Converged, commands != [];
    }

    /** `_reconcile_bidirectional`. */
    method Reconcile(o: Observation, w: World) returns (commands: seq<Command>, changed: bool, ghost exit: Exit)
      modifies this
      ensures Outcome(Snapshot(), commands, changed, exit) == Pass(old(Snapshot()), o, w)
    {
      var go, trusted := Await(o, w.now);
      if !go {
        return [], false, Deferred;
      }
      var d := Resolve(o, trusted, w.relockSatisfied);
      commands, changed, exit := Drive(o, trusted, d, w);
    }

    /** The gates, the two drives and the release of the latch on sight. */
    method Drive(o: Observation, trusted: bool, d: Decision, w: World)
      returns (commands: seq<Command>, changed: bool, ghost exit: Exit)
      modifies this
      ensures Outcome(Snapshot(), commands, changed, exit) == Execute(old(Snapshot()), o, trusted, d, w)
    {
      var desired := d.desired;
      commands, changed, exit := [], false, Deferred;
      if desired == Locked && w.spaced && d.source != RelockUnavailable {
        return;
      }
      if desired == Unlocked && (o.ha != Steady(desired) || o.access != Some(desired)) && w.damped {
        return;
      }
      if o.ha != Steady(desired) {
        commands := [DriveHa(desired)];
        if !w.haDrive {
          exit := Failed;
          return;
        }
      }
      var relay, rule := o.relay, Observed(o.rule);
      var release := latched && desired == Locked && o.access == Some(Locked) && relay == Some(Locked);
      var prove := latched && desired == Locked && relay != Some(Locked);
      if o.access != Some(desired) || release || prove {
        commands := commands + [DriveAccess(desired, d.failSafe && !release)];
        if w.apply.None? {
          exit := Failed;
          if release && trusted && o.ha == Steady(Locked) {
            Agree(Locked, rule);
            latched := false;
            exit := ReleasedOnSight;
          }
          return;
        }
        relay := if w.apply.value then Some(desired) else None;
        rule := Commanded(desired);
      }
      commands, changed, exit := Conclude(desired, rule, relay, commands, w);
    }
  }
}
