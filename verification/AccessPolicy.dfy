/** Who may open which lock (auth_engine.py): the alarm panels as one state, the alarm gate
    over a user's groups, and the decision per lock. */
module AccessPolicy {
  import opened Common
  import opened SchedulePolicy

  /** A panel as read from Home Assistant; `Unknown` stands for every other reading and for a
      failed one. */
  datatype Alarm = Disarmed | Triggered | ArmedAway | ArmedHome | ArmedNight | Arming | Pending | Unknown

  function Seen(readings: seq<Alarm>): set<Alarm> {
    set i | 0 <= i < |readings| :: readings[i]
  }

  /** All armed panels agree on `a`. */
  predicate ArmedAs(seen: set<Alarm>, a: Alarm) {
    forall x :: x in seen && x != Disarmed ==> x == a
  }

  /** The state of the house in terms of the set of readings. */
  ghost predicate IsAggregateOf(seen: set<Alarm>, r: Alarm) {
    if Unknown in seen then r == Unknown
    else if ArmedAs(seen, Disarmed) then r == Disarmed
    else if exists a :: a in seen && a != Disarmed && ArmedAs(seen, a) then r in seen && r != Disarmed
    else r == Unknown
  }

  ghost predicate IsAggregate(readings: seq<Alarm>, r: Alarm) {
    IsAggregateOf(Seen(readings), r)
  }

  lemma SeenOfConcat(readings: seq<Alarm>, a: Alarm)
    ensures Seen(readings + [a]) == Seen(readings) + {a}
  {
    var all := readings + [a];
    assert all[|readings|] == a;
    forall x | x in Seen(readings) ensures x in Seen(all) {
      var i :| 0 <= i < |readings| && readings[i] == x;
      assert all[i] == x;
    }
  }

  /** `_get_alarm_state` without its cache. */
  method GetAlarmState(readable: bool, connected: bool, readings: seq<Alarm>) returns (r: Alarm)
    ensures readable && (connected || readings == []) ==> IsAggregate(readings, r)
    ensures !readable || (!connected && readings != []) ==> r == Unknown
  {
    if !readable {
      return Unknown;
    }
    if readings == [] {
      return Disarmed;
    }
    if !connected {
      return Unknown;
    }
    var armed: set<Alarm> := {};
    for i := 0 to |readings|
      invariant Unknown !in Seen(readings[..i])
      invariant armed == Seen(readings[..i]) - {Disarmed}
    {
      assert Seen(readings[..i + 1]) == Seen(readings[..i]) + {readings[i]} by {
        assert readings[..i + 1] == readings[..i] + [readings[i]];
        SeenOfConcat(readings[..i], readings[i]);
      }
      if readings[i] == Unknown {
        assert readings[i] in Seen(readings);
        return Unknown;
      }
      if readings[i] != Disarmed {
        armed := armed + {readings[i]};
      }
    }
    assert readings[..|readings|] == readings;
    assert forall x :: x in Seen(readings) && x != Disarmed ==> x in armed;
    if armed == {} {
      assert ArmedAs(Seen(readings), Disarmed);
      return Disarmed;
    }
    var a :| a in armed;
    if armed == {a} {
      return a;
    }
    var b :| b in armed && b != a;
    assert forall c :: ArmedAs(Seen(readings), c) ==> a == c && b == c;
    r := Unknown;
  }

  lemma AggregateIsUnique(seen: set<Alarm>, r: Alarm, t: Alarm)
    requires IsAggregateOf(seen, r) && IsAggregateOf(seen, t)
    ensures r == t
  {
    if Unknown !in seen && !ArmedAs(seen, Disarmed) {
      if a :| a in seen && a != Disarmed && ArmedAs(seen, a) {
        assert r == a && t == a;
      }
    }
  }

  lemma SeenOfShuffled(readings: seq<Alarm>, shuffled: seq<Alarm>, a: Alarm)
    requires multiset(readings) == multiset(shuffled) && a in Seen(readings)
    ensures a in Seen(shuffled)
  {
    assert a in multiset(readings);
    assert a in shuffled;
  }

  /** The order in which panels are configured, and how often a state occurs, make no
      difference. */
  lemma AggregateIgnoresOrder(readings: seq<Alarm>, shuffled: seq<Alarm>, r: Alarm, t: Alarm)
    requires multiset(readings) == multiset(shuffled) && IsAggregate(readings, r) && IsAggregate(shuffled, t)
    ensures r == t
  {
    forall a | a in Seen(readings) ensures a in Seen(shuffled) {
      SeenOfShuffled(readings, shuffled, a);
    }
    forall a | a in Seen(shuffled) ensures a in Seen(readings) {
      SeenOfShuffled(shuffled, readings, a);
    }
    assert Seen(readings) == Seen(shuffled);
    AggregateIsUnique(Seen(readings), r, t);
  }

  lemma DisarmedIffEveryPanelIs(readings: seq<Alarm>, r: Alarm)
    requires IsAggregate(readings, r)
    ensures r == Disarmed <==> forall i :: 0 <= i < |readings| ==> readings[i] == Disarmed
  {
    if r == Disarmed {
      assert ArmedAs(Seen(readings), Disarmed);
      assert forall i :: 0 <= i < |readings| ==> readings[i] in Seen(readings);
    } else if forall i :: 0 <= i < |readings| ==> readings[i] == Disarmed {
      assert Unknown !in Seen(readings);
    }
  }

  // ---------------------------------------------------------------------------
  // Groups and the alarm gate
  // ---------------------------------------------------------------------------

  datatype Group = Group(blockedAway: bool, blockedHome: bool, mayDisarm: bool,
                         schedule: Option<Rule>, allLocks: bool, locks: set<nat>)

  /** Armed states without a flag of their own restrict like both. */
  predicate FullyRestrictive(a: Alarm) {
    a in {Triggered, Unknown, ArmedNight, Arming, Pending}
  }

  predicate Blocks(g: Group, a: Alarm) {
    || (a == ArmedAway && g.blockedAway)
    || (a == ArmedHome && g.blockedHome)
    || (FullyRestrictive(a) && (g.blockedAway || g.blockedHome))
  }

  predicate Active(g: Group, now: Moment) {
    g.schedule.None? || CheckSchedule(g.schedule.value, now)
  }

  /** A group that may let its members past an armed panel, and disarm it. */
  predicate Overrides(g: Group, a: Alarm, now: Moment) {
    Active(g, now) && g.mayDisarm && !Blocks(g, a)
  }

  predicate CanDisarm(groups: seq<Group>, a: Alarm, now: Moment) {
    a != Disarmed && exists i :: 0 <= i < |groups| && Overrides(groups[i], a, now)
  }

  predicate GateCloses(groups: seq<Group>, a: Alarm, now: Moment) {
    a != Disarmed && (exists i :: 0 <= i < |groups| && Blocks(groups[i], a)) && !CanDisarm(groups, a, now)
  }

  /** A group that one armed panel's own state blocks stays blocked in the aggregate, however
      the other panels read. */
  lemma OwnStateBlockCarries(readings: seq<Alarm>, r: Alarm, i: nat, g: Group)
    requires IsAggregate(readings, r) && i < |readings| && Blocks(g, readings[i])
    ensures r != Disarmed && Blocks(g, r)
  {
    assert readings[i] in Seen(readings);
    ArmedReading(Seen(readings), r, readings[i]);
  }

  lemma ArmedReading(seen: set<Alarm>, r: Alarm, armed: Alarm)
    requires IsAggregateOf(seen, r) && armed in seen && armed != Disarmed
    ensures r == armed || r == Unknown
  {
    if Unknown !in seen {
      if a :| a in seen && a != Disarmed && ArmedAs(seen, a) {
        assert armed == a && r == a;
      }
    }
  }

  /** The aggregate blocks nobody that no panel blocks, unless the readings disagree or one of
      them is missing. */
  lemma AggregateBlocksNoMoreWhenPanelsAgree(readings: seq<Alarm>, r: Alarm, g: Group)
    requires IsAggregate(readings, r) && r != Unknown
    ensures Blocks(g, r) <==> exists i :: 0 <= i < |readings| && Blocks(g, readings[i])
  {
    if Blocks(g, r) {
      assert r in Seen(readings);
      var i :| 0 <= i < |readings| && readings[i] == r;
    } else if exists i :: 0 <= i < |readings| && Blocks(g, readings[i]) {
      var i :| 0 <= i < |readings| && Blocks(g, readings[i]);
      OwnStateBlockCarries(readings, r, i, g);
    }
  }

  /** Getting past a panel whose own state blocks one of the user's groups takes a group that
      is on schedule, may disarm, and is blocked by no panel's own state. */
  lemma OpenGateNeedsAnUnblockedDisarmer(readings: seq<Alarm>, r: Alarm, groups: seq<Group>, now: Moment)
    requires IsAggregate(readings, r)
    requires exists g, i :: g in groups && 0 <= i < |readings| && Blocks(g, readings[i])
    requires !GateCloses(groups, r, now)
    ensures CanDisarm(groups, r, now)
  {
    var g, i :| g in groups && 0 <= i < |readings| && Blocks(g, readings[i]);
    OwnStateBlockCarries(readings, r, i, g);
    var k :| 0 <= k < |groups| && groups[k] == g;
    assert Blocks(groups[k], r);
  }

  lemma DisarmersAreBlockedByNoPanel(readings: seq<Alarm>, r: Alarm, groups: seq<Group>, now: Moment)
    requires IsAggregate(readings, r) && CanDisarm(groups, r, now)
    ensures exists k :: 0 <= k < |groups| && Active(groups[k], now) && groups[k].mayDisarm
                        && forall i :: 0 <= i < |readings| ==> !Blocks(groups[k], readings[i])
  {
    var k :| 0 <= k < |groups| && Overrides(groups[k], r, now);
    forall i | 0 <= i < |readings| ensures !Blocks(groups[k], readings[i]) {
      if Blocks(groups[k], readings[i]) {
        OwnStateBlockCarries(readings, r, i, groups[k]);
      }
    }
  }

  // ---------------------------------------------------------------------------
  // The event
  // ---------------------------------------------------------------------------

  datatype AccessRule = AccessRule(enabled: bool, schedule: Option<Rule>)

  /** What the physical unlock of one lock came to. */
  datatype Unlock = Confirmed | RefusedByLockdown | Failed

  datatype Door = Door(id: nat, rule: Option<AccessRule>, readable: bool, outcome: Unlock)

  datatype Event = Event(user: Option<bool>, lockdown: bool, groups: seq<Group>, now: Moment, doors: seq<Door>)

  datatype Decision = Decision(granted: bool, unlocked: seq<nat>, disarm: bool)

  predicate GroupGrants(groups: seq<Group>, now: Moment, lock: nat) {
    exists i :: 0 <= i < |groups| && Active(groups[i], now) && (groups[i].allLocks || lock in groups[i].locks)
  }

  predicate RuleGrants(d: Door, now: Moment) {
    d.readable && d.rule.Some? && d.rule.value.enabled
    && (d.rule.value.schedule.None? || CheckSchedule(d.rule.value.schedule.value, now))
  }

  predicate Authorized(e: Event, d: Door) {
    GroupGrants(e.groups, e.now, d.id) || RuleGrants(d, e.now)
  }

  /** An unlock is attempted for the door and confirmed. */
  predicate Opens(e: Event, d: Door) {
    Authorized(e, d) && d.outcome == Confirmed
  }

  function Opened(e: Event, doors: seq<Door>): seq<nat> {
    if doors == [] then []
    else
      var n := |doors| - 1;
      Opened(e, doors[..n]) + if Opens(e, doors[n]) then [doors[n].id] else []
  }

  /** The loop over the locks of a location. */
  method UnlockAll(e: Event) returns (unlocked: seq<nat>, attempted: seq<nat>)
    ensures unlocked == Opened(e, e.doors)
    ensures forall l :: l in attempted <==>
              exists i :: 0 <= i < |e.doors| && e.doors[i].id == l && Authorized(e, e.doors[i])
  {
    unlocked, attempted := [], [];
    for n := 0 to |e.doors|
      invariant unlocked == Opened(e, e.doors[..n])
      invariant forall l :: l in attempted <==>
                  exists i :: 0 <= i < n && e.doors[i].id == l && Authorized(e, e.doors[i])
    {
      var d := e.doors[n];
      assert e.doors[..n + 1][..n] == e.doors[..n];
      var authorized := IsAuthorized(e, d);
      if authorized {
        attempted := attempted + [d.id];
        if d.outcome == Confirmed {
          unlocked := unlocked + [d.id];
        }
      }
    }
    assert e.doors[..|e.doors|] == e.doors;
  }

  /** Group assignment first, the individual rule only without one. */
  method IsAuthorized(e: Event, d: Door) returns (authorized: bool)
    ensures authorized <==> Authorized(e, d)
  {
    authorized := GroupGrants(e.groups, e.now, d.id);
    if !authorized && d.readable && d.rule.Some? && d.rule.value.enabled {
      authorized := d.rule.value.schedule.None? || CheckSchedule(d.rule.value.schedule.value, e.now);
    }
  }

  /** `process_event`; the user is `Some(active)` when known. */
  method ProcessEvent(e: Event, alarm: Alarm) returns (r: Decision, attempted: seq<nat>)
    ensures r.granted <==> r.unlocked != []
    ensures e.user != Some(true) || e.lockdown || GateCloses(e.groups, alarm, e.now) ==>
              !r.granted && !r.disarm && attempted == []
    ensures e.user == Some(true) && !e.lockdown && !GateCloses(e.groups, alarm, e.now) ==>
              && r.unlocked == Opened(e, e.doors)
              && (forall l :: l in attempted <==>
                    exists i :: 0 <= i < |e.doors| && e.doors[i].id == l && Authorized(e, e.doors[i]))
    ensures r.disarm <==> r.granted && CanDisarm(e.groups, alarm, e.now)
  {
    r, attempted := Decision(false, [], false), [];
    if e.user != Some(true) || e.lockdown {
      return;
    }
    var canDisarm := false;
    if alarm != Disarmed {
      var anyBlocking := exists i :: 0 <= i < |e.groups| && Blocks(e.groups[i], alarm);
      canDisarm := exists i :: 0 <= i < |e.groups| && Overrides(e.groups[i], alarm, e.now);
      if anyBlocking && !canDisarm {
        return;
      }
    }
    var unlocked;
    unlocked, attempted := UnlockAll(e);
    r := Decision(unlocked != [], unlocked, unlocked != [] && canDisarm);
  }

  /** A grant, and even more an automatic disarm, while a panel blocks one of the user's groups
      rests on a group that is on schedule, may disarm, and is blocked by no panel. */
  method GrantPastABlockingPanel(e: Event, readings: seq<Alarm>) returns (r: Decision)
    ensures (r.granted && exists g, i :: g in e.groups && 0 <= i < |readings| && Blocks(g, readings[i])) || r.disarm ==>
              exists k :: 0 <= k < |e.groups| && Active(e.groups[k], e.now) && e.groups[k].mayDisarm
                          && forall i :: 0 <= i < |readings| ==> !Blocks(e.groups[k], readings[i])
    ensures (forall i :: 0 <= i < |readings| ==> readings[i] == Disarmed) ==> !r.disarm
  {
    var alarm := GetAlarmState(true, true, readings);
    DisarmedIffEveryPanelIs(readings, alarm);
    var attempted;
    r, attempted := ProcessEvent(e, alarm);
    if r.granted && exists g, i :: g in e.groups && 0 <= i < |readings| && Blocks(g, readings[i]) {
      OpenGateNeedsAnUnblockedDisarmer(readings, alarm, e.groups, e.now);
    }
    if CanDisarm(e.groups, alarm, e.now) {
      DisarmersAreBlockedByNoPanel(readings, alarm, e.groups, e.now);
    }
  }
}
