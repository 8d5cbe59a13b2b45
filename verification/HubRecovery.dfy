/** Startup recovery of persistent Access rules (`recover` in hub_sync.py).

    A new process reads the hold table, re-adopts the holds a clean shutdown vouched for and
    drives everything else to `keep_lock`.  Database writes and hub commands fail at the
    adversary's choice; reads come in as the answers the environment gives. */
module HubRecovery {
  import opened Common
  import opened HoldProtocol

  /** HA's answer for one entity: a state, something else, or an exception. */
  datatype HaAnswer = HaIs(state: LockState) | HaOther | HaRaised

  /** Access's answer for one hub: the rule type with the effective state, or an exception. */
  datatype HubAnswer = HubIs(rule: RuleType, state: Option<LockState>) | HubRaised

  /** The config row a clean shutdown leaves behind. */
  datatype MarkerRow = Malformed | Marker(ts: int, preserved: set<EntityId>)

  const MAX_AGE := 1800
  const FUTURE_SKEW := 60

  /** The lock table as recovery needs it: who opts into `preserve_hold_on_restart`, and the
      hubs each entity currently resolves to. */
  datatype LockTable = LockTable(opted: set<EntityId>, resolved: EntityId -> seq<HubId>)

  datatype Answers = Answers(
    lockdown: bool,
    locks: Option<LockTable>,
    markerReadable: bool,
    markerDeletable: bool,
    now: int,
    haConnected: bool,
    ha: EntityId -> HaAnswer,
    bidirectional: bool,
    hub: Key -> HubAnswer)

  /** The ids a marker row vouches for, once it was read and deleted. */
  function Vouched(row: Option<MarkerRow>, now: int): set<EntityId> {
    match row
    case None => {}
    case Some(Malformed) => {}
    case Some(Marker(ts, preserved)) =>
      if -FUTURE_SKEW <= now - ts <= MAX_AGE then preserved else {}
  }

  function Named(row: Option<MarkerRow>, a: Answers): set<EntityId> {
    if a.markerReadable && a.markerDeletable then Vouched(row, a.now) else {}
  }

  predicate ReadsHeldOpen(x: HubAnswer) {
    x.HubIs? && x.rule == TypeKeepUnlock && x.state == Some(Unlocked)
  }

  /** When a durable hold may survive a restart, in terms of the table alone. */
  ghost predicate Adoptable(rows: map<Key, Override>, row: Option<MarkerRow>, a: Answers, e: EntityId) {
    && e in Named(row, a)
    && !a.lockdown
    && a.locks.Some? && e in a.locks.value.opted
    && (exists h: HubId :: Key(e, h) in rows)
    && (forall h: HubId :: Key(e, h) in rows ==> rows[Key(e, h)] == KeepUnlock)
    && a.haConnected && a.ha(e) == HaIs(Unlocked)
    && (a.bidirectional ==> forall h: HubId :: Key(e, h) in rows ==> ReadsHeldOpen(a.hub(Key(e, h))))
  }

  // ---------------------------------------------------------------------------
  // Hub lists
  // ---------------------------------------------------------------------------

  type HubLists = map<EntityId, seq<HubId>>

  function Get(m: HubLists, e: EntityId): seq<HubId> {
    if e in m then m[e] else []
  }

  function Without(hubs: seq<HubId>, h: HubId): (r: seq<HubId>)
    ensures forall x :: x in r <==> x in hubs && x != h
  {
    if hubs == [] then []
    else (if hubs[0] == h then [] else [hubs[0]]) + Without(hubs[1..], h)
  }

  /** `_append_unique_hubs`: the target keeps its order, new ids follow once each. */
  method AppendUnique(target: seq<HubId>, hubs: seq<HubId>) returns (merged: seq<HubId>)
    ensures target <= merged
    ensures forall x :: x in merged <==> x in target || x in hubs
    ensures (forall i, j :: 0 <= i < j < |target| ==> target[i] != target[j])
            ==> forall i, j :: 0 <= i < j < |merged| ==> merged[i] != merged[j]
  {
    merged := target;
    for n := 0 to |hubs|
      invariant target <= merged
      invariant forall x :: x in merged <==> x in target || x in hubs[..n]
      invariant (forall i, j :: 0 <= i < j < |target| ==> target[i] != target[j])
                ==> forall i, j :: 0 <= i < j < |merged| ==> merged[i] != merged[j]
    {
      assert hubs[..n + 1] == hubs[..n] + [hubs[n]];
      if hubs[n] !in merged {
        merged := merged + [hubs[n]];
      }
    }
    assert hubs[..|hubs|] == hubs;
  }

  // ---------------------------------------------------------------------------
  // Attempts
  // ---------------------------------------------------------------------------

  /** One attempt of a drive: there was no client to send the command with, an urgent lockdown
      came first, or the command was sent. */
  datatype Attempt = Deferred | Urgent | Sent(confirmed: bool)

  predicate AnySent(tries: seq<Attempt>) {
    exists i :: 0 <= i < |tries| && tries[i].Sent?
  }

  predicate AllDeferred(tries: seq<Attempt>) {
    forall i :: 0 <= i < |tries| ==> tries[i].Deferred?
  }

  lemma AnySentOfConcat(tries: seq<Attempt>, a: Attempt)
    ensures AnySent(tries + [a]) <==> AnySent(tries) || a.Sent?
  {
    var all := tries + [a];
    assert all[|tries|] == a;
    if AnySent(tries) {
      var i :| 0 <= i < |tries| && tries[i].Sent?;
      assert all[i].Sent?;
    }
  }

  // ---------------------------------------------------------------------------
  // The manager
  // ---------------------------------------------------------------------------

  class HubSyncManager {
    // Durable state.
    var holds: map<Key, Override>
    var marker: Option<MarkerRow>
    // Memory of this process.
    var heldOpen: HubLists
    var heldLocked: HubLists
    var pending: HubLists
    var pairedHubs: HubLists
    var failSafe: set<EntityId>
    var applied: map<EntityId, LockState>
    var recoveryComplete: bool
    /** Hubs with a `keep_lock` of this process seen confirmed and no other command since. */
    ghost var closed: set<HubId>
    /** Hubs this process has sent a command to, hubs it had a turn for in which no attempt found
        an available Access client, and whether an urgent lockdown cut a drive or a pass over
        the release queue short. */
    ghost var commanded: set<HubId>
    ghost var deferred: set<HubId>
    ghost var interrupted: bool

    /** A restarted process: the durable rows of its predecessor and no memory. */
    constructor (holds: map<Key, Override>, marker: Option<MarkerRow>)
      ensures this.holds == holds && this.marker == marker && Fresh() && closed == {}
      ensures commanded == {} && deferred == {} && !interrupted
    {
      this.holds, this.marker := holds, marker;
      heldOpen, heldLocked, pending, pairedHubs := map[], map[], map[], map[];
      failSafe, applied, recoveryComplete, closed := {}, map[], false, {};
      commanded, deferred, interrupted := {}, {}, false;
    }

    predicate Fresh()
      reads this
    {
      heldOpen == map[] && heldLocked == map[] && pending == map[] && failSafe == {} && !recoveryComplete
    }

    /** A hub nobody needs to close any more, or one that is still queued to be closed. */
    ghost predicate Accounted(h: HubId)
      reads this
    {
      h in closed || exists e :: h in Get(pending, e)
    }

    /** The hub had its turn: a command went out or no attempt found a client. */
    ghost predicate Tried(h: HubId)
      reads this
    {
      h in commanded || h in deferred
    }

    /** `_record_hub_state(…, "locked", persistent_lock=True)`: journal before `keep_lock`. */
    method JournalLocked(e: EntityId, h: HubId) returns (ok: bool)
      modifies `holds, `heldOpen, `heldLocked
      ensures holds == if ok then old(holds)[Key(e, h) := KeepLock] else old(holds)
      ensures forall x :: x != e ==>
                Get(heldOpen, x) == old(Get(heldOpen, x)) && Get(heldLocked, x) == old(Get(heldLocked, x))
      ensures forall x :: x in Get(heldLocked, e) <==> x in old(Get(heldLocked, e)) || (ok && x == h)
      ensures forall x :: x in Get(heldOpen, e) <==> x in old(Get(heldOpen, e)) && !(ok && x == h)
    {
      heldOpen := heldOpen[e := Get(heldOpen, e)];
      heldLocked := heldLocked[e := Get(heldLocked, e)];
      ok := *;
      if ok {
        holds := holds[Key(e, h) := KeepLock];
        if h !in heldLocked[e] {
          heldLocked := heldLocked[e := heldLocked[e] + [h]];
        }
        heldOpen := heldOpen[e := Without(heldOpen[e], h)];
      }
    }

    /** `_record_hub_state(…, "locked")`: forget ownership after a confirmed release. */
    method ForgetHold(e: EntityId, h: HubId) returns (ok: bool)
      modifies `holds, `heldOpen, `heldLocked
      ensures holds == if ok then old(holds) - {Key(e, h)} else old(holds)
      ensures forall x :: x != e ==>
                Get(heldOpen, x) == old(Get(heldOpen, x)) && Get(heldLocked, x) == old(Get(heldLocked, x))
      ensures forall x :: x in Get(heldLocked, e) <==> x in old(Get(heldLocked, e)) && !(ok && x == h)
      ensures forall x :: x in Get(heldOpen, e) <==> x in old(Get(heldOpen, e)) && !(ok && x == h)
    {
      heldOpen := heldOpen[e := Get(heldOpen, e)];
      heldLocked := heldLocked[e := Get(heldLocked, e)];
      ok := *;
      if ok {
        holds := holds - {Key(e, h)};
        heldOpen := heldOpen[e := Without(heldOpen[e], h)];
        heldLocked := heldLocked[e := Without(heldLocked[e], h)];
      }
    }

    /** One hub command, retried up to `attempts` times; `tries` is how the attempts went.  An
        attempt without an available client sends nothing, and an urgent lockdown ends the
        drive before the next command.  A command that was sent may fail with or without
        effect; success means the readback confirmed it. */
    method DriveHub(h: HubId, command: Command, attempts: nat, enforcing: bool)
      returns (confirmed: bool, ghost tries: seq<Attempt>)
      requires attempts > 0
      modifies `closed, `commanded, `deferred, `interrupted
      ensures 0 < |tries| <= attempts
      ensures forall i :: 0 <= i < |tries| - 1 ==> tries[i] == Deferred || tries[i] == Sent(false)
      ensures |tries| == attempts || tries[|tries| - 1] == Urgent || confirmed
      ensures confirmed <==> tries[|tries| - 1] == Sent(true)
      ensures interrupted <==> old(interrupted) || tries[|tries| - 1] == Urgent
      ensures enforcing ==> Urgent !in tries
      ensures commanded == if AnySent(tries) then old(commanded) + {h} else old(commanded)
      ensures deferred == if AllDeferred(tries) then old(deferred) + {h} else old(deferred)
      ensures closed == if !AnySent(tries) then old(closed)
                        else if command != HoldLocked then old(closed) - {h}
                        else if confirmed then old(closed) + {h} else old(closed)
    {
      confirmed, tries := false, [];
      var attempt, urgent := 0, false;
      while attempt < attempts && !confirmed && !urgent
        invariant attempt == |tries| <= attempts
        invariant forall i :: 0 <= i < |tries| - 1 ==> tries[i] == Deferred || tries[i] == Sent(false)
        invariant |tries| > 0 ==> (confirmed <==> tries[|tries| - 1] == Sent(true))
        invariant |tries| > 0 ==> (urgent <==> tries[|tries| - 1] == Urgent)
        invariant |tries| == 0 ==> !confirmed && !urgent
        invariant enforcing ==> Urgent !in tries
        invariant commanded == if AnySent(tries) then old(commanded) + {h} else old(commanded)
        invariant interrupted <==> old(interrupted) || urgent
        invariant deferred == old(deferred)
        invariant closed == if !AnySent(tries) then old(closed)
                            else if command != HoldLocked then old(closed) - {h}
                            else if confirmed then old(closed) + {h} else old(closed)
      {
        urgent := *;
        urgent := urgent && !enforcing;
        ghost var attempted := Urgent;
        if urgent {
          interrupted := true;
        } else {
          var available: bool := *;
          if available {
            commanded := commanded + {h};
            if command != HoldLocked {
              closed := closed - {h};
            }
            confirmed := *;
            if confirmed && command == HoldLocked {
              closed := closed + {h};
            }
          }
          attempted := if available then Sent(confirmed) else Deferred;
        }
        AnySentOfConcat(tries, attempted);
        tries := tries + [attempted];
        attempt := attempt + 1;
      }
      if AllDeferred(tries) {
        deferred := deferred + {h};
      }
    }

    /** The body of the queue loop for one hub; `done` lets it leave the queue. */
    method ReleaseOne(e: EntityId, h: HubId, enforcing: bool) returns (done: bool)
      modifies `holds, `heldOpen, `heldLocked, `closed, `commanded, `deferred, `interrupted
      ensures old(commanded) <= commanded <= old(commanded) + {h}
      ensures old(deferred) <= deferred <= old(deferred) + {h}
      ensures (old(interrupted) ==> interrupted) && (enforcing ==> interrupted == old(interrupted))
      ensures interrupted || Tried(h)
      ensures done ==> h in commanded
      ensures forall x :: x != e ==> Get(heldOpen, x) == old(Get(heldOpen, x))
      ensures (enforcing || e in failSafe) ==>
                && (holds == old(holds) || holds == old(holds)[Key(e, h) := KeepLock])
                && old(closed) - {h} <= closed
                && (done ==> Key(e, h) in holds && holds[Key(e, h)] == KeepLock && h in closed)
                && (done ==> h in Get(heldLocked, e))
      ensures !(enforcing || e in failSafe) ==>
                && holds == (if done then old(holds) - {Key(e, h)} else old(holds))
                && old(closed) - {h} <= closed <= old(closed)
    {
      var persistent := enforcing || e in failSafe;
      var recorded := true;
      if persistent {
        recorded := JournalLocked(e, h);
      }
      var command := ReleaseCommand(enforcing, e in failSafe, persistent && recorded);
      HoldsAreWriteAhead(enforcing, false, recorded, e in failSafe);
      var drove;
      ghost var tries;
      drove, tries := DriveHub(h, command, if enforcing then 1 else 2, enforcing);
      assert AllDeferred(tries) || AnySent(tries) || tries[|tries| - 1] == Urgent;
      if persistent && !recorded {
        return false;
      }
      if drove && !persistent {
        drove := ForgetHold(e, h);
      }
      done := drove;
    }

    /** The queue loop over the hubs of one entity; an urgent lockdown may cut it short. */
    method ReleaseHubs(e: EntityId, hubs: seq<HubId>, enforcing: bool) returns (count: nat, remaining: seq<HubId>)
      modifies `holds, `heldOpen, `heldLocked, `closed, `commanded, `deferred, `interrupted
      ensures old(commanded) <= commanded && old(deferred) <= deferred
      ensures (old(interrupted) ==> interrupted) && (enforcing ==> interrupted == old(interrupted))
      ensures interrupted || forall h :: h in hubs ==> Tried(h)
      ensures forall h :: h in hubs && h !in remaining ==> h in commanded
      ensures forall x :: x != e ==> Get(heldOpen, x) == old(Get(heldOpen, x))
      ensures forall h :: h in remaining ==> h in hubs
      ensures enforcing || e in failSafe ==>
                && old(holds).Keys <= holds.Keys
                && (forall h :: h in old(closed) || h in hubs ==> h in closed || h in remaining)
                && (forall h :: h in hubs && h !in remaining ==> Key(e, h) in holds && holds[Key(e, h)] == KeepLock)
      ensures !(enforcing || e in failSafe) ==>
                && (forall k :: k in old(holds) && k !in holds ==> k.entity == e && k.hub in hubs)
                && (forall h :: h in hubs && h !in remaining ==> Key(e, h) !in holds)
    {
      var persistent := enforcing || e in failSafe;
      remaining := [];
      count := 0;
      var i := 0;
      var urgent := false;
      while i < |hubs| && !urgent
        invariant 0 <= i <= |hubs|
        invariant failSafe == old(failSafe)
        invariant old(commanded) <= commanded && old(deferred) <= deferred && (urgent ==> !enforcing)
        invariant (old(interrupted) || urgent ==> interrupted) && (enforcing ==> interrupted == old(interrupted))
        invariant interrupted || forall j :: 0 <= j < i ==> Tried(hubs[j])
        invariant forall j :: 0 <= j < i ==> hubs[j] in remaining || hubs[j] in commanded
        invariant forall x :: x != e ==> Get(heldOpen, x) == old(Get(heldOpen, x))
        invariant forall x :: x in remaining ==> x in hubs
        invariant urgent ==> forall x :: x in hubs[i..] ==> x in remaining
        invariant forall j :: 0 <= j < i ==> hubs[j] in remaining || hubs[j] in closed || !persistent
        invariant persistent ==> forall x :: x in old(closed) ==> x in closed || x in remaining
        invariant persistent ==> old(holds).Keys <= holds.Keys
        invariant persistent ==> forall j :: 0 <= j < i && hubs[j] !in remaining ==>
                    Key(e, hubs[j]) in holds && holds[Key(e, hubs[j])] == KeepLock
        invariant !persistent ==> forall k :: k in old(holds) && k !in holds ==> k.entity == e && k.hub in hubs
        invariant !persistent ==> forall k :: k in holds ==> k in old(holds)
        invariant !persistent ==> forall j :: 0 <= j < i && hubs[j] !in remaining ==> Key(e, hubs[j]) !in holds
        decreases |hubs| - i, !urgent
      {
        urgent := *;
        urgent := urgent && !enforcing;
        if urgent {
          interrupted := true;
          remaining := AppendUnique(remaining, hubs[i..]);
        } else {
          var done := ReleaseOne(e, hubs[i], enforcing);
          if done {
            count := count + 1;
          } else {
            remaining := remaining + [hubs[i]];
          }
          i := i + 1;
        }
      }
      assert forall x :: x in hubs ==> (exists j :: 0 <= j < i && hubs[j] == x) || x in hubs[i..];
    }

    /** All queued hubs of one entity; what could not be released stays queued. */
    method ReleaseEntity(e: EntityId, enforcing: bool) returns (count: nat)
      requires e in pending
      modifies `holds, `heldOpen, `heldLocked, `closed, `commanded, `deferred, `interrupted, `pending, `applied
      ensures old(commanded) <= commanded && old(deferred) <= deferred
      ensures (old(interrupted) ==> interrupted) && (enforcing ==> interrupted == old(interrupted))
      ensures interrupted || forall h :: h in old(pending)[e] ==> Tried(h)
      ensures forall h :: h in old(pending)[e] && h !in Get(pending, e) ==> h in commanded
      ensures forall x :: x != e ==> Get(pending, x) == old(Get(pending, x))
      ensures forall x :: x != e ==> Get(heldOpen, x) == old(Get(heldOpen, x))
      ensures applied == if e !in pending && e in failSafe then old(applied)[e := Locked] else old(applied)
      ensures old(pending).Keys - {e} <= pending.Keys <= old(pending).Keys
      ensures forall h :: h in Get(pending, e) ==> h in old(pending)[e]
      ensures enforcing || e in failSafe ==>
                && old(holds).Keys <= holds.Keys
                && (forall h :: old(Accounted(h)) ==> Accounted(h))
                && (forall h :: h in old(pending)[e] && h !in Get(pending, e) ==>
                      Key(e, h) in holds && holds[Key(e, h)] == KeepLock)
      ensures !(enforcing || e in failSafe) ==>
                && (forall k :: k in old(holds) && k !in holds ==> k.entity == e && k.hub in old(pending)[e])
                && (forall h :: h in old(pending)[e] && h !in Get(pending, e) ==> Key(e, h) !in holds)
    {
      var persistent := enforcing || e in failSafe;
      var remaining;
      count, remaining := ReleaseHubs(e, pending[e], enforcing);
      if remaining != [] {
        pending := pending[e := remaining];
      } else {
        pending := pending - {e};
        if e in failSafe {
          applied := applied[e := Locked];
        }
      }
      assert Get(pending, e) == remaining;
      if persistent {
        forall h | old(Accounted(h)) ensures Accounted(h) {
          if h !in closed && h !in Get(pending, e) {
            var x :| h in old(Get(pending, x));
            assert x != e;
            assert h in Get(pending, x);
          }
        }
      }
    }

    /** `_process_pending_releases(force=True)`: drive the whole queue once. */
    method ProcessPendingReleases(enforcing: bool) returns (count: nat)
      modifies `holds, `heldOpen, `heldLocked, `closed, `commanded, `deferred, `interrupted, `pending, `applied
      ensures enforcing ==> interrupted == old(interrupted)
      ensures interrupted || forall e, h :: h in old(Get(pending, e)) ==> Tried(h)
      ensures pending.Keys <= old(pending).Keys
      ensures forall x :: x !in old(pending) ==> Get(heldOpen, x) == old(Get(heldOpen, x))
      ensures forall x :: x !in old(pending) ==>
                (x in applied <==> x in old(applied)) && (x in applied ==> applied[x] == old(applied)[x])
      ensures enforcing || old(pending).Keys <= failSafe ==>
                && old(holds).Keys <= holds.Keys
                && (forall h :: old(Accounted(h)) ==> Accounted(h))
      ensures forall k :: k in old(holds) && k !in holds ==>
                !enforcing && k.entity !in failSafe && k.hub in old(Get(pending, k.entity))
    {
      count := 0;
      var todo := pending.Keys;
      while todo != {}
        invariant todo <= pending.Keys <= old(pending).Keys
        invariant enforcing ==> interrupted == old(interrupted)
        invariant interrupted || forall e, h :: e !in todo && h in old(Get(pending, e)) ==> Tried(h)
        invariant failSafe == old(failSafe)
        invariant forall x :: x !in old(pending) ==> Get(heldOpen, x) == old(Get(heldOpen, x))
        invariant forall x :: x !in old(pending) ==>
                    (x in applied <==> x in old(applied)) && (x in applied ==> applied[x] == old(applied)[x])
        invariant forall x :: x in todo ==> Get(pending, x) == old(Get(pending, x))
        invariant enforcing || old(pending).Keys <= failSafe ==>
                    && old(holds).Keys <= holds.Keys
                    && (forall h :: old(Accounted(h)) ==> Accounted(h))
        invariant forall k :: k in old(holds) && k !in holds ==>
                    !enforcing && k.entity !in failSafe && k.hub in old(Get(pending, k.entity))
      {
        var urgent: bool := *;
        if urgent && !enforcing {
          interrupted := true;
          return;
        }
        var e :| e in todo;
        ghost var tried, queue := commanded + deferred, Get(pending, e);
        assert forall h :: h in tried <==> Tried(h);
        var n := ReleaseEntity(e, enforcing);
        forall x, h | !interrupted && h in old(Get(pending, x)) && x !in todo - {e} ensures Tried(h) {
          assert if x == e then h in queue else h in tried;
        }
        count := count + n;
        todo := todo - {e};
      }
    }

    /** One row of `_load_persisted_holds`. */
    method LoadRow(k: Key, o: Override)
      modifies `heldOpen, `heldLocked, `pending
      ensures forall e, h :: h in Get(pending, e) <==> h in old(Get(pending, e)) || Key(e, h) == k
      ensures forall e, h :: h in Get(heldOpen, e) <==>
                h in old(Get(heldOpen, e)) || (Key(e, h) == k && o == KeepUnlock)
      ensures forall e, h :: h in Get(heldLocked, e) <==>
                h in old(Get(heldLocked, e)) || (Key(e, h) == k && o == KeepLock)
    {
      var e := k.entity;
      if o == KeepLock {
        var owned := AppendUnique(Get(heldLocked, e), [k.hub]);
        heldLocked := heldLocked[e := owned];
      } else {
        var owned := AppendUnique(Get(heldOpen, e), [k.hub]);
        heldOpen := heldOpen[e := owned];
      }
      var queue := AppendUnique(Get(pending, e), [k.hub]);
      pending := pending[e := queue];
    }

    /** Memory right after a load says the same as the rows it was loaded from. */
    ghost predicate Mirrors(rows: map<Key, Override>)
      reads this
    {
      && (forall e, h :: h in Get(pending, e) <==> Key(e, h) in rows)
      && (forall e, h :: h in Get(heldOpen, e) <==> Key(e, h) in rows && rows[Key(e, h)] == KeepUnlock)
      && (forall e, h :: h in Get(heldLocked, e) <==> Key(e, h) in rows && rows[Key(e, h)] == KeepLock)
    }

    /** `_load_persisted_holds`: every row enters its ownership list and the queue. */
    method LoadPersistedHolds(readable: bool) returns (ok: bool)
      requires Fresh()
      modifies `heldOpen, `heldLocked, `pending
      ensures ok == readable
      ensures ok ==> Mirrors(holds)
      ensures !ok ==> pending == old(pending)
    {
      if !readable {
        return false;
      }
      var todo := holds.Keys;
      assert Mirrors(holds - todo);
      while todo != {}
        invariant todo <= holds.Keys
        invariant Mirrors(holds - todo)
      {
        var k :| k in todo;
        LoadRow(k, holds[k]);
        todo := todo - {k};
      }
      assert holds - {} == holds;
      ok := true;
    }

    predicate AppliedOpen(e: EntityId)
      reads this
    {
      e in applied && applied[e] == Unlocked
    }

    /** `_queue_release`: the union of held, already queued and currently resolved hubs. */
    method QueueRelease(e: EntityId, resolved: seq<HubId>)
      modifies `pending
      ensures forall x :: x != e ==> Get(pending, x) == old(Get(pending, x))
      ensures pending.Keys <= old(pending).Keys + {e}
      ensures forall h :: h in Get(pending, e) ==>
                h in old(Get(pending, e)) || h in Get(heldOpen, e) || h in Get(heldLocked, e)
                || h in Get(pairedHubs, e) || h in resolved
      ensures forall h :: h in old(Get(pending, e)) ==> h in Get(pending, e)
      ensures forall h :: h in Get(heldOpen, e) || h in Get(heldLocked, e) ==> h in Get(pending, e)
      ensures Get(heldOpen, e) != [] || Get(heldLocked, e) != [] || AppliedOpen(e) ==>
                forall h :: h in resolved ==> h in Get(pending, e)
      ensures AppliedOpen(e) ==> forall h :: h in Get(pairedHubs, e) ==> h in Get(pending, e)
    {
      var held := AppendUnique([], Get(heldOpen, e));
      held := AppendUnique(held, Get(heldLocked, e));
      assert Get(heldOpen, e) != [] ==> Get(heldOpen, e)[0] in held;
      assert Get(heldLocked, e) != [] ==> Get(heldLocked, e)[0] in held;
      var baselineUnlocked := AppliedOpen(e);
      if held == [] && !baselineUnlocked {
        assert forall h :: h !in Get(heldOpen, e) && h !in Get(heldLocked, e) by {
          assert forall h :: h in Get(heldOpen, e) || h in Get(heldLocked, e) ==> h in held;
        }
        return;
      }
      if baselineUnlocked {
        held := AppendUnique(held, Get(pairedHubs, e));
      }
      var hubs := AppendUnique(held, Get(pending, e));
      hubs := AppendUnique(hubs, resolved);
      if hubs == [] {
        assert forall h :: h in Get(pending, e) ==> h in hubs;
        return;
      }
      var queue := AppendUnique(Get(pending, e), hubs);
      pending := pending[e := queue];
    }

    /** Single use: the marker is deleted before its contents are believed. */
    method ConsumeMarker(a: Answers) returns (ids: set<EntityId>)
      modifies `marker
      ensures ids == Named(old(marker), a)
      ensures marker == if a.markerReadable && a.markerDeletable then None else old(marker)
    {
      if !a.markerReadable || marker == None {
        return {};
      }
      var raw := marker.value;
      if !a.markerDeletable {
        return {};
      }
      marker := None;
      if raw.Malformed? {
        return {};
      }
      var age := a.now - raw.ts;
      if age < -FUTURE_SKEW || age > MAX_AGE {
        return {};
      }
      ids := raw.preserved;
    }

    /** Readback of every hub held for one entity; the first doubt ends it. */
    method ConfirmHeldOpen(e: EntityId, a: Answers) returns (confirmed: bool)
      ensures confirmed <==> forall h :: h in Get(heldOpen, e) ==> ReadsHeldOpen(a.hub(Key(e, h)))
    {
      var hubs := Get(heldOpen, e);
      var i := 0;
      while i < |hubs|
        invariant 0 <= i <= |hubs|
        invariant forall j :: 0 <= j < i ==> ReadsHeldOpen(a.hub(Key(e, hubs[j])))
      {
        if !ReadsHeldOpen(a.hub(Key(e, hubs[i]))) {
          return false;
        }
        i := i + 1;
      }
      confirmed := true;
    }

    /** `_preserve_clean_holds`. */
    method PreserveCleanHolds(candidates: set<EntityId>, locks: LockTable, a: Answers) returns (kept: set<EntityId>)
      ensures kept == set e | e in candidates && e in locks.opted && Get(heldOpen, e) != [] && Get(heldLocked, e) == []
                                && a.haConnected && a.ha(e) == HaIs(Unlocked)
                                && (a.bidirectional ==>
                                      forall h :: h in Get(heldOpen, e) ==> ReadsHeldOpen(a.hub(Key(e, h))))
    {
      kept := {};
      var todo := candidates;
      while todo != {}
        invariant todo <= candidates
        invariant kept == set e | e in candidates - todo && e in locks.opted && Get(heldOpen, e) != []
                                    && Get(heldLocked, e) == [] && a.haConnected && a.ha(e) == HaIs(Unlocked)
                                    && (a.bidirectional ==>
                                          forall h :: h in Get(heldOpen, e) ==> ReadsHeldOpen(a.hub(Key(e, h))))
      {
        var e :| e in todo;
        todo := todo - {e};
        if e in locks.opted && Get(heldOpen, e) != [] && Get(heldLocked, e) == []
           && a.haConnected && a.ha(e) == HaIs(Unlocked)
        {
          var confirmed := true;
          if a.bidirectional {
            confirmed := ConfirmHeldOpen(e, a);
          }
          if confirmed {
            kept := kept + {e};
          }
        }
      }
    }

    /** The queueing loop of `recover`; an unreadable lock table resolves to no extra hubs. */
    method QueueAll(recovered: set<EntityId>, locks: Option<LockTable>)
      modifies `pending
      ensures pending.Keys <= old(pending).Keys + recovered
      ensures forall e, h :: h in old(Get(pending, e)) ==> h in Get(pending, e)
    {
      var todo := recovered;
      while todo != {}
        invariant todo <= recovered
        invariant pending.Keys <= old(pending).Keys + recovered
        invariant forall e, h :: h in old(Get(pending, e)) ==> h in Get(pending, e)
      {
        var e :| e in todo;
        QueueRelease(e, if locks.Some? then locks.value.resolved(e) else []);
        todo := todo - {e};
      }
    }

    /** The adopted set, read off memory, is the set the durable rows justify. */
    lemma AdoptedExactly(rows: map<Key, Override>, row: Option<MarkerRow>, a: Answers, adopted: set<EntityId>)
      requires Mirrors(rows)
      requires adopted == if Named(row, a) == {} || a.lockdown || a.locks.None? then {} else
                 set e | e in Named(row, a) * (heldOpen.Keys + heldLocked.Keys + pending.Keys)
                         && e in a.locks.value.opted
                         && Get(heldOpen, e) != [] && Get(heldLocked, e) == []
                         && a.haConnected && a.ha(e) == HaIs(Unlocked)
                         && (a.bidirectional ==> forall h :: h in Get(heldOpen, e) ==> ReadsHeldOpen(a.hub(Key(e, h))))
      ensures forall e :: e in adopted <==> Adoptable(rows, row, a, e)
    {
      forall e ensures e in adopted <==> Adoptable(rows, row, a, e) {
        var open, locked := Get(heldOpen, e), Get(heldLocked, e);
        assert open != [] <==> exists h :: h in open by {
          if open != [] { assert open[0] in open; }
        }
        assert locked != [] <==> exists h :: h in locked by {
          if locked != [] { assert locked[0] in locked; }
        }
        assert locked == [] <==> forall h: HubId :: Key(e, h) in rows ==> rows[Key(e, h)] == KeepUnlock;
      }
    }

    /** Re-adoption: the physical hold never went away, so it leaves the queue. */
    method Adopt(adopted: set<EntityId>)
      modifies `pending, `applied
      ensures forall e :: Get(pending, e) == if e in adopted then [] else old(Get(pending, e))
      ensures pending.Keys == old(pending).Keys - adopted
      ensures forall e :: e in adopted ==> e in applied && applied[e] == Unlocked
    {
      pending := map e | e in pending && e !in adopted :: pending[e];
      applied := map e | e in applied.Keys + adopted :: if e in adopted then Unlocked else applied[e];
    }

    /** The first half of `recover`: load, consume the marker, re-adopt. */
    method LoadAndAdopt(readable: bool, a: Answers)
      returns (ok: bool, adopted: set<EntityId>, rest: set<EntityId>)
      requires Fresh()
      modifies `heldOpen, `heldLocked, `pending, `marker, `applied, `recoveryComplete
      ensures ok == readable
      ensures !ok ==> adopted == rest == {} && marker == old(marker) && pending == map[]
      ensures ok ==> forall e :: e in adopted <==> Adoptable(holds, old(marker), a, e)
      ensures ok ==> marker == if a.markerReadable && a.markerDeletable then None else old(marker)
      ensures ok ==> forall e, h :: Key(e, h) in holds ==>
                h in if e in adopted then Get(heldOpen, e) else Get(pending, e)
      ensures pending.Keys <= rest && rest !! adopted
      ensures forall e :: e in adopted ==> e in applied && applied[e] == Unlocked
    {
      adopted, rest := {}, {};
      assert pending == map[];
      ok := LoadPersistedHolds(readable);
      if !ok {
        return;
      }
      recoveryComplete := true;
      var named := ConsumeMarker(a);
      var recovered := heldOpen.Keys + heldLocked.Keys + pending.Keys;
      if named != {} && !a.lockdown && a.locks.Some? {
        adopted := PreserveCleanHolds(named * recovered, a.locks.value, a);
      }
      AdoptedExactly(holds, old(marker), a, adopted);
      Adopt(adopted);
      rest := recovered - adopted;
    }

    /** The second half of `recover`: everything that is not re-adopted is queued and driven. */
    method ReleaseRest(rest: set<EntityId>, a: Answers)
      requires pending.Keys <= rest <= failSafe
      modifies `holds, `heldOpen, `heldLocked, `closed, `commanded, `deferred, `interrupted, `pending, `applied
      ensures pending.Keys <= rest && old(holds).Keys <= holds.Keys
      ensures forall h :: old(Accounted(h)) ==> Accounted(h)
      ensures interrupted || forall e, h :: h in old(Get(pending, e)) ==> Tried(h)
      ensures a.lockdown ==> interrupted == old(interrupted)
      ensures forall x :: x !in rest ==> Get(heldOpen, x) == old(Get(heldOpen, x))
      ensures forall x :: x !in rest ==>
                (x in applied <==> x in old(applied)) && (x in applied ==> applied[x] == old(applied)[x])
    {
      QueueAll(rest, a.locks);
      assert forall h :: old(Accounted(h)) ==> Accounted(h) by {
        forall h | old(Accounted(h)) ensures Accounted(h) {
          if h !in closed {
            var e :| h in old(Get(pending, e));
            assert h in Get(pending, e);
          }
        }
      }
      var _ := ProcessPendingReleases(a.lockdown);
    }

    /** `recover`.  Nothing durable is forgotten; the adopted entities are exactly the ones a
        fresh marker, the opt-in and both readbacks vouch for; and every other durably held
        hub ends up under a confirmed `keep_lock` or still queued to be closed. */
    method Recover(readable: bool, a: Answers) returns (ok: bool, adopted: set<EntityId>)
      requires Fresh() && closed == {}
      modifies this
      ensures ok == readable
      ensures !ok ==> adopted == {} && holds == old(holds) && marker == old(marker)
      ensures old(holds).Keys <= holds.Keys
      ensures ok ==> forall e :: e in adopted <==> Adoptable(old(holds), old(marker), a, e)
      ensures ok ==> forall k :: k in old(holds) && k.entity !in adopted ==> Accounted(k.hub)
      ensures ok && !interrupted ==> forall k :: k in old(holds) && k.entity !in adopted ==> Tried(k.hub)
      ensures a.lockdown ==> interrupted == old(interrupted) && adopted == {}
      ensures forall e :: e in adopted ==> e !in pending && e in applied && applied[e] == Unlocked
      ensures forall k :: k in old(holds) && k.entity in adopted ==> k.hub in Get(heldOpen, k.entity)
      ensures ok ==> marker == if a.markerReadable && a.markerDeletable then None else old(marker)
    {
      var rest;
      ok, adopted, rest := LoadAndAdopt(readable, a);
      if !ok {
        return;
      }
      failSafe := failSafe + rest;
      ghost var rows := holds;
      forall k | k in rows
        ensures k.hub in if k.entity in adopted then Get(heldOpen, k.entity) else Get(pending, k.entity)
      {
        assert k == Key(k.entity, k.hub);
      }
      assert forall k :: k in rows && k.entity !in adopted ==> Accounted(k.hub);
      ReleaseRest(rest, a);
    }
  }

  /** One process start: the rows that normal operation has deleted and written since the last
      start, the marker a clean shutdown wrote, if any, and everything the process is told. */
  datatype Start = Start(deleted: set<Key>, put: map<Key, Override>, written: Option<MarkerRow>,
                         readable: bool, answers: Answers)

  /** The durable state a process finds. */
  datatype Found = Found(holds: map<Key, Override>, marker: Option<MarkerRow>)

  function Operated(rows: map<Key, Override>, s: Start): (r: map<Key, Override>)
    ensures r.Keys == rows.Keys - s.deleted + s.put.Keys
  {
    (rows - s.deleted) + s.put
  }

  predicate MarkerWritten(starts: seq<Start>, after: int, upTo: int) {
    exists k :: 0 <= k < |starts| && after < k <= upTo && starts[k].written.Some?
  }

  /** A marker was written after every process that has adopted anything. */
  predicate MarkerSince(adopted: seq<set<EntityId>>, starts: seq<Start>, upTo: int) {
    forall i :: 0 <= i < |adopted| && adopted[i] != {} ==> MarkerWritten(starts, i, upTo)
  }

  /** And one between any two of them. */
  predicate MarkersBetween(adopted: seq<set<EntityId>>, starts: seq<Start>) {
    forall i, j :: 0 <= i < j < |adopted| && adopted[i] != {} && adopted[j] != {} ==> MarkerWritten(starts, i, j)
  }

  lemma MarkerReaches(adopted: seq<set<EntityId>>, starts: seq<Start>, n: nat)
    requires |adopted| == n < |starts|
    requires starts[n].written.Some? || MarkerSince(adopted, starts, n - 1)
    ensures MarkerSince(adopted, starts, n)
  {
    forall i | 0 <= i < n && adopted[i] != {} ensures MarkerWritten(starts, i, n) {
      if starts[n].written.None? {
        assert MarkerWritten(starts, i, n - 1);
      }
    }
  }

  lemma OneMoreAdoption(adopted: seq<set<EntityId>>, some: set<EntityId>, starts: seq<Start>)
    requires MarkersBetween(adopted, starts) && (some != {} ==> MarkerSince(adopted, starts, |adopted|))
    ensures MarkersBetween(adopted + [some], starts)
  {
  }

  /** What each process finds and adopts. */
  ghost predicate Justified(adopted: seq<set<EntityId>>, found: seq<Found>, starts: seq<Start>)
    requires |adopted| == |found| <= |starts|
  {
    forall n, e :: 0 <= n < |adopted| ==>
      (e in adopted[n] <==> starts[n].readable && Adoptable(found[n].holds, found[n].marker, starts[n].answers, e))
  }

  /** A row that one process found the next one finds, unless normal operation has deleted it. */
  predicate Inherited(holds: map<Key, Override>, found: seq<Found>, starts: seq<Start>)
    requires |found| <= |starts|
  {
    && (|found| > 0 ==> found[0].holds == Operated(holds, starts[0]))
    && forall n :: 0 < n < |found| ==>
         found[n - 1].holds.Keys - starts[n].deleted + starts[n].put.Keys <= found[n].holds.Keys
  }

  /** Any number of processes, one after the other, each on the rows its predecessor left after
      recovery and normal operation: every one of them adopts exactly what rows, marker and
      readings justify, and of two that adopt anything the later one found a marker written
      after the earlier one. */
  method RecoverAgainAndAgain(holds: map<Key, Override>, starts: seq<Start>)
    returns (adopted: seq<set<EntityId>>, found: seq<Found>)
    ensures |adopted| == |found| == |starts|
    ensures Justified(adopted, found, starts) && Inherited(holds, found, starts)
    ensures MarkersBetween(adopted, starts)
  {
    adopted, found := [], [];
    var rows, marker := holds, None;
    while |adopted| < |starts|
      invariant |adopted| == |found| <= |starts|
      invariant Justified(adopted, found, starts)
      invariant Inherited(holds, found, starts)
      invariant if |found| > 0 then found[|found| - 1].holds.Keys <= rows.Keys else rows == holds
      invariant MarkersBetween(adopted, starts)
      invariant marker.Some? ==> MarkerSince(adopted, starts, |adopted| - 1)
    {
      var n := |adopted|;
      rows := Operated(rows, starts[n]);
      if starts[n].written.Some? {
        marker := starts[n].written;
      }
      if marker.Some? {
        MarkerReaches(adopted, starts, n);
      }
      found := found + [Found(rows, marker)];
      var some: set<EntityId>;
      rows, marker, some := RecoverOnce(rows, marker, starts[n].readable, starts[n].answers);
      OneMoreAdoption(adopted, some, starts);
      adopted := adopted + [some];
    }
  }

  /** One process on the durable state it finds; adopting anything uses the marker up. */
  method RecoverOnce(holds: map<Key, Override>, marker: Option<MarkerRow>, readable: bool, a: Answers)
    returns (rows: map<Key, Override>, left: Option<MarkerRow>, adopted: set<EntityId>)
    ensures holds.Keys <= rows.Keys
    ensures readable ==> forall e :: e in adopted <==> Adoptable(holds, marker, a, e)
    ensures !readable ==> adopted == {}
    ensures adopted != {} ==> marker.Some? && left == None
    ensures left.Some? ==> left == marker
  {
    var manager := new HubSyncManager(holds, marker);
    var ok;
    ok, adopted := manager.Recover(readable, a);
    rows, left := manager.holds, manager.marker;
    if adopted != {} {
      var e :| e in adopted;
      assert Adoptable(holds, marker, a, e);
    }
  }
}
