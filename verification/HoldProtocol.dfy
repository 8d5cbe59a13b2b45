/** Write-ahead ownership of persistent Access rules.

    A hub put under `keep_unlock` or `keep_lock` stays there until somebody replaces the
    rule, so the manager journals ownership in `hub_sync_holds` before it issues the
    command and forgets it only afterwards.  This module is the protocol as a state
    machine: one action for every stretch of code between two awaits, an external actor
    that may replace any rule at any moment, commands that may fail before or after taking
    effect, database writes that may fail, and a crash that drops memory. */
module HoldProtocol {

  type EntityId = nat
  type HubId = nat

  datatype Key = Key(entity: EntityId, hub: HubId)

  datatype Override = KeepUnlock | KeepLock

  /** Rule types the Access controller reports. */
  datatype RuleType = TypeKeepUnlock | TypeKeepLock | TypeLockNow | TypeNative | TypeSchedule | TypeCustom

  /** The rule a hub is under, with its provenance.  `AppHold` was issued by the manager on
      behalf of `owner`; `journaled` says whether the row was written first and `byLockdown`
      whether lockdown enforcement issued it. */
  datatype Rule =
    | AppHold(owner: EntityId, hold: Override, journaled: bool, byLockdown: bool)
    | Plain(kind: RuleType)

  /** What a readback shows: the type, without the provenance. */
  function ReadType(r: Rule): RuleType {
    match r
    case AppHold(_, KeepUnlock, _, _) => TypeKeepUnlock
    case AppHold(_, KeepLock, _, _) => TypeKeepLock
    case Plain(t) => t
  }

  // ---------------------------------------------------------------------------
  // Choosing a command
  // ---------------------------------------------------------------------------

  datatype Command = HoldUnlocked | HoldLocked | ForceLock | ReleasePersistent | RestoreNative

  /** The branch chain of `_drive_hub_coordinated`. */
  function SelectCommand(unlock: bool, forceTransient: bool, releasePersistent: bool,
                         restoreNative: bool, enforcing: bool, failSafe: bool): Command
  {
    if unlock then HoldUnlocked
    else if forceTransient then ForceLock
    else if releasePersistent then ReleasePersistent
    else if restoreNative then RestoreNative
    else if enforcing || failSafe then HoldLocked
    else ForceLock
  }

  /** Command for the locked direction of `_apply_state`; `recorded` is the outcome of the
      write-ahead attempt. */
  function ApplyCommand(enforcing: bool, failSafe: bool, recorded: bool, ownsLocked: bool): Command {
    var requested := enforcing || failSafe;
    SelectCommand(false, requested && !recorded && !enforcing, ownsLocked && !requested, false, enforcing, failSafe)
  }

  /** Command for one queued hub in `_process_pending_releases`. */
  function ReleaseCommand(enforcing: bool, latched: bool, recorded: bool): Command {
    var persistent := enforcing || latched;
    SelectCommand(false, persistent && !recorded && !enforcing, false, !persistent, enforcing, persistent && recorded)
  }

  /** Command for a hub that two entities claim. */
  function SharedCommand(recorded: bool): Command {
    SelectCommand(false, !recorded, false, false, false, recorded)
  }

  /** The rule in force once a command has taken effect. */
  function RuleAfter(c: Command, e: EntityId, recorded: bool, enforcing: bool): Rule {
    match c
    case HoldUnlocked => AppHold(e, KeepUnlock, recorded, enforcing)
    case HoldLocked => AppHold(e, KeepLock, recorded, enforcing)
    case ForceLock => Plain(TypeLockNow)
    case ReleasePersistent => Plain(TypeLockNow)
    case RestoreNative => Plain(TypeNative)
  }

  // ---------------------------------------------------------------------------
  // States and actions
  // ---------------------------------------------------------------------------

  datatype Memory = Memory(
    open: set<Key>,          // _held_open
    locked: set<Key>,        // _held_locked
    pending: set<Key>,       // _pending_release
    latch: set<EntityId>,    // _fail_safe_reset_eids
    loaded: bool)            // _recovery_complete

  const Blank := Memory({}, {}, {}, {}, false)

  /** Where the holder of the poll lock is suspended. */
  datatype Control =
    | Idle
    | Recovering
    | Opening(key: Key)
    | Closing(key: Key, command: Command, recorded: bool, enforcing: bool, forget: bool, queued: bool)
    | Confirmed(key: Key, queued: bool)
    | Superseded(key: Key)
    | Dropping(entity: EntityId)

  datatype System = System(rows: map<Key, Override>, rules: map<HubId, Rule>, mem: Memory, pc: Control)

  function RuleOf(s: System, h: HubId): Rule {
    if h in s.rules then s.rules[h] else Plain(TypeNative)
  }

  datatype Action =
    | External(hub: HubId, kind: RuleType)
    | Crash
    | Load
    | Recover(adopted: set<EntityId>)
    | BeginOpen(key: Key, written: bool)
    | AbortOpen
    | IssueOpen(effect: bool)
    | BeginApply(key: Key, enforcing: bool, failSafe: bool, written: bool)
    | BeginRelease(key: Key, enforcing: bool, written: bool)
    | BeginShared(key: Key, others: set<EntityId>, othersWritten: bool, written: bool)
    | IssueClose(effect: bool, confirmed: bool, retry: bool)
    | Forget(written: bool)
    | Observe(key: Key)
    | ForgetSuperseded(written: bool)
    | QueueRelease(entity: EntityId, resolved: set<HubId>, drop: bool)
    | Drop
    | SetLatch(entity: EntityId, on: bool)
    | JournalCut(key: Key, hold: Override)   // cancelled behind the commit of a row
    | ForgetCut                              // cancelled behind the deletion of a row

  /** `_record_hub_state(…, "unlocked")`: the row first, then the two ownership lists. */
  function JournalOpen(s: System, k: Key): System {
    s.(rows := s.rows[k := KeepUnlock],
       mem := s.mem.(open := s.mem.open + {k}, locked := s.mem.locked - {k}))
  }

  /** `_record_hub_state(…, "locked", persistent_lock=True)`. */
  function JournalLocked(s: System, k: Key): System {
    s.(rows := s.rows[k := KeepLock],
       mem := s.mem.(locked := s.mem.locked + {k}, open := s.mem.open - {k}))
  }

  /** `_record_hub_state(…, "locked")`: forget ownership. */
  function ForgetRow(s: System, k: Key): System {
    s.(rows := s.rows - {k},
       mem := s.mem.(open := s.mem.open - {k}, locked := s.mem.locked - {k}))
  }

  function JournalAll(s: System, h: HubId, owners: set<EntityId>): System {
    var keys := set e | e in owners :: Key(e, h);
    s.(rows := map k | k in s.rows.Keys + keys :: if k in keys then KeepLock else s.rows[k],
       mem := s.mem.(locked := s.mem.locked + keys, open := s.mem.open - keys))
  }

  function KeysOf(e: EntityId, keys: set<Key>): set<Key> {
    set k | k in keys && k.entity == e
  }

  /** The guard of the supersession test in `_observe_access_side`. */
  predicate LooksSuperseded(s: System, k: Key) {
    var t := ReadType(RuleOf(s, k.hub));
    || (k in s.mem.open && t != TypeKeepUnlock)
    || (k in s.mem.locked && t != TypeKeepLock)
  }

  /** Row types as `_load_persisted_holds` reads them. */
  function Loaded(s: System): Memory {
    s.mem.(open := s.mem.open + (set k | k in s.rows && s.rows[k] == KeepUnlock),
           locked := s.mem.locked + (set k | k in s.rows && s.rows[k] == KeepLock),
           pending := s.mem.pending + s.rows.Keys,
           loaded := true)
  }

  predicate Enabled(s: System, a: Action) {
    match a
    case External(_, _) => true
    case Crash => true
    case Load => s.pc == Idle
    case Recover(_) => s.pc == Recovering
    case BeginOpen(_, _) => s.pc == Idle && s.mem.loaded
    case AbortOpen => s.pc.Opening?
    case IssueOpen(_) => s.pc.Opening?
    case BeginApply(_, _, _, _) => s.pc == Idle && s.mem.loaded
    case BeginRelease(k, _, _) => s.pc == Idle && s.mem.loaded && k in s.mem.pending
    case BeginShared(_, _, _, _) => s.pc == Idle && s.mem.loaded
    case IssueClose(effect, confirmed, _) => s.pc.Closing? && (confirmed ==> effect)
    case Forget(_) => s.pc.Confirmed?
    case Observe(k) => s.pc == Idle && s.mem.loaded && LooksSuperseded(s, k)
    case ForgetSuperseded(_) => s.pc.Superseded?
    case QueueRelease(_, _, _) => s.pc == Idle && s.mem.loaded
    case Drop => s.pc.Dropping?
    case SetLatch(_, _) => true
    case JournalCut(_, _) => s.pc == Idle && s.mem.loaded
    case ForgetCut => s.pc.Confirmed? || s.pc.Superseded?
  }

  function Next(s: System, a: Action): System
    requires Enabled(s, a)
  {
    match a
    case External(h, t) => s.(rules := s.rules[h := Plain(t)])
    case Crash => s.(mem := Blank, pc := Idle)
    case Load => s.(mem := Loaded(s), pc := Recovering)
    case Recover(adopted) =>
      // Re-adopted entities leave the release queue; everyone else is latched.
      var queued := set k | k in s.mem.pending && k.entity !in adopted;
      s.(mem := s.mem.(pending := queued, latch := s.mem.latch + (set k | k in queued :: k.entity)),
         pc := Idle)
    case BeginOpen(k, written) =>
      if written then JournalOpen(s, k).(pc := Opening(k)) else s
    case AbortOpen => s.(pc := Idle)
    case IssueOpen(effect) =>
      var k := s.pc.key;
      s.(rules := if effect then s.rules[k.hub := RuleAfter(HoldUnlocked, k.entity, true, false)] else s.rules,
         pc := Idle)
    case BeginApply(k, enforcing, failSafe, written) =>
      var requested := enforcing || failSafe;
      var recorded := requested && written;
      var c := ApplyCommand(enforcing, failSafe, recorded, k in s.mem.locked);
      var s1 := if recorded then JournalLocked(s, k) else s;
      s1.(pc := Closing(k, c, recorded, enforcing, !requested, false))
    case BeginRelease(k, enforcing, written) =>
      var latched := k.entity in s.mem.latch;
      var persistent := enforcing || latched;
      var recorded := persistent && written;
      var c := ReleaseCommand(enforcing, latched, recorded);
      var s1 := if recorded then JournalLocked(s, k) else s;
      s1.(pc := Closing(k, c, recorded, enforcing, !persistent, true))
    case BeginShared(k, others, othersWritten, written) =>
      var s1 := if written then JournalLocked(s, k) else s;
      var s2 := if othersWritten then JournalAll(s1, k.hub, others) else s1;
      var recorded := written && othersWritten;
      s2.(pc := Closing(k, SharedCommand(recorded), recorded, false, false, false),
          mem := s2.mem.(latch := s2.mem.latch + {k.entity} + others))
    case IssueClose(effect, confirmed, retry) =>
      var p := s.pc;
      var rules := if effect
                   then s.rules[p.key.hub := RuleAfter(p.command, p.key.entity, p.recorded, p.enforcing)]
                   else s.rules;
      if confirmed then
        if p.forget then s.(rules := rules, pc := Confirmed(p.key, p.queued))
        else if p.queued && p.recorded then
          s.(rules := rules, pc := Idle, mem := s.mem.(pending := s.mem.pending - {p.key}))
        else s.(rules := rules, pc := Idle)
      else s.(rules := rules, pc := if retry then p else Idle)
    case Forget(written) =>
      var p := s.pc;
      if written then
        var s1 := ForgetRow(s, p.key);
        s1.(pc := Idle, mem := if p.queued then s1.mem.(pending := s1.mem.pending - {p.key}) else s1.mem)
      else s.(pc := Idle)
    case Observe(k) => s.(pc := Superseded(k))
    case ForgetSuperseded(written) =>
      if written then ForgetRow(s, s.pc.key).(pc := Idle) else s.(pc := Idle)
    case QueueRelease(e, resolved, drop) =>
      // `_queue_release` returns early only when nothing of the entity is held.
      var held := KeysOf(e, s.mem.open + s.mem.locked);
      s.(mem := s.mem.(pending := s.mem.pending + held + (set h | h in resolved :: Key(e, h))),
         pc := if drop then Dropping(e) else Idle)
    case Drop =>
      var e := s.pc.entity;
      s.(mem := s.mem.(open := s.mem.open - KeysOf(e, s.mem.open),
                       locked := s.mem.locked - KeysOf(e, s.mem.locked),
                       latch := s.mem.latch - {e}),
         pc := Idle)
    case SetLatch(e, on) =>
      s.(mem := s.mem.(latch := if on then s.mem.latch + {e} else s.mem.latch - {e}))
    case JournalCut(k, hold) => s.(rows := s.rows[k := hold])
    case ForgetCut => s.(rows := s.rows - {s.pc.key}, pc := Idle)
  }

  // ---------------------------------------------------------------------------
  // Safety
  // ---------------------------------------------------------------------------

  /** An app hold that owes no row: a `keep_lock` that lockdown enforcement issued although
      its row could not be written. */
  predicate Excused(r: Rule) {
    r.AppHold? && r.hold == KeepLock && !r.journaled && r.byLockdown
  }

  predicate OwnsRow(s: System, h: HubId) {
    var r := RuleOf(s, h);
    r.AppHold? && !Excused(r) ==> Key(r.owner, h) in s.rows
  }

  /** Every hub under an app-issued hold is accounted for in the table. */
  ghost predicate Safe(s: System) {
    forall h: HubId :: OwnsRow(s, h)
  }

  /** Once a process has loaded the table, no row is out of its sight. */
  predicate Tracked(s: System) {
    s.mem.loaded ==> s.rows.Keys <= s.mem.open + s.mem.locked + s.mem.pending
  }

  predicate HeldFor(s: System, k: Key) {
    var r := RuleOf(s, k.hub);
    r.AppHold? && r.owner == k.entity && !Excused(r)
  }

  /** What each suspension point promises about the world. */
  predicate ControlOk(s: System) {
    match s.pc
    case Opening(k) => k in s.rows
    case Closing(k, c, recorded, enforcing, forget, _) =>
      && (recorded ==> k in s.rows)
      && c != HoldUnlocked
      && (c == HoldLocked ==> recorded || enforcing)
      && (forget ==> c != HoldLocked)
    case Confirmed(k, _) => !HeldFor(s, k)
    case _ => true
  }

  predicate TrackControl(s: System) {
    && Tracked(s)
    && (s.pc.Recovering? ==> s.rows.Keys <= s.mem.open + s.mem.locked)
    && (s.pc.Closing? && s.pc.recorded ==> s.pc.key in s.mem.locked)
    && (s.pc.Dropping? ==> KeysOf(s.pc.entity, s.mem.open + s.mem.locked) <= s.mem.pending)
  }

  ghost predicate Inv(s: System) {
    Safe(s) && ControlOk(s)
  }

  /** The one action that breaks `Safe`: the supersession branch deletes the row of a hub
      that is still under this entity's own earlier hold.  That happens when a replacement
      hold was journaled but its command never took effect, so the rule read back differs
      from the journaled one although nobody superseded anything. */
  predicate ClearsOwnHold(s: System, a: Action) {
    (a == ForgetSuperseded(true) || a == ForgetCut) && s.pc.Superseded? && HeldFor(s, s.pc.key)
  }

  /** A hold may only be commanded after its row, or by lockdown enforcement. */
  lemma HoldsAreWriteAhead(enforcing: bool, failSafe: bool, recorded: bool, flag: bool)
    ensures ApplyCommand(enforcing, failSafe, (enforcing || failSafe) && recorded, flag) == HoldLocked
            <==> (enforcing || (failSafe && recorded))
    ensures ReleaseCommand(enforcing, flag, (enforcing || flag) && recorded) == HoldLocked
            <==> (enforcing || (flag && recorded))
    ensures SharedCommand(recorded) == HoldLocked <==> recorded
    ensures ReleaseCommand(enforcing, flag, (enforcing || flag) && recorded) == RestoreNative
            <==> !(enforcing || flag)
  {
  }

  lemma StepKeepsInv(s: System, a: Action)
    requires Inv(s) && Enabled(s, a) && !ClearsOwnHold(s, a)
    ensures Inv(Next(s, a))
  {
    var t := Next(s, a);
    forall h: HubId ensures OwnsRow(t, h) {
      assert OwnsRow(s, h);
    }
  }

  /** The one step that leaves a row out of sight: its call was cancelled behind the commit, and
      the key was in no list yet. */
  predicate LosesTrack(s: System, a: Action) {
    a.JournalCut? && a.key !in s.mem.open + s.mem.locked + s.mem.pending
  }

  lemma StepKeepsTracked(s: System, a: Action)
    requires TrackControl(s) && Enabled(s, a) && !LosesTrack(s, a)
    ensures TrackControl(Next(s, a))
  {
  }

  /** Every reload, at startup, at shutdown and at the start of an incident, finds lost rows. */
  lemma ReloadTracksEverything(s: System)
    requires Enabled(s, Load)
    ensures TrackControl(Next(s, Load))
  {
  }

  // ---------------------------------------------------------------------------
  // Runs
  // ---------------------------------------------------------------------------

  ghost predicate Init(s: System) {
    s.rows == map[] && s.mem == Blank && s.pc == Idle && forall h: HubId :: RuleOf(s, h).Plain?
  }

  ghost predicate IsRun(states: seq<System>, actions: seq<Action>) {
    && |states| == |actions| + 1
    && Init(states[0])
    && forall i :: 0 <= i < |actions| ==> Enabled(states[i], actions[i]) && states[i + 1] == Next(states[i], actions[i])
  }

  lemma {:induction false} StaysTracked(states: seq<System>, actions: seq<Action>, i: nat, j: nat)
    requires IsRun(states, actions) && i <= j < |states| && TrackControl(states[i])
    requires forall k :: i <= k < j ==> !LosesTrack(states[k], actions[k])
    ensures TrackControl(states[j])
    decreases j - i
  {
    if i < j {
      StaysTracked(states, actions, i, j - 1);
      StepKeepsTracked(states[j - 1], actions[j - 1]);
    }
  }

  /** Whatever failed and wherever the process crashed: from the start of a run or any reload
      on, a loaded manager tracks every durable row in every state if and only if no journal
      write of a key it had not listed was cut behind its commit. */
  lemma RowsAreTrackedIff(states: seq<System>, actions: seq<Action>, i: nat, j: nat)
    requires IsRun(states, actions) && i <= j < |states| && (i == 0 || actions[i - 1] == Load)
    ensures (forall k :: i <= k <= j ==> Tracked(states[k]))
            <==> (forall k :: i <= k < j ==> !LosesTrack(states[k], actions[k]))
  {
    if i > 0 {
      ReloadTracksEverything(states[i - 1]);
    }
    if forall k :: i <= k < j ==> !LosesTrack(states[k], actions[k]) {
      forall k | i <= k <= j ensures Tracked(states[k]) {
        StaysTracked(states, actions, i, k);
      }
    } else {
      var k :| i <= k < j && LosesTrack(states[k], actions[k]);
      assert actions[k].key in states[k + 1].rows.Keys;
      assert !Tracked(states[k + 1]);
    }
  }

  lemma {:induction false} InvAlongRun(states: seq<System>, actions: seq<Action>, i: nat)
    requires IsRun(states, actions) && i < |states|
    requires forall j :: 0 <= j < |actions| ==> !ClearsOwnHold(states[j], actions[j])
    ensures Inv(states[i])
    decreases i
  {
    if i == 0 {
      forall h: HubId ensures OwnsRow(states[0], h) { assert RuleOf(states[0], h).Plain?; }
    } else {
      InvAlongRun(states, actions, i - 1);
      StepKeepsInv(states[i - 1], actions[i - 1]);
    }
  }

  lemma ClearingOwnHoldIsUnsafe(s: System, a: Action)
    requires Enabled(s, a) && ClearsOwnHold(s, a)
    ensures !Safe(Next(s, a))
  {
    var t := Next(s, a);
    var h := s.pc.key.hub;
    assert RuleOf(t, h) == RuleOf(s, h);
    assert !OwnsRow(t, h);
  }

  /** Exactly when a run keeps every app-issued hold journaled: it does so in every state if
      and only if the supersession branch never deletes the row of the entity's own hold. */
  lemma HoldsAreJournaledIff(states: seq<System>, actions: seq<Action>)
    requires IsRun(states, actions)
    ensures (forall i :: 0 <= i < |states| ==> Safe(states[i]))
            <==> (forall i :: 0 <= i < |actions| ==> !ClearsOwnHold(states[i], actions[i]))
  {
    if forall i :: 0 <= i < |actions| ==> !ClearsOwnHold(states[i], actions[i]) {
      forall i | 0 <= i < |states| ensures Safe(states[i]) {
        InvAlongRun(states, actions, i);
      }
    } else {
      var i :| 0 <= i < |actions| && ClearsOwnHold(states[i], actions[i]);
      ClearingOwnHoldIsUnsafe(states[i], actions[i]);
      assert states[i + 1] == Next(states[i], actions[i]);
      assert !Safe(states[i + 1]);
    }
  }

  ghost function Last(states: seq<System>): System
    requires |states| > 0
  {
    states[|states| - 1]
  }

  lemma ExtendRun(states: seq<System>, actions: seq<Action>, a: Action) returns (more: seq<System>, also: seq<Action>)
    requires IsRun(states, actions) && Enabled(Last(states), a)
    ensures IsRun(more, also) && Last(more) == Next(Last(states), a)
    ensures also == actions + [a] && more[..|states|] == states
  {
    more, also := states + [Next(Last(states), a)], actions + [a];
  }

  const RECOVERED := System(map[], map[], Blank.(loaded := true), Idle)

  lemma EmptyRecovery() returns (states: seq<System>, actions: seq<Action>)
    ensures IsRun(states, actions) && actions == [Load, Recover({})] && Last(states) == RECOVERED
  {
    states, actions := ExtendRun([System(map[], map[], Blank, Idle)], [], Load);
    assert Last(states) == RECOVERED.(pc := Recovering);
    states, actions := ExtendRun(states, actions, Recover({}));
  }

  /** Tracking does break: a lockdown request journals its first `keep_lock` of a hub and is
      cancelled behind the commit.  The running process has the row in no list until the next
      reload puts it there. */
  lemma LostRow(e: EntityId, h: HubId) returns (states: seq<System>, actions: seq<Action>)
    ensures IsRun(states, actions) && actions == [Load, Recover({}), JournalCut(Key(e, h), KeepLock), Load]
    ensures LosesTrack(states[2], actions[2]) && !Tracked(states[3])
    ensures states[3] == RECOVERED.(rows := map[Key(e, h) := KeepLock])
    ensures Tracked(Last(states))
  {
    var before, steps := EmptyRecovery();
    var cut, also := ExtendRun(before, steps, JournalCut(Key(e, h), KeepLock));
    assert Last(cut) == RECOVERED.(rows := map[Key(e, h) := KeepLock]);
    assert Key(e, h) in Last(cut).rows.Keys;
    ReloadTracksEverything(Last(cut));
    states, actions := ExtendRun(cut, also, Load);
    assert states[3] == Last(cut) && states[2] == Last(before);
  }

  predicate Unobserved(actions: seq<Action>) {
    forall i :: 0 <= i < |actions| ==> !actions[i].Observe?
  }

  lemma OpenHold(e: EntityId, h: HubId) returns (states: seq<System>, actions: seq<Action>)
    ensures IsRun(states, actions) && Unobserved(actions)
    ensures Last(states) == System(map[Key(e, h) := KeepUnlock], map[h := AppHold(e, KeepUnlock, true, false)],
                                   Memory({Key(e, h)}, {}, {}, {}, true), Idle)
  {
    var k := Key(e, h);
    states, actions := EmptyRecovery();
    states, actions := ExtendRun(states, actions, BeginOpen(k, true));
    assert Last(states) == System(map[k := KeepUnlock], map[], Memory({k}, {}, {}, {}, true), Opening(k));
    states, actions := ExtendRun(states, actions, IssueOpen(true));
  }

  lemma FailToClose(e: EntityId, h: HubId) returns (states: seq<System>, actions: seq<Action>)
    ensures IsRun(states, actions) && Unobserved(actions)
    ensures Last(states) == System(map[Key(e, h) := KeepLock], map[h := AppHold(e, KeepUnlock, true, false)],
                                   Memory({}, {Key(e, h)}, {}, {e}, true), Idle)
  {
    var k := Key(e, h);
    states, actions := OpenHold(e, h);
    states, actions := ExtendRun(states, actions, SetLatch(e, true));
    assert Last(states).mem == Memory({k}, {}, {}, {e}, true);
    states, actions := ExtendRun(states, actions, BeginApply(k, false, true, true));
    assert Last(states).rows == map[k := KeepLock];
    assert Last(states).mem == Memory({}, {k}, {}, {e}, true);
    states, actions := ExtendRun(states, actions, IssueClose(false, false, false));
  }

  /** The failing family, shown on its shortest member.  A door is held open, HA becomes
      untrusted, the fail-safe `keep_lock` is journaled but its command is rejected; the next
      observation reads the manager's own `keep_unlock`, takes it for a replacement and
      deletes the row.  A crash now leaves the door held open, and the recovery that follows
      has nothing to close. */
  lemma StrandedOpenDoor(e: EntityId, h: HubId) returns (states: seq<System>, actions: seq<Action>)
    ensures IsRun(states, actions)
    ensures RuleOf(Last(states), h) == AppHold(e, KeepUnlock, true, false)
    ensures Last(states).rows == map[] && Last(states).pc == Idle
    ensures Last(states).mem.loaded && Last(states).mem.pending == {}
    ensures !Safe(Last(states))
  {
    states, actions := FailToClose(e, h);
    states, actions := ExtendRun(states, actions, Observe(Key(e, h)));
    states, actions := ExtendRun(states, actions, ForgetSuperseded(true));
    assert Last(states).rows == map[];
    states, actions := ExtendRun(states, actions, Crash);
    states, actions := ExtendRun(states, actions, Load);
    states, actions := ExtendRun(states, actions, Recover({}));
    assert !OwnsRow(Last(states), h);
  }

  predicate ReadsHold(s: System, k: Key) {
    ReadType(RuleOf(s, k.hub)) in {TypeKeepUnlock, TypeKeepLock}
  }

  lemma {:induction false} SupersededStaysPlain(states: seq<System>, actions: seq<Action>, i: nat)
    requires IsRun(states, actions) && i < |states|
    requires forall j :: 0 <= j < |actions| && actions[j].Observe? ==> !ReadsHold(states[j], actions[j].key)
    ensures states[i].pc.Superseded? ==> RuleOf(states[i], states[i].pc.key.hub).Plain?
    decreases i
  {
    if i > 0 {
      SupersededStaysPlain(states, actions, i - 1);
      assert states[i] == Next(states[i - 1], actions[i - 1]);
    }
  }

  /** A check the observer can make on its own: if it forgets ownership only when the rule it
      reads is not a persistent hold, every hold stays journaled in every run. */
  lemma SafeWhenOnlyPlainRulesSupersede(states: seq<System>, actions: seq<Action>)
    requires IsRun(states, actions)
    requires forall j :: 0 <= j < |actions| && actions[j].Observe? ==> !ReadsHold(states[j], actions[j].key)
    ensures forall i :: 0 <= i < |states| ==> Safe(states[i])
  {
    forall i | 0 <= i < |actions| ensures !ClearsOwnHold(states[i], actions[i]) {
      SupersededStaysPlain(states, actions, i);
    }
    HoldsAreJournaledIff(states, actions);
  }

  // ---------------------------------------------------------------------------
  // Which supersession test would be safe
  // ---------------------------------------------------------------------------

  /** The supersession test with an extra condition on the journaled override and the type read
      back; the code's own test is the one whose condition is always true. */
  predicate Clears(s: System, k: Key, test: (Override, RuleType) -> bool) {
    var t := ReadType(RuleOf(s, k.hub));
    || (k in s.mem.open && t != TypeKeepUnlock && test(KeepUnlock, t))
    || (k in s.mem.locked && t != TypeKeepLock && test(KeepLock, t))
  }

  /** Every observation of the run that led to a deletion passed the test. */
  ghost predicate Guarded(states: seq<System>, actions: seq<Action>, test: (Override, RuleType) -> bool) {
    && |states| == |actions| + 1
    && forall i :: 0 <= i < |actions| && actions[i].Observe? ==> Clears(states[i], actions[i].key, test)
  }

  ghost predicate AllSafe(states: seq<System>) {
    forall i :: 0 <= i < |states| ==> Safe(states[i])
  }

  /** The close succeeds at the second attempt and its latch is released on sight. */
  lemma CloseAfterAll(e: EntityId, h: HubId) returns (states: seq<System>, actions: seq<Action>)
    ensures IsRun(states, actions) && Unobserved(actions)
    ensures Last(states) == System(map[Key(e, h) := KeepLock], map[h := AppHold(e, KeepLock, true, false)],
                                   Memory({}, {Key(e, h)}, {}, {}, true), Idle)
  {
    var k := Key(e, h);
    states, actions := FailToClose(e, h);
    states, actions := ExtendRun(states, actions, BeginApply(k, false, true, true));
    assert Last(states).rows == map[k := KeepLock] && Last(states).mem == Memory({}, {k}, {}, {e}, true);
    states, actions := ExtendRun(states, actions, IssueClose(true, true, false));
    assert Last(states).rules == map[h := AppHold(e, KeepLock, true, false)];
    states, actions := ExtendRun(states, actions, SetLatch(e, false));
  }

  /** The mirror image of a failed close: a `keep_lock` is in force, the row already says
      `keep_unlock`, and the command that should have opened the door never took effect. */
  lemma FailToOpen(e: EntityId, h: HubId) returns (states: seq<System>, actions: seq<Action>)
    ensures IsRun(states, actions) && Unobserved(actions)
    ensures Last(states) == System(map[Key(e, h) := KeepUnlock], map[h := AppHold(e, KeepLock, true, false)],
                                   Memory({Key(e, h)}, {}, {}, {}, true), Idle)
  {
    var k := Key(e, h);
    states, actions := CloseAfterAll(e, h);
    states, actions := ExtendRun(states, actions, BeginOpen(k, true));
    assert Last(states).rows == map[k := KeepUnlock] && Last(states).mem == Memory({k}, {}, {}, {}, true);
    states, actions := ExtendRun(states, actions, IssueOpen(false));
  }

  lemma MistakeIsUnsafe(before: seq<System>, steps: seq<Action>, k: Key, test: (Override, RuleType) -> bool)
    returns (states: seq<System>, actions: seq<Action>)
    requires IsRun(before, steps) && Unobserved(steps)
    requires Last(before).pc == Idle && Last(before).mem.loaded
    requires LooksSuperseded(Last(before), k) && Clears(Last(before), k, test) && HeldFor(Last(before), k)
    ensures IsRun(states, actions) && Guarded(states, actions, test) && !AllSafe(states)
  {
    var mid, also := ExtendRun(before, steps, Observe(k));
    assert ClearsOwnHold(Last(mid), ForgetSuperseded(true));
    states, actions := ExtendRun(mid, also, ForgetSuperseded(true));
    ClearingOwnHoldIsUnsafe(Last(mid), ForgetSuperseded(true));
    assert Last(states) == states[|states| - 1];
    forall i | 0 <= i < |actions| && actions[i].Observe? ensures Clears(states[i], actions[i].key, test) {
      assert i == |steps|;
      assert states[i] == mid[i] == before[i];
    }
  }

  /** Exactly which tests are safe in all runs: those that never take one persistent hold for
      the replacement of the other. */
  lemma SupersessionTestIsSafeIff(test: (Override, RuleType) -> bool)
    ensures (forall states, actions :: IsRun(states, actions) && Guarded(states, actions, test) ==> AllSafe(states))
            <==> !test(KeepLock, TypeKeepUnlock) && !test(KeepUnlock, TypeKeepLock)
  {
    if test(KeepLock, TypeKeepUnlock) {
      var states, actions := FailToClose(0, 0);
      states, actions := MistakeIsUnsafe(states, actions, Key(0, 0), test);
    } else if test(KeepUnlock, TypeKeepLock) {
      var states, actions := FailToOpen(0, 0);
      states, actions := MistakeIsUnsafe(states, actions, Key(0, 0), test);
    } else {
      forall states, actions | IsRun(states, actions) && Guarded(states, actions, test) ensures AllSafe(states) {
        SafeWhenOnlyPlainRulesSupersede(states, actions);
      }
    }
  }
}
