/** The incident ledger under one controller at a time: detection, claims and actions, the
    controller lease with its hard tenure cap, and the kill switch.
 */
module Incidents {
  import opened Wrappers
  import opened IncidentRow

  // The controller lease file.
  datatype Lease = Lease(session: string, claimedAt: int, maxRuntimeExpiresAt: int, leaseExpiresAt: int)

  datatype Ledger = Ledger(disabled: bool, lease: Option<Lease>, rows: map<Key, Row>)

  datatype Observation = Observation(key: Key, fingerprint: string)

  datatype Command =
    | Detect(observed: seq<Observation>)
    | ClaimIncident(key: Key, controller: string, ttl: int)
    | Act(key: Key, controller: string, action: Action)
    | ControllerClaim(session: string, ttl: int)
    | ControllerHeartbeat(session: string, ttl: int)
    | ControllerRelease(session: string)
    | KillSwitch(on: bool)

  // ---------------------------------------------------------------- the lease

  function Deadline(limits: Limits, lease: Lease): int {
    if lease.maxRuntimeExpiresAt != 0 then lease.maxRuntimeExpiresAt else lease.claimedAt + limits.maxRuntimeMs
  }

  function Min(a: int, b: int): int { if a < b then a else b }
  function Max(a: int, b: int): int { if a < b then b else a }

  function EffectiveExpiry(limits: Limits, lease: Lease): int {
    var deadline := Deadline(limits, lease);
    if lease.leaseExpiresAt != 0 && deadline != 0 then Min(lease.leaseExpiresAt, deadline)
    else Max(lease.leaseExpiresAt, deadline)
  }

  // The controller may act: it is the owner, and neither its lease nor its maximum runtime
  // has passed.
  predicate ActiveController(limits: Limits, lease: Option<Lease>, controller: string, nowMs: int) {
    && lease.Some? && lease.value.session == controller
    && nowMs < lease.value.leaseExpiresAt && nowMs < Deadline(limits, lease.value)
  }

  predicate MayTakeOver(limits: Limits, lease: Option<Lease>, session: string, nowMs: int) {
    lease.None? || (lease.value.session != session && (lease.value.session == "" || EffectiveExpiry(limits, lease.value) <= nowMs))
  }

  function Granted(limits: Limits, session: string, ttl: int, nowMs: int): Lease {
    var deadline := nowMs + limits.maxRuntimeMs;
    Lease(session, nowMs, deadline, Min(nowMs + ttl * 1000, deadline))
  }

  function Renewed(limits: Limits, lease: Lease, ttl: int, nowMs: int): Lease {
    var deadline := Deadline(limits, lease);
    lease.(maxRuntimeExpiresAt := deadline, leaseExpiresAt := Min(nowMs + ttl * 1000, deadline))
  }

  // ---------------------------------------------------------------- detection

  // The last observation of an incident counts.
  function LastSeen(observed: seq<Observation>, key: Key): Option<string> {
    if observed == [] then None
    else
      var last := observed[|observed| - 1];
      if last.key == key then Some(last.fingerprint) else LastSeen(observed[..|observed| - 1], key)
  }

  function DetectedRow(limits: Limits, rows: map<Key, Row>, key: Key, seen: Option<string>, nowMs: int): Option<Row> {
    match seen
    case Some(fingerprint) => Some(if key in rows then Observed(rows[key], fingerprint, nowMs) else FirstSeen(key, fingerprint))
    case None => if key in rows then Some(Missing(limits, rows[key], nowMs)) else None
  }

  function At(rows: map<Key, Row>, key: Key): Option<Row> {
    if key in rows then Some(rows[key]) else None
  }

  ghost predicate Detected(limits: Limits, rows: map<Key, Row>, observed: seq<Observation>, nowMs: int, after: map<Key, Row>) {
    forall key :: At(after, key) == DetectedRow(limits, rows, key, LastSeen(observed, key), nowMs)
  }

  // ---------------------------------------------------------------- one command

  predicate MayClaim(limits: Limits, s: Ledger, key: Key, controller: string, nowMs: int) {
    && key in s.rows && !s.disabled && ActiveController(limits, s.lease, controller, nowMs) && Claimable(s.rows[key], nowMs)
  }

  predicate MayAct(limits: Limits, s: Ledger, key: Key, controller: string, nowMs: int) {
    && key in s.rows && !s.disabled && ActiveController(limits, s.lease, controller, nowMs)
    && HoldsClaim(s.rows[key], controller, nowMs)
  }

  // Whether a command takes effect.
  predicate Succeeds(limits: Limits, s: Ledger, c: Command, nowMs: int) {
    match c
    case Detect(_) => true
    case ClaimIncident(key, controller, _) => MayClaim(limits, s, key, controller, nowMs)
    case Act(key, controller, _) => MayAct(limits, s, key, controller, nowMs)
    case ControllerClaim(session, _) => !s.disabled && MayTakeOver(limits, s.lease, session, nowMs)
    case ControllerHeartbeat(session, _) => !s.disabled && ActiveController(limits, s.lease, session, nowMs)
    case ControllerRelease(session) => s.lease.Some? && s.lease.value.session == session
    case KillSwitch(_) => true
  }

  /** What one command does to the ledger. */
  ghost predicate Step(limits: Limits, s: Ledger, c: Command, nowMs: int, t: Ledger) {
    if !Succeeds(limits, s, c, nowMs) then t == s
    else match c
      case Detect(observed) =>
        t.disabled == s.disabled && t.lease == s.lease && Detected(limits, s.rows, observed, nowMs, t.rows)
      case ClaimIncident(key, controller, ttl) =>
        t == s.(rows := s.rows[key := ClaimFor(limits, key.kind, s.rows[key], controller, ttl, nowMs)])
      case Act(key, controller, action) => t == s.(rows := s.rows[key := Acted(s.rows[key], action, nowMs)])
      case ControllerClaim(session, ttl) => t == s.(lease := Some(Granted(limits, session, ttl, nowMs)))
      case ControllerHeartbeat(session, ttl) => t == s.(lease := Some(Renewed(limits, s.lease.value, ttl, nowMs)))
      case ControllerRelease(_) => t == s.(lease := None)
      case KillSwitch(on) => t == s.(disabled := on)
  }

  class IncidentFiles {
    const limits: Limits
    var disabled: bool
    var lease: Option<Lease>
    var rows: map<Key, Row>

    ghost function View(): Ledger
      reads this
    {
      Ledger(disabled, lease, rows)
    }

    constructor (limits: Limits)
      ensures this.limits == limits && View() == Ledger(false, None, map[])
    {
      this.limits := limits;
      disabled, lease, rows := false, None, map[];
    }

    /** Two loops: one over what is observed, one over what was known and is not observed. */
    method DetectConditions(observed: seq<Observation>, nowMs: int)
      modifies this`rows
      ensures Step(limits, old(View()), Detect(observed), nowMs, View())
    {
      var existing := rows;
      for i := 0 to |observed|
        invariant forall key :: At(rows, key) == if LastSeen(observed[..i], key).Some?
          then DetectedRow(limits, existing, key, LastSeen(observed[..i], key), nowMs) else At(existing, key)
      {
        assert observed[..i + 1][..i] == observed[..i];
        var obs := observed[i];
        var row := if obs.key in existing then Observed(existing[obs.key], obs.fingerprint, nowMs)
                   else FirstSeen(obs.key, obs.fingerprint);
        rows := rows[obs.key := row];
      }
      assert observed[..|observed|] == observed;
      var left := existing.Keys;
      while left != {}
        invariant left <= existing.Keys
        invariant forall key :: At(rows, key) == if key in left && LastSeen(observed, key).None?
          then At(existing, key) else DetectedRow(limits, existing, key, LastSeen(observed, key), nowMs)
        decreases left
      {
        var key :| key in left;
        left := left - {key};
        if LastSeen(observed, key).None? {
          rows := rows[key := Missing(limits, existing[key], nowMs)];
        }
      }
    }

    method ClaimOne(key: Key, controller: string, ttl: int, nowMs: int) returns (ok: bool)
      modifies this`rows
      ensures Step(limits, old(View()), ClaimIncident(key, controller, ttl), nowMs, View())
      ensures ok == Succeeds(limits, old(View()), ClaimIncident(key, controller, ttl), nowMs)
    {
      if key !in rows || disabled || !ActiveController(limits, lease, controller, nowMs) {
        return false;
      }
      var row := rows[key];
      if row.clearCandidateAt.Some? || (row.state != Open && row.state != Deferred) || OrZero(row.cooldownUntil) > nowMs {
        return false;
      }
      if row.attempts >= ClaimLimit(limits, key.kind) {
        row := row.(state := Escalated, claimOwner := None, claimExpiresAt := None, history := row.history + [OtherNote]);
      } else {
        var attempt := row.attempts + 1;
        var stage := ClaimStage(key.kind, attempt);
        row := row.(state := Claimed, claimOwner := Some(controller), claimExpiresAt := Some(nowMs + ttl * 1000),
                    attempts := attempt, history := row.history + [ClaimedBy(controller, attempt, stage)]);
      }
      rows := rows[key := row];
      ok := true;
    }

    method ActOn(key: Key, controller: string, action: Action, nowMs: int) returns (ok: bool)
      modifies this`rows
      ensures Step(limits, old(View()), Act(key, controller, action), nowMs, View())
      ensures ok == Succeeds(limits, old(View()), Act(key, controller, action), nowMs)
    {
      if key !in rows || disabled || !ActiveController(limits, lease, controller, nowMs) {
        return false;
      }
      if !HoldsClaim(rows[key], controller, nowMs) {
        return false;
      }
      rows := rows[key := Acted(rows[key], action, nowMs)];
      ok := true;
    }

    method ClaimController(session: string, ttl: int, nowMs: int) returns (ok: bool)
      modifies this`lease
      ensures Step(limits, old(View()), ControllerClaim(session, ttl), nowMs, View())
      ensures ok == Succeeds(limits, old(View()), ControllerClaim(session, ttl), nowMs)
    {
      if disabled {
        return false;
      }
      if lease.Some? {
        var expiry := EffectiveExpiry(limits, lease.value);
        if lease.value.session == session {
          return false;
        }
        if lease.value.session != "" && expiry > nowMs {
          return false;
        }
      }
      var deadline := nowMs + limits.maxRuntimeMs;
      lease := Some(Lease(session, nowMs, deadline, Min(nowMs + ttl * 1000, deadline)));
      ok := true;
    }

    method HeartbeatController(session: string, ttl: int, nowMs: int) returns (ok: bool)
      modifies this`lease
      ensures Step(limits, old(View()), ControllerHeartbeat(session, ttl), nowMs, View())
      ensures ok == Succeeds(limits, old(View()), ControllerHeartbeat(session, ttl), nowMs)
    {
      if disabled || lease.None? || lease.value.session != session || lease.value.leaseExpiresAt <= nowMs {
        return false;
      }
      var deadline := Deadline(limits, lease.value);
      if deadline <= nowMs {
        return false;
      }
      lease := Some(lease.value.(maxRuntimeExpiresAt := deadline, leaseExpiresAt := Min(nowMs + ttl * 1000, deadline)));
      ok := true;
    }

    method ReleaseController(session: string) returns (ok: bool)
      modifies this`lease
      ensures Step(limits, old(View()), ControllerRelease(session), 0, View())
      ensures ok == Succeeds(limits, old(View()), ControllerRelease(session), 0)
    {
      ok := lease.Some? && lease.value.session == session;
      if ok {
        lease := None;
      }
    }
  }

  // ---------------------------------------------------------------- whole runs

  datatype Call = Call(nowMs: nat, command: Command)

  // States and calls of a run that starts with an empty ledger; the clock never goes back.
  ghost predicate Run(limits: Limits, states: seq<Ledger>, calls: seq<Call>) {
    && |states| == |calls| + 1
    && states[0].lease == None && states[0].rows == map[]
    && (forall i :: 0 <= i < |calls| ==> Step(limits, states[i], calls[i].command, calls[i].nowMs, states[i + 1]))
    && (forall i, j :: 0 <= i < j < |calls| ==> calls[i].nowMs <= calls[j].nowMs)
  }

  ghost predicate AllWithin(limits: Limits, rows: map<Key, Row>) {
    forall key :: key in rows ==> WithinBudget(limits, key.kind, rows[key])
  }

  lemma DetectKeepsBudget(limits: Limits, s: Ledger, c: Command, nowMs: int, t: Ledger)
    requires AllWithin(limits, s.rows) && c.Detect? && Step(limits, s, c, nowMs, t)
    ensures AllWithin(limits, t.rows)
  {
    hide WithinBudget, Observed, Missing, FirstSeen;
    forall key | key in t.rows ensures WithinBudget(limits, key.kind, t.rows[key]) {
      var seen := LastSeen(c.observed, key);
      assert At(t.rows, key) == DetectedRow(limits, s.rows, key, seen, nowMs);
      if seen.Some? && key in s.rows {
        ObservedWithin(limits, key.kind, s.rows[key], seen.value, nowMs);
      } else if seen.Some? {
        FirstSeenWithin(limits, key, seen.value);
      } else {
        MissingWithin(limits, key.kind, s.rows[key], nowMs);
      }
    }
  }

  lemma StepKeepsBudget(limits: Limits, s: Ledger, c: Command, nowMs: int, t: Ledger)
    requires AllWithin(limits, s.rows) && Step(limits, s, c, nowMs, t)
    ensures AllWithin(limits, t.rows)
  {
    hide WithinBudget, ClaimFor, Acted;
    match c
    case Detect(_) => DetectKeepsBudget(limits, s, c, nowMs, t);
    case ClaimIncident(key, controller, ttl) =>
      if MayClaim(limits, s, key, controller, nowMs) {
        ClaimWithin(limits, key.kind, s.rows[key], controller, ttl, nowMs);
      }
    case Act(key, controller, action) =>
      if MayAct(limits, s, key, controller, nowMs) {
        ActedWithin(limits, key.kind, s.rows[key], action, nowMs);
      }
    case _ =>
  }

  /** The recovery budget over all histories: however conditions come, clear and come back,
      and whoever claims, defers, resolves or escalates, an incident is never claimed more
      often than its limit times its condition revision, attempts stay within the limit, and
      a coordinator is rotated only after both wake-ups of the same cycle. */
  lemma {:induction false} BudgetHolds(limits: Limits, states: seq<Ledger>, calls: seq<Call>, n: nat, key: Key)
    requires Run(limits, states, calls) && n <= |calls|
    ensures AllWithin(limits, states[n].rows)
    ensures key in states[n].rows ==>
      var row := states[n].rows[key];
      && ClaimCount(row.history) <= ClaimLimit(limits, key.kind) * row.revision
      && (row.state != Resolved ==> row.attempts <= ClaimLimit(limits, key.kind))
      && var cycle := Cycle(row.history);
         forall i :: 0 <= i < |cycle| && cycle[i] == Rotation ==> i == 2 && cycle[0] == Wake1 && cycle[1] == Wake2
    decreases n
  {
    hide Step, WithinBudget;
    if n > 0 {
      BudgetHolds(limits, states, calls, n - 1, key);
      assert Step(limits, states[n - 1], calls[n - 1].command, calls[n - 1].nowMs, states[n - 1 + 1]);
      StepKeepsBudget(limits, states[n - 1], calls[n - 1].command, calls[n - 1].nowMs, states[n]);
    }
    if key in states[n].rows {
      BudgetMeans(limits, key.kind, states[n].rows[key]);
    }
  }

  // ---------------------------------------------------------------- tenures

  ghost predicate TakesOver(limits: Limits, states: seq<Ledger>, calls: seq<Call>, i: nat)
    requires i < |calls| < |states|
  {
    calls[i].command.ControllerClaim? && Succeeds(limits, states[i], calls[i].command, calls[i].nowMs)
  }

  ghost predicate Releases(limits: Limits, states: seq<Ledger>, calls: seq<Call>, i: nat)
    requires i < |calls| < |states|
  {
    calls[i].command.ControllerRelease? && Succeeds(limits, states[i], calls[i].command, calls[i].nowMs)
  }

  // The lease held after n calls was granted by call i, and never outlives the maximum
  // runtime counted from there.
  ghost predicate TenureOf(limits: Limits, states: seq<Ledger>, calls: seq<Call>, n: nat, i: nat)
    requires n <= |calls| < |states|
  {
    && i < n && TakesOver(limits, states, calls, i)
    && (forall m :: i < m < n ==> !TakesOver(limits, states, calls, m) && !Releases(limits, states, calls, m))
    && states[n].lease.Some?
    && WithinTenure(limits, states[n].lease.value, calls[i].command.session, calls[i].nowMs)
  }

  predicate WithinTenure(limits: Limits, lease: Lease, session: string, since: int) {
    && lease.session == session && lease.claimedAt == since
    && Deadline(limits, lease) == since + limits.maxRuntimeMs
    && lease.leaseExpiresAt <= since + limits.maxRuntimeMs
  }

  lemma LeaseStep(limits: Limits, s: Ledger, c: Command, nowMs: nat, t: Ledger)
    requires Step(limits, s, c, nowMs, t)
    ensures !Succeeds(limits, s, c, nowMs) ==> t == s
    ensures c.ControllerClaim? && Succeeds(limits, s, c, nowMs) ==> t.lease == Some(Granted(limits, c.session, c.ttl, nowMs))
    ensures c.ControllerRelease? && Succeeds(limits, s, c, nowMs) ==> t.lease == None
    ensures c.ControllerHeartbeat? && Succeeds(limits, s, c, nowMs) ==>
      s.lease.Some? && t.lease == Some(Renewed(limits, s.lease.value, c.ttl, nowMs))
    ensures !c.ControllerClaim? && !c.ControllerRelease? && !c.ControllerHeartbeat? ==> t.lease == s.lease
  {
  }

  lemma GrantedDeadline(limits: Limits, session: string, ttl: int, nowMs: nat)
    ensures var lease := Granted(limits, session, ttl, nowMs);
      && lease.session == session && lease.claimedAt == nowMs
      && Deadline(limits, lease) == nowMs + limits.maxRuntimeMs
      && lease.leaseExpiresAt <= nowMs + limits.maxRuntimeMs
  {
  }

  lemma RenewedDeadline(limits: Limits, lease: Lease, ttl: int, nowMs: nat)
    ensures var renewed := Renewed(limits, lease, ttl, nowMs);
      && Deadline(limits, renewed) == Deadline(limits, lease) && renewed.leaseExpiresAt <= Deadline(limits, lease)
      && renewed.session == lease.session && renewed.claimedAt == lease.claimedAt
  {
  }

  /** Every lease in force was granted by one take-over, has been renewed only by its own
      controller since, and never reaches past that take-over plus the maximum runtime. */
  lemma {:induction false} LeaseHasTenure(limits: Limits, states: seq<Ledger>, calls: seq<Call>, n: nat) returns (i: nat)
    requires Run(limits, states, calls) && n <= |calls| && states[n].lease.Some?
    ensures TenureOf(limits, states, calls, n, i)
    decreases n
  {
    hide Step, Succeeds, Granted, Renewed, Deadline;
    var c, nowMs := calls[n - 1].command, calls[n - 1].nowMs;
    assert Step(limits, states[n - 1], c, nowMs, states[n - 1 + 1]);
    LeaseStep(limits, states[n - 1], c, nowMs, states[n]);
    if TakesOver(limits, states, calls, n - 1) {
      GrantedDeadline(limits, c.session, c.ttl, nowMs);
      i := n - 1;
    } else {
      i := LeaseHasTenure(limits, states, calls, n - 1);
      if c.ControllerHeartbeat? {
        RenewedDeadline(limits, states[n - 1].lease.value, c.ttl, nowMs);
      }
    }
  }

  // Who makes a call that only the active controller may make.
  function Actor(c: Command): Option<string> {
    match c
    case ClaimIncident(_, controller, _) => Some(controller)
    case Act(_, controller, _) => Some(controller)
    case ControllerHeartbeat(session, _) => Some(session)
    case _ => None
  }

  /** Nobody acts outside a live tenure: a claim, heartbeat, resolution, deferral or
      escalation that takes effect was made by the controller of an unreleased, unreplaced
      take-over, within the maximum runtime of it and before its lease ran out, with the
      kill switch off - and all but the claim by the holder of an unexpired claim on that
      very incident. */
  lemma ActionsInsideTenure(limits: Limits, states: seq<Ledger>, calls: seq<Call>, n: nat) returns (i: nat)
    requires Run(limits, states, calls) && n < |calls| && Actor(calls[n].command).Some?
    requires Succeeds(limits, states[n], calls[n].command, calls[n].nowMs)
    ensures TenureOf(limits, states, calls, n, i)
    ensures Actor(calls[n].command) == Some(calls[i].command.session) && !states[n].disabled
    ensures calls[i].nowMs <= calls[n].nowMs < calls[i].nowMs + limits.maxRuntimeMs
    ensures calls[n].nowMs < states[n].lease.value.leaseExpiresAt
    ensures calls[n].command.Act? ==>
      && calls[n].command.key in states[n].rows
      && HoldsClaim(states[n].rows[calls[n].command.key], calls[n].command.controller, calls[n].nowMs)
  {
    hide Step, Granted, Renewed;
    i := LeaseHasTenure(limits, states, calls, n);
  }

  /** One controller at a time.  Once call j has taken over, whatever takes effect later is
      done by a controller that took over at j or after it, so no earlier controller ever
      acts again without a new take-over of its own. */
  lemma TenuresDisjoint(limits: Limits, states: seq<Ledger>, calls: seq<Call>, j: nat, n: nat) returns (i: nat)
    requires Run(limits, states, calls) && j < n < |calls| && TakesOver(limits, states, calls, j)
    requires Actor(calls[n].command).Some? && Succeeds(limits, states[n], calls[n].command, calls[n].nowMs)
    ensures j <= i < n && TakesOver(limits, states, calls, i)
    ensures Actor(calls[n].command) == Some(calls[i].command.session)
  {
    hide Run, Succeeds, WithinTenure;
    i := ActionsInsideTenure(limits, states, calls, n);
  }

  /** While the lease of take-over i is on file and has not run out, another controller gets
      in exactly when take-over i was made under a blank session name. */
  lemma LiveLeaseExcludes(limits: Limits, states: seq<Ledger>, calls: seq<Call>, i: nat, n: nat)
    requires Run(limits, states, calls) && n < |calls| && TenureOf(limits, states, calls, n, i)
    requires calls[n].command.ControllerClaim? && calls[n].nowMs < EffectiveExpiry(limits, states[n].lease.value)
    ensures TakesOver(limits, states, calls, n)
       <==> !states[n].disabled && calls[i].command.session == "" && calls[n].command.session != ""
  {
    hide Run, EffectiveExpiry;
  }

  /** So two take-overs i < j whose first one names its session are apart in time as well:
      the first was released in between, or its lease had run out when j came. */
  lemma TakeOversApart(limits: Limits, states: seq<Ledger>, calls: seq<Call>, i: nat, j: nat)
    requires Run(limits, states, calls) && j < |calls| && TakesOver(limits, states, calls, j)
    requires TenureOf(limits, states, calls, j, i) && calls[i].command.session != ""
    ensures EffectiveExpiry(limits, states[j].lease.value) <= calls[j].nowMs
    ensures calls[j].command.session != calls[i].command.session
    ensures forall m :: j <= m < |calls| ==>
      !ActiveController(limits, states[j].lease, calls[i].command.session, calls[m].nowMs)
  {
    var lease := states[j].lease.value;
    forall m | j <= m < |calls| ensures !ActiveController(limits, states[j].lease, calls[i].command.session, calls[m].nowMs) {
      assert calls[j].nowMs <= calls[m].nowMs;
      ExpiredIsInactive(limits, lease, calls[j].nowMs, calls[m].nowMs);
    }
  }

  lemma ExpiredIsInactive(limits: Limits, lease: Lease, nowMs: nat, later: nat)
    requires EffectiveExpiry(limits, lease) <= nowMs <= later
    ensures !ActiveController(limits, Some(lease), lease.session, later)
  {
  }

  // A controller that leaves its session name blank, and another one a moment later.
  function BlankCalls(): seq<Call> {
    [Call(1, ControllerClaim("", 900)), Call(2, ControllerClaim("other", 900))]
  }

  function BlankStates(limits: Limits): seq<Ledger> {
    [Ledger(false, None, map[]), Ledger(false, Some(Granted(limits, "", 900, 1)), map[]),
     Ledger(false, Some(Granted(limits, "other", 900, 2)), map[])]
  }

  /** Without a session name there is no exclusion: the second controller takes over although
      the first lease is in force. */
  lemma BlankSessionIsTakenOver(limits: Limits)
    requires 1 < limits.maxRuntimeMs
    ensures var states, calls := BlankStates(limits), BlankCalls();
      && Run(limits, states, calls) && TenureOf(limits, states, calls, 1, 0) && TakesOver(limits, states, calls, 1)
      && ActiveController(limits, states[1].lease, calls[0].command.session, calls[1].nowMs)
  {
    var states, calls := BlankStates(limits), BlankCalls();
    assert Step(limits, states[0], calls[0].command, 1, states[1]);
    assert Step(limits, states[1], calls[1].command, 2, states[2]);
    GrantedDeadline(limits, "", 900, 1);
  }
}
