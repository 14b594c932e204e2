/** What detection, claims, actions and the controller lease leave behind, and when an incident
    that its controller did not resolve becomes resolved: after a confirmed absence, and then.
 */
module IncidentEffects {
  import opened Wrappers
  import opened IncidentRow
  import opened Incidents

  ghost predicate Sees(c: Command, key: Key) {
    c.Detect? && exists i :: 0 <= i < |c.observed| && c.observed[i].key == key
  }

  /** What is kept of an incident is its last observation. */
  lemma {:induction false} LastCounts(observed: seq<Observation>, key: Key, i: nat)
    requires i < |observed| && observed[i].key == key && forall j :: i < j < |observed| ==> observed[j].key != key
    ensures LastSeen(observed, key) == Some(observed[i].fingerprint)
  {
    var n := |observed| - 1;
    if i < n {
      assert observed[..n][i] == observed[i];
      LastCounts(observed[..n], key, i);
    }
  }

  lemma {:induction false} SeenIsObserved(observed: seq<Observation>, key: Key)
    ensures LastSeen(observed, key).Some? <==> Sees(Detect(observed), key)
  {
    if observed != [] {
      var n := |observed| - 1;
      SeenIsObserved(observed[..n], key);
      assert forall i :: 0 <= i < n ==> observed[..n][i] == observed[i];
    }
  }

  // ---------------------------------------------------------------- single commands

  /** What a detection that observes an incident leaves of it: nothing is lost but a pending
      clearing, a claim or cooldown that has run out, and a resolution - which starts a new
      revision with a fresh budget. */
  lemma ObservedLeaves(limits: Limits, s: Ledger, observed: seq<Observation>, nowMs: int, t: Ledger, key: Key)
    requires Step(limits, s, Detect(observed), nowMs, t) && LastSeen(observed, key).Some?
    ensures key in t.rows && t.rows[key].fingerprint == LastSeen(observed, key).value && t.rows[key].clearCandidateAt.None?
    ensures key !in s.rows ==>
      && t.rows[key].state == (if key.kind.OwnerGateBlocked? then Suppressed else Open)
      && t.rows[key].revision == 1 && t.rows[key].attempts == 0
    ensures key in s.rows ==>
      var before, after := s.rows[key], t.rows[key];
      var ranOut := (before.state == Claimed && OrZero(before.claimExpiresAt) <= nowMs)
                    || (before.state == Deferred && OrZero(before.cooldownUntil) <= nowMs);
      && (before.state == Resolved ==> after.state == Open && after.revision == before.revision + 1 && after.attempts == 0)
      && (before.state != Resolved ==> after.revision == before.revision && after.attempts == before.attempts)
      && (ranOut ==> after.state == Open && (before.state == Claimed ==> after.claimOwner.None?))
      && (!ranOut && before.state != Resolved ==>
            && after.state == before.state && after.claimOwner == before.claimOwner
            && after.claimExpiresAt == before.claimExpiresAt && after.cooldownUntil == before.cooldownUntil)
  {
    assert At(t.rows, key) == DetectedRow(limits, s.rows, key, LastSeen(observed, key), nowMs);
  }

  /** The ladder and its length: a coordinator that is stale, broken, killed or parked is woken,
      woken again and then rotated, as often as its own limit says; any other incident is
      recovered at every attempt, under the general limit. */
  lemma StagesExactly(limits: Limits, kind: Kind, attempt: nat)
    ensures var ofCoordinator :=
              kind in {CoordinatorLeaseStale, CoordinatorSessionError, CoordinatorPiSigterm, CoordinatorWorkerTerminalStatus};
      && ClaimLimit(limits, kind) == (if ofCoordinator then limits.coordinatorMax else limits.maxAttempts)
      && (!ofCoordinator ==> ClaimStage(kind, attempt) == Recover)
      && (ofCoordinator && attempt in {1, 2, 3} ==> ClaimStage(kind, attempt) == [Wake1, Wake2, Rotation][attempt - 1])
      && (ofCoordinator && 3 < attempt ==> ClaimStage(kind, attempt) == Exhausted)
  {
    assert kind.OtherKind? || kind.OwnerGateBlocked?
           || kind in {CoordinatorLeaseStale, CoordinatorSessionError, CoordinatorPiSigterm, CoordinatorWorkerTerminalStatus};
  }

  /** A claim takes effect exactly for the controller whose lease and runtime have not passed,
      with the kill switch off, on an incident that is open or deferred, past its cooldown and
      not about to clear; it then holds the incident for the time asked for, or escalates it
      when the budget is spent, and no other incident changes. */
  lemma ClaimExactly(limits: Limits, s: Ledger, key: Key, controller: string, ttl: int, nowMs: int, t: Ledger)
    requires Step(limits, s, ClaimIncident(key, controller, ttl), nowMs, t)
    ensures t != s <==>
      && !s.disabled && s.lease.Some? && s.lease.value.session == controller
      && nowMs < s.lease.value.leaseExpiresAt && nowMs < Deadline(limits, s.lease.value)
      && key in s.rows && s.rows[key].clearCandidateAt.None?
      && (s.rows[key].state == Open || s.rows[key].state == Deferred) && OrZero(s.rows[key].cooldownUntil) <= nowMs
    ensures t.lease == s.lease && t.disabled == s.disabled && t.rows.Keys == s.rows.Keys
    ensures forall other :: other in s.rows && other != key ==> t.rows[other] == s.rows[other]
    ensures t != s ==>
      var before, row := s.rows[key], t.rows[key];
      && row.revision == before.revision && row.fingerprint == before.fingerprint
      && if before.attempts < ClaimLimit(limits, key.kind) then
           && row.state == Claimed && row.claimOwner == Some(controller) && row.claimExpiresAt == Some(nowMs + ttl * 1000)
           && row.attempts == before.attempts + 1
           && row.history == before.history + [ClaimedBy(controller, row.attempts, ClaimStage(key.kind, row.attempts))]
         else
           row.state == Escalated && row.claimOwner.None? && row.attempts == before.attempts
  {
    if MayClaim(limits, s, key, controller, nowMs) {
      var row := ClaimFor(limits, key.kind, s.rows[key], controller, ttl, nowMs);
      assert |row.history| == |s.rows[key].history| + 1;
      assert t.rows[key] == row;
    }
  }

  /** An action takes effect exactly for the active controller that holds an unexpired claim on
      the incident; attempts, revision and every other incident stay as they are. */
  lemma ActExactly(limits: Limits, s: Ledger, key: Key, controller: string, action: Action, nowMs: int, t: Ledger)
    requires Step(limits, s, Act(key, controller, action), nowMs, t)
    ensures Succeeds(limits, s, Act(key, controller, action), nowMs) <==>
      && !s.disabled && s.lease.Some? && s.lease.value.session == controller
      && nowMs < s.lease.value.leaseExpiresAt && nowMs < Deadline(limits, s.lease.value)
      && key in s.rows && s.rows[key].state == Claimed && s.rows[key].claimOwner == Some(controller)
      && nowMs < OrZero(s.rows[key].claimExpiresAt)
    ensures t.lease == s.lease && t.disabled == s.disabled && t.rows.Keys == s.rows.Keys
    ensures forall other :: other in s.rows && other != key ==> t.rows[other] == s.rows[other]
    ensures Succeeds(limits, s, Act(key, controller, action), nowMs) ==>
      var before, row := s.rows[key], t.rows[key];
      && row.attempts == before.attempts && row.revision == before.revision && row.fingerprint == before.fingerprint
      && match action
         case Extend(ttl) =>
           row.state == Claimed && row.claimOwner == before.claimOwner && row.claimExpiresAt == Some(nowMs + ttl * 1000)
           && row.history == before.history
         case Resolve => row.state == Resolved && row.claimOwner.None? && row.clearCandidateAt.None?
         case Defer(cooldown) => row.state == Deferred && row.claimOwner.None? && row.cooldownUntil == Some(nowMs + cooldown * 1000)
         case Escalate => row.state == Escalated && row.claimOwner.None?
  {
    if MayAct(limits, s, key, controller, nowMs) {
      assert t.rows[key] == Acted(s.rows[key], action, nowMs);
    }
  }

  /** The controller lease, exactly.  A controller takes over if and only if the kill switch is
      off and there is no lease, or one of another session that is blank or has run out - by
      its own time or by its maximum runtime; it renews if and only if it owns a lease neither
      of whose times has passed.  Both leave it with the time it asked for, cut at the maximum
      runtime counted from the take-over. */
  lemma LeaseExactly(limits: Limits, s: Ledger, session: string, ttl: int, nowMs: int, t: Ledger, u: Ledger)
    requires Step(limits, s, ControllerClaim(session, ttl), nowMs, t)
    requires Step(limits, s, ControllerHeartbeat(session, ttl), nowMs, u)
    requires s.lease.Some? ==> 0 < s.lease.value.leaseExpiresAt && 0 < Deadline(limits, s.lease.value)
    ensures t.lease != s.lease <==>
      !s.disabled && (s.lease.None?
                      || (s.lease.value.session != session
                          && (s.lease.value.session == "" || s.lease.value.leaseExpiresAt <= nowMs
                              || Deadline(limits, s.lease.value) <= nowMs)))
    ensures t.lease != s.lease ==>
      && t.lease.Some? && t.lease.value.session == session && t.lease.value.claimedAt == nowMs
      && t.lease.value.maxRuntimeExpiresAt == nowMs + limits.maxRuntimeMs
      && t.lease.value.leaseExpiresAt
         == if ttl * 1000 <= limits.maxRuntimeMs then nowMs + ttl * 1000 else nowMs + limits.maxRuntimeMs
    ensures Succeeds(limits, s, ControllerHeartbeat(session, ttl), nowMs) <==>
      && !s.disabled && s.lease.Some? && s.lease.value.session == session
      && nowMs < s.lease.value.leaseExpiresAt && nowMs < Deadline(limits, s.lease.value)
    ensures Succeeds(limits, s, ControllerHeartbeat(session, ttl), nowMs) ==>
      && u.lease.Some? && u.lease.value.session == session && u.lease.value.claimedAt == s.lease.value.claimedAt
      && Deadline(limits, u.lease.value) == Deadline(limits, s.lease.value)
      && u.lease.value.leaseExpiresAt
         == if nowMs + ttl * 1000 <= Deadline(limits, s.lease.value) then nowMs + ttl * 1000 else Deadline(limits, s.lease.value)
    ensures t.rows == s.rows == u.rows && t.disabled == s.disabled == u.disabled
  {
    assert !s.disabled && MayTakeOver(limits, s.lease, session, nowMs) ==> t.lease == Some(Granted(limits, session, ttl, nowMs));
  }

  // ---------------------------------------------------------------- clearing, over whole runs

  // From call m, a detection that missed the incident, up to and without call n, no detection
  // observed it.
  ghost predicate AwaySince(states: seq<Ledger>, calls: seq<Call>, key: Key, m: nat, n: nat)
    requires m < |calls| && n <= |calls| < |states|
  {
    && calls[m].command.Detect? && key in states[m].rows
    && forall k :: m <= k < n ==> !Sees(calls[k].command, key)
  }

  lemma RowStep(limits: Limits, s: Ledger, c: Command, nowMs: int, t: Ledger, key: Key)
    requires Step(limits, s, c, nowMs, t) && key in s.rows
    ensures key in t.rows && (Sees(c, key) ==> c.Detect?)
    ensures c.Detect? && Sees(c, key) ==> t.rows[key].clearCandidateAt.None? && t.rows[key].state != Resolved
    ensures c.Detect? && !Sees(c, key) ==> t.rows[key] == Missing(limits, s.rows[key], nowMs)
    ensures !c.Detect? ==> t.rows[key].clearCandidateAt == s.rows[key].clearCandidateAt || t.rows[key].state == Resolved
    ensures !c.Detect? && t.rows[key].state == Resolved ==>
      s.rows[key].state == Resolved || (c.Act? && c.key == key && c.action.Resolve? && Succeeds(limits, s, c, nowMs))
    ensures !c.Detect? && s.rows[key].state == Resolved ==> t.rows[key] == s.rows[key]
  {
    if c.Detect? {
      SeenIsObserved(c.observed, key);
      assert At(t.rows, key) == DetectedRow(limits, s.rows, key, LastSeen(c.observed, key), nowMs);
    }
  }

  lemma NewRowStep(limits: Limits, s: Ledger, c: Command, nowMs: int, t: Ledger, key: Key)
    requires Step(limits, s, c, nowMs, t) && key !in s.rows && key in t.rows
    ensures Sees(c, key) && t.rows[key].clearCandidateAt.None? && t.rows[key].state != Resolved
  {
    assert c.Detect?;
    SeenIsObserved(c.observed, key);
    assert At(t.rows, key) == DetectedRow(limits, s.rows, key, LastSeen(c.observed, key), nowMs);
  }

  // An incident that is a candidate for clearing has been away since the time on record.
  lemma {:induction false} CandidateIsAway(limits: Limits, states: seq<Ledger>, calls: seq<Call>, key: Key, n: nat)
    returns (m: nat)
    requires Run(limits, states, calls) && n <= |calls| && key in states[n].rows
    requires states[n].rows[key].state != Resolved && states[n].rows[key].clearCandidateAt.Some?
    ensures m < n && AwaySince(states, calls, key, m, n) && calls[m].nowMs == states[n].rows[key].clearCandidateAt.value
    decreases n
  {
    hide Step, Sees, Succeeds;
    var s, c := states[n - 1], calls[n - 1];
    assert Step(limits, s, c.command, c.nowMs, states[n - 1 + 1]);
    if key !in s.rows {
      NewRowStep(limits, s, c.command, c.nowMs, states[n], key);
      assert false;
    } else {
      RowStep(limits, s, c.command, c.nowMs, states[n], key);
      if c.command.Detect? && OrZero(s.rows[key].clearCandidateAt) == 0 {
        m := n - 1;
      } else {
        m := CandidateIsAway(limits, states, calls, key, n - 1);
      }
    }
  }

  // Conversely, an incident that has been away since call m, and is unresolved, is a
  // candidate since then or longer.
  lemma {:induction false} AwayIsCandidate(limits: Limits, states: seq<Ledger>, calls: seq<Call>, key: Key, m: nat, n: nat)
    requires Run(limits, states, calls) && m < n <= |calls| && AwaySince(states, calls, key, m, n)
    requires 0 < calls[m].nowMs
    ensures key in states[n].rows
    ensures states[n].rows[key].state != Resolved ==>
      0 < OrZero(states[n].rows[key].clearCandidateAt) <= calls[m].nowMs
    decreases n
  {
    hide Step, Sees, Succeeds;
    var s, c := states[n - 1], calls[n - 1];
    assert Step(limits, s, c.command, c.nowMs, states[n - 1 + 1]);
    if m < n - 1 {
      AwayIsCandidate(limits, states, calls, key, m, n - 1);
    } else if s.rows[key].state != Resolved && s.rows[key].clearCandidateAt.Some? {
      var since := CandidateIsAway(limits, states, calls, key, m);
    }
    RowStep(limits, s, c.command, c.nowMs, states[n], key);
  }

  /** An incident becomes resolved only in one of two ways: its controller resolves it, or it
      has been away, detection after detection, for as long as a clearing takes. */
  lemma ResolvedOnlyThen(limits: Limits, states: seq<Ledger>, calls: seq<Call>, key: Key, n: nat) returns (m: nat)
    requires Run(limits, states, calls) && n < |calls|
    requires key in states[n + 1].rows && states[n + 1].rows[key].state == Resolved
    requires key in states[n].rows ==> states[n].rows[key].state != Resolved
    ensures key in states[n].rows
    ensures if calls[n].command.Detect? then
              m <= n && AwaySince(states, calls, key, m, n + 1) && calls[n].nowMs - calls[m].nowMs >= limits.clearConfirmMs
            else
              && calls[n].command.Act? && calls[n].command.key == key && calls[n].command.action.Resolve?
              && Succeeds(limits, states[n], calls[n].command, calls[n].nowMs)
  {
    hide Step, Sees, Succeeds;
    var s, c := states[n], calls[n];
    assert Step(limits, s, c.command, c.nowMs, states[n + 1]);
    m := n;
    if key !in s.rows {
      NewRowStep(limits, s, c.command, c.nowMs, states[n + 1], key);
      assert false;
    } else {
      RowStep(limits, s, c.command, c.nowMs, states[n + 1], key);
      if c.command.Detect? && OrZero(s.rows[key].clearCandidateAt) != 0 {
        m := CandidateIsAway(limits, states, calls, key, n);
      }
    }
  }

  /** And it does then: a detection at call n that does not observe an unresolved incident,
      which has been away since call m, resolves it once that is as long as a clearing takes. */
  lemma ResolvedThen(limits: Limits, states: seq<Ledger>, calls: seq<Call>, key: Key, m: nat, n: nat)
    requires Run(limits, states, calls) && m <= n < |calls| && AwaySince(states, calls, key, m, n + 1)
    requires calls[n].command.Detect? && 0 < calls[m].nowMs
    requires calls[n].nowMs - calls[m].nowMs >= limits.clearConfirmMs
    ensures key in states[n + 1].rows && states[n + 1].rows[key].state == Resolved
  {
    hide Step, Sees, Succeeds;
    var s, c := states[n], calls[n];
    assert Step(limits, s, c.command, c.nowMs, states[n + 1]);
    if m < n {
      AwayIsCandidate(limits, states, calls, key, m, n);
    } else if s.rows[key].state != Resolved && s.rows[key].clearCandidateAt.Some? {
      var since := CandidateIsAway(limits, states, calls, key, n);
    }
    RowStep(limits, s, c.command, c.nowMs, states[n + 1], key);
  }
}
