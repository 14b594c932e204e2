/** The append-only compare-and-set ledger kept in the comments of one issue.

    Every writer reads the comments that exist at that moment, folds them into a snapshot,
    builds one event that carries the version it saw, appends it, and reads the log again
    to learn whether it won.  Any number of writers may interleave between the read and
    the append.
 */
module IssueLedger {
  import opened Domain
  import opened Wrappers

  // ---------------------------------------------------------------- snapshots and events

  // What the issue itself fixes: its node ID, its identifier, the parsed contract, and the
  // Gate field that seeds a baseline already waiting for the owner.
  datatype Issue = Issue(
    id: string,
    identifier: string,
    risk: RiskTier,
    deploy: DeployAuthority,
    gate: Option<string>)

  datatype Snapshot = Snapshot(
    issue: Issue,
    state: LifecycleState,
    version: int,
    claim: Option<Claim>,
    retry: Option<Retry>,
    evidence: Evidence,
    events: seq<MaterialEvent>)

  datatype Operation = ClaimOp | RunningOp | HeartbeatOp | FailureOp | TransitionOp

  datatype LedgerEvent = LedgerEvent(
    issueId: string,
    expectedVersion: int,
    operation: Operation,
    from: LifecycleState,
    to: LifecycleState,
    atMs: int,
    fence: Option<Id>,
    claim: Option<Claim>,
    retry: Option<Retry>,
    evidence: Evidence,
    message: string)

  // ---------------------------------------------------------------- the reducer

  datatype Fault =
    | BindingMismatch | VersionGap | SourceStateMismatch | BadTimestamp | InvalidEvent
    | NoBaseline | NoGateValue

  datatype Reduction = Accepted(next: Snapshot) | Stale | Corrupt(reason: Fault)

  function ExpectedAttempt(retry: Option<Retry>): Attempt {
    if retry.Some? then retry.value.attempt else 1
  }

  predicate EvidenceAllows(s: Snapshot, to: LifecycleState, evidence: Evidence) {
    && Legal(s.state, to)
    && (to == PrOpen ==> Has(evidence, PrUrl))
    && (to == OwnerGate ==> Has(evidence, OwnerGateId))
    && (Has(s.evidence, OwnerGateId) ==>
          OwnerGateId in evidence && evidence[OwnerGateId] == s.evidence[OwnerGateId])
    && (to == Merged && s.issue.risk == HighRisk ==> s.state == OwnerGate)
    && (to == Merged ==> Has(evidence, MergedAt) && Has(evidence, MergeCommitSha))
    && (to == Deployed ==> Has(evidence, DeploymentUrl))
    && (to == Done && s.issue.deploy != NoDeploy ==> s.state == Deployed)
  }

  predicate OperationAllows(s: Snapshot, e: LedgerEvent) {
    match e.operation
    case ClaimOp =>
      && s.claim.None? && (s.state == Ready || s.state == RetryWait) && e.to == Claimed && e.claim.Some?
      && e.claim.value.issueId == s.issue.id && e.claim.value.issueIdentifier == s.issue.identifier
      && e.claim.value.attempt == ExpectedAttempt(s.retry) && e.fence == Some(e.claim.value.fence)
    case RunningOp =>
      && s.claim.Some? && s.state == Claimed && e.to == Running
      && e.fence == Some(s.claim.value.fence) && e.claim.Some?
    case HeartbeatOp =>
      && s.claim.Some? && e.to == s.state && e.fence == Some(s.claim.value.fence) && e.claim.Some?
      && Binding(s.claim.value) == Binding(e.claim.value)
    case FailureOp =>
      && s.claim.Some? && e.fence == Some(s.claim.value.fence) && e.claim.None?
      && (e.to == RetryWait || e.to == Failed) && Legal(s.state, e.to)
    case TransitionOp =>
      && (s.claim.Some? ==> e.fence == Some(s.claim.value.fence))
      && EvidenceAllows(s, e.to, e.evidence)
  }

  function Reduce(s: Snapshot, e: LedgerEvent, sequence: nat): Reduction {
    if e.issueId != s.issue.id then Corrupt(BindingMismatch)
    else if e.expectedVersion < s.version then Stale
    else if e.expectedVersion > s.version then Corrupt(VersionGap)
    else if e.from != s.state then Corrupt(SourceStateMismatch)
    else if e.atMs < 0 then Corrupt(BadTimestamp)
    else if !OperationAllows(s, e) then Corrupt(InvalidEvent)
    else Accepted(Snapshot(s.issue, e.to, s.version + 1, e.claim, e.retry, e.evidence,
                           s.events + [MaterialEvent(sequence, e.to, e.atMs)]))
  }

  // ---------------------------------------------------------------- folding a log

  // `accepted` holds the positions of the winning comments.
  datatype Folded = Folded(snapshot: Snapshot, accepted: set<nat>) | Broken(reason: Fault)

  function Baseline(issue: Issue, state: LifecycleState): Option<Snapshot> {
    if state == OwnerGate && (issue.gate.None? || issue.gate.value == "") then None
    else Some(Snapshot(issue, state, 1, None, None,
                       if state == OwnerGate then map[OwnerGateId := issue.gate.value] else map[],
                       [MaterialEvent(0, state, 0)]))
  }

  function Fold(base: Snapshot, log: seq<LedgerEvent>): Folded {
    if log == [] then Folded(base, {})
    else
      var last := |log| - 1;
      Extend(Fold(base, log[..last]), log[last], last)
  }

  // The comment at position `at` gets a database ID one past it.
  function Extend(f: Folded, e: LedgerEvent, at: nat): Folded {
    match f
    case Broken(why) => Broken(why)
    case Folded(s, accepted) =>
      match Reduce(s, e, at + 1)
      case Stale => f
      case Corrupt(why) => Broken(why)
      case Accepted(next) => Folded(next, accepted + {at})
  }

  // Without any event the state is taken from the projected label; afterwards the first
  // event's source state is the baseline, whatever the label says.
  function Hydrate(issue: Issue, projected: LifecycleState, log: seq<LedgerEvent>): Folded {
    if log != [] && log[0].expectedVersion != 1 then Broken(NoBaseline)
    else match Baseline(issue, if log == [] then projected else log[0].from)
      case None => Broken(NoGateValue)
      case Some(base) => Fold(base, log)
  }

  /** The loop that rebuilds a snapshot: one pass over the comments, reassigning the
      snapshot and collecting the winning comments. */
  method HydrateCore(issue: Issue, projected: LifecycleState, log: seq<LedgerEvent>) returns (r: Folded)
    ensures r == Hydrate(issue, projected, log)
  {
    hide Fold;
    if log != [] && log[0].expectedVersion != 1 {
      return Broken(NoBaseline);
    }
    var base := Baseline(issue, if log == [] then projected else log[0].from);
    if base.None? {
      return Broken(NoGateValue);
    }
    r := FoldComments(base.value, log);
  }

  method FoldComments(base: Snapshot, log: seq<LedgerEvent>) returns (r: Folded)
    ensures r == Fold(base, log)
  {
    var snapshot: Snapshot := base;
    var accepted: set<nat> := {};
    for i: nat := 0 to |log|
      invariant Fold(base, log[..i]) == Folded(snapshot, accepted)
    {
      FoldStep(base, log, i);
      var reduced := Reduce(snapshot, log[i], i + 1);
      if reduced.Corrupt? {
        FoldStaysBroken(base, log, i + 1);
        return Broken(reduced.reason);
      } else if reduced.Accepted? {
        snapshot, accepted := reduced.next, accepted + {i};
      }
    }
    assert log[..|log|] == log;
    r := Folded(snapshot, accepted);
  }

  lemma FoldStep(base: Snapshot, log: seq<LedgerEvent>, i: nat)
    requires i < |log|
    ensures Fold(base, log[..i + 1]) == Extend(Fold(base, log[..i]), log[i], i)
  {
    assert log[..i + 1][..i] == log[..i];
  }

  /** A corrupt comment breaks the fold of every longer log, with the same reason. */
  lemma {:induction false} FoldStaysBroken(base: Snapshot, log: seq<LedgerEvent>, n: nat)
    requires n <= |log| && Fold(base, log[..n]).Broken?
    ensures Fold(base, log) == Fold(base, log[..n])
    decreases |log|
  {
    if n == |log| {
      assert log[..n] == log;
    } else {
      var last := |log| - 1;
      assert log[..last][..n] == log[..n];
      FoldStaysBroken(base, log[..last], n);
    }
  }

  // ---------------------------------------------------------------- writers

  datatype Intent =
    | TryClaim(expectedVersion: int, proposed: Claim, nowMs: nat)
    | MarkRunning(fence: Id, nowMs: nat)
    | Heartbeat(fence: Id, nowMs: nat, ttlMs: int)
    | FailClaim(fence: Id, failureClass: FailureClass, reason: string, nowMs: nat, policy: RetryPolicy)
    | Transition(to: LifecycleState, nowMs: nat, claimFence: Option<Id>, evidence: Evidence, message: string)

  function NextEvent(s: Snapshot, operation: Operation, to: LifecycleState, atMs: int, fence: Option<Id>,
                     claim: Option<Claim>, retry: Option<Retry>, evidence: Evidence, message: string): LedgerEvent
  {
    LedgerEvent(s.issue.id, s.version, operation, s.state, to, atMs, fence, claim, retry, evidence, message)
  }

  predicate HoldsFence(s: Snapshot, fence: Id) {
    s.claim.Some? && s.claim.value.fence == fence
  }

  // Only these fields may come from the provider, and the caller may not supply them.
  const PROVIDER_FIELDS: set<EvidenceField> := {BranchUrl, BranchSha, PrUrl, MergedAt, MergeCommitSha}

  /** The event an adapter call appends, or None when it returns or throws before writing.
      `s` is the snapshot the call read, already overlaid with the provider's evidence. */
  function Write(s: Snapshot, provider: Evidence, intent: Intent): Option<LedgerEvent> {
    match intent
    case TryClaim(expectedVersion, proposed, nowMs) =>
      if s.version != expectedVersion || s.claim.Some? then None
      else if s.state != Ready && s.state != RetryWait then None
      else if s.state == RetryWait && (s.retry.None? || s.retry.value.dueAtMs > nowMs) then None
      else if proposed.issueId != s.issue.id || proposed.issueIdentifier != s.issue.identifier then None
      else if proposed.attempt != ExpectedAttempt(s.retry) then None
      else Some(NextEvent(s, ClaimOp, Claimed, nowMs, Some(proposed.fence), Some(proposed), None, s.evidence,
                          "atomically claimed"))
    case MarkRunning(fence, nowMs) =>
      if !HoldsFence(s, fence) || s.state != Claimed then None
      else Some(NextEvent(s, RunningOp, Running, nowMs, Some(fence),
                          Some(s.claim.value.(heartbeatAtMs := nowMs)), None, s.evidence, "running"))
    case Heartbeat(fence, nowMs, ttlMs) =>
      if !HoldsFence(s, fence) then None
      else Some(NextEvent(s, HeartbeatOp, s.state, nowMs, Some(fence),
                          Some(s.claim.value.(heartbeatAtMs := nowMs, expiresAtMs := nowMs + ttlMs)),
                          s.retry, s.evidence, "heartbeat"))
    case FailClaim(fence, failureClass, reason, nowMs, policy) =>
      if !HoldsFence(s, fence) then None
      else
        var attempt := s.claim.value.attempt;
        Some(NextEvent(s, FailureOp, StateAfterFailure(failureClass, attempt, policy), nowMs, Some(fence), None,
                       RetryAfter(failureClass, reason, attempt, nowMs, policy), s.evidence, reason))
    case Transition(to, nowMs, fence, callerEvidence, message) =>
      var evidence := s.evidence + (callerEvidence - PROVIDER_FIELDS) + provider;
      if s.claim.Some? && fence != Some(s.claim.value.fence) then None
      else if (to == PrOpen || to == Merged) && !Has(provider, PrUrl) then None
      else if to == Merged && !(Has(provider, MergedAt) && Has(provider, MergeCommitSha)) then None
      else if !EvidenceAllows(s, to, evidence) then None
      else Some(NextEvent(s, TransitionOp, to, nowMs, fence,
                          if IsTerminal(to) || to == Blocked then None else s.claim, s.retry, evidence, message))
  }

  // What a reader hands to a writer: the fold of a prefix, overlaid with provider evidence.
  function Overlay(s: Snapshot, provider: Evidence): Snapshot {
    s.(evidence := s.evidence + provider)
  }

  // `failClaim` is the one call that does not check the lifecycle table before appending.
  predicate Lawful(s: Snapshot, intent: Intent) {
    intent.FailClaim? && s.claim.Some? ==>
      Legal(s.state, StateAfterFailure(intent.failureClass, s.claim.value.attempt, intent.policy))
  }

  /** What a writer builds is what the reducer admits on the snapshot it read - always,
      except for a failure report in a state that the lifecycle table does not let fail
      that way, and then never. */
  lemma WriteMatchesReducer(s: Snapshot, provider: Evidence, intent: Intent, sequence: nat)
    requires provider.Keys <= PROVIDER_FIELDS
    requires Write(Overlay(s, provider), provider, intent).Some?
    ensures var e := Write(Overlay(s, provider), provider, intent).value;
      && e.issueId == s.issue.id && e.expectedVersion == s.version
      && (if Lawful(s, intent) then Reduce(s, e, sequence).Accepted? else Reduce(s, e, sequence) == Corrupt(InvalidEvent))
  {
    hide Legal, EvidenceAllows;
    if intent.Transition? {
      TransitionAdmitted(s, provider, intent);
    }
  }

  lemma TransitionAdmitted(s: Snapshot, provider: Evidence, intent: Intent)
    requires provider.Keys <= PROVIDER_FIELDS && intent.Transition?
    requires Write(Overlay(s, provider), provider, intent).Some?
    ensures OperationAllows(s, Write(Overlay(s, provider), provider, intent).value)
  {
  }

  // ---------------------------------------------------------------- interleaved runs

  // One append: how many comments its writer had read, the projected label and provider
  // evidence it saw then, what it wanted, and the event that went into the log.
  datatype Turn = Turn(readAt: nat, projected: LifecycleState, provider: Evidence, intent: Intent, event: LedgerEvent)

  function Log(run: seq<Turn>): (log: seq<LedgerEvent>)
    ensures |log| == |run|
    ensures forall i :: 0 <= i < |run| ==> log[i] == run[i].event
  {
    seq(|run|, i requires 0 <= i < |run| => run[i].event)
  }

  function View(issue: Issue, run: seq<Turn>, t: Turn): Folded
    requires t.readAt <= |run|
  {
    Hydrate(issue, t.projected, Log(run)[..t.readAt])
  }

  predicate WellWritten(issue: Issue, run: seq<Turn>, i: nat)
    requires i < |run|
  {
    var t := run[i];
    && t.readAt <= i
    && t.provider.Keys <= PROVIDER_FIELDS
    && View(issue, run, t).Folded?
    && Write(Overlay(View(issue, run, t).snapshot, t.provider), t.provider, t.intent) == Some(t.event)
  }

  // Every append was built from the fold of some earlier prefix of the same log.
  predicate Run(issue: Issue, run: seq<Turn>) {
    forall i :: 0 <= i < |run| ==> WellWritten(issue, run, i)
  }

  // No earlier comment expects the same version.
  predicate First(log: seq<LedgerEvent>, i: nat)
    requires i < |log|
  {
    forall j :: 0 <= j < i ==> log[j].expectedVersion != log[i].expectedVersion
  }

  function Winners(log: seq<LedgerEvent>): set<nat> {
    set i: nat | i < |log| && First(log, i)
  }

  predicate LawfulTurn(issue: Issue, run: seq<Turn>, i: nat)
    requires i < |run| && WellWritten(issue, run, i)
  {
    Lawful(View(issue, run, run[i]).snapshot, run[i].intent)
  }

  predicate WinnersLawful(issue: Issue, run: seq<Turn>)
    requires Run(issue, run)
  {
    forall i :: 0 <= i < |run| && First(Log(run), i) ==> LawfulTurn(issue, run, i)
  }

  lemma RunPrefix(issue: Issue, run: seq<Turn>, n: nat)
    requires Run(issue, run) && n <= |run|
    ensures Run(issue, run[..n]) && Log(run[..n]) == Log(run)[..n]
    ensures forall i: nat | i < n :: LawfulTurn(issue, run[..n], i) == LawfulTurn(issue, run, i)
    ensures forall i: nat | i < n :: First(Log(run[..n]), i) == First(Log(run), i)
    ensures WinnersLawful(issue, run) ==> WinnersLawful(issue, run[..n])
  {
    assert Log(run[..n]) == Log(run)[..n];
    forall i: nat | i < n
      ensures WellWritten(issue, run[..n], i)
      ensures View(issue, run[..n], run[i]) == View(issue, run, run[i])
    {
      assert WellWritten(issue, run, i);
      assert Log(run[..n])[..run[i].readAt] == Log(run)[..run[i].readAt];
    }
  }

  // Versions only grow along the log, and while they stand still nothing else moves.
  lemma {:induction false} FoldMonotone(base: Snapshot, log: seq<LedgerEvent>, k: nat)
    requires k <= |log| && Fold(base, log).Folded?
    ensures var early, late := Fold(base, log[..k]), Fold(base, log);
      && early.Folded? && early.snapshot.version <= late.snapshot.version
      && (early.snapshot.version == late.snapshot.version ==> early.snapshot == late.snapshot)
      && early.accepted <= late.accepted
    decreases |log|
  {
    if k == |log| {
      assert log[..k] == log;
    } else {
      var last := |log| - 1;
      assert log[..last][..k] == log[..k];
      FoldMonotone(base, log[..last], k);
    }
  }

  lemma {:induction false} FoldKeepsIssue(base: Snapshot, log: seq<LedgerEvent>)
    requires Fold(base, log).Folded?
    ensures Fold(base, log).snapshot.issue == base.issue
    decreases |log|
  {
    if log != [] {
      FoldKeepsIssue(base, log[..|log| - 1]);
    }
  }

  lemma HydrateKeepsIssue(issue: Issue, projected: LifecycleState, log: seq<LedgerEvent>)
    requires Hydrate(issue, projected, log).Folded?
    ensures Hydrate(issue, projected, log).snapshot.issue == issue
  {
    FoldKeepsIssue(Baseline(issue, if log == [] then projected else log[0].from).value, log);
  }

  // While a run has produced no comment that breaks the fold, every version below the
  // current one has been asked for exactly by a winner.
  predicate Settled(f: Folded, log: seq<LedgerEvent>) {
    && f.Folded?
    && f.accepted == Winners(log)
    && f.snapshot.version == 1 + |f.accepted|
    && |f.snapshot.events| == f.snapshot.version
    && (forall i :: 0 <= i < |log| ==> 1 <= log[i].expectedVersion < f.snapshot.version)
    && (forall v :: 1 <= v < f.snapshot.version ==> Asked(log, v))
  }

  predicate Asked(log: seq<LedgerEvent>, version: int) {
    exists i :: 0 <= i < |log| && log[i].expectedVersion == version
  }

  // A reader that is not behind folds to the very snapshot the log is at.
  lemma CurrentReader(issue: Issue, run: seq<Turn>, last: nat, projected: LifecycleState)
    requires Run(issue, run) && last + 1 == |run|
    requires WellWritten(issue, run, last)
    requires Settled(Hydrate(issue, projected, Log(run)[..last]), Log(run)[..last])
    ensures var view := View(issue, run, run[last]).snapshot;
      var at := Hydrate(issue, if last == 0 then run[last].projected else projected, Log(run)[..last]);
      && at.Folded?
      && 1 <= view.version <= at.snapshot.version
      && run[last].event.expectedVersion == view.version
      && (view.version == at.snapshot.version ==> view == at.snapshot)
  {
    var log := Log(run)[..last];
    var t := run[last];
    var early := Log(run)[..t.readAt];
    assert early == log[..t.readAt];
    if t.readAt > 0 {
      assert early[0] == log[0];
      var base := Baseline(issue, log[0].from).value;
      FoldMonotone(base, log, t.readAt);
      FoldMonotone(base, log, 0);
      FoldMonotone(base, early, 0);
    } else if last > 0 {
      var base := Baseline(issue, log[0].from).value;
      FoldMonotone(base, log, 1);
      assert log[..1][..0] == [];
      assert Fold(base, log[..1][..0]) == Folded(base, {});
      assert Settled(Hydrate(issue, projected, log), log);
    }
    WriteMatchesReducer(View(issue, run, t).snapshot, t.provider, t.intent, last + 1);
  }

  // The label a reader must have seen for the fold of the first `last` comments to be the
  // one its successor builds on.
  function Seen(run: seq<Turn>, last: nat, projected: LifecycleState): LifecycleState
    requires last < |run|
  {
    if last == 0 then run[last].projected else projected
  }

  lemma HydrateStep(issue: Issue, run: seq<Turn>, last: nat, projected: LifecycleState)
    requires last + 1 == |run| && WellWritten(issue, run, last)
    requires last == 0 || Hydrate(issue, projected, Log(run)[..last]).Folded?
    ensures Hydrate(issue, projected, Log(run))
         == Extend(Hydrate(issue, Seen(run, last, projected), Log(run)[..last]), run[last].event, last)
  {
    var log := Log(run);
    var t := run[last];
    if last == 0 {
      assert log[..t.readAt] == [] == log[..last];
      assert t.event == Write(Overlay(View(issue, run, t).snapshot, t.provider), t.provider, t.intent).value;
      WriteMatchesReducer(View(issue, run, t).snapshot, t.provider, t.intent, 1);
      assert t.event.from == t.projected;
    } else {
      assert log[..last][0] == log[0];
    }
  }

  lemma WinnersExtend(log: seq<LedgerEvent>, last: nat)
    requires last + 1 == |log|
    ensures Winners(log) == Winners(log[..last]) + if First(log, last) then {last} else {}
  {
    forall i: nat | i < last ensures First(log, i) == First(log[..last], i) {
    }
  }

  // Everything about the last append that the inductive steps need.
  lemma LastTurn(issue: Issue, run: seq<Turn>, last: nat, projected: LifecycleState)
    requires Run(issue, run) && last + 1 == |run| && WellWritten(issue, run, last)
    requires var p := Seen(run, last, projected); Settled(Hydrate(issue, p, Log(run)[..last]), Log(run)[..last])
    ensures var before := Hydrate(issue, Seen(run, last, projected), Log(run)[..last]);
      var view := View(issue, run, run[last]).snapshot;
      && Hydrate(issue, projected, Log(run)) == Extend(before, run[last].event, last)
      && run[last].event.issueId == before.snapshot.issue.id
      && run[last].event.expectedVersion == view.version
      && 1 <= view.version <= before.snapshot.version
      && (view.version == before.snapshot.version ==> view == before.snapshot)
  {
    var p := Seen(run, last, projected);
    CurrentReader(issue, run, last, p);
    HydrateStep(issue, run, last, projected);
    HydrateKeepsIssue(issue, p, Log(run)[..last]);
    HydrateKeepsIssue(issue, run[last].projected, Log(run)[..run[last].readAt]);
    WriteMatchesReducer(View(issue, run, run[last]).snapshot, run[last].provider, run[last].intent, last + 1);
  }

  lemma SettledStep(issue: Issue, run: seq<Turn>, last: nat, projected: LifecycleState)
    requires Run(issue, run) && last + 1 == |run|
    requires var p := Seen(run, last, projected); Settled(Hydrate(issue, p, Log(run)[..last]), Log(run)[..last])
    ensures var after := Hydrate(issue, projected, Log(run));
      if First(Log(run), last) && !LawfulTurn(issue, run, last) then after == Broken(InvalidEvent)
      else Settled(after, Log(run))
  {
    var before := Hydrate(issue, Seen(run, last, projected), Log(run)[..last]);
    var t := run[last];
    assert WellWritten(issue, run, last);
    LastTurn(issue, run, last, projected);
    WriteMatchesReducer(View(issue, run, t).snapshot, t.provider, t.intent, last + 1);
    ExtendSettles(before, Log(run), last);
  }

  // A settled log has asked for every version below the current one, and for no other.
  lemma FirstIsCurrent(before: Folded, log: seq<LedgerEvent>, last: nat)
    requires last + 1 == |log| && Settled(before, log[..last])
    requires 1 <= log[last].expectedVersion <= before.snapshot.version
    ensures First(log, last) <==> log[last].expectedVersion == before.snapshot.version
  {
    hide Winners, Fold;
    if log[last].expectedVersion < before.snapshot.version {
      assert Asked(log[..last], log[last].expectedVersion);
    }
  }

  lemma AskedStays(before: Folded, log: seq<LedgerEvent>, last: nat)
    requires last + 1 == |log| && Settled(before, log[..last])
    ensures forall v :: 1 <= v < before.snapshot.version ==> Asked(log, v)
  {
    forall v | 1 <= v < before.snapshot.version ensures Asked(log, v) {
      AskedEarlier(log, last, v);
    }
  }

  lemma AcceptSettles(before: Folded, log: seq<LedgerEvent>, last: nat, next: Snapshot)
    requires last + 1 == |log| && Settled(before, log[..last]) && First(log, last)
    requires log[last].expectedVersion == before.snapshot.version
    requires next.version == before.snapshot.version + 1 && |next.events| == |before.snapshot.events| + 1
    ensures Settled(Folded(next, before.accepted + {last}), log)
  {
    WinnersExtend(log, last);
    AskedStays(before, log, last);
    assert Asked(log, log[last].expectedVersion);
    assert last !in before.accepted;
  }

  lemma StaleSettles(before: Folded, log: seq<LedgerEvent>, last: nat)
    requires last + 1 == |log| && Settled(before, log[..last]) && !First(log, last)
    requires 1 <= log[last].expectedVersion < before.snapshot.version
    ensures Settled(before, log)
  {
    WinnersExtend(log, last);
    AskedStays(before, log, last);
  }

  // What one more comment does to a settled log, given only that it does not ask for a
  // version from the future.
  lemma ExtendSettles(before: Folded, log: seq<LedgerEvent>, last: nat)
    requires last + 1 == |log| && Settled(before, log[..last])
    requires 1 <= log[last].expectedVersion <= before.snapshot.version
    requires log[last].issueId == before.snapshot.issue.id
    ensures First(log, last) <==> log[last].expectedVersion == before.snapshot.version
    ensures var after := Extend(before, log[last], last);
      if First(log, last) && Reduce(before.snapshot, log[last], last + 1).Corrupt?
      then after == Broken(Reduce(before.snapshot, log[last], last + 1).reason)
      else Settled(after, log)
  {
    assert before.Folded?;
    hide Reduce, Settled, First;
    var e := log[last];
    FirstIsCurrent(before, log, last);
    ReduceOutcome(before.snapshot, e, last + 1);
    if e.expectedVersion < before.snapshot.version {
      StaleSettles(before, log, last);
    } else if Reduce(before.snapshot, e, last + 1).Accepted? {
      AcceptSettles(before, log, last, Reduce(before.snapshot, e, last + 1).next);
    }
  }

  lemma ReduceOutcome(s: Snapshot, e: LedgerEvent, sequence: nat)
    requires e.issueId == s.issue.id
    ensures e.expectedVersion < s.version ==> Reduce(s, e, sequence).Stale?
    ensures e.expectedVersion == s.version ==> !Reduce(s, e, sequence).Stale?
    ensures var r := Reduce(s, e, sequence);
      r.Accepted? ==> r.next.version == s.version + 1 && |r.next.events| == |s.events| + 1 && r.next.issue == s.issue
  {
  }

  lemma AskedEarlier(log: seq<LedgerEvent>, last: nat, v: int)
    requires last <= |log| && Asked(log[..last], v)
    ensures Asked(log, v)
  {
    var i :| 0 <= i < last && log[..last][i].expectedVersion == v;
    assert log[i].expectedVersion == v;
  }

  // ---------------------------------------------------------------- main results

  /** Compare-and-set over comments is linearizable.  Whatever the interleaving of writers,
      the log folds without an error exactly when no winning comment is an unlawful failure
      report; then the accepted comments are exactly the first one per expected version,
      every version below the current one was won by somebody, and the version counts the
      wins.  The error is never a gap in the versions, a wrong source state or a wrong
      binding: it is always that failure report. */
  lemma {:induction false} CasLinearizable(issue: Issue, run: seq<Turn>, projected: LifecycleState)
    requires Run(issue, run)
    requires run == [] ==> Baseline(issue, projected).Some?
    ensures WinnersLawful(issue, run) ==> Settled(Hydrate(issue, projected, Log(run)), Log(run))
    ensures !WinnersLawful(issue, run) ==> Hydrate(issue, projected, Log(run)) == Broken(InvalidEvent)
    decreases |run|
  {
    if run == [] {
      assert Winners([]) == {};
    } else {
      var last := |run| - 1;
      assert WellWritten(issue, run, last);
      RunPrefix(issue, run, last);
      CasLinearizable(issue, run[..last], Seen(run, last, projected));
      WinnersLawfulStep(issue, run, last);
      if WinnersLawful(issue, run[..last]) {
        SettledStep(issue, run, last, projected);
      } else {
        BrokenForGood(issue, run, last, projected);
      }
    }
  }

  lemma WinnersLawfulStep(issue: Issue, run: seq<Turn>, last: nat)
    requires Run(issue, run) && last + 1 == |run| && Run(issue, run[..last])
    ensures WinnersLawful(issue, run)
       <==> WinnersLawful(issue, run[..last]) && (First(Log(run), last) ==> LawfulTurn(issue, run, last))
  {
    RunPrefix(issue, run, last);
    if WinnersLawful(issue, run[..last]) {
      forall i | 0 <= i < last && First(Log(run), i) ensures LawfulTurn(issue, run, i) {
        assert First(Log(run[..last]), i) && LawfulTurn(issue, run[..last], i);
      }
    }
  }

  lemma BrokenForGood(issue: Issue, run: seq<Turn>, n: nat, projected: LifecycleState)
    requires 0 < n <= |run| && Hydrate(issue, projected, Log(run)[..n]).Broken?
    ensures Hydrate(issue, projected, Log(run)) == Hydrate(issue, projected, Log(run)[..n])
  {
    var log := Log(run);
    assert log[..n][0] == log[0];
    if log[0].expectedVersion == 1 && Baseline(issue, log[0].from).Some? {
      FoldStaysBroken(Baseline(issue, log[0].from).value, log, n);
    }
  }

  /** `commit` tells the truth, whenever it reads back: the writer of comment `i` finds its
      own comment among the winners exactly when no earlier comment expected its version,
      no matter how many comments others appended before the readback. */
  lemma CommitDecides(issue: Issue, run: seq<Turn>, i: nat, n: nat, projected: LifecycleState)
    requires Run(issue, run) && WinnersLawful(issue, run) && i < n <= |run|
    ensures var readback := Hydrate(issue, projected, Log(run)[..n]);
      readback.Folded? && (i in readback.accepted <==> First(Log(run), i))
  {
    RunPrefix(issue, run, n);
    CasLinearizable(issue, run[..n], projected);
    assert First(Log(run[..n]), i) == First(Log(run), i);
  }

  /** At most one of two writers that read the same version wins. */
  lemma OneWinnerPerVersion(issue: Issue, run: seq<Turn>, i: nat, j: nat, projected: LifecycleState)
    requires Run(issue, run) && WinnersLawful(issue, run) && i < j < |run|
    requires run[i].event.expectedVersion == run[j].event.expectedVersion
    ensures var f := Hydrate(issue, projected, Log(run));
      f.Folded? && j !in f.accepted
      && exists w: nat :: w <= i && w in f.accepted && run[w].event.expectedVersion == run[i].event.expectedVersion
  {
    CasLinearizable(issue, run, projected);
    var w := FirstWith(Log(run), i);
    assert w in Winners(Log(run));
  }

  lemma {:induction false} FirstWith(log: seq<LedgerEvent>, i: nat) returns (w: nat)
    requires i < |log|
    ensures w <= i && First(log, w) && log[w].expectedVersion == log[i].expectedVersion
    decreases i
  {
    if First(log, i) {
      w := i;
    } else {
      var j: nat :| j < i && log[j].expectedVersion == log[i].expectedVersion;
      w := FirstWith(log, j);
    }
  }
}
