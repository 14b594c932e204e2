/** What an uncrashed tick makes of the claim a crashed one left behind, and what a tick
    with nothing claimed makes of the queue.
 */
module CrashRecovery {
  import opened Domain
  import opened Wrappers
  import opened Identity
  import opened Text
  import opened Tracker
  import opened RunStores
  import opened DispatchOrder
  import opened Scheduler
  import opened SchedulerRuns

  // ---------------------------------------------------------------- no collisions

  // No other issue spells the same ID and identifier, joined by a line break.
  predicate Unambiguous(s: State, issue: IssueInfo) {
    forall j :: j in s.issues && j + "\n" + s.issues[j].issue.identifier == issue.id + "\n" + issue.identifier
      ==> j == issue.id
  }

  /** Issue IDs without line breaks are never ambiguous. */
  lemma PlainIdsUnambiguous(s: State, issue: IssueInfo)
    requires '\n' !in issue.id && forall j :: j in s.issues ==> '\n' !in j
    ensures Unambiguous(s, issue)
  {
    forall j | j in s.issues && j + "\n" + s.issues[j].issue.identifier == issue.id + "\n" + issue.identifier
      ensures j == issue.id
    {
      var n := s.issues[j].issue.identifier;
      assert j + ['\n'] + n == j + "\n" + n && issue.id + ['\n'] + issue.identifier == issue.id + "\n" + issue.identifier;
      FirstSeparatorUnique(j, n, issue.id, issue.identifier, '\n');
    }
  }

  // A record made under the identity of this attempt can only be this attempt's own.
  lemma SameIdSameRun(cfg: Config, s: State, issue: IssueInfo, a: Attempt, j: string, b: Attempt)
    requires s.Valid() && Unambiguous(s, issue) && issue.id in s.issues && s.issues[issue.id].issue == issue
    requires j in s.issues && Nameable(issue.identifier) && Nameable(s.issues[j].issue.identifier)
    requires var x := ForAttempt(cfg.root, issue.id, issue.identifier, a).value;
      var y := ForAttempt(cfg.root, j, s.issues[j].issue.identifier, b).value;
      x.sessionId == y.sessionId || x.workspaceId == y.workspaceId
    ensures j == issue.id && a == b
  {
    SharedIdentity(cfg.root, issue.id, issue.identifier, a, j, s.issues[j].issue.identifier, b);
  }

  lemma WorkspaceFits(cfg: Config, w: World, e: Entry)
    requires Good(cfg, w) && Current(w, e) && Unambiguous(w.tracker, e.issue)
    ensures AddWorkspace(w, IdentityOf(e.claim.value)).Some?
  {
    HonestRecords(cfg, w.tracker, e);
    var b := WorkspaceOf(IdentityOf(e.claim.value));
    if b.id in w.workspaces.byId {
      var r := w.workspaces.byId[b.id];
      SameIdSameRun(cfg, w.tracker, e.issue, b.attempt, r.issueId, r.attempt);
    }
    if LabelOf(b) in w.workspaces.byAttempt {
      var r := w.workspaces.byAttempt[LabelOf(b)];
      AttemptLabelInjective(r.issueId, r.attempt, b.issueId, b.attempt);
      assert r == w.workspaces.byId[r.id];
    }
  }

  lemma SessionFits(cfg: Config, w: World, e: Entry)
    requires Good(cfg, w) && Current(w, e) && Unambiguous(w.tracker, e.issue)
    ensures AddSession(w, IdentityOf(e.claim.value)).Some?
  {
    HonestRecords(cfg, w.tracker, e);
    var b := SessionOf(IdentityOf(e.claim.value));
    if b.id in w.sessions.byId {
      var r := w.sessions.byId[b.id];
      SameIdSameRun(cfg, w.tracker, e.issue, b.attempt, r.issueId, r.attempt);
    }
    if LabelOf(b) in w.sessions.byAttempt {
      var r := w.sessions.byAttempt[LabelOf(b)];
      AttemptLabelInjective(r.issueId, r.attempt, b.issueId, b.attempt);
      assert r == w.sessions.byId[r.id];
    }
  }

  // ---------------------------------------------------------------- a claim reaches running

  // The issue runs under the binding of `claim`, and both records exist under its identity.
  ghost predicate RunsUnder(w: World, id: string, claim: Domain.Claim) {
    && id in w.tracker.issues
    && w.tracker.issues[id].state == Running
    && BindingOf(w.tracker.issues[id].claim) == Some(Domain.Binding(claim))
    && claim.workspaceId in w.workspaces.byId && w.workspaces.byId[claim.workspaceId] == WorkspaceOf(IdentityOf(claim))
    && claim.sessionId in w.sessions.byId && w.sessions.byId[claim.sessionId] == SessionOf(IdentityOf(claim))
  }

  lemma RecordedUnder(cfg: Config, w: World, e: Entry, w1: World, w2: World)
    requires Good(cfg, w) && Current(w, e) && Good(cfg, w1)
    requires AddWorkspace(w, IdentityOf(e.claim.value)) == Some(w1)
    requires AddSession(w1, IdentityOf(e.claim.value)) == Some(w2)
    ensures var claim := e.claim.value;
      && claim.workspaceId in w2.workspaces.byId && w2.workspaces.byId[claim.workspaceId] == WorkspaceOf(IdentityOf(claim))
      && claim.sessionId in w2.sessions.byId && w2.sessions.byId[claim.sessionId] == SessionOf(IdentityOf(claim))
  {
    EnsureIsIdempotent(w.workspaces, WorkspaceOf(IdentityOf(e.claim.value)));
    EnsureIsIdempotent(w1.sessions, SessionOf(IdentityOf(e.claim.value)));
  }

  lemma StartClaimRuns(cfg: Config, w: World, e: Entry)
    requires Good(cfg, w) && Current(w, e) && e.state == Claimed && Unambiguous(w.tracker, e.issue)
    ensures var p := StartClaim(cfg, w, e.claim.value, None);
      p.end.Finished? && RunsUnder(p.world, e.issue.id, e.claim.value)
  {
    hide GoodTracker, HonestWorkspaces, HonestSessions, Inverse, Extends, TrackerMoved;
    var run := IdentityOf(e.claim.value);
    WorkspaceFits(cfg, w, e);
    AddWorkspaceKeeps(cfg, w, e);
    var w1 := AddWorkspace(w, run).value;
    SessionFits(cfg, w1, e);
    AddSessionKeeps(cfg, w1, e);
    var w2 := AddSession(w1, run).value;
    RecordedUnder(cfg, w, e, w1, w2);
    MarkRunningKeeps(cfg, w2, e);
  }

  // A crash inside StartClaim leaves the claim as it was.
  lemma StartClaimCrash(cfg: Config, w: World, e: Entry, crash: Option<CrashPoint>)
    requires Good(cfg, w) && Current(w, e) && e.state == Claimed
    ensures var p := StartClaim(cfg, w, e.claim.value, crash);
      p.end.Crashed? ==> && p.world.tracker == w.tracker && crash == Some(p.end.point)
                         && (crash == Some(AfterSession) ==> e.claim.value.sessionId in p.world.sessions.byId)
  {
    hide GoodTracker, HonestWorkspaces, HonestSessions, Inverse, Extends, TrackerMoved;
    var run := IdentityOf(e.claim.value);
    AddWorkspaceKeeps(cfg, w, e);
    if AddWorkspace(w, run).Some? && crash != Some(AfterWorkspace) {
      AddSessionKeeps(cfg, AddWorkspace(w, run).value, e);
    }
  }

  // ---------------------------------------------------------------- recovery

  // The claim has not run out, or its session has been recorded.
  ghost predicate Recoverable(w: World, claim: Domain.Claim) {
    w.nowMs < claim.expiresAtMs || claim.sessionId in w.sessions.byId
  }

  // With one claim, the first half of the tick handles that claim and nothing else.
  lemma SweepIsHolder(cfg: Config, w: World, e: Entry, crash: Option<CrashPoint>, cancel: Option<SessionStatus>)
    requires Good(cfg, w) && Current(w, e)
    ensures Swept(cfg, w, crash, cancel) == ReconcileOne(cfg, w.(reconciled := true), e, crash, cancel)
  {
    var w0 := w.(reconciled := true);
    AtMostOneActive(cfg, w0);
    ReconcileIsOneStep(cfg, w0, crash, cancel);
    var active := SortedClaims(w0.tracker);
    assert w0.tracker.issues[e.issue.id] in active;
  }

  lemma HolderStays(cfg: Config, w: World, id: string)
    requires Good(cfg, w) && id in w.tracker.issues && w.tracker.issues[id].claim.Some?
    ensures ActiveEntries(w.tracker) != []
  {
    NoActiveMeansNothingClaimed(cfg, w);
  }

  /** One uncrashed tick after a crash decides a claimed run: as long as its claim has not
      run out, or its session had already been recorded, the issue reaches running under
      the same fence, session and workspace. */
  lemma RecoveryReachesRunning(cfg: Config, w: World, e: Entry, cancel: Option<SessionStatus>)
    requires Good(cfg, w) && Current(w, e) && e.state == Claimed && Unambiguous(w.tracker, e.issue)
    requires Recoverable(w, e.claim.value)
    ensures var p := Tick(cfg, w, None, cancel);
      p.end.Finished? && RunsUnder(p.world, e.issue.id, e.claim.value)
  {
    hide GoodTracker, HonestWorkspaces, HonestSessions, Inverse, Extends, TrackerMoved;
    var w0 := w.(reconciled := true);
    SweepIsHolder(cfg, w, e, None, cancel);
    HolderAccepted(cfg, w0, e);
    StartClaimRuns(cfg, w0, e);
    SweepKeeps(cfg, w, None, cancel);
    HolderStays(cfg, Swept(cfg, w, None, cancel).world, e.issue.id);
  }

  lemma HolderExpires(cfg: Config, w: World, e: Entry)
    requires Good(cfg, w) && Current(w, e) && e.state == Claimed
    ensures var call := FailClaim(RuntimeFailure, CLAIM_EXPIRED, w.nowMs, cfg.policy);
      var p := FailRun(cfg, w, e.claim.value.fence, RuntimeFailure, CLAIM_EXPIRED);
      && p.end.Finished? && e.issue.id in p.world.tracker.issues
      && Apply(e, call).Ok? && p.world.tracker.issues[e.issue.id].(events := []) == Apply(e, call).value.(events := [])
  {
    hide GoodTracker, HonestWorkspaces, HonestSessions, Inverse, Extends, Fail;
    var call := FailClaim(RuntimeFailure, CLAIM_EXPIRED, w.nowMs, cfg.policy);
    FailLegalInGood(cfg, w, e, call);
    CallKeepsTracker(cfg, w.tracker, e.issue.id, call);
  }

  lemma FailLegalInGood(cfg: Config, w: World, e: Entry, call: FenceCall)
    requires Good(cfg, w) && Current(w, e) && e.state == Claimed && call.FailClaim?
    ensures Apply(e, call).Ok?
  {
    FailAlwaysLegal(cfg, e, call);
  }

  /** Otherwise the first thing the tick does is to give the claim up. */
  lemma ExpiredClaimFails(cfg: Config, w: World, e: Entry, crash: Option<CrashPoint>, cancel: Option<SessionStatus>)
    requires Good(cfg, w) && Current(w, e) && e.state == Claimed && !Recoverable(w, e.claim.value)
    ensures var p := Swept(cfg, w, crash, cancel);
      && p.end.Finished? && e.issue.id in p.world.tracker.issues
      && var f := p.world.tracker.issues[e.issue.id];
         && f.claim.None? && f.state == StateAfterFailure(RuntimeFailure, e.claim.value.attempt, cfg.policy)
         && f.retry == RetryAfter(RuntimeFailure, CLAIM_EXPIRED, e.claim.value.attempt, w.nowMs, cfg.policy)
  {
    hide GoodTracker, HonestWorkspaces, HonestSessions, Inverse, Extends, TrackerMoved, StartClaim, ReconcileFrom, FailRun;
    var w0 := w.(reconciled := true);
    SweepIsHolder(cfg, w, e, crash, cancel);
    HolderAccepted(cfg, w0, e);
    HolderExpires(cfg, w0, e);
  }

  // ---------------------------------------------------------------- crash, restart, recover

  // What a crashed tick leaves: one issue, claimed, with its claim in the tracker.
  ghost predicate LeftClaimed(w: World, e: Entry, point: CrashPoint) {
    && Current(w, e) && e.state == Claimed
    && (point == AfterSession ==> e.claim.value.sessionId in w.sessions.byId)
  }

  lemma SweepCrash(cfg: Config, w: World, crash: Option<CrashPoint>, cancel: Option<SessionStatus>) returns (e: Entry)
    requires Good(cfg, w) && Swept(cfg, w, crash, cancel).end.Crashed?
    ensures LeftClaimed(Swept(cfg, w, crash, cancel).world, e, Swept(cfg, w, crash, cancel).end.point)
  {
    var w0 := w.(reconciled := true);
    AtMostOneActive(cfg, w0);
    ReconcileIsOneStep(cfg, w0, crash, cancel);
    e := SortedClaims(w0.tracker)[0];
    HolderAccepted(cfg, w0, e);
    HolderCrash(cfg, w0, e, crash, cancel);
  }

  lemma HolderCrash(cfg: Config, w: World, e: Entry, crash: Option<CrashPoint>, cancel: Option<SessionStatus>)
    requires Good(cfg, w) && Current(w, e) && ReconcileOne(cfg, w, e, crash, cancel).end.Crashed?
    ensures LeftClaimed(ReconcileOne(cfg, w, e, crash, cancel).world, e, ReconcileOne(cfg, w, e, crash, cancel).end.point)
  {
    hide GoodTracker, HonestWorkspaces, HonestSessions, Inverse, Extends, TrackerMoved, CallOnFence, Transition, StartClaim;
    HolderAccepted(cfg, w, e);
    if e.state == Claimed {
      StartClaimCrash(cfg, w, e, crash);
    }
  }

  lemma ClaimCrash(cfg: Config, w: World, x: Entry, crash: Option<CrashPoint>) returns (e: Entry)
    requires Good(cfg, w) && WaitingNow(w, x) && NothingClaimed(w)
    requires ClaimOne(cfg, w, x, crash).Some? && ClaimOne(cfg, w, x, crash).value.end.Crashed?
    ensures var p := ClaimOne(cfg, w, x, crash).value; LeftClaimed(p.world, e, p.end.point)
  {
    hide GoodTracker, HonestWorkspaces, HonestSessions, Inverse, Extends, TrackerMoved, CallOnFence, StartClaim;
    ClaimOneKeeps(cfg, w, x, crash);
    ProposalAccepted(cfg, w, x);
    ClaimKeeps(cfg, w, x);
    var v := AfterTake(cfg, w, x);
    e := v.tracker.issues[x.issue.id];
    if crash != Some(AfterClaim) {
      StartClaimCrash(cfg, v, e, crash);
    }
  }

  /** Wherever a tick crashes, it leaves exactly one claimed issue behind, and its claim is
      in the tracker. */
  lemma CrashLeavesClaim(cfg: Config, w: World, crash: Option<CrashPoint>, cancel: Option<SessionStatus>)
      returns (e: Entry)
    requires Good(cfg, w) && Tick(cfg, w, crash, cancel).end.Crashed?
    ensures var p := Tick(cfg, w, crash, cancel); LeftClaimed(p.world, e, p.end.point)
  {
    var swept := Swept(cfg, w, crash, cancel);
    SweepKeeps(cfg, w, crash, cancel);
    if swept.end.Crashed? {
      e := SweepCrash(cfg, w, crash, cancel);
    } else {
      NoActiveMeansNothingClaimed(cfg, swept.world);
      var chosen := DispatchTakesLeast(cfg, swept.world, crash);
      e := ClaimCrash(cfg, swept.world, chosen.value, crash);
    }
  }

  lemma IssuesStay(cfg: Config, w: World, v: World)
    requires TickChange(cfg, w, v)
    ensures v.tracker.issues.Keys == w.tracker.issues.Keys
  {
  }

  /** Crash at any of the three points, let time pass, restart, tick again: unless the claim
      ran out before its session was recorded, the issue is running under the very claim the
      crashed tick had taken - and if the crash came after the session, always. */
  lemma CrashRestartRecovers(cfg: Config, w: World, crash: Option<CrashPoint>, cancel: Option<SessionStatus>, ms: nat,
                             cancelLater: Option<SessionStatus>) returns (e: Entry)
    requires Good(cfg, w) && Tick(cfg, w, crash, cancel).end.Crashed?
    requires forall j :: j in w.tracker.issues ==> '\n' !in j
    ensures var crashed := Tick(cfg, w, crash, cancel);
      var restarted := crashed.world.(nowMs := crashed.world.nowMs + ms, reconciled := false);
      && Current(crashed.world, e) && e.state == Claimed
      && (crashed.end.point == AfterSession || restarted.nowMs < e.claim.value.expiresAtMs
          ==> var p := Tick(cfg, restarted, None, cancelLater);
              p.end.Finished? && RunsUnder(p.world, e.issue.id, e.claim.value))
  {
    hide GoodTracker, HonestWorkspaces, HonestSessions, Inverse, Extends, TrackerMoved, Tick, RunsUnder;
    TickKeeps(cfg, w, crash, cancel);
    IssuesStay(cfg, w, Tick(cfg, w, crash, cancel).world);
    e := CrashLeavesClaim(cfg, w, crash, cancel);
    var crashed := Tick(cfg, w, crash, cancel);
    var restarted := crashed.world.(nowMs := crashed.world.nowMs + ms, reconciled := false);
    PlainIdsUnambiguous(restarted.tracker, e.issue);
    if crashed.end.point == AfterSession || restarted.nowMs < e.claim.value.expiresAtMs {
      RecoveryReachesRunning(cfg, restarted, e, cancelLater);
    }
  }

  // ---------------------------------------------------------------- progress

  lemma StillUnambiguous(cfg: Config, w: World, v: World, issue: IssueInfo)
    requires TickChange(cfg, w, v) && Unambiguous(w.tracker, issue)
    ensures Unambiguous(v.tracker, issue)
  {
  }

  lemma TakenRuns(cfg: Config, w: World, x: Entry)
    requires Good(cfg, w) && WaitingNow(w, x) && NothingClaimed(w) && Unambiguous(w.tracker, x.issue)
    requires Dispatchable(x, w.nowMs) && Admissible(cfg, x) && Nameable(x.issue.identifier)
    ensures ClaimOne(cfg, w, x, None).Some?
    ensures var p := ClaimOne(cfg, w, x, None).value;
      p.end.Finished? && RunsUnder(p.world, x.issue.id, Proposal(cfg, x, w.nowMs).value)
  {
    hide TickChange, GoodTracker, HonestWorkspaces, HonestSessions, Inverse, StartClaim, ClaimOne, TryClaim, Unambiguous, RunsUnder;
    ClaimOneTakes(cfg, w, x, None);
    ClaimKeeps(cfg, w, x);
    var v := AfterTake(cfg, w, x);
    ChangeIsGood(cfg, w, v);
    StillUnambiguous(cfg, w, v, x.issue);
    StartClaimRuns(cfg, v, v.tracker.issues[x.issue.id]);
  }

  lemma IdleSweep(cfg: Config, w: World, crash: Option<CrashPoint>, cancel: Option<SessionStatus>)
    requires Good(cfg, w) && NothingClaimed(w)
    ensures Swept(cfg, w, crash, cancel) == Progress(w.(reconciled := true), Finished)
    ensures ActiveEntries(w.tracker) == []
  {
    AtMostOneActive(cfg, w);
    NoActiveMeansNothingClaimed(cfg, w);
    assert forall e :: e !in SortedClaims(w.tracker);
  }

  /** A tick with nothing claimed does not idle while there is work: the first dispatchable
      issue in dispatch order is running at the end of it, under the claim its attempt is
      entitled to. */
  lemma TickMakesProgress(cfg: Config, w: World, cancel: Option<SessionStatus>, e: Entry) returns (x: Entry)
    requires Good(cfg, w) && NothingClaimed(w) && !Poisoned(cfg, w)
    requires e in Queue(w.tracker) && Dispatchable(e, w.nowMs)
    requires forall j :: j in w.tracker.issues ==> '\n' !in j
    ensures x in Queue(w.tracker) && Dispatchable(x, w.nowMs) && (x == e || AtMost(ForDispatch, x, e))
    ensures var p := Tick(cfg, w, None, cancel);
      p.end.Finished? && Proposal(cfg, x, w.nowMs).Some?
      && RunsUnder(p.world, x.issue.id, Proposal(cfg, x, w.nowMs).value)
  {
    hide GoodTracker, HonestWorkspaces, HonestSessions, Inverse, Extends, TrackerMoved;
    IdleSweep(cfg, w, None, cancel);
    var w0 := w.(reconciled := true);
    var chosen := DispatchTakesLeast(cfg, w0, None);
    x := chosen.value;
    assert !Poison(cfg, w, x);
    PlainIdsUnambiguous(w.tracker, x.issue);
    TakenRuns(cfg, w0, x);
  }

  // ---------------------------------------------------------------- crash points are real

  lemma StartCrashes(cfg: Config, w: World, e: Entry, point: CrashPoint)
    requires Good(cfg, w) && Current(w, e) && e.state == Claimed && Unambiguous(w.tracker, e.issue) && point != AfterClaim
    ensures StartClaim(cfg, w, e.claim.value, Some(point)).end == Crashed(point)
  {
    hide GoodTracker, HonestWorkspaces, HonestSessions, Inverse, Extends, TrackerMoved;
    WorkspaceFits(cfg, w, e);
    AddWorkspaceKeeps(cfg, w, e);
    SessionFits(cfg, AddWorkspace(w, IdentityOf(e.claim.value)).value, e);
  }

  lemma TakenCrashes(cfg: Config, w: World, x: Entry, point: CrashPoint)
    requires Good(cfg, w) && WaitingNow(w, x) && NothingClaimed(w) && Unambiguous(w.tracker, x.issue)
    requires Dispatchable(x, w.nowMs) && Admissible(cfg, x) && Nameable(x.issue.identifier)
    ensures ClaimOne(cfg, w, x, Some(point)).Some? && ClaimOne(cfg, w, x, Some(point)).value.end == Crashed(point)
  {
    hide TickChange, GoodTracker, HonestWorkspaces, HonestSessions, Inverse, StartClaim, ClaimOne, TryClaim, Unambiguous;
    ClaimOneTakes(cfg, w, x, Some(point));
    ClaimKeeps(cfg, w, x);
    var v := AfterTake(cfg, w, x);
    ChangeIsGood(cfg, w, v);
    StillUnambiguous(cfg, w, v, x.issue);
    if point != AfterClaim {
      StartCrashes(cfg, v, v.tracker.issues[x.issue.id], point);
    }
  }

  /** Each of the three crash points is reached: when there is work and a crash is asked for,
      the tick that takes the work ends in that crash and in nothing else. */
  lemma CrashPointsAreReached(cfg: Config, w: World, cancel: Option<SessionStatus>, e: Entry, point: CrashPoint)
    requires Good(cfg, w) && NothingClaimed(w) && !Poisoned(cfg, w)
    requires e in Queue(w.tracker) && Dispatchable(e, w.nowMs)
    requires forall j :: j in w.tracker.issues ==> '\n' !in j
    ensures Tick(cfg, w, Some(point), cancel).end == Crashed(point)
  {
    hide GoodTracker, HonestWorkspaces, HonestSessions, Inverse, Extends, TrackerMoved;
    IdleSweep(cfg, w, Some(point), cancel);
    var w0 := w.(reconciled := true);
    var chosen := DispatchTakesLeast(cfg, w0, Some(point));
    assert !Poison(cfg, w, chosen.value);
    PlainIdsUnambiguous(w.tracker, chosen.value.issue);
    TakenCrashes(cfg, w0, chosen.value, point);
  }
}
