/** The deterministic scheduler over the in-memory adapters, with its three crash points.
    One tick reconciles the active claim and then, when nothing is claimed, claims and
    starts the first dispatchable issue.
 */
module Scheduler {
  import opened Domain
  import opened Wrappers
  import opened Identity
  import opened Tracker
  import opened RunStores
  import opened DispatchOrder

  datatype Config = Config(
    root: string,
    policy: RetryPolicy,
    claimTtlMs: int,
    staleRunMs: int,
    allowedProfiles: set<string>,
    budgets: map<RiskTier, string>)

  datatype CrashPoint = AfterClaim | AfterWorkspace | AfterSession

  datatype End = Finished | Crashed(point: CrashPoint) | Raised

  // Everything a tick reads or changes.
  datatype World = World(
    tracker: State,
    workspaces: Store,
    sessions: Store,
    status: map<Id, SessionStatus>,
    nowMs: int,
    reconciled: bool)
  {
    ghost predicate Valid() {
      tracker.Valid() && status.Keys == sessions.byId.Keys
    }
  }

  datatype Progress = Progress(world: World, end: End)

  // ---------------------------------------------------------------- what a tick does

  ghost function Do(w: World, r: Outcome<State>): (p: Progress)
    requires w.Valid() && (r.Ok? ==> r.value.Valid())
    ensures p.world.Valid()
  {
    match r
    case Ok(t) => Progress(w.(tracker := t), Finished)
    case Throws(_) => Progress(w, Raised)
  }

  ghost function FailRun(cfg: Config, w: World, fence: Id, failureClass: FailureClass, reason: string): (p: Progress)
    requires w.Valid()
    ensures p.world.Valid()
  {
    Do(w, CallOnFence(w.tracker, fence, FailClaim(failureClass, reason, w.nowMs, cfg.policy)))
  }

  ghost function Preserve(w: World, issueId: string, fence: Id): (p: Progress)
    requires w.Valid()
    ensures p.world.Valid()
  {
    Do(w, Transition(w.tracker, issueId, PreservationUnknown, w.nowMs, Some(fence), map[]))
  }

  ghost function AddWorkspace(w: World, run: RunIdentity): (r: Option<World>)
    requires w.Valid()
    ensures r.Some? ==> r.value.Valid()
  {
    var r := Ensure(w.workspaces, WorkspaceOf(run));
    if r.Ensured? then Some(w.(workspaces := r.store)) else None
  }

  ghost function AddSession(w: World, run: RunIdentity): (r: Option<World>)
    requires w.Valid()
    ensures r.Some? ==> r.value.Valid()
  {
    var r := Ensure(w.sessions, SessionOf(run));
    if r.Ensured?
    then Some(w.(sessions := r.store, status := StatusAfter(w.status, w.sessions, r.store, run.sessionId)))
    else None
  }

  // Any failure on the way to `running`, except a crash, fails the claim.
  ghost function StartClaim(cfg: Config, w: World, claim: Domain.Claim, crash: Option<CrashPoint>): (p: Progress)
    requires w.Valid()
    ensures p.world.Valid()
  {
    var run := IdentityOf(claim);
    match AddWorkspace(w, run)
    case None => FailRun(cfg, w, claim.fence, RuntimeFailure, "workspace refused")
    case Some(w1) =>
      if crash == Some(AfterWorkspace) then Progress(w1, Crashed(AfterWorkspace))
      else match AddSession(w1, run)
        case None => FailRun(cfg, w1, claim.fence, RuntimeFailure, "session refused")
        case Some(w2) =>
          if crash == Some(AfterSession) then Progress(w2, Crashed(AfterSession))
          else
            var started := CallOnFence(w2.tracker, claim.fence, MarkRunning(w2.nowMs));
            if started.Ok? then Do(w2, started)
            else FailRun(cfg, w2, claim.fence, RuntimeFailure, "claim is not startable")
  }

  const CLAIM_EXPIRED := "claim expired before its Craft session was durable"

  predicate IdentityMatches(run: RunIdentity, claim: Domain.Claim) {
    && run.sessionId == claim.sessionId && run.workspaceId == claim.workspaceId
    && run.workspaceKey == claim.workspaceKey && run.workspacePath == claim.workspacePath
  }

  predicate DeadlineFailure(session: Option<SessionStatus>) {
    session.Some? && session.value in {EndedWithoutResponse, TurnDeadline, ContextDeadline, CancelDeadline}
  }

  predicate IsStale(cfg: Config, claim: Domain.Claim, nowMs: int) {
    nowMs - claim.heartbeatAtMs >= cfg.staleRunMs || nowMs >= claim.expiresAtMs
  }

  // `cancel` is what cancelling a session reports; None when the adapter cannot cancel.
  ghost function ReconcileRunning(cfg: Config, w: World, e: Entry, cancel: Option<SessionStatus>): (p: Progress)
    requires w.Valid() && e.claim.Some?
    ensures p.world.Valid()
  {
    var claim := e.claim.value;
    var session := StatusOf(w.status, claim.sessionId);
    if session.None? || session.value == SessionFailed || DeadlineFailure(session) then
      if DeadlineFailure(session) && (cancel.None? || cancel.value == CancelDeadline) then
        Preserve(w, e.issue.id, claim.fence)
      else if IsStale(cfg, claim, w.nowMs) || DeadlineFailure(session) then
        FailRun(cfg, w, claim.fence, RuntimeFailure, "Craft run stopped")
      else Progress(w, Finished)
    else if session.value == SessionRunning then
      Do(w, CallOnFence(w.tracker, claim.fence, Heartbeat(w.nowMs, cfg.claimTtlMs)))
    else if IsStale(cfg, claim, w.nowMs) then
      FailRun(cfg, w, claim.fence, RuntimeFailure, "agent settled without tracker handoff evidence")
    else Progress(w, Finished)
  }

  ghost function ReconcileClaimed(cfg: Config, w: World, claim: Domain.Claim, crash: Option<CrashPoint>): (p: Progress)
    requires w.Valid()
    ensures p.world.Valid()
  {
    if w.nowMs >= claim.expiresAtMs && StatusOf(w.status, claim.sessionId).None? then
      FailRun(cfg, w, claim.fence, RuntimeFailure, CLAIM_EXPIRED)
    else StartClaim(cfg, w, claim, crash)
  }

  ghost function ReconcileOne(cfg: Config, w: World, e: Entry, crash: Option<CrashPoint>, cancel: Option<SessionStatus>):
      (p: Progress)
    requires w.Valid() && e.claim.Some?
    ensures p.world.Valid()
  {
    var claim := e.claim.value;
    match ForAttempt(cfg.root, e.issue.id, e.issue.identifier, claim.attempt)
    case None => Progress(w, Raised)
    case Some(run) =>
      if !IdentityMatches(run, claim) then Preserve(w, e.issue.id, claim.fence)
      else if claim.modelProfile !in cfg.allowedProfiles then
        FailRun(cfg, w, claim.fence, PolicyFailure, "model policy rejected")
      else if e.state == Claimed then ReconcileClaimed(cfg, w, claim, crash)
      else if e.state != Running then
        Do(w, CallOnFence(w.tracker, claim.fence, Heartbeat(w.nowMs, cfg.claimTtlMs)))
      else ReconcileRunning(cfg, w, e, cancel)
  }

  // The snapshots are taken once, before the first of them is handled; this is the loop
  // from position `i` on.
  ghost function ReconcileFrom(cfg: Config, w: World, active: seq<Entry>, i: nat, crash: Option<CrashPoint>,
                               cancel: Option<SessionStatus>): (p: Progress)
    requires w.Valid() && i <= |active| && forall k :: 0 <= k < |active| ==> active[k].claim.Some?
    ensures p.world.Valid()
    decreases |active| - i
  {
    if i == |active| then Progress(w, Finished)
    else
      var one := ReconcileOne(cfg, w, active[i], crash, cancel);
      if one.end.Finished? then ReconcileFrom(cfg, one.world, active, i + 1, crash, cancel) else one
  }

  function SortedClaims(t: State): (active: seq<Entry>)
    requires t.Valid()
    ensures forall e :: e in active ==> e.claim.Some? && e.issue.id in t.issues && e == t.issues[e.issue.id]
    ensures forall k :: 0 <= k < |active| ==> active[k] in active
  {
    Sort(ByIssueId, ActiveEntries(t))
  }

  predicate Dispatchable(e: Entry, nowMs: int) {
    && e.issue.dispatchable
    && (e.state == RetryWait ==> e.retry.Some? && e.retry.value.dueAtMs <= nowMs)
    && forall b :: b in e.issue.blockerStates ==> b == Some("done")
  }

  // Model and budget policy: a candidate that breaks either aborts the whole tick.
  predicate Admissible(cfg: Config, e: Entry) {
    && e.contract.modelProfile in cfg.allowedProfiles
    && e.contract.risk in cfg.budgets && cfg.budgets[e.contract.risk] == e.contract.verificationBudget
  }

  function Proposal(cfg: Config, e: Entry, nowMs: int): Option<Domain.Claim> {
    ClaimFor(cfg.root, e.issue.id, e.issue.identifier, if e.retry.Some? then e.retry.value.attempt else 1,
             e.version, e.baseSha, e.contract.modelProfile, nowMs, cfg.claimTtlMs)
  }

  // One candidate: None when the loop goes on to the next.
  ghost function ClaimOne(cfg: Config, w: World, e: Entry, crash: Option<CrashPoint>): (r: Option<Progress>)
    requires w.Valid()
    ensures r.Some? ==> r.value.world.Valid()
  {
    if !Dispatchable(e, w.nowMs) then None
    else if !Admissible(cfg, e) then Some(Progress(w, Raised))
    else match Proposal(cfg, e, w.nowMs)
      case None => Some(Progress(w, Raised))
      case Some(claim) =>
        if !CanClaim(w.tracker, e.issue.id, e.version, claim, w.nowMs) then None
        else
          var claimed := w.(tracker := TryClaim(w.tracker, e.issue.id, e.version, claim, w.nowMs));
          if crash == Some(AfterClaim) then Some(Progress(claimed, Crashed(AfterClaim)))
          else Some(StartClaim(cfg, claimed, claim, crash))
  }

  ghost function ClaimFirst(cfg: Config, w: World, candidates: seq<Entry>, crash: Option<CrashPoint>): (p: Progress)
    requires w.Valid()
    ensures p.world.Valid()
    decreases |candidates|
  {
    if candidates == [] then Progress(w, Finished)
    else
      var one := ClaimOne(cfg, w, candidates[0], crash);
      if one.Some? then one.value else ClaimFirst(cfg, w, candidates[1..], crash)
  }

  // The first half of a tick: the startup mark and the reconciliation of active claims.
  ghost function Swept(cfg: Config, w: World, crash: Option<CrashPoint>, cancel: Option<SessionStatus>): (p: Progress)
    requires w.Valid()
    ensures p.world.Valid()
  {
    ReconcileFrom(cfg, w.(reconciled := true), SortedClaims(w.tracker), 0, crash, cancel)
  }

  // The waiting issues in the order the second half looks at them.
  function Queue(t: State): (q: seq<Entry>)
    requires t.Valid()
    ensures forall e :: e in q ==> e.issue.id in t.issues && t.issues[e.issue.id] == e && (e.state == Ready || e.state == RetryWait)
    ensures forall i :: i in t.issues && (t.issues[i].state == Ready || t.issues[i].state == RetryWait) ==> t.issues[i] in q
  {
    var q := Sort(ForDispatch, Waiting(t.issues, t.order));
    assert forall i :: i in t.issues ==> i in t.order;
    q
  }

  ghost function Tick(cfg: Config, w: World, crash: Option<CrashPoint>, cancel: Option<SessionStatus>): (p: Progress)
    requires w.Valid()
    ensures p.world.Valid()
  {
    var swept := Swept(cfg, w, crash, cancel);
    if !swept.end.Finished? || ActiveEntries(swept.world.tracker) != [] then swept
    else ClaimFirst(cfg, swept.world, Queue(swept.world.tracker), crash)
  }

  // ---------------------------------------------------------------- the scheduler object

  class ManualClock {
    var value: int

    constructor (start: int)
      ensures value == start
    {
      value := start;
    }

    method Advance(ms: int) returns (ok: bool)
      modifies this
      ensures ok == (0 <= ms) && value == old(value) + if 0 <= ms then ms else 0
    {
      ok := 0 <= ms;
      if ok {
        value := value + ms;
      }
    }
  }

  class DeterministicScheduler {
    const config: Config
    const github: FakeGitHubAdapter
    const workspaces: FakeWorkspaceAdapter
    const craft: FakeCraftAdapter
    const clock: ManualClock
    var startupReconciled: bool

    ghost function View(): World
      reads this, github, workspaces, craft, clock
    {
      World(github.View(), workspaces.View(), craft.View(), craft.status, clock.value, startupReconciled)
    }

    ghost predicate Valid()
      reads this, github, workspaces, craft, clock
    {
      View().Valid()
    }

    // A restart builds a fresh scheduler over the same durable adapters.
    constructor (config: Config, github: FakeGitHubAdapter, workspaces: FakeWorkspaceAdapter, craft: FakeCraftAdapter,
                 clock: ManualClock)
      requires github.Valid() && craft.Valid()
      ensures this.config == config && this.github == github && this.workspaces == workspaces
      ensures this.craft == craft && this.clock == clock
      ensures Valid() && View() == World(github.View(), workspaces.View(), craft.View(), craft.status, clock.value, false)
    {
      this.config, this.github, this.workspaces, this.craft, this.clock := config, github, workspaces, craft, clock;
      startupReconciled := false;
    }

    method Fail(fence: Id, failureClass: FailureClass, reason: string) returns (end: End)
      requires Valid()
      modifies github
      ensures Valid()
      ensures var p := FailRun(config, old(View()), fence, failureClass, reason);
        Matches(View(), end, p)
    {
      var threw := github.FailActiveClaim(fence, failureClass, reason, clock.value, config.policy);
      end := if threw then Raised else Finished;
    }

    method Preserved(issueId: string, fence: Id) returns (end: End)
      requires Valid()
      modifies github
      ensures Valid()
      ensures var p := Preserve(old(View()), issueId, fence);
        Matches(View(), end, p)
    {
      var threw := github.TransitionIssue(issueId, PreservationUnknown, clock.value, Some(fence), map[]);
      end := if threw then Raised else Finished;
    }

    method Beat(fence: Id) returns (end: End)
      requires Valid()
      modifies github
      ensures Valid()
      ensures var p := Do(old(View()), CallOnFence(old(View()).tracker, fence, Heartbeat(old(clock.value), config.claimTtlMs)));
        Matches(View(), end, p)
    {
      var threw := github.HeartbeatClaim(fence, clock.value, config.claimTtlMs);
      end := if threw then Raised else Finished;
    }

    method Start(claim: Domain.Claim, crashAfter: Option<CrashPoint>) returns (end: End)
      requires Valid()
      modifies github, workspaces, craft
      ensures Valid()
      ensures Matches(View(), end, StartClaim(config, old(View()), claim, crashAfter))
    {
      var run := IdentityOf(claim);
      var made := workspaces.EnsureWorkspace(run);
      if !made {
        end := Fail(claim.fence, RuntimeFailure, "workspace refused");
        return;
      }
      if crashAfter == Some(AfterWorkspace) {
        return Crashed(AfterWorkspace);
      }
      made := craft.EnsureSession(run);
      if !made {
        end := Fail(claim.fence, RuntimeFailure, "session refused");
        return;
      }
      if crashAfter == Some(AfterSession) {
        return Crashed(AfterSession);
      }
      var threw := github.MarkClaimRunning(claim.fence, clock.value);
      if threw {
        end := Fail(claim.fence, RuntimeFailure, "claim is not startable");
        return;
      }
      end := Finished;
    }

    method ReconcileRun(e: Entry, cancel: Option<SessionStatus>) returns (end: End)
      requires Valid() && e.claim.Some?
      modifies github
      ensures Valid()
      ensures Matches(View(), end, ReconcileRunning(config, old(View()), e, cancel))
    {
      var claim := e.claim.value;
      var now := clock.value;
      var session := craft.GetSession(claim.sessionId);
      var stale := now - claim.heartbeatAtMs >= config.staleRunMs || now >= claim.expiresAtMs;
      var deadlineFailure := DeadlineFailure(session);
      if session.None? || session.value == SessionFailed || deadlineFailure {
        if deadlineFailure {
          if cancel.None? || cancel.value == CancelDeadline {
            end := Preserved(e.issue.id, claim.fence);
            return;
          }
        }
        if stale || deadlineFailure {
          end := Fail(claim.fence, RuntimeFailure, "Craft run stopped");
          return;
        }
        return Finished;
      }
      if session.value == SessionRunning {
        end := Beat(claim.fence);
      } else if stale {
        end := Fail(claim.fence, RuntimeFailure, "agent settled without tracker handoff evidence");
      } else {
        end := Finished;
      }
    }

    method ReconcileEntry(e: Entry, crashAfter: Option<CrashPoint>, cancel: Option<SessionStatus>) returns (end: End)
      requires Valid() && e.claim.Some?
      modifies github, workspaces, craft
      ensures Valid()
      ensures Matches(View(), end, ReconcileOne(config, old(View()), e, crashAfter, cancel))
    {
      var claim := e.claim.value;
      var expected := ForAttempt(config.root, e.issue.id, e.issue.identifier, claim.attempt);
      if expected.None? {
        return Raised;
      }
      if !IdentityMatches(expected.value, claim) {
        end := Preserved(e.issue.id, claim.fence);
        return;
      }
      if claim.modelProfile !in config.allowedProfiles {
        end := Fail(claim.fence, PolicyFailure, "model policy rejected");
        return;
      }
      if e.state == Claimed {
        var session := craft.GetSession(claim.sessionId);
        if clock.value >= claim.expiresAtMs && session.None? {
          end := Fail(claim.fence, RuntimeFailure, CLAIM_EXPIRED);
          return;
        }
        end := Start(claim, crashAfter);
        return;
      }
      if e.state != Running {
        end := Beat(claim.fence);
        return;
      }
      end := ReconcileRun(e, cancel);
    }

    method ReconcileEach(active: seq<Entry>, crashAfter: Option<CrashPoint>, cancel: Option<SessionStatus>)
      returns (end: End)
      requires Valid() && forall k :: 0 <= k < |active| ==> active[k].claim.Some?
      modifies github, workspaces, craft
      ensures Valid()
      ensures Matches(View(), end, ReconcileFrom(config, old(View()), active, 0, crashAfter, cancel))
    {
      end := Finished;
      for i: nat := 0 to |active|
        invariant Valid() && end.Finished?
        invariant ReconcileFrom(config, View(), active, i, crashAfter, cancel)
               == ReconcileFrom(config, old(View()), active, 0, crashAfter, cancel)
      {
        end := ReconcileEntry(active[i], crashAfter, cancel);
        if !end.Finished? {
          return;
        }
      }
    }

    method Reconcile(crashAfter: Option<CrashPoint>, cancel: Option<SessionStatus>) returns (end: End)
      requires Valid()
      modifies github, workspaces, craft
      ensures Valid()
      ensures Matches(View(), end, ReconcileFrom(config, old(View()), SortedClaims(old(View()).tracker), 0, crashAfter, cancel))
    {
      var active := github.ActiveClaims();
      active := Sort(ByIssueId, active);
      assert active == SortedClaims(View().tracker);
      end := ReconcileEach(active, crashAfter, cancel);
    }

    method TryCandidate(candidate: Entry, crashAfter: Option<CrashPoint>) returns (settled: bool, end: End)
      requires Valid()
      modifies github, workspaces, craft
      ensures Valid()
      ensures var one := ClaimOne(config, old(View()), candidate, crashAfter);
        && settled == one.Some?
        && (settled ==> Matches(View(), end, one.value))
        && (!settled ==> View() == old(View()))
    {
      end := Finished;
      if !Dispatchable(candidate, clock.value) {
        return false, end;
      }
      if !Admissible(config, candidate) {
        return true, Raised;
      }
      var claim := Proposal(config, candidate, clock.value);
      if claim.None? {
        return true, Raised;
      }
      var claimed := github.TryClaimIssue(candidate.issue.id, candidate.version, claim.value, clock.value);
      if claimed.None? {
        return false, end;
      }
      if crashAfter == Some(AfterClaim) {
        return true, Crashed(AfterClaim);
      }
      end := Start(claim.value, crashAfter);
      settled := true;
    }

    method Dispatch(candidates: seq<Entry>, crashAfter: Option<CrashPoint>) returns (end: End)
      requires Valid()
      modifies github, workspaces, craft
      ensures Valid()
      ensures Matches(View(), end, ClaimFirst(config, old(View()), candidates, crashAfter))
    {
      ghost var goal := ClaimFirst(config, View(), candidates, crashAfter);
      var i := 0;
      while i < |candidates|
        invariant 0 <= i <= |candidates|
        invariant View() == old(View())
        invariant ClaimFirst(config, View(), candidates[i..], crashAfter) == goal
        decreases |candidates| - i
      {
        assert candidates[i..][0] == candidates[i] && candidates[i..][1..] == candidates[i + 1..];
        var settled, ended := TryCandidate(candidates[i], crashAfter);
        if settled {
          return ended;
        }
        i := i + 1;
      }
      end := Finished;
    }

    method RunTick(crashAfter: Option<CrashPoint>, cancel: Option<SessionStatus>) returns (end: End)
      requires Valid()
      modifies this, github, workspaces, craft
      ensures Valid()
      ensures Matches(View(), end, Tick(config, old(View()), crashAfter, cancel))
    {
      if !startupReconciled {
        startupReconciled := true;
      }
      assert View() == old(View()).(reconciled := true);
      end := Reconcile(crashAfter, cancel);
      if !end.Finished? {
        return;
      }
      var active := github.ActiveClaims();
      if |active| >= 1 {
        return;
      }
      var candidates := github.FetchWaiting();
      end := Dispatch(Sort(ForDispatch, candidates), crashAfter);
    }
  }

  // The object is in the specified state and the call ended the same way.
  ghost predicate Matches(w: World, end: End, p: Progress) {
    w == p.world && end == p.end
  }
}
