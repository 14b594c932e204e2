/** What the scheduler and its adapters keep whatever anybody does: at most one claim, and one
    workspace and one session per attempt.  None of it depends on the policy, on the
    identities in the stores, or on outside moves being reasonable.
 */
module Uniqueness {
  import opened Domain
  import opened Wrappers
  import opened Identity
  import opened Tracker
  import opened RunStores
  import opened Scheduler
  import opened SchedulerRuns

  ghost predicate Unique(w: World) {
    w.Valid() && OneClaim(w.tracker) && Inverse(w.workspaces) && Inverse(w.sessions)
  }

  // The later world is as unique as the earlier one and has all its records.
  ghost predicate Grown(w: World, v: World) {
    (Unique(w) ==> Unique(v) && Extends(w.workspaces, v.workspaces) && Extends(w.sessions, v.sessions))
  }

  lemma GrownTransitive(u: World, v: World, w: World)
    requires Grown(u, v) && Grown(v, w)
    ensures Grown(u, w)
  {
    hide Unique;
  }

  lemma GrownRefl(w: World)
    ensures Grown(w, w)
  {
  }

  // ---------------------------------------------------------------- tracker calls

  // Only entries that had a claim have one.
  predicate NoNewClaim(s: State, t: State) {
    forall i :: i in t.issues && t.issues[i].claim.Some? ==> i in s.issues && s.issues[i].claim.Some?
  }

  lemma NoNewClaimKeeps(w: World, r: Outcome<State>)
    requires w.Valid() && (r.Ok? ==> r.value.Valid() && NoNewClaim(w.tracker, r.value))
    ensures Grown(w, Do(w, r).world)
  {
  }

  lemma CallMakesNoClaim(s: State, fence: Id, call: FenceCall)
    requires s.Valid()
    ensures var r := CallOnFence(s, fence, call); r.Ok? ==> NoNewClaim(s, r.value)
  {
    hide Apply;
  }

  lemma TransitionMakesNoClaim(s: State, issueId: string, to: LifecycleState, nowMs: int, fence: Option<Id>, evidence: Evidence)
    requires s.Valid()
    ensures var r := Transition(s, issueId, to, nowMs, fence, evidence); r.Ok? ==> NoNewClaim(s, r.value)
  {
    if issueId in s.issues {
      MoveMakesNoClaim(s.issues[issueId], to, fence, evidence);
      hide Move;
    }
  }

  lemma MoveMakesNoClaim(e: Entry, to: LifecycleState, fence: Option<Id>, evidence: Evidence)
    ensures var r := Move(e, to, fence, evidence); r.Ok? && r.value.claim.Some? ==> e.claim.Some?
  {
  }

  lemma SeedMakesNoClaim(s: State, issue: IssueInfo, contract: Contract, state: LifecycleState, baseSha: string)
    ensures var r := Tracker.Seed(s, issue, contract, state, baseSha); r.Ok? ==> NoNewClaim(s, r.value)
  {
  }

  lemma TryClaimKeeps(w: World, issueId: string, expectedVersion: int, proposed: Domain.Claim)
    requires w.Valid()
    ensures Grown(w, w.(tracker := TryClaim(w.tracker, issueId, expectedVersion, proposed, w.nowMs)))
  {
    hide Claimable;
  }

  // ---------------------------------------------------------------- the parts of a tick

  lemma FailRunGrows(cfg: Config, w: World, fence: Id, failureClass: FailureClass, reason: string)
    requires w.Valid()
    ensures Grown(w, FailRun(cfg, w, fence, failureClass, reason).world)
  {
    hide Grown, CallOnFence;
    var call := FailClaim(failureClass, reason, w.nowMs, cfg.policy);
    CallMakesNoClaim(w.tracker, fence, call);
    NoNewClaimKeeps(w, CallOnFence(w.tracker, fence, call));
  }

  lemma FenceCallGrows(w: World, fence: Id, call: FenceCall)
    requires w.Valid()
    ensures Grown(w, Do(w, CallOnFence(w.tracker, fence, call)).world)
  {
    hide Grown, CallOnFence;
    CallMakesNoClaim(w.tracker, fence, call);
    NoNewClaimKeeps(w, CallOnFence(w.tracker, fence, call));
  }

  lemma PreserveGrows(w: World, issueId: string, fence: Id)
    requires w.Valid()
    ensures Grown(w, Preserve(w, issueId, fence).world)
  {
    hide Grown, Transition;
    TransitionMakesNoClaim(w.tracker, issueId, PreservationUnknown, w.nowMs, Some(fence), map[]);
    NoNewClaimKeeps(w, Transition(w.tracker, issueId, PreservationUnknown, w.nowMs, Some(fence), map[]));
  }

  lemma RecordsGrow(w: World, run: RunIdentity)
    requires w.Valid()
    ensures AddWorkspace(w, run).Some? ==> Grown(w, AddWorkspace(w, run).value)
    ensures AddSession(w, run).Some? ==> Grown(w, AddSession(w, run).value)
  {
    hide Ensure, Inverse, Extends;
    if Unique(w) {
      EnsureIsIdempotent(w.workspaces, WorkspaceOf(run));
      EnsureIsIdempotent(w.sessions, SessionOf(run));
      ExtendsRefl(w.workspaces);
      ExtendsRefl(w.sessions);
    }
  }

  lemma ExtendsRefl(s: Store)
    ensures Extends(s, s)
  {
  }

  lemma StartGrows(cfg: Config, w: World, claim: Domain.Claim, crash: Option<CrashPoint>)
    requires w.Valid()
    ensures Grown(w, StartClaim(cfg, w, claim, crash).world)
  {
    hide Grown, AddWorkspace, AddSession, FailRun, CallOnFence;
    var run := IdentityOf(claim);
    RecordsGrow(w, run);
    match AddWorkspace(w, run)
    case None => FailRunGrows(cfg, w, claim.fence, RuntimeFailure, "workspace refused");
    case Some(w1) =>
      RecordsGrow(w1, run);
      match AddSession(w1, run) {
        case None =>
          FailRunGrows(cfg, w1, claim.fence, RuntimeFailure, "session refused");
          GrownTransitive(w, w1, FailRun(cfg, w1, claim.fence, RuntimeFailure, "session refused").world);
        case Some(w2) =>
          GrownTransitive(w, w1, w2);
          var started := CallOnFence(w2.tracker, claim.fence, MarkRunning(w2.nowMs));
          FenceCallGrows(w2, claim.fence, MarkRunning(w2.nowMs));
          FailRunGrows(cfg, w2, claim.fence, RuntimeFailure, "claim is not startable");
          GrownTransitive(w, w2, Do(w2, started).world);
          GrownTransitive(w, w2, FailRun(cfg, w2, claim.fence, RuntimeFailure, "claim is not startable").world);
      }
  }

  lemma ReconcileRunningGrows(cfg: Config, w: World, e: Entry, cancel: Option<SessionStatus>)
    requires w.Valid() && e.claim.Some?
    ensures Grown(w, ReconcileRunning(cfg, w, e, cancel).world)
  {
    hide Grown, FailRun, Preserve, CallOnFence, Do, IsStale;
    var fence := e.claim.value.fence;
    PreserveGrows(w, e.issue.id, fence);
    FailRunGrows(cfg, w, fence, RuntimeFailure, "Craft run stopped");
    FailRunGrows(cfg, w, fence, RuntimeFailure, "agent settled without tracker handoff evidence");
    FenceCallGrows(w, fence, Heartbeat(w.nowMs, cfg.claimTtlMs));
    GrownRefl(w);
  }

  lemma ReconcileOneGrows(cfg: Config, w: World, e: Entry, crash: Option<CrashPoint>, cancel: Option<SessionStatus>)
    requires w.Valid() && e.claim.Some?
    ensures Grown(w, ReconcileOne(cfg, w, e, crash, cancel).world)
  {
    hide Grown, FailRun, Preserve, CallOnFence, Do, StartClaim, ReconcileRunning, ForAttempt, IdentityMatches;
    var claim := e.claim.value;
    PreserveGrows(w, e.issue.id, claim.fence);
    FailRunGrows(cfg, w, claim.fence, PolicyFailure, "model policy rejected");
    FailRunGrows(cfg, w, claim.fence, RuntimeFailure, CLAIM_EXPIRED);
    FenceCallGrows(w, claim.fence, Heartbeat(w.nowMs, cfg.claimTtlMs));
    StartGrows(cfg, w, claim, crash);
    ReconcileRunningGrows(cfg, w, e, cancel);
    GrownRefl(w);
  }

  lemma {:induction false} ReconcileGrows(cfg: Config, w: World, active: seq<Entry>, i: nat, crash: Option<CrashPoint>,
                                          cancel: Option<SessionStatus>)
    requires w.Valid() && i <= |active| && forall k :: 0 <= k < |active| ==> active[k].claim.Some?
    ensures Grown(w, ReconcileFrom(cfg, w, active, i, crash, cancel).world)
    decreases |active| - i
  {
    hide Grown, ReconcileOne;
    if i == |active| {
      GrownRefl(w);
    } else {
      var one := ReconcileOne(cfg, w, active[i], crash, cancel);
      ReconcileOneGrows(cfg, w, active[i], crash, cancel);
      if one.end.Finished? {
        ReconcileGrows(cfg, one.world, active, i + 1, crash, cancel);
        GrownTransitive(w, one.world, ReconcileFrom(cfg, one.world, active, i + 1, crash, cancel).world);
      }
    }
  }

  lemma ClaimOneGrows(cfg: Config, w: World, e: Entry, crash: Option<CrashPoint>)
    requires w.Valid() && ClaimOne(cfg, w, e, crash).Some?
    ensures Grown(w, ClaimOne(cfg, w, e, crash).value.world)
  {
    hide Grown, StartClaim, Proposal, TryClaim, CanClaim, Dispatchable, Admissible;
    GrownRefl(w);
    var proposal := Proposal(cfg, e, w.nowMs);
    if proposal.Some? {
      var claimed := w.(tracker := TryClaim(w.tracker, e.issue.id, e.version, proposal.value, w.nowMs));
      TryClaimKeeps(w, e.issue.id, e.version, proposal.value);
      StartGrows(cfg, claimed, proposal.value, crash);
      GrownTransitive(w, claimed, StartClaim(cfg, claimed, proposal.value, crash).world);
    }
  }

  lemma {:induction false} ClaimFirstGrows(cfg: Config, w: World, candidates: seq<Entry>, crash: Option<CrashPoint>)
    requires w.Valid()
    ensures Grown(w, ClaimFirst(cfg, w, candidates, crash).world)
    decreases |candidates|
  {
    hide Grown, ClaimOne;
    if candidates == [] {
      GrownRefl(w);
    } else if ClaimOne(cfg, w, candidates[0], crash).Some? {
      ClaimOneGrows(cfg, w, candidates[0], crash);
    } else {
      ClaimFirstGrows(cfg, w, candidates[1..], crash);
    }
  }

  /** Whatever the policy and the stored identities are, and wherever it crashes, a tick leaves
      at most one claim and one record per attempt, and removes or changes no record. */
  lemma TickGrows(cfg: Config, w: World, crash: Option<CrashPoint>, cancel: Option<SessionStatus>)
    requires w.Valid()
    ensures Grown(w, Tick(cfg, w, crash, cancel).world)
  {
    hide Grown, ReconcileFrom, ClaimFirst, SortedClaims, Queue, ActiveEntries;
    var v := w.(reconciled := true);
    MarkGrows(w, v);
    var active := SortedClaims(w.tracker);
    ReconcileGrows(cfg, v, active, 0, crash, cancel);
    var swept := Swept(cfg, w, crash, cancel);
    GrownTransitive(w, v, swept.world);
    ClaimFirstGrows(cfg, swept.world, Queue(swept.world.tracker), crash);
    GrownTransitive(w, swept.world, ClaimFirst(cfg, swept.world, Queue(swept.world.tracker), crash).world);
  }

  // Nothing but marks, clocks and session outcomes differ.
  lemma MarkGrows(w: World, v: World)
    requires v.Valid() && v.tracker == w.tracker && v.workspaces == w.workspaces && v.sessions == w.sessions
    ensures Grown(w, v)
  {
  }
}
