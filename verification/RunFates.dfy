/** What one tick makes of the issue that holds the claim, and on what terms it takes a new
    one: which runs are renewed, failed or given up, and with which claim a run starts.
 */
module RunFates {
  import opened Domain
  import opened Wrappers
  import opened Identity
  import opened Tracker
  import opened RunStores
  import opened DispatchOrder
  import opened Scheduler
  import opened SchedulerRuns
  import opened CrashRecovery

  // ---------------------------------------------------------------- one call on the holder

  lemma BeatExactly(cfg: Config, w: World, e: Entry)
    requires Good(cfg, w) && Current(w, e)
    ensures var p := Do(w, CallOnFence(w.tracker, e.claim.value.fence, Heartbeat(w.nowMs, cfg.claimTtlMs)));
      && p.end.Finished? && e.issue.id in p.world.tracker.issues
      && var f := p.world.tracker.issues[e.issue.id];
         f.state == e.state && f.retry == e.retry
         && f.claim == Some(e.claim.value.(heartbeatAtMs := w.nowMs, expiresAtMs := w.nowMs + cfg.claimTtlMs))
  {
    hide CallOnFence, GoodTracker, HonestWorkspaces, HonestSessions, Inverse, TrackerMoved;
    CallKeepsTracker(cfg, w.tracker, e.issue.id, Heartbeat(w.nowMs, cfg.claimTtlMs));
  }

  lemma FailExactly(cfg: Config, w: World, e: Entry, reason: string)
    requires Good(cfg, w) && Current(w, e) && e.state in {Claimed, Running}
    ensures var p := FailRun(cfg, w, e.claim.value.fence, RuntimeFailure, reason);
      && p.end.Finished? && e.issue.id in p.world.tracker.issues
      && FailedWith(cfg, w.nowMs, e, p.world.tracker.issues[e.issue.id], reason)
  {
    hide GoodTracker, HonestWorkspaces, HonestSessions, Inverse, Extends, Fail, FailedWith;
    var call := FailClaim(RuntimeFailure, reason, w.nowMs, cfg.policy);
    FailLegal(cfg, w, e, call);
    CallKeepsTracker(cfg, w.tracker, e.issue.id, call);
    FailedEntry(cfg, w.nowMs, e, reason,
                FailRun(cfg, w, e.claim.value.fence, RuntimeFailure, reason).world.tracker.issues[e.issue.id]);
  }

  lemma FailLegal(cfg: Config, w: World, e: Entry, call: FenceCall)
    requires Good(cfg, w) && Current(w, e) && e.state in {Claimed, Running} && call.FailClaim?
    ensures Apply(e, call).Ok?
  {
    FailAlwaysLegal(cfg, e, call);
  }

  lemma FailedEntry(cfg: Config, nowMs: int, e: Entry, reason: string, f: Entry)
    requires e.claim.Some? && Fail(e, RuntimeFailure, reason, nowMs, cfg.policy).Ok?
    requires f.(events := []) == Fail(e, RuntimeFailure, reason, nowMs, cfg.policy).value.(events := [])
    ensures FailedWith(cfg, nowMs, e, f, reason)
  {
    hide RetryDelay;
  }

  // The claim is gone: to be tried again after the back-off, unless attempts are used up.
  predicate FailedWith(cfg: Config, nowMs: int, e: Entry, f: Entry, reason: string)
    requires e.claim.Some?
  {
    var attempt := e.claim.value.attempt;
    && f.claim.None?
    && (if attempt < cfg.policy.maxAttempts then
          && f.state == RetryWait
          && f.retry == Some(Retry(attempt + 1, nowMs + RetryDelay(cfg.policy, attempt), RuntimeFailure, reason))
        else f.state == Failed && f.retry.None?)
  }

  lemma PreserveExactly(cfg: Config, w: World, e: Entry)
    requires Good(cfg, w) && Current(w, e)
    ensures var p := Preserve(w, e.issue.id, e.claim.value.fence);
      && p.end.Finished? && e.issue.id in p.world.tracker.issues
      && var f := p.world.tracker.issues[e.issue.id]; f.state == PreservationUnknown && f.claim.None?
  {
    PreserveKeepsEntry(cfg, e, e);
  }

  // ---------------------------------------------------------------- the rest of the tick

  // Issues without a claim are as they were.
  predicate OthersLeft(s: State, t: State, except: string) {
    forall i :: i in s.issues && s.issues[i].claim.None? && i != except ==> i in t.issues && t.issues[i] == s.issues[i]
  }

  lemma FenceCallLeavesOthers(s: State, fence: Id, call: FenceCall, except: string)
    requires s.Valid()
    ensures var r := CallOnFence(s, fence, call); r.Ok? ==> OthersLeft(s, r.value, except)
  {
    hide Apply;
  }

  lemma StartLeavesOthers(cfg: Config, w: World, claim: Domain.Claim, crash: Option<CrashPoint>, except: string)
    requires w.Valid()
    ensures OthersLeft(w.tracker, StartClaim(cfg, w, claim, crash).world.tracker, except)
  {
    hide CallOnFence, Ensure, OthersLeft, AddWorkspace, AddSession;
    var run := IdentityOf(claim);
    SameTracker(w, run);
    if AddWorkspace(w, run).Some? {
      SameTracker(AddWorkspace(w, run).value, run);
    }
    NothingLeftOut(w.tracker, except);
    FenceCallLeavesOthers(w.tracker, claim.fence, MarkRunning(w.nowMs), except);
    FenceCallLeavesOthers(w.tracker, claim.fence, FailClaim(RuntimeFailure, "workspace refused", w.nowMs, cfg.policy), except);
    FenceCallLeavesOthers(w.tracker, claim.fence, FailClaim(RuntimeFailure, "session refused", w.nowMs, cfg.policy), except);
    FenceCallLeavesOthers(w.tracker, claim.fence, FailClaim(RuntimeFailure, "claim is not startable", w.nowMs, cfg.policy), except);
  }

  lemma NothingLeftOut(s: State, except: string)
    ensures OthersLeft(s, s, except)
  {
  }

  // Recording a workspace or session touches neither the tracker nor the clock.
  lemma SameTracker(w: World, run: RunIdentity)
    requires w.Valid()
    ensures AddWorkspace(w, run).Some? ==> AddWorkspace(w, run).value.tracker == w.tracker && AddWorkspace(w, run).value.nowMs == w.nowMs
    ensures AddSession(w, run).Some? ==> AddSession(w, run).value.tracker == w.tracker && AddSession(w, run).value.nowMs == w.nowMs
  {
  }

  // Dispatching one candidate leaves every other unclaimed issue alone.
  lemma ClaimOneLeavesOthers(cfg: Config, w: World, x: Entry, crash: Option<CrashPoint>, id: string)
    requires w.Valid() && id in w.tracker.issues && w.tracker.issues[id].claim.None? && id != x.issue.id
    requires ClaimOne(cfg, w, x, crash).Some?
    ensures var t := ClaimOne(cfg, w, x, crash).value.world.tracker; id in t.issues && t.issues[id] == w.tracker.issues[id]
  {
    hide StartClaim, Proposal, CanClaim, Dispatchable, Admissible;
    var proposal := Proposal(cfg, x, w.nowMs);
    if proposal.Some? {
      var claimed := w.(tracker := TryClaim(w.tracker, x.issue.id, x.version, proposal.value, w.nowMs));
      StartLeavesOthers(cfg, claimed, proposal.value, crash, x.issue.id);
    }
  }

  // An issue that cannot be dispatched now is not touched by the second half of a tick.
  lemma DispatchLeaves(cfg: Config, w: World, crash: Option<CrashPoint>, id: string)
    requires Good(cfg, w) && NothingClaimed(w) && id in w.tracker.issues
    requires w.tracker.issues[id].state in {Ready, RetryWait} ==> !Dispatchable(w.tracker.issues[id], w.nowMs)
    ensures var t := ClaimFirst(cfg, w, Queue(w.tracker), crash).world.tracker;
      id in t.issues && t.issues[id] == w.tracker.issues[id]
  {
    hide ClaimOne, ClaimFirst, GoodTracker, HonestWorkspaces, HonestSessions, Inverse, Dispatchable;
    var chosen := DispatchTakesLeast(cfg, w, crash);
    if chosen.Some? {
      ClaimOneLeavesOthers(cfg, w, chosen.value, crash, id);
    }
  }

  // The holder's entry after the whole tick is what the first half made of it.
  lemma HolderAfterTick(cfg: Config, w: World, e: Entry, crash: Option<CrashPoint>, cancel: Option<SessionStatus>, f: Entry)
    requires Good(cfg, w) && Current(w, e)
    requires var s := Swept(cfg, w, crash, cancel);
      s.end.Finished? && e.issue.id in s.world.tracker.issues && s.world.tracker.issues[e.issue.id] == f
    requires f.claim.Some? || (f.state in {Ready, RetryWait} ==> !Dispatchable(f, w.nowMs))
    ensures var t := Tick(cfg, w, crash, cancel).world.tracker; e.issue.id in t.issues && t.issues[e.issue.id] == f
  {
    hide GoodTracker, HonestWorkspaces, HonestSessions, Inverse, Extends, TrackerMoved, ClaimFirst, Swept, Dispatchable;
    SweepKeeps(cfg, w, crash, cancel);
    var v := Swept(cfg, w, crash, cancel).world;
    NoActiveMeansNothingClaimed(cfg, v);
    if ActiveEntries(v.tracker) == [] {
      DispatchLeaves(cfg, v, crash, e.issue.id);
    }
  }

  // ---------------------------------------------------------------- a running issue

  // The session has hit one of its deadlines.
  predicate HitDeadline(session: Option<SessionStatus>) {
    session in {Some(EndedWithoutResponse), Some(TurnDeadline), Some(ContextDeadline), Some(CancelDeadline)}
  }

  // Too long without a heartbeat, or past its expiry.
  predicate Overdue(cfg: Config, claim: Domain.Claim, nowMs: int) {
    claim.heartbeatAtMs + cfg.staleRunMs <= nowMs || claim.expiresAtMs <= nowMs
  }

  // Cancelling the session is not possible, or itself ran out of time.
  predicate NotCancelled(cancel: Option<SessionStatus>) {
    cancel.None? || cancel == Some(CancelDeadline)
  }

  // What becomes of a running issue.
  ghost predicate Fate(cfg: Config, w: World, e: Entry, cancel: Option<SessionStatus>, f: Entry)
    requires e.claim.Some?
  {
    var claim, session := e.claim.value, StatusOf(w.status, e.claim.value.sessionId);
    && (session == Some(SessionRunning) ==>
          && f.state == Running && f.retry == e.retry
          && f.claim == Some(claim.(heartbeatAtMs := w.nowMs, expiresAtMs := w.nowMs + cfg.claimTtlMs)))
    && (f.claim.None? <==> session != Some(SessionRunning) && (HitDeadline(session) || Overdue(cfg, claim, w.nowMs)))
    && (f.state == PreservationUnknown <==> HitDeadline(session) && NotCancelled(cancel))
    && (f.claim.None? && f.state != PreservationUnknown ==> exists reason :: FailedWith(cfg, w.nowMs, e, f, reason))
    && (f.claim.Some? && session != Some(SessionRunning) ==> f == e)
  }

  lemma SweptFate(cfg: Config, w: World, e: Entry, crash: Option<CrashPoint>, cancel: Option<SessionStatus>)
    requires Good(cfg, w) && Current(w, e) && e.state == Running
    ensures var p := Swept(cfg, w, crash, cancel);
      p.end.Finished? && e.issue.id in p.world.tracker.issues && Fate(cfg, w, e, cancel, p.world.tracker.issues[e.issue.id])
  {
    hide GoodTracker, HonestWorkspaces, HonestSessions, Inverse, ReconcileRunning, Swept, ForAttempt;
    var w0 := w.(reconciled := true);
    SweepIsHolder(cfg, w, e, crash, cancel);
    HolderAccepted(cfg, w0, e);
    ReconciledFate(cfg, w0, e, cancel);
  }

  function Reason(session: Option<SessionStatus>): string {
    if session == Some(SessionSucceeded) then "agent settled without tracker handoff evidence" else "Craft run stopped"
  }

  // The one call that reconciling a running issue comes down to.
  lemma ReconcileRunningIs(cfg: Config, w: World, e: Entry, cancel: Option<SessionStatus>)
    requires w.Valid() && e.claim.Some?
    ensures var session, fence := StatusOf(w.status, e.claim.value.sessionId), e.claim.value.fence;
      ReconcileRunning(cfg, w, e, cancel)
      == if session == Some(SessionRunning) then Do(w, CallOnFence(w.tracker, fence, Heartbeat(w.nowMs, cfg.claimTtlMs)))
         else if HitDeadline(session) && NotCancelled(cancel) then Preserve(w, e.issue.id, fence)
         else if HitDeadline(session) || Overdue(cfg, e.claim.value, w.nowMs) then
           FailRun(cfg, w, fence, RuntimeFailure, Reason(session))
         else Progress(w, Finished)
  {
    hide FailRun, Preserve, Do, CallOnFence, StatusOf;
  }

  lemma ReconciledFate(cfg: Config, w: World, e: Entry, cancel: Option<SessionStatus>)
    requires Good(cfg, w) && Current(w, e) && e.state == Running
    ensures var p := ReconcileRunning(cfg, w, e, cancel);
      p.end.Finished? && e.issue.id in p.world.tracker.issues && Fate(cfg, w, e, cancel, p.world.tracker.issues[e.issue.id])
  {
    hide ReconcileRunning, FailRun, Preserve, Do, CallOnFence, Fate, StatusOf, HitDeadline, Overdue, NotCancelled, FailedWith;
    hide GoodTracker, HonestWorkspaces, HonestSessions, Inverse;
    ReconcileRunningIs(cfg, w, e, cancel);
    var session, fence := StatusOf(w.status, e.claim.value.sessionId), e.claim.value.fence;
    if session == Some(SessionRunning) {
      BeatExactly(cfg, w, e);
      RenewedFate(cfg, w, e, cancel, Do(w, CallOnFence(w.tracker, fence, Heartbeat(w.nowMs, cfg.claimTtlMs))).world.tracker.issues[e.issue.id]);
    } else if HitDeadline(session) && NotCancelled(cancel) {
      PreserveExactly(cfg, w, e);
      PreservedFate(cfg, w, e, cancel, Preserve(w, e.issue.id, fence).world.tracker.issues[e.issue.id]);
    } else if HitDeadline(session) || Overdue(cfg, e.claim.value, w.nowMs) {
      FailExactly(cfg, w, e, Reason(session));
      FailedFate(cfg, w, e, cancel, FailRun(cfg, w, fence, RuntimeFailure, Reason(session)).world.tracker.issues[e.issue.id], Reason(session));
    } else {
      KeptFate(cfg, w, e, cancel);
    }
  }

  lemma RenewedFate(cfg: Config, w: World, e: Entry, cancel: Option<SessionStatus>, f: Entry)
    requires e.claim.Some? && e.state == Running && StatusOf(w.status, e.claim.value.sessionId) == Some(SessionRunning)
    requires f.state == e.state && f.retry == e.retry
    requires f.claim == Some(e.claim.value.(heartbeatAtMs := w.nowMs, expiresAtMs := w.nowMs + cfg.claimTtlMs))
    ensures Fate(cfg, w, e, cancel, f)
  {
  }

  lemma PreservedFate(cfg: Config, w: World, e: Entry, cancel: Option<SessionStatus>, f: Entry)
    requires e.claim.Some? && HitDeadline(StatusOf(w.status, e.claim.value.sessionId)) && NotCancelled(cancel)
    requires f.state == PreservationUnknown && f.claim.None?
    ensures Fate(cfg, w, e, cancel, f)
  {
  }

  lemma FailedFate(cfg: Config, w: World, e: Entry, cancel: Option<SessionStatus>, f: Entry, reason: string)
    requires e.claim.Some? && FailedWith(cfg, w.nowMs, e, f, reason)
    requires var session := StatusOf(w.status, e.claim.value.sessionId);
      && session != Some(SessionRunning) && (HitDeadline(session) || Overdue(cfg, e.claim.value, w.nowMs))
      && !(HitDeadline(session) && NotCancelled(cancel))
    ensures Fate(cfg, w, e, cancel, f)
  {
  }

  lemma KeptFate(cfg: Config, w: World, e: Entry, cancel: Option<SessionStatus>)
    requires e.claim.Some? && e.state == Running
    requires var session := StatusOf(w.status, e.claim.value.sessionId);
      session != Some(SessionRunning) && !HitDeadline(session) && !Overdue(cfg, e.claim.value, w.nowMs)
    ensures Fate(cfg, w, e, cancel, e)
  {
  }

  /** A tick decides a running issue by its session alone.  While the session reports
      running, the claim is renewed from now on.  The claim is lost exactly when the session
      does not and has hit a deadline or left the claim overdue: with the preservation of its
      work unknown exactly for a deadline after which it could not be cancelled, and
      otherwise as a failed attempt, with its exact retry.  In every other case nothing about
      the issue changes. */
  lemma RunningFate(cfg: Config, w: World, e: Entry, crash: Option<CrashPoint>, cancel: Option<SessionStatus>)
    requires Good(cfg, w) && Current(w, e) && e.state == Running
    ensures var t := Tick(cfg, w, crash, cancel).world.tracker;
      e.issue.id in t.issues && Fate(cfg, w, e, cancel, t.issues[e.issue.id])
  {
    hide GoodTracker, HonestWorkspaces, HonestSessions, Inverse, Swept, Tick;
    SweptFate(cfg, w, e, crash, cancel);
    var f := Swept(cfg, w, crash, cancel).world.tracker.issues[e.issue.id];
    if f.claim.None? && f.state != PreservationUnknown {
      var reason :| FailedWith(cfg, w.nowMs, e, f, reason);
      BackOffIsAhead(cfg, e.claim.value.attempt);
    }
    HolderAfterTick(cfg, w, e, crash, cancel, f);
  }

  lemma BackOffIsAhead(cfg: Config, attempt: Attempt)
    requires cfg.policy.Valid()
    ensures 1 <= RetryDelay(cfg.policy, attempt)
  {
    RetryDelayBounded(cfg.policy, attempt, attempt);
  }

  /** An issue that has been handed over and keeps its claim is renewed by every tick. */
  lemma HandedOverIsRenewed(cfg: Config, w: World, e: Entry, crash: Option<CrashPoint>, cancel: Option<SessionStatus>)
    requires Good(cfg, w) && Current(w, e) && e.state !in {Claimed, Running}
    ensures var t := Tick(cfg, w, crash, cancel).world.tracker;
      && e.issue.id in t.issues
      && var f := t.issues[e.issue.id];
         f.state == e.state && f.retry == e.retry
         && f.claim == Some(e.claim.value.(heartbeatAtMs := w.nowMs, expiresAtMs := w.nowMs + cfg.claimTtlMs))
  {
    hide GoodTracker, HonestWorkspaces, HonestSessions, Inverse, Do, ForAttempt, Swept, Tick;
    var w0 := w.(reconciled := true);
    SweepIsHolder(cfg, w, e, crash, cancel);
    HolderAccepted(cfg, w0, e);
    BeatExactly(cfg, w0, e);
    HolderAfterTick(cfg, w, e, crash, cancel, Swept(cfg, w, crash, cancel).world.tracker.issues[e.issue.id]);
  }

  // ---------------------------------------------------------------- which issue is taken

  // Nothing keeps the issue from being started: it may be dispatched, everything that blocked
  // it is done, and its retry, if it waits for one, is due.
  predicate MayStart(e: Entry, nowMs: int) {
    && e.state in {Ready, RetryWait} && e.issue.dispatchable
    && (e.state == RetryWait ==> e.retry.Some? && e.retry.value.dueAtMs <= nowMs)
    && forall b :: b in e.issue.blockerStates ==> b == Some("done")
  }

  lemma MayStartIsDispatchable(w: World, id: string)
    requires w.Valid() && id in w.tracker.issues
    ensures var e := w.tracker.issues[id]; MayStart(e, w.nowMs) <==> e in Queue(w.tracker) && Dispatchable(e, w.nowMs)
  {
  }

  predicate Ranked(priority: Option<int>) {
    priority.Some? && 1 <= priority.value <= 4
  }

  predicate SameUrgency(x: IssueInfo, y: IssueInfo) {
    x.priority == y.priority || (!Ranked(x.priority) && !Ranked(y.priority))
  }

  // Priority 1 comes before 2, and so on to 4, and any of them before none; then the older.
  predicate ComesFirst(x: IssueInfo, y: IssueInfo) {
    && (Ranked(y.priority) ==> Ranked(x.priority) && x.priority.value <= y.priority.value)
    && (SameUrgency(x, y) && y.createdAtMs.Some? && y.createdAtMs.value < UNRANKED ==>
          x.createdAtMs.Some? && x.createdAtMs.value <= y.createdAtMs.value)
    && (SameUrgency(x, y) && x.createdAtMs == y.createdAtMs ==> TextAtMost(x.identifier, y.identifier))
  }

  lemma TextReflexive(a: string)
    ensures TextAtMost(a, a)
  {
    TextTotal(a, a);
  }

  /** The second half of a tick takes the most urgent issue of all that may be started, and of
      the equally urgent ones the oldest; it takes none only when none may be started. */
  lemma TakesUrgentThenOldest(cfg: Config, w: World, crash: Option<CrashPoint>) returns (chosen: Option<Entry>)
    requires Good(cfg, w) && NothingClaimed(w)
    ensures chosen.None? ==> forall id :: id in w.tracker.issues ==> !MayStart(w.tracker.issues[id], w.nowMs)
    ensures chosen.Some? ==>
      && Some(ClaimFirst(cfg, w, Queue(w.tracker), crash)) == ClaimOne(cfg, w, chosen.value, crash)
      && chosen.value.issue.id in w.tracker.issues && chosen.value == w.tracker.issues[chosen.value.issue.id]
      && MayStart(chosen.value, w.nowMs)
      && forall id :: id in w.tracker.issues && MayStart(w.tracker.issues[id], w.nowMs)
           ==> ComesFirst(chosen.value.issue, w.tracker.issues[id].issue)
  {
    hide GoodTracker, HonestWorkspaces, HonestSessions, Inverse, ClaimFirst, ClaimOne, Dispatchable, MayStart, ComesFirst, AtMost;
    chosen := DispatchTakesLeast(cfg, w, crash);
    forall id | id in w.tracker.issues
      ensures var e := w.tracker.issues[id]; MayStart(e, w.nowMs) <==> e in Queue(w.tracker) && Dispatchable(e, w.nowMs)
    {
      MayStartIsDispatchable(w, id);
    }
    if chosen.Some? {
      forall id | id in w.tracker.issues && MayStart(w.tracker.issues[id], w.nowMs)
        ensures ComesFirst(chosen.value.issue, w.tracker.issues[id].issue)
      {
        AtMostMeans(chosen.value, w.tracker.issues[id]);
      }
    }
  }

  lemma AtMostMeans(x: Entry, e: Entry)
    requires x == e || AtMost(ForDispatch, x, e)
    ensures ComesFirst(x.issue, e.issue)
  {
    TextReflexive(x.issue.identifier);
  }

  // ---------------------------------------------------------------- the terms of a claim

  lemma StartExactly(cfg: Config, w: World, e: Entry)
    requires Good(cfg, w) && Current(w, e) && e.state == Claimed && Unambiguous(w.tracker, e.issue)
    ensures var t, claim := StartClaim(cfg, w, e.claim.value, None).world.tracker, e.claim.value;
      && e.issue.id in t.issues
      && t.issues[e.issue.id].claim
         == Some(claim.(heartbeatAtMs := w.nowMs, expiresAtMs := w.nowMs + (claim.expiresAtMs - claim.claimedAtMs)))
  {
    hide GoodTracker, HonestWorkspaces, HonestSessions, Inverse, Extends, TrackerMoved, StartClaim, CallOnFence;
    hide AddWorkspace, AddSession;
    var run := IdentityOf(e.claim.value);
    WorkspaceFits(cfg, w, e);
    AddWorkspaceKeeps(cfg, w, e);
    var w1 := AddWorkspace(w, run).value;
    SessionFits(cfg, w1, e);
    AddSessionKeeps(cfg, w1, e);
    var w2 := AddSession(w1, run).value;
    SameTracker(w, run);
    SameTracker(w1, run);
    StartedExactly(cfg, w2, e);
    StartIsMarked(cfg, w, e.claim.value);
  }

  // With both records in place starting a claim is marking it as running.
  lemma StartIsMarked(cfg: Config, w: World, claim: Domain.Claim)
    requires w.Valid() && AddWorkspace(w, IdentityOf(claim)).Some?
    requires AddSession(AddWorkspace(w, IdentityOf(claim)).value, IdentityOf(claim)).Some?
    ensures var w2 := AddSession(AddWorkspace(w, IdentityOf(claim)).value, IdentityOf(claim)).value;
      var r := CallOnFence(w2.tracker, claim.fence, MarkRunning(w2.nowMs));
      r.Ok? ==> StartClaim(cfg, w, claim, None).world.tracker == r.value
  {
    hide CallOnFence, AddWorkspace, AddSession, FailRun;
  }

  lemma StartedExactly(cfg: Config, w: World, e: Entry)
    requires Good(cfg, w) && Current(w, e) && e.state == Claimed
    ensures var r, claim := CallOnFence(w.tracker, e.claim.value.fence, MarkRunning(w.nowMs)), e.claim.value;
      && r.Ok? && e.issue.id in r.value.issues
      && r.value.issues[e.issue.id].claim
         == Some(claim.(heartbeatAtMs := w.nowMs, expiresAtMs := w.nowMs + (claim.expiresAtMs - claim.claimedAtMs)))
  {
    hide CallOnFence, GoodTracker, HonestWorkspaces, HonestSessions, Inverse, TrackerMoved;
    assert Apply(e, MarkRunning(w.nowMs)).Ok?;
    CallKeepsTracker(cfg, w.tracker, e.issue.id, MarkRunning(w.nowMs));
  }

  // The claim a run of this issue starts under.
  predicate Terms(cfg: Config, x: Entry, nowMs: int, claim: Domain.Claim) {
    && claim.issueId == x.issue.id && claim.issueIdentifier == x.issue.identifier
    && claim.attempt == (if x.retry.Some? then x.retry.value.attempt else 1)
    && claim.baseSha == x.baseSha && claim.modelProfile == x.contract.modelProfile
    && claim.fence == ClaimFence(FenceSeed(x.issue.id, claim.attempt, x.version, x.baseSha))
    && claim.claimedAtMs == nowMs && claim.heartbeatAtMs == nowMs && claim.expiresAtMs == nowMs + cfg.claimTtlMs
    && ForAttempt(cfg.root, x.issue.id, x.issue.identifier, claim.attempt) == Some(IdentityOf(claim))
  }

  /** The issue that an idle tick starts runs under a claim for its next attempt, made of its
      own contract and base, that lives for the configured time from now. */
  lemma StartsOnTerms(cfg: Config, w: World, cancel: Option<SessionStatus>, e: Entry) returns (x: Entry)
    requires Good(cfg, w) && NothingClaimed(w) && !Poisoned(cfg, w)
    requires e.issue.id in w.tracker.issues && w.tracker.issues[e.issue.id] == e && MayStart(e, w.nowMs)
    requires forall j :: j in w.tracker.issues ==> '\n' !in j
    ensures MayStart(x, w.nowMs) && ComesFirst(x.issue, e.issue)
    ensures var t := Tick(cfg, w, None, cancel).world.tracker;
      && x.issue.id in t.issues && t.issues[x.issue.id].claim.Some?
      && Terms(cfg, x, w.nowMs, t.issues[x.issue.id].claim.value)
  {
    hide GoodTracker, HonestWorkspaces, HonestSessions, Inverse, Extends, TrackerMoved, ClaimFirst, StartClaim, MayStart, ComesFirst;
    IdleSweep(cfg, w, None, cancel);
    var w0 := w.(reconciled := true);
    var chosen := TakesUrgentThenOldest(cfg, w0, None);
    x := chosen.value;
    MayStartIsDispatchable(w0, x.issue.id);
    assert !Poison(cfg, w, x);
    PlainIdsUnambiguous(w.tracker, x.issue);
    TakenOnTerms(cfg, w0, x);
  }

  lemma TakenOnTerms(cfg: Config, w: World, x: Entry)
    requires Good(cfg, w) && WaitingNow(w, x) && NothingClaimed(w) && Unambiguous(w.tracker, x.issue)
    requires Dispatchable(x, w.nowMs) && Admissible(cfg, x) && Nameable(x.issue.identifier)
    ensures ClaimOne(cfg, w, x, None).Some?
    ensures var t := ClaimOne(cfg, w, x, None).value.world.tracker;
      && x.issue.id in t.issues && t.issues[x.issue.id].claim.Some?
      && Terms(cfg, x, w.nowMs, t.issues[x.issue.id].claim.value)
  {
    hide TickChange, GoodTracker, HonestWorkspaces, HonestSessions, Inverse, StartClaim, ClaimOne, TryClaim, Unambiguous;
    ClaimOneTakes(cfg, w, x, None);
    ClaimKeeps(cfg, w, x);
    var v := AfterTake(cfg, w, x);
    ChangeIsGood(cfg, w, v);
    StillUnambiguous(cfg, w, v, x.issue);
    StartExactly(cfg, v, v.tracker.issues[x.issue.id]);
  }

  // ---------------------------------------------------------------- policy

  // The contract stays within the model policy and has exactly the budget of its risk tier.
  predicate WithinPolicy(cfg: Config, e: Entry) {
    && e.contract.modelProfile in cfg.allowedProfiles
    && e.contract.risk in cfg.budgets && cfg.budgets[e.contract.risk] == e.contract.verificationBudget
  }

  /** A candidate outside the policies, or without a usable name, aborts the tick and is not
      claimed; any other one that may be started is. */
  lemma PolicyDecides(cfg: Config, w: World, x: Entry, crash: Option<CrashPoint>)
    requires Good(cfg, w) && NothingClaimed(w) && MayStart(x, w.nowMs)
    requires x.issue.id in w.tracker.issues && w.tracker.issues[x.issue.id] == x
    ensures var r := ClaimOne(cfg, w, x, crash);
      && r.Some?
      && (r.value.end.Raised? <==> !WithinPolicy(cfg, x) || !Nameable(x.issue.identifier))
      && (r.value.end.Raised? ==> r.value.world == w)
  {
    hide GoodTracker, HonestWorkspaces, HonestSessions, Inverse, StartClaim, TryClaim, CanClaim;
    ClaimOneKeeps(cfg, w, x, crash);
  }

  /** Under a changed configuration: a claim whose identity is no longer the one its attempt is
      entitled to is given up with its preservation unknown; one whose model is no longer
      allowed fails for good. */
  lemma ChangedConfiguration(cfg: Config, w: World, e: Entry, crash: Option<CrashPoint>, cancel: Option<SessionStatus>)
    requires w.Valid() && OneClaim(w.tracker) && Current(w, e)
    requires e.state in {Claimed, Running, PrOpen, Review, OwnerGate} && Nameable(e.issue.identifier)
    ensures var p, claim := ReconcileOne(cfg, w, e, crash, cancel), e.claim.value;
      var run := ForAttempt(cfg.root, e.issue.id, e.issue.identifier, claim.attempt).value;
      && (run.sessionId != claim.sessionId || run.workspaceId != claim.workspaceId
          || run.workspaceKey != claim.workspaceKey || run.workspacePath != claim.workspacePath
          ==> p.end.Finished? && Left(p.world, e, PreservationUnknown))
      && (IdentityMatches(run, claim) && claim.modelProfile !in cfg.allowedProfiles ==>
            p.end.Finished? && Left(p.world, e, Failed) && p.world.tracker.issues[e.issue.id].retry.None?)
  {
    hide ReconcileClaimed, ReconcileRunning;
    var run := ForAttempt(cfg.root, e.issue.id, e.issue.identifier, e.claim.value.attempt).value;
    if !IdentityMatches(run, e.claim.value) {
      GivenUp(w, e);
    } else if e.claim.value.modelProfile !in cfg.allowedProfiles {
      Disallowed(cfg, w, e);
    }
  }

  // The issue is in that state and without a claim.
  predicate Left(w: World, e: Entry, state: LifecycleState) {
    && e.issue.id in w.tracker.issues
    && w.tracker.issues[e.issue.id].state == state && w.tracker.issues[e.issue.id].claim.None?
  }

  lemma GivenUp(w: World, e: Entry)
    requires w.Valid() && Current(w, e) && e.state in {Claimed, Running, PrOpen, Review, OwnerGate}
    ensures var p := Preserve(w, e.issue.id, e.claim.value.fence);
      p.end.Finished? && Left(p.world, e, PreservationUnknown)
  {
  }

  lemma Disallowed(cfg: Config, w: World, e: Entry)
    requires w.Valid() && OneClaim(w.tracker) && Current(w, e) && e.state in {Claimed, Running, PrOpen, Review, OwnerGate}
    ensures var p := FailRun(cfg, w, e.claim.value.fence, PolicyFailure, "model policy rejected");
      p.end.Finished? && Left(p.world, e, Failed) && p.world.tracker.issues[e.issue.id].retry.None?
  {
    FenceFindsHolder(w.tracker, e.issue.id);
  }
}
