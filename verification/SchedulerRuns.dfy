/** What every run of the scheduler keeps: ticks, crashes at any of the three points,
    restarts, the passage of time, session outcomes, new issues and outside transitions, in
    any order.
 */
module SchedulerRuns {
  import opened Domain
  import opened Wrappers
  import opened Identity
  import opened Tracker
  import opened RunStores
  import opened DispatchOrder
  import opened Scheduler

  // ---------------------------------------------------------------- the invariant

  // The states in which an issue can hold a claim as long as nobody outside the scheduler
  // moves an issue into claimed, running or retry-wait.
  const HOLDING: set<LifecycleState> := {Claimed, Running, PrOpen, Review, OwnerGate, Merged, Deployed}

  // The claim was proposed by this scheduler for this entry, at some earlier version.
  predicate HonestClaim(cfg: Config, e: Entry, c: Domain.Claim) {
    && ForAttempt(cfg.root, e.issue.id, e.issue.identifier, c.attempt) == Some(IdentityOf(c))
    && c.modelProfile in cfg.allowedProfiles
    && c.attempt <= cfg.policy.maxAttempts
  }

  // How often the issue has been claimed since it was last made ready.
  function ClaimsSinceReady(events: seq<MaterialEvent>): nat {
    if events == [] then 0
    else
      var last := |events| - 1;
      if events[last].state == Ready then 0
      else ClaimsSinceReady(events[..last]) + if events[last].state == Claimed then 1 else 0
  }

  // How often it had been claimed before that.
  function ClaimsBeforeReady(events: seq<MaterialEvent>): nat {
    if events == [] then 0
    else
      var last := |events| - 1;
      ClaimsBeforeReady(events[..last]) + if events[last].state == Ready then ClaimsSinceReady(events[..last]) else 0
  }

  // Attempt numbers count claims, and the count never passes the limit.
  predicate GoodHistory(cfg: Config, e: Entry) {
    && |e.events| > 0 && e.events[|e.events| - 1].state == e.state
    && (e.claim.Some? ==> ClaimsSinceReady(e.events) == e.claim.value.attempt)
    && (e.retry.Some? ==> ClaimsSinceReady(e.events) + 1 == e.retry.value.attempt)
    && ClaimsSinceReady(e.events) <= cfg.policy.maxAttempts
  }

  predicate GoodEntry(cfg: Config, e: Entry) {
    && (e.claim.Some? ==> HonestClaim(cfg, e, e.claim.value) && e.retry.None? && e.state in HOLDING)
    && (e.retry.Some? ==> e.retry.value.attempt <= cfg.policy.maxAttempts && e.state in {RetryWait, Failed, Cancelled})
    && GoodHistory(cfg, e)
  }

  predicate OneClaim(s: State) {
    forall i, j :: i in s.issues && j in s.issues && s.issues[i].claim.Some? && s.issues[j].claim.Some? ==> i == j
  }

  // Every workspace and session belongs to an attempt of a known issue and carries exactly
  // the identity that attempt is entitled to.
  predicate HonestWorkspaces(cfg: Config, s: State, store: Store) {
    forall k :: k in store.byId ==>
      var b := store.byId[k];
      && b.issueId in s.issues
      && var run := ForAttempt(cfg.root, b.issueId, s.issues[b.issueId].issue.identifier, b.attempt);
         run.Some? && b == WorkspaceOf(run.value)
  }

  predicate HonestSessions(cfg: Config, s: State, store: Store) {
    forall k :: k in store.byId ==>
      var b := store.byId[k];
      && b.issueId in s.issues
      && var run := ForAttempt(cfg.root, b.issueId, s.issues[b.issueId].issue.identifier, b.attempt);
         run.Some? && b == SessionOf(run.value)
  }

  predicate GoodTracker(cfg: Config, s: State) {
    && NoRepeats(s.order) && OneClaim(s)
    && forall i :: i in s.issues ==> GoodEntry(cfg, s.issues[i])
  }

  ghost predicate Good(cfg: Config, w: World) {
    && w.Valid()
    && cfg.policy.Valid()
    && GoodTracker(cfg, w.tracker)
    && Inverse(w.workspaces) && Inverse(w.sessions)
    && HonestWorkspaces(cfg, w.tracker, w.workspaces) && HonestSessions(cfg, w.tracker, w.sessions)
  }

  // ---------------------------------------------------------------- what a tick may change

  const TICK_STATES: set<LifecycleState> := {Claimed, Running, RetryWait, Failed, PreservationUnknown}

  predicate Moved(e: Entry, f: Entry) {
    && f.issue == e.issue && f.contract == e.contract
    && (f.state == e.state || f.state in TICK_STATES)
    && ClaimsBeforeReady(f.events) == ClaimsBeforeReady(e.events)
  }

  predicate TrackerMoved(s: State, t: State) {
    && t.order == s.order && t.issues.Keys == s.issues.Keys
    && forall i :: i in s.issues ==> Moved(s.issues[i], t.issues[i])
  }

  ghost predicate TickChange(cfg: Config, w: World, v: World) {
    && Good(cfg, v)
    && v.nowMs == w.nowMs
    && TrackerMoved(w.tracker, v.tracker)
    && Extends(w.workspaces, v.workspaces) && Extends(w.sessions, v.sessions)
  }

  lemma TickChangeTransitive(cfg: Config, u: World, v: World, w: World)
    requires TickChange(cfg, u, v) && TickChange(cfg, v, w)
    ensures TickChange(cfg, u, w)
  {
  }

  // ---------------------------------------------------------------- single tracker calls

  // An entry with a material event for its state appended.
  predicate RecordOf(f: Entry, g: Entry) {
    && g.(events := f.events) == f
    && |g.events| == |f.events| + 1 && g.events[..|f.events|] == f.events && g.events[|f.events|].state == f.state
  }

  lemma RecordCounts(f: Entry, g: Entry)
    requires RecordOf(f, g)
    ensures ClaimsSinceReady(g.events)
         == if f.state == Ready then 0 else ClaimsSinceReady(f.events) + if f.state == Claimed then 1 else 0
    ensures f.state != Ready ==> ClaimsBeforeReady(g.events) == ClaimsBeforeReady(f.events)
  {
  }

  lemma CallKeepsEntry(cfg: Config, e: Entry, call: FenceCall, g: Entry)
    requires cfg.policy.Valid() && GoodEntry(cfg, e) && e.claim.Some?
    requires call.FailClaim? ==> call.policy == cfg.policy
    requires Apply(e, call).Ok?
    requires var f := Apply(e, call).value; if call.Heartbeat? then g == f else RecordOf(f, g)
    ensures GoodEntry(cfg, g) && Moved(e, g)
  {
    if !call.Heartbeat? {
      RecordCounts(Apply(e, call).value, g);
    }
  }

  lemma FailAlwaysLegal(cfg: Config, e: Entry, call: FenceCall)
    requires GoodEntry(cfg, e) && e.claim.Some? && e.state in {Claimed, Running} && call.FailClaim?
    ensures Apply(e, call).Ok?
  {
  }

  // The fence of the one claim leads to its holder.
  lemma FenceFindsHolder(s: State, id: string)
    requires s.Valid() && OneClaim(s) && id in s.issues && s.issues[id].claim.Some?
    ensures FindFence(s.issues, s.order, s.issues[id].claim.value.fence) == Some(id)
  {
  }

  lemma ReplaceKeepsTracker(cfg: Config, s: State, id: string, t: State)
    requires s.Valid() && GoodTracker(cfg, s) && id in s.issues && t.Valid()
    requires t.order == s.order && id in t.issues && t.issues == s.issues[id := t.issues[id]]
    requires GoodEntry(cfg, t.issues[id]) && Moved(s.issues[id], t.issues[id])
    requires t.issues[id].claim.Some? ==> forall i :: i in s.issues && s.issues[i].claim.Some? ==> i == id
    ensures GoodTracker(cfg, t) && TrackerMoved(s, t)
  {
  }

  lemma CallKeepsTracker(cfg: Config, s: State, id: string, call: FenceCall)
    requires s.Valid() && cfg.policy.Valid() && GoodTracker(cfg, s) && id in s.issues && s.issues[id].claim.Some?
    requires call.FailClaim? ==> call.policy == cfg.policy
    ensures var r := CallOnFence(s, s.issues[id].claim.value.fence, call);
      && r.Ok? == Apply(s.issues[id], call).Ok?
      && (r.Ok? ==> && GoodTracker(cfg, r.value) && TrackerMoved(s, r.value)
                    && r.value.issues[id].(events := []) == Apply(s.issues[id], call).value.(events := []))
  {
    FenceFindsHolder(s, id);
    if Apply(s.issues[id], call).Ok? {
      var r := CallOnFence(s, s.issues[id].claim.value.fence, call).value;
      CallKeepsEntry(cfg, s.issues[id], call, r.issues[id]);
      ReplaceKeepsTracker(cfg, s, id, r);
    }
  }

  lemma StoresSurvive(cfg: Config, w: World, t: State)
    requires Good(cfg, w) && t.Valid() && GoodTracker(cfg, t) && TrackerMoved(w.tracker, t)
    ensures TickChange(cfg, w, w.(tracker := t))
  {
  }

  // ---------------------------------------------------------------- the parts of a tick

  // `e` is what the tracker holds right now for the issue that holds the claim.
  ghost predicate Current(w: World, e: Entry) {
    e.issue.id in w.tracker.issues && w.tracker.issues[e.issue.id] == e && e.claim.Some?
  }

  lemma FailRunKeeps(cfg: Config, w: World, e: Entry, failureClass: FailureClass, reason: string)
    requires Good(cfg, w) && Current(w, e)
    ensures var p := FailRun(cfg, w, e.claim.value.fence, failureClass, reason);
      TickChange(cfg, w, p.world) && (e.state in {Claimed, Running} ==> p.end.Finished?)
  {
    var call := FailClaim(failureClass, reason, w.nowMs, cfg.policy);
    CallKeepsTracker(cfg, w.tracker, e.issue.id, call);
    if Apply(e, call).Ok? {
      StoresSurvive(cfg, w, CallOnFence(w.tracker, e.claim.value.fence, call).value);
    }
    if e.state in {Claimed, Running} {
      FailAlwaysLegal(cfg, e, call);
    }
  }

  lemma PreserveKeepsEntry(cfg: Config, e: Entry, g: Entry)
    requires GoodEntry(cfg, e) && e.claim.Some?
    ensures Legal(e.state, PreservationUnknown)
    ensures var f := Move(e, PreservationUnknown, Some(e.claim.value.fence), map[]);
      f.Ok? && (RecordOf(f.value, g) ==> GoodEntry(cfg, g) && Moved(e, g) && g.claim.None?)
  {
    var f := Move(e, PreservationUnknown, Some(e.claim.value.fence), map[]).value;
    if RecordOf(f, g) {
      RecordCounts(f, g);
    }
  }

  /** From every state in which an issue can hold a claim, the scheduler may give up on it
      by marking its preservation unknown. */
  lemma PreserveKeeps(cfg: Config, w: World, e: Entry)
    requires Good(cfg, w) && Current(w, e)
    ensures var p := Preserve(w, e.issue.id, e.claim.value.fence);
      TickChange(cfg, w, p.world) && p.end.Finished?
  {
    PreserveKeepsEntry(cfg, e, e);
    var t := Transition(w.tracker, e.issue.id, PreservationUnknown, w.nowMs, Some(e.claim.value.fence), map[]).value;
    PreserveKeepsEntry(cfg, e, t.issues[e.issue.id]);
    ReplaceKeepsTracker(cfg, w.tracker, e.issue.id, t);
    StoresSurvive(cfg, w, t);
  }

  lemma BeatKeeps(cfg: Config, w: World, e: Entry)
    requires Good(cfg, w) && Current(w, e)
    ensures var p := Do(w, CallOnFence(w.tracker, e.claim.value.fence, Heartbeat(w.nowMs, cfg.claimTtlMs)));
      TickChange(cfg, w, p.world) && p.end.Finished?
  {
    var call := Heartbeat(w.nowMs, cfg.claimTtlMs);
    CallKeepsTracker(cfg, w.tracker, e.issue.id, call);
    StoresSurvive(cfg, w, CallOnFence(w.tracker, e.claim.value.fence, call).value);
  }

  // The identity of an honest claim is what its attempt is entitled to.
  lemma HonestRecords(cfg: Config, t: State, e: Entry)
    requires GoodTracker(cfg, t) && e.issue.id in t.issues && t.issues[e.issue.id] == e && e.claim.Some?
    ensures var run := IdentityOf(e.claim.value);
      && WorkspaceOf(run).issueId == SessionOf(run).issueId == e.issue.id
      && ForAttempt(cfg.root, e.issue.id, e.issue.identifier, run.attempt) == Some(run)
  {
    assert GoodEntry(cfg, e);
  }

  lemma AddWorkspaceKeeps(cfg: Config, w: World, e: Entry)
    requires Good(cfg, w) && Current(w, e)
    ensures var r := AddWorkspace(w, IdentityOf(e.claim.value));
      r.Some? ==> && TickChange(cfg, w, r.value) && r.value.tracker == w.tracker && r.value.sessions == w.sessions
                  && e.claim.value.workspaceId in r.value.workspaces.byId
  {
    hide OneClaim, NoRepeats, GoodEntry, HonestSessions;
    HonestRecords(cfg, w.tracker, e);
    EnsureIsIdempotent(w.workspaces, WorkspaceOf(IdentityOf(e.claim.value)));
  }

  lemma OneMoreSession(cfg: Config, t: State, s: Store, b: Binding, longer: Store)
    requires HonestSessions(cfg, t, s) && Extends(s, longer) && longer.byId.Keys == s.byId.Keys + {b.id} && longer.byId[b.id] == b
    requires b.issueId in t.issues
    requires var run := ForAttempt(cfg.root, b.issueId, t.issues[b.issueId].issue.identifier, b.attempt);
      run.Some? && b == SessionOf(run.value)
    ensures HonestSessions(cfg, t, longer)
  {
    hide ForAttempt;
  }

  lemma SessionsStayHonest(cfg: Config, t: State, s: Store, e: Entry)
    requires GoodTracker(cfg, t) && Inverse(s) && HonestSessions(cfg, t, s)
    requires e.issue.id in t.issues && t.issues[e.issue.id] == e && e.claim.Some?
    ensures var r := Ensure(s, SessionOf(IdentityOf(e.claim.value)));
      r.Ensured? ==> && Inverse(r.store) && Extends(s, r.store) && HonestSessions(cfg, t, r.store)
                     && r.store.byId.Keys == s.byId.Keys + {e.claim.value.sessionId}
  {
    hide GoodTracker, Inverse, Extends, HonestSessions, ForAttempt, Ensure;
    HonestRecords(cfg, t, e);
    var b := SessionOf(IdentityOf(e.claim.value));
    EnsureIsIdempotent(s, b);
    if Ensure(s, b).Ensured? {
      OneMoreSession(cfg, t, s, b, Ensure(s, b).store);
    }
  }

  lemma AddSessionKeeps(cfg: Config, w: World, e: Entry)
    requires Good(cfg, w) && Current(w, e)
    ensures var r := AddSession(w, IdentityOf(e.claim.value));
      r.Some? ==> && TickChange(cfg, w, r.value) && r.value.tracker == w.tracker && r.value.workspaces == w.workspaces
                  && e.claim.value.sessionId in r.value.sessions.byId
  {
    hide GoodTracker, HonestWorkspaces, HonestSessions, Inverse;
    SessionsStayHonest(cfg, w.tracker, w.sessions, e);
  }

  lemma MarkRunningKeeps(cfg: Config, w: World, e: Entry)
    requires Good(cfg, w) && Current(w, e) && e.state == Claimed
    ensures var r := CallOnFence(w.tracker, e.claim.value.fence, MarkRunning(w.nowMs));
      && r.Ok? && TickChange(cfg, w, Do(w, r).world)
      && r.value.issues[e.issue.id].state == Running
      && BindingOf(r.value.issues[e.issue.id].claim) == BindingOf(e.claim)
  {
    var call := MarkRunning(w.nowMs);
    CallKeepsTracker(cfg, w.tracker, e.issue.id, call);
    StoresSurvive(cfg, w, CallOnFence(w.tracker, e.claim.value.fence, call).value);
  }

  lemma StartClaimKeeps(cfg: Config, w: World, e: Entry, crash: Option<CrashPoint>)
    requires Good(cfg, w) && Current(w, e) && e.state == Claimed
    ensures var p := StartClaim(cfg, w, e.claim.value, crash);
      TickChange(cfg, w, p.world) && !p.end.Raised?
  {
    var run := IdentityOf(e.claim.value);
    AddWorkspaceKeeps(cfg, w, e);
    match AddWorkspace(w, run)
    case None => FailRunKeeps(cfg, w, e, RuntimeFailure, "workspace refused");
    case Some(w1) =>
      if crash != Some(AfterWorkspace) {
        AddSessionKeeps(cfg, w1, e);
        match AddSession(w1, run)
        case None =>
          FailRunKeeps(cfg, w1, e, RuntimeFailure, "session refused");
          TickChangeTransitive(cfg, w, w1, FailRun(cfg, w1, e.claim.value.fence, RuntimeFailure, "session refused").world);
        case Some(w2) =>
          TickChangeTransitive(cfg, w, w1, w2);
          if crash != Some(AfterSession) {
            MarkRunningKeeps(cfg, w2, e);
            var r := CallOnFence(w2.tracker, e.claim.value.fence, MarkRunning(w2.nowMs));
            TickChangeTransitive(cfg, w, w2, Do(w2, r).world);
          }
      }
  }

  lemma ReconcileRunningKeeps(cfg: Config, w: World, e: Entry, cancel: Option<SessionStatus>)
    requires Good(cfg, w) && Current(w, e) && e.state == Running
    ensures var p := ReconcileRunning(cfg, w, e, cancel);
      TickChange(cfg, w, p.world) && p.end.Finished?
  {
    var session := StatusOf(w.status, e.claim.value.sessionId);
    if session.None? || session.value == SessionFailed || DeadlineFailure(session) {
      if DeadlineFailure(session) && (cancel.None? || cancel.value == CancelDeadline) {
        PreserveKeeps(cfg, w, e);
      } else if IsStale(cfg, e.claim.value, w.nowMs) || DeadlineFailure(session) {
        FailRunKeeps(cfg, w, e, RuntimeFailure, "Craft run stopped");
      }
    } else if session.value == SessionRunning {
      BeatKeeps(cfg, w, e);
    } else if IsStale(cfg, e.claim.value, w.nowMs) {
      FailRunKeeps(cfg, w, e, RuntimeFailure, "agent settled without tracker handoff evidence");
    }
  }

  lemma ReconcileClaimedKeeps(cfg: Config, w: World, e: Entry, crash: Option<CrashPoint>)
    requires Good(cfg, w) && Current(w, e) && e.state == Claimed
    ensures var p := ReconcileClaimed(cfg, w, e.claim.value, crash);
      TickChange(cfg, w, p.world) && !p.end.Raised?
  {
    if w.nowMs >= e.claim.value.expiresAtMs && StatusOf(w.status, e.claim.value.sessionId).None? {
      FailRunKeeps(cfg, w, e, RuntimeFailure, CLAIM_EXPIRED);
    } else {
      StartClaimKeeps(cfg, w, e, crash);
    }
  }

  lemma HolderAccepted(cfg: Config, w: World, e: Entry)
    requires Good(cfg, w) && Current(w, e)
    ensures e.claim.value.modelProfile in cfg.allowedProfiles
    ensures var run := ForAttempt(cfg.root, e.issue.id, e.issue.identifier, e.claim.value.attempt);
      run.Some? && IdentityMatches(run.value, e.claim.value)
  {
    assert GoodEntry(cfg, e);
  }

  /** Reconciling the claim holder keeps the invariant and never raises an error: under an
      unchanged configuration the claim's identity and model are still acceptable, and every
      lifecycle move it makes is legal. */
  lemma ReconcileOneKeeps(cfg: Config, w: World, e: Entry, crash: Option<CrashPoint>, cancel: Option<SessionStatus>)
    requires Good(cfg, w) && Current(w, e)
    ensures var p := ReconcileOne(cfg, w, e, crash, cancel);
      TickChange(cfg, w, p.world) && !p.end.Raised?
  {
    HolderAccepted(cfg, w, e);
    if e.state == Claimed {
      ReconcileClaimedKeeps(cfg, w, e, crash);
    } else if e.state == Running {
      ReconcileRunningKeeps(cfg, w, e, cancel);
    } else {
      BeatKeeps(cfg, w, e);
    }
  }

  lemma {:induction false} HoldersUnique(s: State, b: nat)
    requires s.Valid() && OneClaim(s) && NoRepeats(s.order) && b <= |s.order|
    ensures |ClaimHolders(s.issues, s.order[..b])| <= 1
    ensures forall k :: 0 <= k < |ClaimHolders(s.issues, s.order[..b])| ==> ClaimHolders(s.issues, s.order[..b])[k] in s.order[..b]
    decreases b
  {
    if b > 0 {
      HoldersUnique(s, b - 1);
      HoldersStep(s.issues, s.order, b - 1);
      assert s.order[..b][..b - 1] == s.order[..b - 1];
      var before := ClaimHolders(s.issues, s.order[..b - 1]);
      if |before| > 0 {
        assert before[0] in s.order[..b - 1];
        var j :| 0 <= j < b - 1 && s.order[j] == before[0];
        assert s.order[j] != s.order[b - 1];
      }
    }
  }

  /** A tick never finds more than one claim to reconcile. */
  lemma AtMostOneActive(cfg: Config, w: World)
    requires Good(cfg, w)
    ensures |SortedClaims(w.tracker)| <= 1
    ensures forall e :: e in SortedClaims(w.tracker) ==> Current(w, e)
    ensures forall i :: i in w.tracker.issues && w.tracker.issues[i].claim.Some? ==> w.tracker.issues[i] in SortedClaims(w.tracker)
  {
    var t := w.tracker;
    assert t.order[..|t.order|] == t.order;
    HoldersUnique(t, |t.order|);
    var active := ActiveEntries(t);
    assert |multiset(SortedClaims(t))| == |multiset(active)|;
    forall i | i in t.issues && t.issues[i].claim.Some? ensures t.issues[i] in SortedClaims(t) {
      assert i in ClaimHolders(t.issues, t.order);
      var k :| 0 <= k < |active| && ClaimHolders(t.issues, t.order)[k] == i;
      assert active[k] == t.issues[i];
    }
  }

  // With at most one claim the loop is a single step.
  lemma ReconcileIsOneStep(cfg: Config, w: World, crash: Option<CrashPoint>, cancel: Option<SessionStatus>)
    requires Good(cfg, w)
    ensures var active := SortedClaims(w.tracker);
      ReconcileFrom(cfg, w, active, 0, crash, cancel)
      == if active == [] then Progress(w, Finished) else ReconcileOne(cfg, w, active[0], crash, cancel)
  {
    AtMostOneActive(cfg, w);
    var active := SortedClaims(w.tracker);
    if |active| == 1 {
      var one := ReconcileOne(cfg, w, active[0], crash, cancel);
      assert one.end.Finished? ==> ReconcileFrom(cfg, one.world, active, 1, crash, cancel) == Progress(one.world, Finished);
    }
  }

  lemma ReconcileKeeps(cfg: Config, w: World, crash: Option<CrashPoint>, cancel: Option<SessionStatus>)
    requires Good(cfg, w)
    ensures var p := ReconcileFrom(cfg, w, SortedClaims(w.tracker), 0, crash, cancel);
      TickChange(cfg, w, p.world) && !p.end.Raised?
  {
    ReconcileIsOneStep(cfg, w, crash, cancel);
    AtMostOneActive(cfg, w);
    var active := SortedClaims(w.tracker);
    if active != [] {
      assert active[0] in active;
      ReconcileOneKeeps(cfg, w, active[0], crash, cancel);
    }
  }

  // ---------------------------------------------------------------- claiming

  // A snapshot of a waiting issue that is still what the tracker holds.
  ghost predicate WaitingNow(w: World, e: Entry) {
    && e.issue.id in w.tracker.issues && w.tracker.issues[e.issue.id] == e
    && (e.state == Ready || e.state == RetryWait)
  }

  ghost predicate NothingClaimed(w: World) {
    forall i :: i in w.tracker.issues ==> w.tracker.issues[i].claim.None?
  }

  /** With nothing claimed, compare-and-set accepts the proposal for a waiting issue exactly
      when the issue is past its retry date; dispatchability is the only thing that makes
      the loop pass a candidate over. */
  lemma ProposalAccepted(cfg: Config, w: World, e: Entry)
    requires Good(cfg, w) && WaitingNow(w, e) && NothingClaimed(w) && Dispatchable(e, w.nowMs)
    requires Proposal(cfg, e, w.nowMs).Some?
    ensures CanClaim(w.tracker, e.issue.id, e.version, Proposal(cfg, e, w.nowMs).value, w.nowMs)
  {
  }

  ghost function AfterTake(cfg: Config, w: World, e: Entry): World
    requires w.Valid() && Proposal(cfg, e, w.nowMs).Some?
  {
    w.(tracker := TryClaim(w.tracker, e.issue.id, e.version, Proposal(cfg, e, w.nowMs).value, w.nowMs))
  }

  lemma ClaimKeeps(cfg: Config, w: World, e: Entry)
    requires Good(cfg, w) && WaitingNow(w, e) && NothingClaimed(w)
    requires Dispatchable(e, w.nowMs) && Admissible(cfg, e) && Proposal(cfg, e, w.nowMs).Some?
    ensures var v := AfterTake(cfg, w, e);
      && TickChange(cfg, w, v)
      && var f := v.tracker.issues[e.issue.id];
         Current(v, f) && f.state == Claimed && f.claim == Proposal(cfg, e, w.nowMs) && f.issue == e.issue
  {
    ProposalAccepted(cfg, w, e);
    var v := AfterTake(cfg, w, e);
    var proposed := Proposal(cfg, e, w.nowMs).value;
    assert GoodEntry(cfg, e);
    RecordCounts(TakeClaim(e, proposed), v.tracker.issues[e.issue.id]);
    ReplaceKeepsTracker(cfg, w.tracker, e.issue.id, v.tracker);
    StoresSurvive(cfg, w, v.tracker);
  }

  // Claiming a candidate that nothing speaks against, and what follows.
  lemma ClaimOneTakes(cfg: Config, w: World, e: Entry, crash: Option<CrashPoint>)
    requires Good(cfg, w) && WaitingNow(w, e) && NothingClaimed(w)
    requires Dispatchable(e, w.nowMs) && Admissible(cfg, e) && Proposal(cfg, e, w.nowMs).Some?
    ensures var v := AfterTake(cfg, w, e);
      ClaimOne(cfg, w, e, crash)
      == Some(if crash == Some(AfterClaim) then Progress(v, Crashed(AfterClaim))
              else StartClaim(cfg, v, Proposal(cfg, e, w.nowMs).value, crash))
  {
    hide CanClaim, TryClaim, StartClaim, GoodTracker, HonestWorkspaces, HonestSessions, Inverse;
    ProposalAccepted(cfg, w, e);
  }

  lemma TakeKeeps(cfg: Config, w: World, e: Entry, crash: Option<CrashPoint>)
    requires Good(cfg, w) && WaitingNow(w, e) && NothingClaimed(w)
    requires Dispatchable(e, w.nowMs) && Admissible(cfg, e) && Proposal(cfg, e, w.nowMs).Some?
    ensures var r := ClaimOne(cfg, w, e, crash);
      r.Some? && TickChange(cfg, w, r.value.world) && !r.value.end.Raised?
  {
    hide TickChange, GoodTracker, HonestWorkspaces, HonestSessions, Inverse, StartClaim, ClaimOne, TryClaim, CanClaim;
    ClaimOneTakes(cfg, w, e, crash);
    ClaimKeeps(cfg, w, e);
    var v := AfterTake(cfg, w, e);
    if crash != Some(AfterClaim) {
      ChangeIsGood(cfg, w, v);
      StartClaimKeeps(cfg, v, v.tracker.issues[e.issue.id], crash);
      TickChangeTransitive(cfg, w, v, StartClaim(cfg, v, Proposal(cfg, e, w.nowMs).value, crash).world);
    }
  }

  lemma ChangeIsGood(cfg: Config, w: World, v: World)
    requires TickChange(cfg, w, v)
    ensures Good(cfg, v)
  {
  }

  lemma Unchanged(cfg: Config, w: World)
    requires Good(cfg, w)
    ensures TickChange(cfg, w, w)
  {
  }

  lemma ClaimOneKeeps(cfg: Config, w: World, e: Entry, crash: Option<CrashPoint>)
    requires Good(cfg, w) && WaitingNow(w, e) && NothingClaimed(w)
    ensures var r := ClaimOne(cfg, w, e, crash);
      && (r.None? <==> !Dispatchable(e, w.nowMs))
      && (r.Some? ==> TickChange(cfg, w, r.value.world))
      && (r.Some? ==> (r.value.end.Raised? <==> !Admissible(cfg, e) || !Nameable(e.issue.identifier)))
  {
    hide TickChange, GoodTracker, HonestWorkspaces, HonestSessions, Inverse, StartClaim, TryClaim, CanClaim, Dispatchable, Admissible;
    Unchanged(cfg, w);
    if Dispatchable(e, w.nowMs) && Admissible(cfg, e) && Proposal(cfg, e, w.nowMs).Some? {
      TakeKeeps(cfg, w, e, crash);
    }
  }

  // The first candidate the loop does not pass over.
  function FirstDispatchable(candidates: seq<Entry>, nowMs: int): (k: nat)
    ensures k <= |candidates|
    ensures k < |candidates| ==> Dispatchable(candidates[k], nowMs)
    ensures forall j :: 0 <= j < k ==> !Dispatchable(candidates[j], nowMs)
  {
    if candidates == [] || Dispatchable(candidates[0], nowMs) then 0
    else 1 + FirstDispatchable(candidates[1..], nowMs)
  }

  lemma {:induction false} ClaimFirstIsFirst(cfg: Config, w: World, candidates: seq<Entry>, crash: Option<CrashPoint>)
    requires Good(cfg, w) && NothingClaimed(w) && forall k :: 0 <= k < |candidates| ==> WaitingNow(w, candidates[k])
    ensures var k := FirstDispatchable(candidates, w.nowMs);
      Some(ClaimFirst(cfg, w, candidates, crash))
      == if k == |candidates| then Some(Progress(w, Finished)) else ClaimOne(cfg, w, candidates[k], crash)
    decreases |candidates|
  {
    if candidates != [] {
      ClaimOneKeeps(cfg, w, candidates[0], crash);
      if !Dispatchable(candidates[0], w.nowMs) {
        assert forall k :: 0 <= k < |candidates[1..]| ==> candidates[1..][k] == candidates[k + 1];
        ClaimFirstIsFirst(cfg, w, candidates[1..], crash);
      }
    }
  }

  // In a sorted queue the first dispatchable entry comes before every other one.
  lemma FirstIsLeast(q: seq<Entry>, nowMs: int, k: nat)
    requires Sorted(ForDispatch, q) && k == FirstDispatchable(q, nowMs)
    ensures k == |q| ==> forall e :: e in q ==> !Dispatchable(e, nowMs)
    ensures k < |q| ==> forall e :: e in q && Dispatchable(e, nowMs) ==> e == q[k] || AtMost(ForDispatch, q[k], e)
  {
    forall e | e in q && Dispatchable(e, nowMs) ensures k < |q| && (e == q[k] || AtMost(ForDispatch, q[k], e)) {
      var j :| 0 <= j < |q| && q[j] == e;
    }
  }

  lemma QueueSorted(t: State)
    requires t.Valid()
    ensures Sorted(ForDispatch, Queue(t)) && forall k :: 0 <= k < |Queue(t)| ==> Queue(t)[k] in Queue(t)
  {
    SortSorted(ForDispatch, Waiting(t.issues, t.order));
  }

  /** The tick claims the issue that comes first in dispatch order among all issues that are
      dispatchable now, and touches no other. */
  lemma DispatchTakesLeast(cfg: Config, w: World, crash: Option<CrashPoint>) returns (chosen: Option<Entry>)
    requires Good(cfg, w) && NothingClaimed(w)
    ensures var p := ClaimFirst(cfg, w, Queue(w.tracker), crash);
      match chosen
      case None =>
        && p == Progress(w, Finished)
        && forall e :: e in Queue(w.tracker) ==> !Dispatchable(e, w.nowMs)
      case Some(x) =>
        && Some(p) == ClaimOne(cfg, w, x, crash)
        && x in Queue(w.tracker) && Dispatchable(x, w.nowMs)
        && forall e :: e in Queue(w.tracker) && Dispatchable(e, w.nowMs) ==> e == x || AtMost(ForDispatch, x, e)
  {
    var q := Queue(w.tracker);
    var k := FirstDispatchable(q, w.nowMs);
    QueueSorted(w.tracker);
    FirstIsLeast(q, w.nowMs, k);
    ClaimFirstIsFirst(cfg, w, q, crash);
    chosen := if k == |q| then None else Some(q[k]);
  }

  // ---------------------------------------------------------------- one tick

  // A candidate that the policies or its name make the whole tick fail on.
  predicate Poison(cfg: Config, w: World, e: Entry) {
    Dispatchable(e, w.nowMs) && (!Admissible(cfg, e) || !Nameable(e.issue.identifier))
  }

  ghost predicate Poisoned(cfg: Config, w: World)
    requires w.Valid()
  {
    exists e :: e in Queue(w.tracker) && Poison(cfg, w, e)
  }

  lemma DispatchKeeps(cfg: Config, w: World, crash: Option<CrashPoint>)
    requires Good(cfg, w) && NothingClaimed(w)
    ensures var p := ClaimFirst(cfg, w, Queue(w.tracker), crash);
      TickChange(cfg, w, p.world) && (p.end.Raised? ==> Poisoned(cfg, w))
  {
    var chosen := DispatchTakesLeast(cfg, w, crash);
    if chosen.Some? {
      ClaimOneKeeps(cfg, w, chosen.value, crash);
    }
  }

  lemma NoActiveMeansNothingClaimed(cfg: Config, w: World)
    requires Good(cfg, w)
    ensures ActiveEntries(w.tracker) == [] <==> NothingClaimed(w)
  {
    AtMostOneActive(cfg, w);
    assert |multiset(SortedClaims(w.tracker))| == |multiset(ActiveEntries(w.tracker))|;
    if ActiveEntries(w.tracker) != [] {
      assert ActiveEntries(w.tracker)[0] in ActiveEntries(w.tracker);
    }
  }

  lemma SweepKeeps(cfg: Config, w: World, crash: Option<CrashPoint>, cancel: Option<SessionStatus>)
    requires Good(cfg, w)
    ensures var p := Swept(cfg, w, crash, cancel);
      TickChange(cfg, w, p.world) && !p.end.Raised?
  {
    var w0 := w.(reconciled := true);
    assert TickChange(cfg, w, w0);
    ReconcileKeeps(cfg, w0, crash, cancel);
    TickChangeTransitive(cfg, w, w0, Swept(cfg, w, crash, cancel).world);
  }

  /** A tick keeps the invariant, moves issues only into claimed, running, retry-wait, failed
      or preservation-unknown, and never alters or removes a workspace or session; it raises
      an error only when a dispatchable candidate breaks the model or budget policy or has a
      name no workspace can be derived from. */
  lemma TickKeeps(cfg: Config, w: World, crash: Option<CrashPoint>, cancel: Option<SessionStatus>)
    requires Good(cfg, w)
    ensures var p := Tick(cfg, w, crash, cancel);
      TickChange(cfg, w, p.world) && (p.end.Raised? ==> Poisoned(cfg, Swept(cfg, w, crash, cancel).world))
  {
    SweepKeeps(cfg, w, crash, cancel);
    var swept := Swept(cfg, w, crash, cancel);
    NoActiveMeansNothingClaimed(cfg, swept.world);
    if swept.end.Finished? && ActiveEntries(swept.world.tracker) == [] {
      DispatchKeeps(cfg, swept.world, crash);
      TickChangeTransitive(cfg, w, swept.world, Tick(cfg, w, crash, cancel).world);
    }
  }
}
