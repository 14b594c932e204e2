/** Whole runs of the system: ticks, crashes at any of the three points, restarts, the
    passage of time, session outcomes, new issues and outside transitions, in any order.
 */
module SystemRuns {
  import opened Domain
  import opened Wrappers
  import opened Identity
  import opened Tracker
  import opened RunStores
  import opened Scheduler
  import opened SchedulerRuns
  import opened Uniqueness

  datatype Action =
    | TickOnce(crash: Option<CrashPoint>, cancel: Option<SessionStatus>)
    | Advance(ms: nat)
    | SessionReports(sessionId: Id, outcome: SessionStatus)
    | Restart
    | NewIssue(issue: IssueInfo, contract: Contract, state: LifecycleState, baseSha: string)
    | OutsideMove(issueId: string, to: LifecycleState, fence: Option<Id>, evidence: Evidence)

  // Claiming, starting and scheduling a retry are the scheduler's own calls; nobody else
  // uses `transition` to enter those states.
  predicate Disciplined(a: Action) {
    a.OutsideMove? ==> a.to !in {Claimed, Running, RetryWait}
  }

  ghost function Act(cfg: Config, w: World, a: Action): (v: World)
    requires w.Valid()
    ensures v.Valid()
  {
    match a
    case TickOnce(crash, cancel) => Tick(cfg, w, crash, cancel).world
    case Advance(ms) => w.(nowMs := w.nowMs + ms)
    case SessionReports(sessionId, outcome) =>
      if sessionId in w.status then w.(status := w.status[sessionId := outcome]) else w
    case Restart => w.(reconciled := false)
    case NewIssue(issue, contract, state, baseSha) => Do(w, SeedChecked(w.tracker, issue, contract, state, baseSha)).world
    case OutsideMove(issueId, to, fence, evidence) =>
      Do(w, Transition(w.tracker, issueId, to, w.nowMs, fence, evidence)).world
  }

  ghost function SeedChecked(t: State, issue: IssueInfo, contract: Contract, state: LifecycleState, baseSha: string):
      (r: Outcome<State>)
    requires t.Valid()
    ensures r.Ok? ==> r.value.Valid()
  {
    Tracker.Seed(t, issue, contract, state, baseSha)
  }

  // The world after the first n actions.
  ghost function At(cfg: Config, w: World, run: seq<Action>, n: nat): (v: World)
    requires w.Valid() && n <= |run|
    ensures v.Valid()
  {
    if n == 0 then w else Act(cfg, At(cfg, w, run, n - 1), run[n - 1])
  }

  predicate DisciplinedRun(run: seq<Action>) {
    forall k :: 0 <= k < |run| ==> Disciplined(run[k])
  }

  // ---------------------------------------------------------------- what one action keeps

  // Issues are never dropped or renamed.
  predicate SameIssues(s: State, t: State) {
    forall i :: i in s.issues ==> i in t.issues && t.issues[i].issue == s.issues[i].issue
  }

  ghost predicate Kept(cfg: Config, w: World, v: World) {
    && Good(cfg, v)
    && w.nowMs <= v.nowMs
    && SameIssues(w.tracker, v.tracker)
    && Extends(w.workspaces, v.workspaces) && Extends(w.sessions, v.sessions)
  }

  lemma TickIsKept(cfg: Config, w: World, v: World)
    requires TickChange(cfg, w, v)
    ensures Kept(cfg, w, v)
  {
  }

  // With the issues unchanged in name, every record stays honest.
  lemma NewTrackerKept(cfg: Config, w: World, t: State)
    requires Good(cfg, w) && t.Valid() && GoodTracker(cfg, t) && SameIssues(w.tracker, t)
    ensures Kept(cfg, w, w.(tracker := t))
  {
  }

  lemma SeedKeeps(cfg: Config, w: World, a: Action)
    requires Good(cfg, w) && a.NewIssue?
    ensures Kept(cfg, w, Act(cfg, w, a))
  {
    hide HonestWorkspaces, HonestSessions, Inverse, Extends;
    if a.issue.id !in w.tracker.issues {
      SeedKeepsTracker(cfg, w.tracker, a);
      NewTrackerKept(cfg, w, Tracker.Seed(w.tracker, a.issue, a.contract, a.state, a.baseSha).value);
    } else {
      NewTrackerKept(cfg, w, w.tracker);
    }
  }

  lemma SeedKeepsTracker(cfg: Config, s: State, a: Action)
    requires s.Valid() && cfg.policy.Valid() && GoodTracker(cfg, s) && a.NewIssue? && a.issue.id !in s.issues
    ensures var t := Tracker.Seed(s, a.issue, a.contract, a.state, a.baseSha).value;
      t.Valid() && GoodTracker(cfg, t) && SameIssues(s, t)
  {
    var t := Tracker.Seed(s, a.issue, a.contract, a.state, a.baseSha).value;
    var e := t.issues[a.issue.id];
    assert e.events[..0] == [];
    assert GoodEntry(cfg, e);
  }

  /** An outside transition may move the claim holder along, or take its claim away; it never
      creates a claim, a retry or a new attempt. */
  lemma MoveKeepsEntry(cfg: Config, e: Entry, to: LifecycleState, fence: Option<Id>, evidence: Evidence, g: Entry)
    requires GoodEntry(cfg, e) && to !in {Claimed, Running, RetryWait}
    requires Move(e, to, fence, evidence).Ok? && RecordOf(Move(e, to, fence, evidence).value, g)
    ensures GoodEntry(cfg, g) && g.issue == e.issue && (g.claim == e.claim || g.claim.None?) && g.retry == e.retry
    ensures to != Ready ==> ClaimsBeforeReady(g.events) == ClaimsBeforeReady(e.events)
    ensures to != Ready ==> ClaimsSinceReady(g.events) == ClaimsSinceReady(e.events)
  {
    RecordCounts(Move(e, to, fence, evidence).value, g);
  }

  lemma OutsideMoveKeepsTracker(cfg: Config, s: State, a: Action, nowMs: int)
    requires s.Valid() && GoodTracker(cfg, s) && a.OutsideMove? && Disciplined(a)
    ensures var r := Transition(s, a.issueId, a.to, nowMs, a.fence, a.evidence);
      r.Ok? ==> GoodTracker(cfg, r.value) && SameIssues(s, r.value)
  {
    hide Move, GoodEntry;
    var r := Transition(s, a.issueId, a.to, nowMs, a.fence, a.evidence);
    if r.Ok? {
      MoveKeepsEntry(cfg, s.issues[a.issueId], a.to, a.fence, a.evidence, r.value.issues[a.issueId]);
    }
  }

  lemma OutsideMoveKeeps(cfg: Config, w: World, a: Action)
    requires Good(cfg, w) && a.OutsideMove? && Disciplined(a)
    ensures Kept(cfg, w, Act(cfg, w, a))
  {
    hide HonestWorkspaces, HonestSessions, Inverse, Extends, Move;
    OutsideMoveKeepsTracker(cfg, w.tracker, a, w.nowMs);
    var r := Transition(w.tracker, a.issueId, a.to, w.nowMs, a.fence, a.evidence);
    NewTrackerKept(cfg, w, if r.Ok? then r.value else w.tracker);
  }

  lemma ActKeeps(cfg: Config, w: World, a: Action)
    requires Good(cfg, w) && Disciplined(a)
    ensures Kept(cfg, w, Act(cfg, w, a))
  {
    hide Tick, GoodTracker, HonestWorkspaces, HonestSessions, Inverse, TickChange;
    match a
    case TickOnce(crash, cancel) =>
      TickKeeps(cfg, w, crash, cancel);
      TickIsKept(cfg, w, Tick(cfg, w, crash, cancel).world);
    case NewIssue(_, _, _, _) => SeedKeeps(cfg, w, a);
    case OutsideMove(_, _, _, _) => OutsideMoveKeeps(cfg, w, a);
    case _ =>
  }

  lemma KeptTransitive(cfg: Config, u: World, v: World, w: World)
    requires Kept(cfg, u, v) && Kept(cfg, v, w)
    ensures Kept(cfg, u, w)
  {
    hide Good;
  }

  lemma KeptRefl(cfg: Config, w: World)
    requires Good(cfg, w)
    ensures Kept(cfg, w, w)
  {
  }

  // ---------------------------------------------------------------- whole runs

  /** The invariant holds at every point of every disciplined run, and between any two
      points records are only added, never changed or removed. */
  lemma {:induction false} RunKeeps(cfg: Config, w: World, run: seq<Action>, m: nat, n: nat)
    requires Good(cfg, w) && DisciplinedRun(run) && m <= n <= |run|
    ensures Good(cfg, At(cfg, w, run, m)) && Kept(cfg, At(cfg, w, run, m), At(cfg, w, run, n))
    decreases n
  {
    hide GoodTracker, HonestWorkspaces, HonestSessions, Inverse, Extends, Act;
    if n > 0 {
      var v, a := At(cfg, w, run, n - 1), run[n - 1];
      assert At(cfg, w, run, n) == Act(cfg, v, a);
      assert Disciplined(a);
      hide At, DisciplinedRun, Disciplined;
      RunKeeps(cfg, w, run, if m < n then m else n - 1, n - 1);
      ActKeeps(cfg, v, a);
      if m < n {
        KeptTransitive(cfg, At(cfg, w, run, m), v, Act(cfg, v, a));
      }
    }
    if m == n {
      KeptRefl(cfg, At(cfg, w, run, n));
    }
  }

  // ---------------------------------------------------------------- what any run keeps

  lemma ActGrows(cfg: Config, w: World, a: Action)
    requires w.Valid()
    ensures Grown(w, Act(cfg, w, a))
  {
    hide Grown, Tick, Transition, Do;
    match a
    case TickOnce(crash, cancel) => TickGrows(cfg, w, crash, cancel);
    case NewIssue(issue, contract, state, baseSha) =>
      SeedMakesNoClaim(w.tracker, issue, contract, state, baseSha);
      NoNewClaimKeeps(w, SeedChecked(w.tracker, issue, contract, state, baseSha));
    case OutsideMove(issueId, to, fence, evidence) =>
      TransitionMakesNoClaim(w.tracker, issueId, to, w.nowMs, fence, evidence);
      NoNewClaimKeeps(w, Transition(w.tracker, issueId, to, w.nowMs, fence, evidence));
    case _ => MarkGrows(w, Act(cfg, w, a));
  }

  /** Uniqueness holds at every point of every run whatsoever, under any policy and with any
      outside moves, and records are only added. */
  lemma {:induction false} RunGrows(cfg: Config, w: World, run: seq<Action>, m: nat, n: nat)
    requires Unique(w) && m <= n <= |run|
    ensures Unique(At(cfg, w, run, m)) && Unique(At(cfg, w, run, n))
    ensures Extends(At(cfg, w, run, m).workspaces, At(cfg, w, run, n).workspaces)
    ensures Extends(At(cfg, w, run, m).sessions, At(cfg, w, run, n).sessions)
    decreases n
  {
    hide OneClaim, Inverse, Act;
    if n > 0 {
      var v := At(cfg, w, run, n - 1);
      RunGrows(cfg, w, run, if m < n then m else n - 1, n - 1);
      ActGrows(cfg, v, run[n - 1]);
    }
  }

  /** Work in progress is one: at every point of every run at most one issue holds a claim. */
  lemma WipIsOne(cfg: Config, w: World, run: seq<Action>, n: nat)
    requires Unique(w) && n <= |run|
    ensures var s := At(cfg, w, run, n).tracker;
      forall i, j :: i in s.issues && j in s.issues && s.issues[i].claim.Some? && s.issues[j].claim.Some? ==> i == j
  {
    hide At;
    RunGrows(cfg, w, run, n, n);
  }

  // No attempt has one record in `early` and another in `late`.
  predicate SameRecords(early: Store, late: Store) {
    forall i, j :: i in early.byId && j in late.byId
      && early.byId[i].issueId == late.byId[j].issueId && early.byId[i].attempt == late.byId[j].attempt
      ==> i == j && early.byId[i] == late.byId[j]
  }

  lemma GrowingStoreSame(early: Store, late: Store)
    requires Inverse(late) && Extends(early, late)
    ensures SameRecords(early, late)
  {
    forall i, j | i in early.byId && j in late.byId
      && early.byId[i].issueId == late.byId[j].issueId && early.byId[i].attempt == late.byId[j].attempt
      ensures i == j && early.byId[i] == late.byId[j]
    {
      OneRecordPerAttempt(late, i, j);
    }
  }

  /** Exactly once, across crashes and restarts: a session seen for an attempt at any point
      of any run and a session seen for the same attempt at any later point are the same
      record; in a disciplined run every session is the one its attempt's identity prescribes. */
  lemma OneSessionEver(cfg: Config, w: World, run: seq<Action>, m: nat, n: nat)
    requires Unique(w) && m <= n <= |run|
    ensures SameRecords(At(cfg, w, run, m).sessions, At(cfg, w, run, n).sessions)
    ensures Good(cfg, w) && DisciplinedRun(run) ==>
      HonestSessions(cfg, At(cfg, w, run, n).tracker, At(cfg, w, run, n).sessions)
  {
    hide At, SameRecords, Inverse, Extends, HonestSessions, HonestWorkspaces, GoodTracker, DisciplinedRun;
    RunGrows(cfg, w, run, m, n);
    GrowingStoreSame(At(cfg, w, run, m).sessions, At(cfg, w, run, n).sessions);
    if Good(cfg, w) && DisciplinedRun(run) {
      RunKeeps(cfg, w, run, n, n);
    }
  }

  /** The same for workspaces. */
  lemma OneWorkspaceEver(cfg: Config, w: World, run: seq<Action>, m: nat, n: nat)
    requires Unique(w) && m <= n <= |run|
    ensures SameRecords(At(cfg, w, run, m).workspaces, At(cfg, w, run, n).workspaces)
    ensures Good(cfg, w) && DisciplinedRun(run) ==>
      HonestWorkspaces(cfg, At(cfg, w, run, n).tracker, At(cfg, w, run, n).workspaces)
  {
    hide At, SameRecords, Inverse, Extends, HonestSessions, HonestWorkspaces, GoodTracker, DisciplinedRun;
    RunGrows(cfg, w, run, m, n);
    GrowingStoreSame(At(cfg, w, run, m).workspaces, At(cfg, w, run, n).workspaces);
    if Good(cfg, w) && DisciplinedRun(run) {
      RunKeeps(cfg, w, run, n, n);
    }
  }

  // ---------------------------------------------------------------- the retry bound

  // How often the issue has been claimed in all.
  function Claims(e: Entry): nat {
    ClaimsBeforeReady(e.events) + ClaimsSinceReady(e.events)
  }

  // Nobody puts the issue back to ready.
  predicate LeftAlone(run: seq<Action>, id: string) {
    forall k :: 0 <= k < |run| ==> run[k].OutsideMove? && run[k].issueId == id ==> run[k].to != Ready
  }

  // Before it was last ready the issue had been claimed this often.
  ghost predicate Base(w: World, id: string, claims: nat) {
    id in w.tracker.issues && ClaimsBeforeReady(w.tracker.issues[id].events) == claims
  }

  lemma TickKeepsBase(cfg: Config, w: World, v: World, id: string, claims: nat)
    requires TickChange(cfg, w, v) && Base(w, id, claims)
    ensures Base(v, id, claims)
  {
  }

  lemma MoveKeepsBase(cfg: Config, w: World, a: Action, id: string, claims: nat)
    requires Good(cfg, w) && a.OutsideMove? && Disciplined(a) && Base(w, id, claims)
    requires a.issueId == id ==> a.to != Ready
    ensures Base(Act(cfg, w, a), id, claims)
  {
    hide Move, HonestWorkspaces, HonestSessions, Inverse;
    if a.issueId in w.tracker.issues && Move(w.tracker.issues[a.issueId], a.to, a.fence, a.evidence).Ok? {
      MoveKeepsEntry(cfg, w.tracker.issues[a.issueId], a.to, a.fence, a.evidence, Act(cfg, w, a).tracker.issues[a.issueId]);
    }
  }

  lemma ActKeepsBase(cfg: Config, w: World, a: Action, id: string, claims: nat)
    requires Good(cfg, w) && Disciplined(a) && Base(w, id, claims)
    requires a.OutsideMove? && a.issueId == id ==> a.to != Ready
    ensures Base(Act(cfg, w, a), id, claims)
  {
    hide Tick, GoodTracker, HonestWorkspaces, HonestSessions, Inverse, TickChange;
    match a
    case TickOnce(crash, cancel) =>
      TickKeeps(cfg, w, crash, cancel);
      TickKeepsBase(cfg, w, Tick(cfg, w, crash, cancel).world, id, claims);
    case OutsideMove(_, _, _, _) => MoveKeepsBase(cfg, w, a, id, claims);
    case _ =>
  }

  lemma {:induction false} RunKeepsBase(cfg: Config, w: World, run: seq<Action>, n: nat, id: string, claims: nat)
    requires Good(cfg, w) && DisciplinedRun(run) && n <= |run| && Base(w, id, claims) && LeftAlone(run, id)
    ensures Base(At(cfg, w, run, n), id, claims)
    decreases n
  {
    hide GoodTracker, HonestWorkspaces, HonestSessions, Inverse, Kept, Act, Base;
    if n > 0 {
      var v, a := At(cfg, w, run, n - 1), run[n - 1];
      assert At(cfg, w, run, n) == Act(cfg, v, a);
      assert Disciplined(a) && (a.OutsideMove? && a.issueId == id ==> a.to != Ready);
      hide Good, At, LeftAlone, DisciplinedRun, Disciplined;
      RunKeepsBase(cfg, w, run, n - 1, id, claims);
      RunKeeps(cfg, w, run, n - 1, n - 1);
      ActKeepsBase(cfg, v, a, id, claims);
    }
  }

  /** Without somebody putting the issue back to ready, the scheduler claims it at most
      `maxAttempts` times in a whole run, counting the claims it starts with since it was
      last ready; every attempt and retry number stays within the limit. */
  lemma RetriesBounded(cfg: Config, w: World, run: seq<Action>, n: nat, id: string)
    requires Good(cfg, w) && DisciplinedRun(run) && n <= |run| && id in w.tracker.issues && LeftAlone(run, id)
    ensures id in At(cfg, w, run, n).tracker.issues
    ensures var before, after := w.tracker.issues[id], At(cfg, w, run, n).tracker.issues[id];
      && Claims(after) <= Claims(before) - ClaimsSinceReady(before.events) + cfg.policy.maxAttempts
      && (after.claim.Some? ==> after.claim.value.attempt <= cfg.policy.maxAttempts)
      && (after.retry.Some? ==> after.retry.value.attempt <= cfg.policy.maxAttempts)
  {
    RunKeepsBase(cfg, w, run, n, id, ClaimsBeforeReady(w.tracker.issues[id].events));
    RunKeeps(cfg, w, run, n, n);
    assert GoodEntry(cfg, At(cfg, w, run, n).tracker.issues[id]);
  }

  // ---------------------------------------------------------------- from the empty system

  function EmptyWorld(nowMs: int): World {
    World(State(map[], [], 0, 0), Store(map[], map[]), Store(map[], map[]), map[], nowMs, false)
  }

  /** The empty system satisfies the invariant. */
  lemma EmptyIsGood(cfg: Config, nowMs: int)
    requires cfg.policy.Valid()
    ensures Good(cfg, EmptyWorld(nowMs))
  {
  }

  // An issue that is new has not been claimed before.
  lemma NewIssueBase(cfg: Config, w: World, a: Action, id: string)
    requires Good(cfg, w) && Disciplined(a) && id !in w.tracker.issues && id in Act(cfg, w, a).tracker.issues
    ensures Base(Act(cfg, w, a), id, 0)
  {
    hide Tick, GoodTracker, HonestWorkspaces, HonestSessions, Inverse;
    match a
    case TickOnce(crash, cancel) => TickKeeps(cfg, w, crash, cancel);
    case NewIssue(_, _, _, _) =>
      var events := Act(cfg, w, a).tracker.issues[id].events;
      assert |events| == 1 && events[..|events| - 1] == [];
      assert ClaimsBeforeReady([]) == 0 && ClaimsSinceReady([]) == 0;
    case _ =>
  }

  lemma {:induction false} BaseFromEmpty(cfg: Config, nowMs: int, run: seq<Action>, n: nat, id: string)
    requires cfg.policy.Valid() && DisciplinedRun(run) && n <= |run| && LeftAlone(run, id)
    requires id in At(cfg, EmptyWorld(nowMs), run, n).tracker.issues
    ensures Base(At(cfg, EmptyWorld(nowMs), run, n), id, 0)
    decreases n
  {
    hide GoodTracker, HonestWorkspaces, HonestSessions, Inverse, Kept, Act, Base;
    if n > 0 {
      var v, a := At(cfg, EmptyWorld(nowMs), run, n - 1), run[n - 1];
      assert At(cfg, EmptyWorld(nowMs), run, n) == Act(cfg, v, a);
      assert Disciplined(a) && (a.OutsideMove? && a.issueId == id ==> a.to != Ready);
      hide Good, At, LeftAlone, DisciplinedRun, Disciplined;
      EmptyIsGood(cfg, nowMs);
      RunKeeps(cfg, EmptyWorld(nowMs), run, n - 1, n - 1);
      if id in v.tracker.issues {
        BaseFromEmpty(cfg, nowMs, run, n - 1, id);
        ActKeepsBase(cfg, v, a, id, 0);
      } else {
        NewIssueBase(cfg, v, a, id);
      }
    }
  }

  lemma EmptyIsUnique(nowMs: int)
    ensures Unique(EmptyWorld(nowMs))
  {
  }

  /** From the empty system, in every run and under any policy: at every point at most one
      issue is claimed, and no attempt ever gets a second session or workspace.  If outside
      moves are disciplined, an issue that nobody puts back to ready is claimed at most
      `maxAttempts` times in its whole life. */
  lemma FromEmpty(cfg: Config, nowMs: int, run: seq<Action>, m: nat, n: nat, id: string)
    requires m <= n <= |run|
    ensures var early, late := At(cfg, EmptyWorld(nowMs), run, m), At(cfg, EmptyWorld(nowMs), run, n);
      && OneClaim(late.tracker)
      && SameRecords(early.sessions, late.sessions) && SameRecords(early.workspaces, late.workspaces)
      && (cfg.policy.Valid() && DisciplinedRun(run) && LeftAlone(run, id) && id in late.tracker.issues ==>
            Claims(late.tracker.issues[id]) <= cfg.policy.maxAttempts)
  {
    var w := EmptyWorld(nowMs);
    EmptyIsUnique(nowMs);
    hide At, EmptyWorld, SameRecords, DisciplinedRun, LeftAlone, Claims, HonestWorkspaces, HonestSessions, Inverse, Extends;
    RunGrows(cfg, w, run, m, n);
    OneSessionEver(cfg, w, run, m, n);
    OneWorkspaceEver(cfg, w, run, m, n);
    if cfg.policy.Valid() && DisciplinedRun(run) && LeftAlone(run, id) && id in At(cfg, w, run, n).tracker.issues {
      EmptyIsGood(cfg, nowMs);
      RunKeeps(cfg, w, run, n, n);
      BaseFromEmpty(cfg, nowMs, run, n, id);
      ClaimsOfBase(cfg, At(cfg, w, run, n), id);
    }
  }

  lemma ClaimsOfBase(cfg: Config, w: World, id: string)
    requires Good(cfg, w) && Base(w, id, 0)
    ensures Claims(w.tracker.issues[id]) <= cfg.policy.maxAttempts
  {
    hide HonestWorkspaces, HonestSessions, Inverse;
    assert GoodEntry(cfg, w.tracker.issues[id]);
  }
}
