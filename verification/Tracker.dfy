/** The in-memory tracker: a map of issue entries whose claim is taken by compare-and-set
    on the entry's version, and never while another issue holds a claim.
 */
module Tracker {
  import opened Domain
  import opened Wrappers

  datatype IssueInfo = IssueInfo(
    id: string,
    identifier: string,
    priority: Option<int>,
    createdAtMs: Option<int>,
    dispatchable: bool,
    blockerStates: seq<Option<string>>)

  datatype Contract = Contract(risk: RiskTier, deploy: DeployAuthority, modelProfile: string, verificationBudget: string)

  datatype Entry = Entry(
    issue: IssueInfo,
    contract: Contract,
    state: LifecycleState,
    version: int,
    baseSha: string,
    claim: Option<Claim>,
    retry: Option<Retry>,
    evidence: Evidence,
    events: seq<MaterialEvent>)

  // `order` is the map's insertion order, which every scan follows.
  datatype State = State(issues: map<string, Entry>, order: seq<string>, eventSequence: nat, claimSuccessCount: nat)
  {
    ghost predicate Valid() {
      && (forall i :: i in issues <==> i in order)
      && (forall i :: i in issues ==> issues[i].issue.id == i)
    }
  }

  datatype Fault =
    | IllegalMove | FenceMismatch | UnknownFence | UnknownIssue | DuplicateIssue | NotClaimable
    | NoPullRequest | NoOwnerGate | GateSkipped | NoDeployment | DeploySkipped

  datatype Outcome<+T> = Ok(value: T) | Throws(reason: Fault)

  // ---------------------------------------------------------------- one entry

  // Everything `tryClaim` checks on the entry itself.
  predicate Claimable(e: Entry, issueId: string, expectedVersion: int, proposed: Claim, nowMs: int) {
    && e.version == expectedVersion
    && e.claim.None?
    && (e.state == Ready || e.state == RetryWait)
    && (e.state == RetryWait ==> e.retry.Some? && e.retry.value.dueAtMs <= nowMs)
    && proposed.issueId == issueId
    && proposed.attempt == (if e.retry.Some? then e.retry.value.attempt else 1)
  }

  function TakeClaim(e: Entry, proposed: Domain.Claim): Entry {
    e.(state := Claimed, claim := Some(proposed), retry := None, version := e.version + 1)
  }

  function Start(e: Entry, nowMs: int): Outcome<Entry>
    requires e.claim.Some?
  {
    if !Legal(e.state, Running) then Throws(IllegalMove)
    else
      var c := e.claim.value;
      Ok(e.(state := Running,
            claim := Some(c.(heartbeatAtMs := nowMs, expiresAtMs := nowMs + (c.expiresAtMs - c.claimedAtMs))),
            version := e.version + 1))
  }

  function Beat(e: Entry, nowMs: int, ttlMs: int): Entry
    requires e.claim.Some?
  {
    e.(claim := Some(e.claim.value.(heartbeatAtMs := nowMs, expiresAtMs := nowMs + ttlMs)), version := e.version + 1)
  }

  function Fail(e: Entry, failureClass: FailureClass, reason: string, nowMs: int, policy: RetryPolicy): Outcome<Entry>
    requires e.claim.Some?
  {
    var attempt := e.claim.value.attempt;
    var next := StateAfterFailure(failureClass, attempt, policy);
    if !Legal(e.state, next) then Throws(IllegalMove)
    else Ok(e.(state := next, claim := None, retry := RetryAfter(failureClass, reason, attempt, nowMs, policy),
               version := e.version + 1))
  }

  function Move(e: Entry, to: LifecycleState, fence: Option<Id>, evidence: Evidence): Outcome<Entry> {
    var merged := e.evidence + evidence;
    if e.claim.Some? && fence != Some(e.claim.value.fence) then Throws(FenceMismatch)
    else if !Legal(e.state, to) then Throws(IllegalMove)
    else if to == PrOpen && !Has(merged, PrUrl) then Throws(NoPullRequest)
    else if to == OwnerGate && !Has(merged, OwnerGateId) then Throws(NoOwnerGate)
    else if to == Merged && e.contract.risk == HighRisk && e.state != OwnerGate then
      Throws(GateSkipped)
    else if to == Deployed && !Has(merged, DeploymentUrl) then Throws(NoDeployment)
    else if to == Done && e.contract.deploy != NoDeploy && e.state != Deployed then
      Throws(DeploySkipped)
    else Ok(e.(state := to, evidence := merged, claim := if IsTerminal(to) || to == Blocked then None else e.claim,
               version := e.version + 1))
  }

  // ---------------------------------------------------------------- the whole tracker

  function ClaimHolders(issues: map<string, Entry>, order: seq<string>): (ids: seq<string>)
    requires forall i :: i in order ==> i in issues
    ensures forall i :: i in ids <==> i in order && issues[i].claim.Some?
    ensures forall k :: 0 <= k < |ids| ==> ids[k] in order && ids[k] in issues
  {
    if order == [] then []
    else
      var last := |order| - 1;
      ClaimHolders(issues, order[..last]) + if issues[order[last]].claim.Some? then [order[last]] else []
  }

  function Entries(issues: map<string, Entry>, ids: seq<string>): (entries: seq<Entry>)
    requires forall i :: i in ids ==> i in issues
    ensures |entries| == |ids|
  {
    seq(|ids|, k requires 0 <= k < |ids| => issues[ids[k]])
  }

  // What `activeClaims` returns.
  function ActiveEntries(s: State): (entries: seq<Entry>)
    requires s.Valid()
    ensures forall e :: e in entries ==> e.claim.Some? && e.issue.id in s.issues && e == s.issues[e.issue.id]
  {
    Entries(s.issues, ClaimHolders(s.issues, s.order))
  }

  // What `fetchIssuesByStates(["ready", "retry-wait"])` returns.
  function Waiting(issues: map<string, Entry>, order: seq<string>): (entries: seq<Entry>)
    requires forall i :: i in order ==> i in issues
    ensures forall e :: e in entries <==> exists i :: i in order && issues[i] == e && (e.state == Ready || e.state == RetryWait)
  {
    if order == [] then []
    else
      var last := |order| - 1;
      var e := issues[order[last]];
      Waiting(issues, order[..last]) + if e.state == Ready || e.state == RetryWait then [e] else []
  }

  function FindFence(issues: map<string, Entry>, order: seq<string>, fence: Id): (found: Option<string>)
    requires forall i :: i in order ==> i in issues
    ensures found.Some? ==> found.value in order && issues[found.value].claim.Some? && issues[found.value].claim.value.fence == fence
    ensures found.None? ==> forall i :: i in order && issues[i].claim.Some? ==> issues[i].claim.value.fence != fence
  {
    if order == [] then None
    else
      var claim := issues[order[0]].claim;
      if claim.Some? && claim.value.fence == fence then Some(order[0])
      else FindFence(issues, order[1..], fence)
  }

  // Replace one entry and record a material event for its new state.
  function Record(s: State, id: string, e: Entry, atMs: int): (r: State)
    ensures s.Valid() && id in s.issues && e.issue.id == id ==> r.Valid() && r.order == s.order
  {
    s.(issues := s.issues[id := e.(events := e.events + [MaterialEvent(s.eventSequence + 1, e.state, atMs)])],
       eventSequence := s.eventSequence + 1)
  }

  function Seed(s: State, issue: IssueInfo, contract: Contract, state: LifecycleState, baseSha: string): Outcome<State> {
    if issue.id in s.issues then Throws(DuplicateIssue)
    else
      var first := MaterialEvent(s.eventSequence + 1, state, 0);
      var e := Entry(issue, contract, state, 1, baseSha, None, None, map[], [first]);
      Ok(State(s.issues[issue.id := e], s.order + [issue.id], s.eventSequence + 1, s.claimSuccessCount))
  }

  ghost predicate CanClaim(s: State, issueId: string, expectedVersion: int, proposed: Domain.Claim, nowMs: int) {
    && issueId in s.issues
    && Claimable(s.issues[issueId], issueId, expectedVersion, proposed, nowMs)
    && forall i :: i in s.issues ==> s.issues[i].claim.None?
  }

  ghost function TryClaim(s: State, issueId: string, expectedVersion: int, proposed: Domain.Claim, nowMs: int): (r: State)
    requires s.Valid()
    ensures r.Valid() && r.order == s.order
  {
    if CanClaim(s, issueId, expectedVersion, proposed, nowMs)
    then Record(s, issueId, TakeClaim(s.issues[issueId], proposed), nowMs).(claimSuccessCount := s.claimSuccessCount + 1)
    else s
  }

  // The three calls that address an entry by the fence of its claim.
  datatype FenceCall =
    | MarkRunning(nowMs: int)
    | Heartbeat(nowMs: int, ttlMs: int)
    | FailClaim(failureClass: FailureClass, reason: string, nowMs: int, policy: RetryPolicy)

  function Apply(e: Entry, call: FenceCall): Outcome<Entry>
    requires e.claim.Some?
  {
    match call
    case MarkRunning(nowMs) => Start(e, nowMs)
    case Heartbeat(nowMs, ttlMs) => Ok(Beat(e, nowMs, ttlMs))
    case FailClaim(failureClass, reason, nowMs, policy) => Fail(e, failureClass, reason, nowMs, policy)
  }

  // A heartbeat is not a material event.
  function CallOnFence(s: State, fence: Id, call: FenceCall): (r: Outcome<State>)
    requires s.Valid()
    ensures r.Ok? ==> r.value.Valid() && r.value.order == s.order
  {
    match FindFence(s.issues, s.order, fence)
    case None => Throws(UnknownFence)
    case Some(id) =>
      match Apply(s.issues[id], call)
      case Throws(why) => Throws(why)
      case Ok(e) =>
        if call.Heartbeat? then Ok(s.(issues := s.issues[id := e])) else Ok(Record(s, id, e, call.nowMs))
  }

  function Transition(s: State, issueId: string, to: LifecycleState, nowMs: int, fence: Option<Id>, evidence: Evidence):
      (r: Outcome<State>)
    requires s.Valid()
    ensures r.Ok? ==> r.value.Valid() && r.value.order == s.order
  {
    if issueId !in s.issues then Throws(UnknownIssue)
    else match Move(s.issues[issueId], to, fence, evidence)
      case Throws(why) => Throws(why)
      case Ok(e) => Ok(Record(s, issueId, e, nowMs))
  }

  function After(s: State, result: Outcome<State>): State {
    if result.Ok? then result.value else s
  }

  // ---------------------------------------------------------------- the adapter object

  class FakeGitHubAdapter {
    var issues: map<string, Entry>
    var order: seq<string>
    var eventSequence: nat
    var claimSuccessCount: nat

    ghost function View(): State
      reads this
    {
      State(issues, order, eventSequence, claimSuccessCount)
    }

    ghost predicate Valid()
      reads this
    {
      View().Valid()
    }

    constructor ()
      ensures Valid() && View() == State(map[], [], 0, 0)
    {
      issues, order, eventSequence, claimSuccessCount := map[], [], 0, 0;
    }

    method SeedIssue(issue: IssueInfo, contract: Contract, state: LifecycleState, baseSha: string) returns (ok: bool)
      requires Valid()
      modifies this
      ensures Valid()
      ensures var r := Seed(old(View()), issue, contract, state, baseSha);
        ok == r.Ok? && View() == (if r.Ok? then r.value else old(View()))
    {
      if issue.id in issues {
        return false;
      }
      eventSequence := eventSequence + 1;
      issues := issues[issue.id := Entry(issue, contract, state, 1, baseSha, None, None, map[],
                                         [MaterialEvent(eventSequence, state, 0)])];
      order := order + [issue.id];
      ok := true;
    }

    method ActiveClaims() returns (active: seq<Entry>)
      requires Valid()
      ensures active == ActiveEntries(View())
    {
      active := [];
      for i := 0 to |order|
        invariant var done := ClaimHolders(issues, order[..i]);
          |active| == |done| && forall k :: 0 <= k < |active| ==> active[k] == issues[done[k]]
      {
        HoldersStep(issues, order, i);
        if issues[order[i]].claim.Some? {
          active := active + [issues[order[i]]];
        }
      }
      assert order[..|order|] == order;
    }

    method FetchWaiting() returns (waiting: seq<Entry>)
      requires Valid()
      ensures waiting == Waiting(issues, order)
    {
      waiting := [];
      for i := 0 to |order|
        invariant waiting == Waiting(issues, order[..i])
      {
        assert order[..i + 1][..i] == order[..i];
        var e := issues[order[i]];
        if e.state == Ready || e.state == RetryWait {
          waiting := waiting + [e];
        }
      }
      assert order[..|order|] == order;
    }

    method MayClaim(issueId: string, expectedVersion: int, proposed: Domain.Claim, nowMs: int) returns (ok: bool)
      requires Valid()
      ensures ok <==> CanClaim(View(), issueId, expectedVersion, proposed, nowMs)
    {
      if issueId !in issues || issues[issueId].version != expectedVersion || issues[issueId].claim.Some? {
        return false;
      }
      var active := ActiveClaims();
      if |active| >= 1 {
        assert issues[active[0].issue.id].claim.Some?;
        return false;
      }
      var entry := issues[issueId];
      if entry.state != Ready && entry.state != RetryWait {
        return false;
      }
      if entry.state == RetryWait && (entry.retry.None? || entry.retry.value.dueAtMs > nowMs) {
        return false;
      }
      ok := proposed.issueId == issueId
            && proposed.attempt == (if entry.retry.Some? then entry.retry.value.attempt else 1);
    }

    method TryClaimIssue(issueId: string, expectedVersion: int, proposed: Domain.Claim, nowMs: int)
      returns (claimed: Option<Entry>)
      requires Valid()
      modifies this
      ensures Valid() && order == old(order)
      ensures View() == TryClaim(old(View()), issueId, expectedVersion, proposed, nowMs)
      ensures claimed.Some? <==> CanClaim(old(View()), issueId, expectedVersion, proposed, nowMs)
      ensures claimed.Some? ==> claimed.value == issues[issueId]
    {
      var ok := MayClaim(issueId, expectedVersion, proposed, nowMs);
      if !ok {
        return None;
      }
      TakeEntry(issueId, proposed, nowMs);
      claimed := Some(issues[issueId]);
    }

    method TakeEntry(issueId: string, proposed: Domain.Claim, nowMs: int)
      requires Valid() && issueId in issues
      modifies this
      ensures Valid() && issueId in issues && order == old(order)
      ensures View() == Record(old(View()), issueId, TakeClaim(old(issues)[issueId], proposed), nowMs)
                          .(claimSuccessCount := old(claimSuccessCount) + 1)
    {
      hide TakeClaim;
      var entry := TakenEntry(issues[issueId], proposed);
      claimSuccessCount := claimSuccessCount + 1;
      RecordEvent(issueId, entry, nowMs);
    }

    method TakenEntry(e: Entry, proposed: Domain.Claim) returns (entry: Entry)
      ensures entry == TakeClaim(e, proposed) && entry.issue == e.issue
    {
      entry := e.(state := Claimed, claim := Some(proposed), retry := None);
      entry := entry.(version := entry.version + 1);
    }

    method MarkClaimRunning(fence: Id, nowMs: int) returns (threw: bool)
      requires Valid()
      modifies this
      ensures Valid() && order == old(order)
      ensures var r := CallOnFence(old(View()), fence, MarkRunning(nowMs));
        threw == r.Throws? && View() == After(old(View()), r)
    {
      var found := FindFence(issues, order, fence);
      if found.None? || !Legal(issues[found.value].state, Running) {
        return true;
      }
      var entry := StartedEntry(issues[found.value], nowMs);
      RecordEvent(found.value, entry, nowMs);
      threw := false;
    }

    method StartedEntry(e: Entry, nowMs: int) returns (entry: Entry)
      requires e.claim.Some? && Legal(e.state, Running)
      ensures Start(e, nowMs) == Ok(entry)
    {
      var claim := e.claim.value;
      entry := e.(state := Running);
      claim := claim.(heartbeatAtMs := nowMs);
      claim := claim.(expiresAtMs := nowMs + (claim.expiresAtMs - claim.claimedAtMs));
      entry := entry.(claim := Some(claim), version := entry.version + 1);
    }

    method HeartbeatClaim(fence: Id, nowMs: int, ttlMs: int) returns (threw: bool)
      requires Valid()
      modifies this
      ensures Valid() && order == old(order)
      ensures var r := CallOnFence(old(View()), fence, Heartbeat(nowMs, ttlMs));
        threw == r.Throws? && View() == After(old(View()), r)
    {
      var found := FindFence(issues, order, fence);
      if found.None? {
        return true;
      }
      var entry := issues[found.value];
      entry := entry.(claim := Some(entry.claim.value.(heartbeatAtMs := nowMs, expiresAtMs := nowMs + ttlMs)));
      issues := issues[found.value := entry.(version := entry.version + 1)];
      threw := false;
    }

    method FailActiveClaim(fence: Id, failureClass: FailureClass, reason: string, nowMs: int, policy: RetryPolicy)
      returns (threw: bool)
      requires Valid()
      modifies this
      ensures Valid() && order == old(order)
      ensures var r := CallOnFence(old(View()), fence, FailClaim(failureClass, reason, nowMs, policy));
        threw == r.Throws? && View() == After(old(View()), r)
    {
      var found := FindFence(issues, order, fence);
      if found.None? {
        return true;
      }
      var failed := FailedEntry(issues[found.value], failureClass, reason, nowMs, policy);
      if failed.Throws? {
        return true;
      }
      RecordEvent(found.value, failed.value, nowMs);
      threw := false;
    }

    method FailedEntry(e: Entry, failureClass: FailureClass, reason: string, nowMs: int, policy: RetryPolicy)
      returns (failed: Outcome<Entry>)
      requires e.claim.Some?
      ensures failed == Fail(e, failureClass, reason, nowMs, policy)
    {
      var claim := e.claim.value;
      var retryable := IsRetryable(failureClass) && claim.attempt < policy.maxAttempts;
      var nextState := if retryable then RetryWait else Failed;
      if !Legal(e.state, nextState) {
        return Throws(IllegalMove);
      }
      var entry := e.(state := nextState, claim := None);
      if retryable {
        var delay := RetryDelay(policy, claim.attempt);
        entry := entry.(retry := Some(Retry(claim.attempt + 1, nowMs + delay, failureClass, reason)));
      } else {
        entry := entry.(retry := None);
      }
      failed := Ok(entry.(version := entry.version + 1));
    }

    method TransitionIssue(issueId: string, to: LifecycleState, nowMs: int, fence: Option<Id>, evidence: Evidence)
      returns (threw: bool)
      requires Valid()
      modifies this
      ensures Valid() && order == old(order)
      ensures var r := Transition(old(View()), issueId, to, nowMs, fence, evidence);
        threw == r.Throws? && View() == After(old(View()), r)
    {
      if issueId !in issues {
        return true;
      }
      var moved := Move(issues[issueId], to, fence, evidence);
      if moved.Throws? {
        return true;
      }
      RecordEvent(issueId, moved.value, nowMs);
      threw := false;
    }

    method RecordEvent(id: string, entry: Entry, atMs: int)
      requires Valid() && id in issues && entry.issue.id == id
      modifies this`issues, this`eventSequence
      ensures Valid()
      ensures View() == Record(old(View()), id, entry, atMs)
    {
      hide State.Valid;
      ghost var recorded := Record(View(), id, entry, atMs);
      eventSequence := eventSequence + 1;
      issues := issues[id := entry.(events := entry.events + [MaterialEvent(eventSequence, entry.state, atMs)])];
    }
  }

  lemma HoldersStep(issues: map<string, Entry>, order: seq<string>, i: nat)
    requires forall k :: k in order ==> k in issues
    requires i < |order|
    ensures ClaimHolders(issues, order[..i + 1])
         == ClaimHolders(issues, order[..i]) + if issues[order[i]].claim.Some? then [order[i]] else []
  {
    assert order[..i + 1][..i] == order[..i];
  }
}
