/** The adapter's calls on one issue's comments, and the one call that can break its log. */
module LedgerAdapter {
  import opened Domain
  import opened Wrappers
  import opened IssueLedger

  datatype CallResult = NotWritten | Conflict | Committed(snapshot: Snapshot)

  // The log can be explained by honest writers whose winning failure reports are lawful.
  ghost predicate Honest(issue: Issue, log: seq<LedgerEvent>) {
    exists run :: Run(issue, run) && WinnersLawful(issue, run) && Log(run) == log
  }

  lemma ReadbackDecides(issue: Issue, log: seq<LedgerEvent>, at: nat, projected: LifecycleState)
    requires Honest(issue, log) && at < |log|
    ensures var r := Hydrate(issue, projected, log); r.Folded? && (at in r.accepted <==> First(log, at))
  {
    var run :| Run(issue, run) && WinnersLawful(issue, run) && Log(run) == log;
    assert Log(run)[..|run|] == log;
    CommitDecides(issue, run, at, |run|, projected);
  }

  class IssueComments {
    const issue: Issue
    var comments: seq<LedgerEvent>

    constructor (issue: Issue)
      ensures this.issue == issue && comments == []
    {
      this.issue := issue;
      comments := [];
    }

    /** Any of the five calls: read and fold, build one event, append it, read back.
        `meanwhile` is what others append between the read and the append, and `later` what
        they append before the readback.  Among honest writers a call is told it committed
        exactly when no earlier comment asked for the version it had read. */
    method CallAdapter(intent: Intent, projected: LifecycleState, provider: Evidence, meanwhile: seq<LedgerEvent>,
                       later: seq<LedgerEvent>) returns (r: CallResult)
      modifies this
      ensures var view := Hydrate(issue, projected, old(comments));
        var event := if view.Folded? then Write(Overlay(view.snapshot, provider), provider, intent) else None;
        match event
        case None => r == NotWritten && comments == old(comments) + meanwhile
        case Some(e) =>
          && !r.NotWritten?
          && comments == old(comments) + meanwhile + [e] + later
          && (Honest(issue, comments) ==> (r.Committed? <==> First(comments, |old(comments)| + |meanwhile|)))
          && (r.Committed? ==> Hydrate(issue, projected, comments).Folded?
                               && r.snapshot == Hydrate(issue, projected, comments).snapshot)
    {
      var view := HydrateCore(issue, projected, comments);
      comments := comments + meanwhile;
      if view.Broken? {
        return NotWritten;
      }
      var event := Write(Overlay(view.snapshot, provider), provider, intent);
      if event.None? {
        return NotWritten;
      }
      var id: nat := |comments|;
      comments := comments + [event.value];
      comments := comments + later;
      var refreshed := HydrateCore(issue, projected, comments);
      if Honest(issue, comments) {
        ReadbackDecides(issue, comments, id, projected);
      }
      if refreshed.Folded? && id in refreshed.accepted {
        r := Committed(refreshed.snapshot);
      } else {
        r := Conflict;
      }
    }
  }

  // ---------------------------------------------------------------- a log that breaks

  // One more append by a writer that has read everything.
  lemma UpToDateAppend(issue: Issue, run: seq<Turn>, t: Turn)
    requires Run(issue, run) && t.readAt == |run| && t.provider.Keys <= PROVIDER_FIELDS
    requires Hydrate(issue, t.projected, Log(run)).Folded?
    requires Write(Overlay(Hydrate(issue, t.projected, Log(run)).snapshot, t.provider), t.provider, t.intent) == Some(t.event)
    ensures Run(issue, run + [t])
    ensures Hydrate(issue, t.projected, Log(run + [t])) == Extend(Hydrate(issue, t.projected, Log(run)), t.event, |run|)
  {
    var longer := run + [t];
    assert Log(longer)[..|run|] == Log(run);
    forall i: nat | i < |longer| ensures WellWritten(issue, longer, i) {
      if i < |run| {
        assert WellWritten(issue, run, i);
        assert Log(longer)[..run[i].readAt] == Log(run)[..run[i].readAt];
      }
    }
    HydrateStep(issue, longer, |run|, t.projected);
  }

  // A snapshot of an issue that waits for review while its claim is still held.
  predicate InReview(s: Snapshot) {
    s.state == PrOpen && s.claim.Some?
  }

  /** Reporting a retryable failure for an issue that has already been handed over as a pull
      request is appended without complaint, and from then on nobody can read the issue. */
  lemma FailureInReviewBreaksLedger(issue: Issue, run: seq<Turn>, projected: LifecycleState, reason: string, nowMs: nat,
                                    policy: RetryPolicy) returns (t: Turn)
    requires Run(issue, run) && Hydrate(issue, projected, Log(run)).Folded?
    requires InReview(Hydrate(issue, projected, Log(run)).snapshot)
    requires Hydrate(issue, projected, Log(run)).snapshot.claim.value.attempt < policy.maxAttempts
    ensures t.intent.FailClaim? && t.intent.failureClass == Transient && t.intent.policy == policy
    ensures Run(issue, run + [t])
    ensures forall later: seq<LedgerEvent>, p: LifecycleState :: Hydrate(issue, p, Log(run + [t]) + later) == Broken(InvalidEvent)
  {
    var s := Hydrate(issue, projected, Log(run)).snapshot;
    var intent := FailClaim(s.claim.value.fence, Transient, reason, nowMs, policy);
    var event := Write(Overlay(s, map[]), map[], intent).value;
    t := Turn(|run|, projected, map[], intent, event);
    UpToDateAppend(issue, run, t);
    HydrateKeepsIssue(issue, projected, Log(run));
    WriteMatchesReducer(s, map[], intent, |run| + 1);
    forall later: seq<LedgerEvent>, p: LifecycleState ensures Hydrate(issue, p, Log(run + [t]) + later) == Broken(InvalidEvent) {
      StaysBroken(issue, Log(run + [t]), later, projected, p);
    }
  }

  lemma StaysBroken(issue: Issue, log: seq<LedgerEvent>, later: seq<LedgerEvent>, projected: LifecycleState, p: LifecycleState)
    requires log != [] && Hydrate(issue, projected, log).Broken?
    ensures Hydrate(issue, p, log + later) == Hydrate(issue, projected, log)
  {
    assert (log + later)[..|log|] == log;
    if log[0].expectedVersion == 1 && Baseline(issue, log[0].from).Some? {
      FoldStaysBroken(Baseline(issue, log[0].from).value, log + later, |log|);
    }
  }

  function SampleClaim(issue: Issue): Claim {
    Claim(issue.id, issue.identifier, 1, Foreign("fence"), Foreign("session"), Foreign("workspace"), Foreign("key"),
          Foreign("path"), "sha", "profile", 0, 0, 10)
  }

  const PULL_REQUEST: Evidence := map[PrUrl := "a pull request"]

  // Claimed, started, handed over.
  function SampleIntent(issue: Issue, i: nat): Intent {
    if i == 0 then TryClaim(1, SampleClaim(issue), 0)
    else if i == 1 then MarkRunning(Foreign("fence"), 1)
    else Transition(PrOpen, 2, Some(Foreign("fence")), map[], "handed over")
  }

  function SampleState(i: nat): LifecycleState {
    if i == 0 then Ready else if i == 1 then Claimed else if i == 2 then Running else PrOpen
  }

  predicate SampleAt(issue: Issue, i: nat, s: Snapshot) {
    && s.issue == issue && s.version == i + 1 && s.state == SampleState(i) && s.retry.None? && s.evidence == map[]
    && (if i == 0 then s.claim.None? else BindingOf(s.claim) == Some(Binding(SampleClaim(issue))))
  }

  lemma SampleAppend(issue: Issue, run: seq<Turn>) returns (t: Turn)
    requires |run| <= 2 && Run(issue, run) && Hydrate(issue, Ready, Log(run)).Folded?
    requires SampleAt(issue, |run|, Hydrate(issue, Ready, Log(run)).snapshot)
    ensures Run(issue, run + [t]) && Hydrate(issue, Ready, Log(run + [t])).Folded?
    ensures var s := Hydrate(issue, Ready, Log(run + [t])).snapshot;
      if |run| < 2 then SampleAt(issue, |run| + 1, s)
      else InReview(s) && s.claim.value.attempt == 1
  {
    hide Run, Hydrate, Log;
    var s := Hydrate(issue, Ready, Log(run)).snapshot;
    assert s.claim.Some? ==> s.claim.value.fence == Binding(s.claim.value).fence && s.claim.value.attempt == Binding(s.claim.value).attempt;
    var provider: Evidence := if |run| == 2 then PULL_REQUEST else map[];
    var intent := SampleIntent(issue, |run|);
    var event := Write(Overlay(s, provider), provider, intent).value;
    t := Turn(|run|, Ready, provider, intent, event);
    UpToDateAppend(issue, run, t);
    WriteMatchesReducer(s, provider, intent, |run| + 1);
  }

  /** Such a log is reachable for every issue: claim it, start it, hand it over as a pull
      request, report a transient failure. */
  lemma UnlawfulFailureReachable(issue: Issue) returns (run: seq<Turn>)
    ensures Run(issue, run) && |run| == 4 && run[3].intent.FailClaim?
    ensures forall p: LifecycleState :: Hydrate(issue, p, Log(run)) == Broken(InvalidEvent)
  {
    run := [];
    var t := SampleAppend(issue, run);
    run := run + [t];
    t := SampleAppend(issue, run);
    run := run + [t];
    t := SampleAppend(issue, run);
    run := run + [t];
    t := FailureInReviewBreaksLedger(issue, run, Ready, "connection lost", 3, RetryPolicy(2, 1, 1));
    run := run + [t];
    forall p: LifecycleState ensures Hydrate(issue, p, Log(run)) == Broken(InvalidEvent) {
      assert Log(run) + [] == Log(run);
    }
  }
}
