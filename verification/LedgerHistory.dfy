/** What an issue's log means, comment by comment: the state, claim, retry and evidence on
    record are those of the last comment that won, every win does to the issue what its call
    says, and the proof a state needs is on record whenever the issue got there.
 */
module LedgerHistory {
  import opened Domain
  import opened Wrappers
  import opened IssueLedger

  // The fold of the first n comments of a run.
  function At(issue: Issue, run: seq<Turn>, n: nat): Folded
    requires run != [] && n <= |run|
  {
    Hydrate(issue, run[0].event.from, Log(run)[..n])
  }

  predicate Wins(run: seq<Turn>, i: nat)
    requires i < |run|
  {
    First(Log(run), i)
  }

  // ---------------------------------------------------------------- one comment

  lemma FirstSawBaseline(issue: Issue, run: seq<Turn>)
    requires Run(issue, run) && run != []
    ensures run[0].event.from == run[0].projected
  {
    var t := run[0];
    assert WellWritten(issue, run, 0);
    assert Log(run)[..t.readAt] == [];
    assert t.event.from == Overlay(View(issue, run, t).snapshot, t.provider).state;
  }

  // The fold of a prefix is a fold of the run up to there.
  lemma PrefixAt(issue: Issue, run: seq<Turn>, n: nat)
    requires Run(issue, run) && WinnersLawful(issue, run) && run != [] && n <= |run|
    ensures Run(issue, run[..n]) && WinnersLawful(issue, run[..n]) && Log(run[..n]) == Log(run)[..n]
    ensures Settled(At(issue, run, n), Log(run)[..n])
  {
    RunPrefix(issue, run, n);
    if n == 0 {
      FirstSawBaseline(issue, run);
      assert WellWritten(issue, run, 0);
      assert Log(run)[..run[0].readAt] == [] == Log(run)[..0];
      assert View(issue, run, run[0]).Folded?;
    }
    CasLinearizable(issue, run[..n], run[0].event.from);
  }

  /** The writer of a winning comment had read the issue as it stood just before; any other
      comment changes nothing. */
  lemma WinnerSawTheIssue(issue: Issue, run: seq<Turn>, i: nat)
    requires Run(issue, run) && WinnersLawful(issue, run) && i < |run|
    ensures At(issue, run, i).Folded? && At(issue, run, i + 1).Folded?
    ensures var s, t := At(issue, run, i).snapshot, run[i];
      if Wins(run, i) then
        && t.provider.Keys <= PROVIDER_FIELDS
        && Write(Overlay(s, t.provider), t.provider, t.intent) == Some(t.event)
        && Reduce(s, t.event, i + 1) == Accepted(At(issue, run, i + 1).snapshot)
      else At(issue, run, i + 1).snapshot == s
  {
    hide Reduce, Write, Fold;
    var prefix := run[..i + 1];
    var p := run[0].event.from;
    FirstSawBaseline(issue, run);
    PrefixAt(issue, run, i);
    PrefixAt(issue, run, i + 1);
    assert WellWritten(issue, prefix, i);
    assert Log(prefix)[..i] == Log(run)[..i];
    assert Seen(prefix, i, p) == p;
    LastTurn(issue, prefix, i, p);
    RunPrefix(issue, run, i + 1);
    var before := At(issue, run, i);
    assert At(issue, run, i + 1) == Extend(before, run[i].event, i);
    ExtendSettles(before, Log(prefix), i);
    ReduceOutcome(before.snapshot, run[i].event, i + 1);
    if Wins(run, i) {
      assert First(Log(prefix), i);
    } else {
      assert !First(Log(prefix), i);
    }
  }

  // What a winning comment puts on record.
  predicate OnRecord(s: Snapshot, e: LedgerEvent, i: nat) {
    && s.state == e.to && s.claim == e.claim && s.retry == e.retry && s.evidence == e.evidence
    && s.version == e.expectedVersion + 1
    && 0 < |s.events| == s.version && s.events[|s.events| - 1] == MaterialEvent(i + 1, e.to, e.atMs)
  }

  /** After a winning comment the issue is exactly as that comment says. */
  lemma WinnerOnRecord(issue: Issue, run: seq<Turn>, i: nat)
    requires Run(issue, run) && WinnersLawful(issue, run) && i < |run| && Wins(run, i)
    ensures At(issue, run, i + 1).Folded? && OnRecord(At(issue, run, i + 1).snapshot, run[i].event, i)
  {
    hide Write;
    WinnerSawTheIssue(issue, run, i);
    PrefixAt(issue, run, i + 1);
  }

  lemma {:induction false} QuietStretch(issue: Issue, run: seq<Turn>, m: nat, n: nat)
    requires Run(issue, run) && WinnersLawful(issue, run) && run != [] && m <= n <= |run|
    requires forall i :: m <= i < n ==> !Wins(run, i)
    ensures At(issue, run, m).Folded? && At(issue, run, n).Folded? && At(issue, run, n).snapshot == At(issue, run, m).snapshot
    decreases n
  {
    hide Write, Reduce, Wins;
    PrefixAt(issue, run, m);
    if m < n {
      QuietStretch(issue, run, m, n - 1);
      WinnerSawTheIssue(issue, run, n - 1);
    }
  }

  /** The folded issue is what its last winning comment says: state, claim, retry, evidence
      and version, whatever was appended by losers since. */
  lemma FoldIsLastWinner(issue: Issue, run: seq<Turn>, w: nat, n: nat)
    requires Run(issue, run) && WinnersLawful(issue, run) && w < n <= |run| && Wins(run, w)
    requires forall i :: w < i < n ==> !Wins(run, i)
    ensures At(issue, run, n).Folded? && OnRecord(At(issue, run, n).snapshot, run[w].event, w)
  {
    hide OnRecord, Wins;
    WinnerOnRecord(issue, run, w);
    QuietStretch(issue, run, w + 1, n);
  }

  // ---------------------------------------------------------------- what each call does

  // The issue before and after a winning call, provider facts included.
  predicate Effect(s: Snapshot, t: Snapshot, intent: Intent, provider: Evidence) {
    match intent
    case TryClaim(expectedVersion, proposed, nowMs) =>
      && s.version == expectedVersion && s.claim.None?
      && (s.state == Ready || (s.state == RetryWait && s.retry.Some? && s.retry.value.dueAtMs <= nowMs))
      && proposed.issueId == s.issue.id && proposed.issueIdentifier == s.issue.identifier
      && proposed.attempt == (if s.retry.Some? then s.retry.value.attempt else 1)
      && t.state == Claimed && t.claim == Some(proposed) && t.retry.None? && t.evidence == s.evidence + provider
    case MarkRunning(fence, nowMs) =>
      && s.state == Claimed && s.claim.Some? && s.claim.value.fence == fence
      && t.state == Running && t.claim == Some(s.claim.value.(heartbeatAtMs := nowMs)) && t.retry.None?
      && t.evidence == s.evidence + provider
    case Heartbeat(fence, nowMs, ttlMs) =>
      && s.claim.Some? && s.claim.value.fence == fence
      && t.state == s.state && t.claim == Some(s.claim.value.(heartbeatAtMs := nowMs, expiresAtMs := nowMs + ttlMs))
      && t.retry == s.retry && t.evidence == s.evidence + provider
    case FailClaim(fence, failureClass, reason, nowMs, policy) =>
      && s.claim.Some? && s.claim.value.fence == fence && t.claim.None? && t.evidence == s.evidence + provider
      && (if IsRetryable(failureClass) && s.claim.value.attempt < policy.maxAttempts then
            && t.state == RetryWait
            && t.retry == Some(Retry(s.claim.value.attempt + 1, nowMs + RetryDelay(policy, s.claim.value.attempt),
                                     failureClass, reason))
          else t.state == Failed && t.retry.None?)
    case Transition(to, nowMs, fence, evidence, _) =>
      && (s.claim.Some? ==> fence == Some(s.claim.value.fence))
      && t.state == to && t.retry == s.retry
      && t.claim == (if to in {Done, Failed, Cancelled, PreservationUnknown, Blocked} then None else s.claim)
      && (forall f :: f in t.evidence <==> f in s.evidence || f in provider || (f in evidence && f !in PROVIDER_FIELDS))
      && (forall f :: f in t.evidence ==> (t.evidence[f] ==
            if f in provider then provider[f] else if f in evidence && f !in PROVIDER_FIELDS then evidence[f] else s.evidence[f]))
  }

  /** Every winning comment does to the issue what its call says, and nothing else does
      anything. */
  lemma CallHasItsEffect(issue: Issue, run: seq<Turn>, i: nat)
    requires Run(issue, run) && WinnersLawful(issue, run) && i < |run|
    ensures At(issue, run, i).Folded? && At(issue, run, i + 1).Folded?
    ensures var s, t := At(issue, run, i).snapshot, At(issue, run, i + 1).snapshot;
      if Wins(run, i) then Effect(s, t, run[i].intent, run[i].provider) && t.issue == s.issue && t.version == s.version + 1
      else t == s
  {
    WinnerSawTheIssue(issue, run, i);
    if Wins(run, i) {
      EffectOf(At(issue, run, i).snapshot, run[i].provider, run[i].intent, i + 1);
    }
  }

  lemma EffectOf(s: Snapshot, provider: Evidence, intent: Intent, sequence: nat)
    requires provider.Keys <= PROVIDER_FIELDS && Write(Overlay(s, provider), provider, intent).Some?
    requires Reduce(s, Write(Overlay(s, provider), provider, intent).value, sequence).Accepted?
    ensures Effect(s, Reduce(s, Write(Overlay(s, provider), provider, intent).value, sequence).next, intent, provider)
  {
    hide OperationAllows, EvidenceAllows, RetryDelay, Legal;
  }

  // ---------------------------------------------------------------- evidence

  // The proof that being in a state takes.
  predicate Proof(to: LifecycleState, evidence: Evidence) {
    && (to == PrOpen ==> Has(evidence, PrUrl))
    && (to == OwnerGate ==> Has(evidence, OwnerGateId))
    && (to == Merged ==> Has(evidence, PrUrl) && Has(evidence, MergedAt) && Has(evidence, MergeCommitSha))
    && (to == Deployed ==> Has(evidence, DeploymentUrl))
  }

  /** Whenever a transition wins, the proof of the new state is on record; a high-risk issue
      is merged only from the owner gate, and an issue that has to be deployed is done only
      once it was. */
  lemma TransitionIsProven(issue: Issue, run: seq<Turn>, i: nat)
    requires Run(issue, run) && WinnersLawful(issue, run) && i < |run| && Wins(run, i) && run[i].intent.Transition?
    ensures At(issue, run, i).Folded? && At(issue, run, i + 1).Folded?
    ensures var s, t := At(issue, run, i).snapshot, At(issue, run, i + 1).snapshot;
      && t.state == run[i].intent.to && Proof(t.state, t.evidence) && Legal(s.state, t.state)
      && (t.state == Merged && issue.risk == HighRisk ==> s.state == OwnerGate)
      && (t.state == Done && issue.deploy != NoDeploy ==> s.state == Deployed)
  {
    WinnerSawTheIssue(issue, run, i);
    PrefixAt(issue, run, i);
    HydrateKeepsIssue(issue, run[0].event.from, Log(run)[..i]);
    ProvenStep(At(issue, run, i).snapshot, run[i].provider, run[i].intent, i + 1);
  }

  lemma ProvenStep(s: Snapshot, provider: Evidence, intent: Intent, sequence: nat)
    requires provider.Keys <= PROVIDER_FIELDS && intent.Transition? && Write(Overlay(s, provider), provider, intent).Some?
    requires Reduce(s, Write(Overlay(s, provider), provider, intent).value, sequence).Accepted?
    ensures var t := Reduce(s, Write(Overlay(s, provider), provider, intent).value, sequence).next;
      && t.state == intent.to && Proof(t.state, t.evidence) && Legal(s.state, t.state)
      && (t.state == Merged && s.issue.risk == HighRisk ==> s.state == OwnerGate)
      && (t.state == Done && s.issue.deploy != NoDeploy ==> s.state == Deployed)
  {
    hide Legal;
  }

  // Once named, the owner gate stays the one it is; and nothing waits for the owner unnamed.
  predicate GateKept(s: Snapshot, t: Snapshot) {
    && (Has(s.evidence, OwnerGateId) ==> OwnerGateId in t.evidence && t.evidence[OwnerGateId] == s.evidence[OwnerGateId])
    && ((s.state == OwnerGate ==> Has(s.evidence, OwnerGateId)) ==> (t.state == OwnerGate ==> Has(t.evidence, OwnerGateId)))
  }

  lemma GateStep(s: Snapshot, provider: Evidence, intent: Intent, sequence: nat)
    requires provider.Keys <= PROVIDER_FIELDS && Write(Overlay(s, provider), provider, intent).Some?
    requires Reduce(s, Write(Overlay(s, provider), provider, intent).value, sequence).Accepted?
    ensures GateKept(s, Reduce(s, Write(Overlay(s, provider), provider, intent).value, sequence).next)
  {
    hide Legal;
  }

  lemma AtIsFolded(issue: Issue, run: seq<Turn>, n: nat)
    requires run != [] && n <= |run| && Settled(At(issue, run, n), Log(run)[..n])
    ensures At(issue, run, n).Folded?
  {
  }

  lemma BaselineNamesGate(issue: Issue, run: seq<Turn>)
    requires run != [] && At(issue, run, 0).Folded?
    ensures var s := At(issue, run, 0).snapshot; s.state == OwnerGate ==> Has(s.evidence, OwnerGateId)
  {
    assert Log(run)[..0] == [];
  }

  /** The owner gate named in the evidence after m comments is the same after every longer
      log, and an issue that waits at the gate names it. */
  lemma {:induction false} GateNeverChanges(issue: Issue, run: seq<Turn>, m: nat, n: nat)
    requires Run(issue, run) && WinnersLawful(issue, run) && run != [] && m <= n <= |run|
    ensures At(issue, run, m).Folded? && At(issue, run, n).Folded?
    ensures var s, t := At(issue, run, m).snapshot, At(issue, run, n).snapshot;
      && (Has(s.evidence, OwnerGateId) ==> OwnerGateId in t.evidence && t.evidence[OwnerGateId] == s.evidence[OwnerGateId])
      && (t.state == OwnerGate ==> Has(t.evidence, OwnerGateId))
    decreases n
  {
    hide Write, Reduce, Wins, Fold, Hydrate, Settled;
    PrefixAt(issue, run, m);
    PrefixAt(issue, run, n);
    AtIsFolded(issue, run, m);
    AtIsFolded(issue, run, n);
    if n == 0 {
      BaselineNamesGate(issue, run);
    } else {
      GateNeverChanges(issue, run, if m < n then m else n - 1, n - 1);
      WinnerSawTheIssue(issue, run, n - 1);
      if Wins(run, n - 1) {
        GateStep(At(issue, run, n - 1).snapshot, run[n - 1].provider, run[n - 1].intent, n);
      }
    }
  }
}
