/** What the reducer of an issue's log demands of every comment, whoever wrote it: nothing is
    assumed about the writers here.
 */
module LedgerRules {
  import opened Domain
  import opened Wrappers
  import opened IssueLedger

  // The comment names the holder's fence, or takes a claim nobody holds.
  predicate ByTheHolder(s: Snapshot, e: LedgerEvent) {
    if s.claim.Some? then e.operation != ClaimOp && e.fence == Some(s.claim.value.fence)
    else e.operation == ClaimOp || e.operation == TransitionOp
  }

  // A claim is for this issue and its next attempt; a heartbeat moves nothing but its times.
  predicate BindsRightly(s: Snapshot, e: LedgerEvent) {
    && (e.operation == ClaimOp ==>
          && e.claim.Some? && e.claim.value.issueId == s.issue.id && e.claim.value.issueIdentifier == s.issue.identifier
          && e.claim.value.attempt == (if s.retry.Some? then s.retry.value.attempt else 1)
          && e.fence == Some(e.claim.value.fence) && e.to == Claimed)
    && (e.operation == HeartbeatOp ==>
          e.claim.Some? && s.claim.Some? && e.to == s.state
          && e.claim.value.(heartbeatAtMs := s.claim.value.heartbeatAtMs, expiresAtMs := s.claim.value.expiresAtMs) == s.claim.value)
    && (e.operation == FailureOp ==> e.claim.None? && e.to in {RetryWait, Failed})
    && (e.operation == RunningOp ==> e.claim.Some? && s.state == Claimed && e.to == Running)
  }

  // A transition needs its proof, keeps the gate, and skips neither gate nor deployment.
  predicate ProvesRightly(s: Snapshot, e: LedgerEvent) {
    e.operation == TransitionOp ==>
      && (e.to == PrOpen ==> Has(e.evidence, PrUrl))
      && (e.to == OwnerGate ==> Has(e.evidence, OwnerGateId))
      && (e.to == Merged ==> Has(e.evidence, MergedAt) && Has(e.evidence, MergeCommitSha))
      && (e.to == Merged && s.issue.risk == HighRisk ==> s.state == OwnerGate)
      && (e.to == Deployed ==> Has(e.evidence, DeploymentUrl))
      && (e.to == Done && s.issue.deploy != NoDeploy ==> s.state == Deployed)
      && (Has(s.evidence, OwnerGateId) ==> OwnerGateId in e.evidence && e.evidence[OwnerGateId] == s.evidence[OwnerGateId])
  }

  /** In a log that can be read at all, every comment is for this issue and for no version
      still to come, and the comments that count are exactly those for the version the issue
      had when they came - whoever wrote them, each of these is made from the state the issue
      was in, by the holder of its claim, along the lifecycle, with its proof. */
  lemma EveryCommentObeys(base: Snapshot, log: seq<LedgerEvent>, i: nat)
    requires i < |log| && Fold(base, log).Folded?
    ensures Fold(base, log[..i]).Folded?
    ensures var s, e := Fold(base, log[..i]).snapshot, log[i];
      && e.issueId == s.issue.id && e.expectedVersion <= s.version
      && (i in Fold(base, log).accepted <==> e.expectedVersion == s.version)
      && (i in Fold(base, log).accepted ==>
            && e.from == s.state && 0 <= e.atMs && (e.to == s.state || Legal(s.state, e.to))
            && ByTheHolder(s, e) && BindsRightly(s, e) && ProvesRightly(s, e))
  {
    hide Fold, Reduce, ByTheHolder, BindsRightly, ProvesRightly;
    FoldStep(base, log, i);
    AcceptedInPrefix(base, log, i);
    AcceptedInPrefix(base, log, i + 1);
    AcceptedBefore(base, log[..i]);
    ReducedObeys(Fold(base, log[..i]).snapshot, log[i], i + 1);
  }

  lemma ReducedObeys(s: Snapshot, e: LedgerEvent, sequence: nat)
    ensures !Reduce(s, e, sequence).Corrupt? ==> e.issueId == s.issue.id && e.expectedVersion <= s.version
    ensures Reduce(s, e, sequence).Stale? ==> e.expectedVersion < s.version
    ensures Reduce(s, e, sequence).Accepted? ==>
      && e.expectedVersion == s.version && e.from == s.state && 0 <= e.atMs && (e.to == s.state || Legal(s.state, e.to))
      && ByTheHolder(s, e) && BindsRightly(s, e) && ProvesRightly(s, e)
  {
  }

  lemma {:induction false} AcceptedBefore(base: Snapshot, log: seq<LedgerEvent>)
    ensures Fold(base, log).Folded? ==> forall k :: k in Fold(base, log).accepted ==> k < |log|
  {
    if log != [] {
      AcceptedBefore(base, log[..|log| - 1]);
    }
  }

  // Whether a comment counted does not depend on what comes after it.
  lemma {:induction false} AcceptedInPrefix(base: Snapshot, log: seq<LedgerEvent>, n: nat)
    requires n <= |log| && Fold(base, log).Folded?
    ensures Fold(base, log[..n]).Folded?
    ensures forall k :: k < n ==> (k in Fold(base, log).accepted <==> k in Fold(base, log[..n]).accepted)
    decreases |log|
  {
    if n == |log| {
      assert log[..n] == log;
    } else {
      var front := log[..|log| - 1];
      assert front[..n] == log[..n];
      AcceptedInPrefix(base, front, n);
    }
  }
}
