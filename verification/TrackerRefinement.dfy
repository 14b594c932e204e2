/** The comment ledger refines the in-memory tracker: the comments that win, replayed in
    order as plain tracker calls, take an in-memory entry through the same states.
    Heartbeat and expiry times, provider evidence and event texts are not compared - what the
    caller put on record as evidence is - and the
    tracker's refusal to claim while another issue is claimed is left to the shared fence.
 */
module TrackerRefinement {
  import opened Domain
  import opened Wrappers
  import Ledger = IssueLedger
  import Tracker

  predicate Same(s: Ledger.Snapshot, e: Tracker.Entry) {
    && s.state == e.state
    && s.version == e.version
    && BindingOf(s.claim) == BindingOf(e.claim)
    && s.retry == e.retry
    && s.issue.id == e.issue.id
    && s.issue.risk == e.contract.risk && s.issue.deploy == e.contract.deploy
    && s.evidence - Ledger.PROVIDER_FIELDS == e.evidence - Ledger.PROVIDER_FIELDS
  }

  // A claim is never held while a retry is scheduled.
  predicate ClaimOrRetry(s: Ledger.Snapshot) {
    s.claim.Some? ==> s.retry.None?
  }

  // What a caller may put on record, with what the provider said at that moment.
  function Offered(intent: Ledger.Intent, provider: Evidence): Evidence
    requires intent.Transition?
  {
    (intent.evidence - Ledger.PROVIDER_FIELDS) + provider
  }

  // The in-memory call that corresponds to a ledger call, made on one entry.
  function Call(e: Tracker.Entry, intent: Ledger.Intent, provider: Evidence): Tracker.Outcome<Tracker.Entry> {
    match intent
    case TryClaim(expectedVersion, proposed, nowMs) =>
      if Tracker.Claimable(e, e.issue.id, expectedVersion, proposed, nowMs)
      then Tracker.Ok(Tracker.TakeClaim(e, proposed)) else Tracker.Throws(Tracker.NotClaimable)
    case Transition(to, nowMs, fence, _, _) => Tracker.Move(e, to, fence, Offered(intent, provider))
    case MarkRunning(fence, nowMs) => OnFence(e, fence, Tracker.MarkRunning(nowMs))
    case Heartbeat(fence, nowMs, ttlMs) => OnFence(e, fence, Tracker.Heartbeat(nowMs, ttlMs))
    case FailClaim(fence, failureClass, reason, nowMs, policy) =>
      OnFence(e, fence, Tracker.FailClaim(failureClass, reason, nowMs, policy))
  }

  function OnFence(e: Tracker.Entry, fence: Id, call: Tracker.FenceCall): Tracker.Outcome<Tracker.Entry> {
    if e.claim.Some? && e.claim.value.fence == fence then Tracker.Apply(e, call)
    else Tracker.Throws(Tracker.UnknownFence)
  }

  /** One accepted event is one successful in-memory call. */
  lemma AcceptedEventIsACall(s: Ledger.Snapshot, provider: Evidence, intent: Ledger.Intent, sequence: nat, e: Tracker.Entry)
    requires provider.Keys <= Ledger.PROVIDER_FIELDS
    requires Same(s, e) && ClaimOrRetry(s)
    requires Ledger.Write(Ledger.Overlay(s, provider), provider, intent).Some?
    requires Ledger.Reduce(s, Ledger.Write(Ledger.Overlay(s, provider), provider, intent).value, sequence).Accepted?
    ensures var event := Ledger.Write(Ledger.Overlay(s, provider), provider, intent).value;
      var next := Ledger.Reduce(s, event, sequence).next;
      var called := Call(e, intent, provider);
      called.Ok? && Same(next, called.value) && ClaimOrRetry(next)
  {
    if intent.Transition? {
      AcceptedTransitionIsACall(s, provider, intent, sequence, e);
    } else {
      SameFence(s, e);
    }
  }

  lemma SameFence(s: Ledger.Snapshot, e: Tracker.Entry)
    requires Same(s, e)
    ensures s.claim.Some? <==> e.claim.Some?
    ensures s.claim.Some? ==> s.claim.value.fence == e.claim.value.fence && s.claim.value.attempt == e.claim.value.attempt
  {
    assert s.claim.Some? ==> s.claim.value.fence == Binding(s.claim.value).fence
                             && s.claim.value.attempt == Binding(s.claim.value).attempt;
    assert e.claim.Some? ==> e.claim.value.fence == Binding(e.claim.value).fence
                             && e.claim.value.attempt == Binding(e.claim.value).attempt;
  }

  lemma AcceptedTransitionIsACall(s: Ledger.Snapshot, provider: Evidence, intent: Ledger.Intent, sequence: nat,
                                  e: Tracker.Entry)
    requires intent.Transition? && provider.Keys <= Ledger.PROVIDER_FIELDS
    requires Same(s, e) && ClaimOrRetry(s)
    requires Ledger.Write(Ledger.Overlay(s, provider), provider, intent).Some?
    requires Ledger.Reduce(s, Ledger.Write(Ledger.Overlay(s, provider), provider, intent).value, sequence).Accepted?
    ensures var event := Ledger.Write(Ledger.Overlay(s, provider), provider, intent).value;
      var next := Ledger.Reduce(s, event, sequence).next;
      var called := Call(e, intent, provider);
      called.Ok? && Same(next, called.value) && ClaimOrRetry(next)
  {
    SameFence(s, e);
    SameRecord(s, provider, intent, e);
    MoveAllowed(s, provider, intent, e);
  }

  // What the caller puts on record ends up the same on both sides.
  lemma SameRecord(s: Ledger.Snapshot, provider: Evidence, intent: Ledger.Intent, e: Tracker.Entry)
    requires intent.Transition? && provider.Keys <= Ledger.PROVIDER_FIELDS && Same(s, e)
    ensures var written := Ledger.Overlay(s, provider).evidence + (intent.evidence - Ledger.PROVIDER_FIELDS) + provider;
      var merged := e.evidence + Offered(intent, provider);
      && written - Ledger.PROVIDER_FIELDS == merged - Ledger.PROVIDER_FIELDS
      && (forall f :: f !in Ledger.PROVIDER_FIELDS ==> (Has(written, f) <==> Has(merged, f)))
      && (forall f :: Has(provider, f) ==> Has(merged, f))
  {
    SameOutside(s.evidence, e.evidence, intent.evidence, provider, Ledger.PROVIDER_FIELDS);
  }

  lemma SameOutside(a: Evidence, b: Evidence, c: Evidence, provider: Evidence, p: set<EvidenceField>)
    requires provider.Keys <= p && a - p == b - p
    ensures var written, merged := a + provider + (c - p) + provider, b + ((c - p) + provider);
      && written - p == merged - p
      && (forall f :: f !in p ==> (Has(written, f) <==> Has(merged, f)))
      && (forall f :: Has(provider, f) ==> Has(merged, f))
  {
    var written, merged := a + provider + (c - p) + provider, b + ((c - p) + provider);
    forall f | f !in p ensures (f in written <==> f in merged) && (f in written ==> written[f] == merged[f]) {
      assert f in a <==> f in a - p;
      assert f in b <==> f in b - p;
      assert f in a ==> (a - p)[f] == (b - p)[f];
    }
  }

  lemma MoveAllowed(s: Ledger.Snapshot, provider: Evidence, intent: Ledger.Intent, e: Tracker.Entry)
    requires intent.Transition? && provider.Keys <= Ledger.PROVIDER_FIELDS && Same(s, e)
    requires Ledger.Write(Ledger.Overlay(s, provider), provider, intent).Some?
    ensures Tracker.Move(e, intent.to, intent.claimFence, Offered(intent, provider)).Ok?
  {
    hide Has, Legal, Binding, Ledger.Write, Tracker.Move;
    TransitionExactly(s, provider, intent, e);
  }

  // The winning calls of a run, replayed on an in-memory entry.
  function Replay(seed: Tracker.Entry, run: seq<Ledger.Turn>): Tracker.Outcome<Tracker.Entry> {
    if run == [] then Tracker.Ok(seed)
    else
      var last := |run| - 1;
      match Replay(seed, run[..last])
      case Throws(why) => Tracker.Throws(why)
      case Ok(e) =>
        if Ledger.First(Ledger.Log(run), last) then Call(e, run[last].intent, run[last].provider)
        else Tracker.Ok(e)
  }

  predicate FreshEntry(issue: Ledger.Issue, state: LifecycleState, e: Tracker.Entry) {
    && e.state == state && e.version == 1 && e.claim.None? && e.retry.None?
    && e.issue.id == issue.id && e.contract.risk == issue.risk && e.contract.deploy == issue.deploy
    && e.evidence == if state == OwnerGate && issue.gate.Some? then map[OwnerGateId := issue.gate.value] else map[]
  }

  /** Any interleaved run of the ledger is a run of the in-memory tracker: replaying just
      the winners succeeds at every step and ends in the state, version, claim identity, retry
      and recorded evidence that the ledger folds to. */
  lemma {:induction false} LedgerRefinesTracker(issue: Ledger.Issue, run: seq<Ledger.Turn>, projected: LifecycleState,
                                                seed: Tracker.Entry)
    requires Ledger.Run(issue, run) && Ledger.WinnersLawful(issue, run)
    requires run == [] ==> Ledger.Baseline(issue, projected).Some?
    requires FreshEntry(issue, if run == [] then projected else run[0].event.from, seed)
    ensures var folded := Ledger.Hydrate(issue, projected, Ledger.Log(run));
      var replayed := Replay(seed, run);
      folded.Folded? && replayed.Ok? && Same(folded.snapshot, replayed.value) && ClaimOrRetry(folded.snapshot)
    decreases |run|
  {
    if run != [] {
      var last := |run| - 1;
      var p := Ledger.Seen(run, last, projected);
      assert Ledger.WellWritten(issue, run, last);
      Ledger.RunPrefix(issue, run, last);
      if last == 0 {
        FirstEventNamesBaseline(issue, run);
      }
      LedgerRefinesTracker(issue, run[..last], p, seed);
      RefinementStep(issue, run, last, projected, seed);
    }
  }

  lemma FirstEventNamesBaseline(issue: Ledger.Issue, run: seq<Ledger.Turn>)
    requires Ledger.Run(issue, run) && |run| == 1
    ensures run[0].event.from == run[0].projected && Ledger.Baseline(issue, run[0].projected).Some?
  {
    var t := run[0];
    assert Ledger.WellWritten(issue, run, 0);
    assert Ledger.Log(run)[..t.readAt] == [];
    var s := Ledger.View(issue, run, t).snapshot;
    assert t.event.from == Ledger.Overlay(s, t.provider).state;
  }

  lemma RefinementStep(issue: Ledger.Issue, run: seq<Ledger.Turn>, last: nat, projected: LifecycleState,
                       seed: Tracker.Entry)
    requires Ledger.Run(issue, run) && Ledger.WinnersLawful(issue, run) && last + 1 == |run|
    requires last == 0 ==> Ledger.Baseline(issue, run[0].projected).Some?
    requires var before := Ledger.Hydrate(issue, Ledger.Seen(run, last, projected), Ledger.Log(run)[..last]);
      var replayed := Replay(seed, run[..last]);
      before.Folded? && replayed.Ok? && Same(before.snapshot, replayed.value) && ClaimOrRetry(before.snapshot)
    ensures var folded := Ledger.Hydrate(issue, projected, Ledger.Log(run));
      var replayed := Replay(seed, run);
      folded.Folded? && replayed.Ok? && Same(folded.snapshot, replayed.value) && ClaimOrRetry(folded.snapshot)
  {
    var p := Ledger.Seen(run, last, projected);
    var t := run[last];
    assert Ledger.WellWritten(issue, run, last);
    Ledger.RunPrefix(issue, run, last);
    Ledger.CasLinearizable(issue, run[..last], p);
    Ledger.LastTurn(issue, run, last, projected);
    assert Ledger.First(Ledger.Log(run), last) ==> Ledger.LawfulTurn(issue, run, last);
    LastStep(Ledger.Hydrate(issue, p, Ledger.Log(run)[..last]), Ledger.View(issue, run, t).snapshot,
             Ledger.Log(run), t, last, Replay(seed, run[..last]).value, Ledger.LawfulTurn(issue, run, last));
  }

  lemma LastStep(before: Ledger.Folded, view: Ledger.Snapshot, log: seq<Ledger.LedgerEvent>, t: Ledger.Turn, last: nat,
                 e: Tracker.Entry, lawful: bool)
    requires last + 1 == |log| && log[last] == t.event && Ledger.Settled(before, log[..last])
    requires t.provider.Keys <= Ledger.PROVIDER_FIELDS
    requires Ledger.Write(Ledger.Overlay(view, t.provider), t.provider, t.intent) == Some(t.event)
    requires lawful == Ledger.Lawful(view, t.intent) && (Ledger.First(log, last) ==> lawful)
    requires t.event.issueId == before.snapshot.issue.id
    requires 1 <= view.version <= before.snapshot.version && t.event.expectedVersion == view.version
    requires view.version == before.snapshot.version ==> view == before.snapshot
    requires Same(before.snapshot, e) && ClaimOrRetry(before.snapshot)
    ensures var after := Ledger.Extend(before, t.event, last);
      var called := if Ledger.First(log, last) then Call(e, t.intent, t.provider) else Tracker.Ok(e);
      after.Folded? && called.Ok? && Same(after.snapshot, called.value) && ClaimOrRetry(after.snapshot)
  {
    Ledger.ExtendSettles(before, log, last);
    Ledger.ReduceOutcome(before.snapshot, t.event, last + 1);
    if Ledger.First(log, last) {
      Ledger.WriteMatchesReducer(view, t.provider, t.intent, last + 1);
      AcceptedEventIsACall(view, t.provider, t.intent, last + 1, e);
    }
  }

  /** What the ledger asks of a transition beyond the in-memory tracker, exactly: provider
      proof of the pull request and of the merge, and an owner gate that never changes. */
  predicate ProviderProof(s: Ledger.Snapshot, provider: Evidence, to: LifecycleState, evidence: Evidence) {
    && (to == PrOpen || to == Merged ==> Has(provider, PrUrl))
    && (to == Merged ==> Has(provider, MergedAt) && Has(provider, MergeCommitSha))
    && (Has(s.evidence, OwnerGateId) ==>
          OwnerGateId in evidence && evidence[OwnerGateId] == s.evidence[OwnerGateId])
  }

  lemma LedgerTransitionStricter(s: Ledger.Snapshot, provider: Evidence, intent: Ledger.Intent, e: Tracker.Entry)
    requires intent.Transition? && provider.Keys <= Ledger.PROVIDER_FIELDS
    requires Same(s, e) && s.evidence == e.evidence
    ensures var view := Ledger.Overlay(s, provider);
      var evidence := view.evidence + (intent.evidence - Ledger.PROVIDER_FIELDS) + provider;
      Ledger.Write(view, provider, intent).Some?
      <==> Tracker.Move(e, intent.to, intent.claimFence, evidence).Ok? && ProviderProof(s, provider, intent.to, evidence)
  {
    var view := Ledger.Overlay(s, provider);
    var evidence := view.evidence + (intent.evidence - Ledger.PROVIDER_FIELDS) + provider;
    hide Binding, Legal;
    SameFence(s, e);
    assert e.evidence + evidence == evidence;
    GateUnaffected(s, provider);
    hide Has;
  }

  // What the ledger asks beyond the in-memory tracker for any call.
  predicate Beyond(s: Ledger.Snapshot, provider: Evidence, intent: Ledger.Intent) {
    match intent
    case TryClaim(_, proposed, _) => proposed.issueIdentifier == s.issue.identifier
    case Transition(to, _, _, evidence, _) =>
      ProviderProof(s, provider, to, s.evidence + provider + (evidence - Ledger.PROVIDER_FIELDS) + provider)
    case _ => true
  }

  /** The two adapters accept the same calls, up to that: a call is appended and lawful if
      and only if the in-memory tracker accepts it and the ledger's own demands are met. */
  lemma WrittenExactly(s: Ledger.Snapshot, provider: Evidence, intent: Ledger.Intent, e: Tracker.Entry)
    requires provider.Keys <= Ledger.PROVIDER_FIELDS && Same(s, e)
    ensures Ledger.Write(Ledger.Overlay(s, provider), provider, intent).Some? && Ledger.Lawful(s, intent)
       <==> Call(e, intent, provider).Ok? && Beyond(s, provider, intent)
  {
    hide Has, Legal, StateAfterFailure, RetryAfter, Binding, Beyond, Ledger.EvidenceAllows;
    SameFence(s, e);
    if intent.Transition? {
      TransitionExactly(s, provider, intent, e);
    } else if intent.TryClaim? {
      ClaimExactly(s, provider, intent, e);
    } else {
      FenceCallExactly(s, provider, intent, e);
    }
  }

  lemma TransitionExactly(s: Ledger.Snapshot, provider: Evidence, intent: Ledger.Intent, e: Tracker.Entry)
    requires provider.Keys <= Ledger.PROVIDER_FIELDS && Same(s, e) && intent.Transition?
    ensures Ledger.Write(Ledger.Overlay(s, provider), provider, intent).Some?
       <==> Call(e, intent, provider).Ok? && Beyond(s, provider, intent)
  {
    hide Legal, Binding, Has;
    SameFence(s, e);
    GateUnaffected(s, provider);
    var written := s.evidence + provider + (intent.evidence - Ledger.PROVIDER_FIELDS) + provider;
    var merged := e.evidence + Offered(intent, provider);
    assert (forall f :: f !in Ledger.PROVIDER_FIELDS ==> (Has(written, f) <==> Has(merged, f)))
        && (forall f :: Has(provider, f) ==> Has(written, f) && Has(merged, f)) by {
      SameRecord(s, provider, intent, e);
      ProviderWins(s.evidence + provider + (intent.evidence - Ledger.PROVIDER_FIELDS), provider);
    }
    assert OwnerGateId !in Ledger.PROVIDER_FIELDS && DeploymentUrl !in Ledger.PROVIDER_FIELDS;
  }

  lemma ProviderWins(a: Evidence, provider: Evidence)
    ensures forall f :: Has(provider, f) ==> Has(a + provider, f)
  {
  }

  lemma GateUnaffected(s: Ledger.Snapshot, provider: Evidence)
    requires provider.Keys <= Ledger.PROVIDER_FIELDS
    ensures var view := Ledger.Overlay(s, provider).evidence;
      && (Has(view, OwnerGateId) <==> Has(s.evidence, OwnerGateId))
      && (Has(s.evidence, OwnerGateId) ==> view[OwnerGateId] == s.evidence[OwnerGateId])
  {
  }

  lemma ClaimExactly(s: Ledger.Snapshot, provider: Evidence, intent: Ledger.Intent, e: Tracker.Entry)
    requires Same(s, e) && intent.TryClaim?
    ensures Ledger.Write(Ledger.Overlay(s, provider), provider, intent).Some?
       <==> Call(e, intent, provider).Ok? && Beyond(s, provider, intent)
  {
    hide Binding;
    SameFence(s, e);
  }

  lemma FenceCallExactly(s: Ledger.Snapshot, provider: Evidence, intent: Ledger.Intent, e: Tracker.Entry)
    requires Same(s, e) && !intent.Transition? && !intent.TryClaim?
    ensures Ledger.Write(Ledger.Overlay(s, provider), provider, intent).Some? && Ledger.Lawful(s, intent)
       <==> Call(e, intent, provider).Ok?
    ensures Beyond(s, provider, intent)
  {
    hide Binding, RetryAfter, StateAfterFailure;
    SameFence(s, e);
  }
}
