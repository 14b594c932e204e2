/** One recovery incident: a condition that comes and goes, with a bounded budget of recovery
    attempts that starts afresh only when the condition is reopened.
 */
module IncidentRow {
  import opened Wrappers

  datatype Kind =
    | CoordinatorLeaseStale | CoordinatorSessionError | CoordinatorPiSigterm | CoordinatorWorkerTerminalStatus
    | OwnerGateBlocked | OtherKind(name: string)

  // The stable key: it names the kind, so an incident never changes kind.
  datatype Key = Key(project: string, kind: Kind, slot: string, discriminator: string)

  datatype IncidentState = Open | Claimed | Deferred | Resolved | Escalated | Suppressed

  datatype Stage = Recover | Wake1 | Wake2 | Rotation | Exhausted

  datatype Note =
    | ClaimedBy(controller: string, attempt: nat, stage: Stage)
    | Reopened(revision: nat)
    | OtherNote

  datatype Row = Row(
    fingerprint: string,
    state: IncidentState,
    revision: nat,
    attempts: nat,
    claimOwner: Option<string>,
    claimExpiresAt: Option<int>,
    cooldownUntil: Option<int>,
    clearCandidateAt: Option<int>,
    history: seq<Note>)

  datatype Limits = Limits(maxAttempts: nat, coordinatorMax: nat, clearConfirmMs: int, maxRuntimeMs: nat)

  function OrZero(n: Option<int>): int {
    if n.Some? then n.value else 0
  }

  predicate CoordinatorIncident(kind: Kind) {
    !kind.OwnerGateBlocked? && !kind.OtherKind?
  }

  function ClaimLimit(limits: Limits, kind: Kind): nat {
    if CoordinatorIncident(kind) then limits.coordinatorMax else limits.maxAttempts
  }

  function ClaimStage(kind: Kind, attempt: nat): Stage {
    if !CoordinatorIncident(kind) then Recover
    else if attempt == 1 then Wake1
    else if attempt == 2 then Wake2
    else if attempt == 3 then Rotation
    else Exhausted
  }

  // ---------------------------------------------------------------- what happens to a row

  function FirstSeen(key: Key, fingerprint: string): Row {
    Row(fingerprint, if key.kind.OwnerGateBlocked? then Suppressed else Open, 1, 0, None, None, None, None, [])
  }

  function Noted(row: Row, note: Note): Row {
    row.(history := row.history + [note])
  }

  // The condition is observed again.
  function Observed(row: Row, fingerprint: string, nowMs: int): Row {
    var seen := row.(fingerprint := fingerprint, clearCandidateAt := None);
    var r := if row.clearCandidateAt.Some? then Noted(seen, OtherNote) else seen;
    if r.state == Claimed && OrZero(r.claimExpiresAt) <= nowMs then
      Noted(r.(state := Open, claimOwner := None, claimExpiresAt := None), OtherNote)
    else if r.state == Deferred && OrZero(r.cooldownUntil) <= nowMs then
      Noted(r.(state := Open, cooldownUntil := None), OtherNote)
    else if r.state == Resolved then
      Noted(r.(state := Open, attempts := 0, revision := row.revision + 1, claimOwner := None, claimExpiresAt := None,
               cooldownUntil := None), Reopened(row.revision + 1))
    else r
  }

  // The condition is not observed: it becomes a candidate for clearing, and is resolved
  // once it has stayed away long enough.
  function Missing(limits: Limits, row: Row, nowMs: int): Row {
    if row.state == Resolved then row
    else
      var isNew := OrZero(row.clearCandidateAt) == 0;
      var candidateAt := if isNew then nowMs else row.clearCandidateAt.value;
      var r := if isNew then Noted(row.(clearCandidateAt := Some(nowMs)), OtherNote) else row;
      if nowMs - candidateAt < limits.clearConfirmMs then r
      else
        Noted(r.(state := Resolved, attempts := 0, claimOwner := None, claimExpiresAt := None, cooldownUntil := None,
                 clearCandidateAt := None), OtherNote)
  }

  predicate Claimable(row: Row, nowMs: int) {
    && row.clearCandidateAt.None?
    && (row.state == Open || row.state == Deferred)
    && OrZero(row.cooldownUntil) <= nowMs
  }

  function ClaimFor(limits: Limits, kind: Kind, row: Row, controller: string, ttl: int, nowMs: int): Row {
    if row.attempts >= ClaimLimit(limits, kind) then
      Noted(row.(state := Escalated, claimOwner := None, claimExpiresAt := None), OtherNote)
    else
      var attempt := row.attempts + 1;
      Noted(row.(state := Claimed, claimOwner := Some(controller), claimExpiresAt := Some(nowMs + ttl * 1000), attempts := attempt),
            ClaimedBy(controller, attempt, ClaimStage(kind, attempt)))
  }

  predicate HoldsClaim(row: Row, controller: string, nowMs: int) {
    row.state == Claimed && row.claimOwner == Some(controller) && nowMs < OrZero(row.claimExpiresAt)
  }

  datatype Action = Extend(ttl: int) | Resolve | Defer(cooldown: int) | Escalate

  function Acted(row: Row, action: Action, nowMs: int): Row {
    match action
    case Extend(ttl) => row.(claimExpiresAt := Some(nowMs + ttl * 1000))
    case Resolve =>
      Noted(row.(state := Resolved, claimOwner := None, claimExpiresAt := None, cooldownUntil := None, clearCandidateAt := None),
            OtherNote)
    case Defer(cooldown) =>
      Noted(row.(state := Deferred, claimOwner := None, claimExpiresAt := None, cooldownUntil := Some(nowMs + cooldown * 1000)),
            OtherNote)
    case Escalate => Noted(row.(state := Escalated, claimOwner := None, claimExpiresAt := None), OtherNote)
  }

  // ---------------------------------------------------------------- the budget

  // How often the incident has been claimed, ever.
  function ClaimCount(history: seq<Note>): nat {
    if history == [] then 0
    else ClaimCount(history[..|history| - 1]) + if history[|history| - 1].ClaimedBy? then 1 else 0
  }

  // The stages claimed since the condition was last reopened, oldest first.
  function Cycle(history: seq<Note>): seq<Stage> {
    if history == [] then []
    else
      var front, last := history[..|history| - 1], history[|history| - 1];
      match last
      case Reopened(_) => []
      case ClaimedBy(_, _, stage) => Cycle(front) + [stage]
      case OtherNote => Cycle(front)
  }

  // The stages a cycle goes through.
  function Ladder(kind: Kind, n: nat): (stages: seq<Stage>)
    ensures |stages| == n && forall i :: 0 <= i < n ==> stages[i] == ClaimStage(kind, i + 1)
  {
    if n == 0 then [] else Ladder(kind, n - 1) + [ClaimStage(kind, n)]
  }

  /** The budget of a row: every cycle climbs the ladder from its first rung and stops at the
      limit, and the claims of all cycles together stay below limit times revision. */
  predicate WithinBudget(limits: Limits, kind: Kind, row: Row) {
    var limit := ClaimLimit(limits, kind);
    var climbed := |Cycle(row.history)|;
    && 1 <= row.revision
    && climbed <= limit && Cycle(row.history) == Ladder(kind, climbed)
    && (row.state != Resolved ==> row.attempts == climbed)
    && ClaimCount(row.history) <= limit * (row.revision - 1) + climbed
  }

  lemma NotedParts(row: Row, note: Note)
    ensures ClaimCount(Noted(row, note).history) == ClaimCount(row.history) + if note.ClaimedBy? then 1 else 0
    ensures Cycle(Noted(row, note).history)
         == match note
            case Reopened(_) => []
            case ClaimedBy(_, _, stage) => Cycle(row.history) + [stage]
            case OtherNote => Cycle(row.history)
  {
    assert Noted(row, note).history[..|row.history|] == row.history;
  }

  // A note that is neither a claim nor a reopening changes nothing about the budget.
  lemma QuietNote(limits: Limits, kind: Kind, row: Row)
    requires WithinBudget(limits, kind, row)
    ensures WithinBudget(limits, kind, Noted(row, OtherNote))
  {
    NotedParts(row, OtherNote);
  }

  lemma FirstSeenWithin(limits: Limits, key: Key, fingerprint: string)
    ensures WithinBudget(limits, key.kind, FirstSeen(key, fingerprint))
  {
  }

  lemma ReopenedWithin(limits: Limits, kind: Kind, row: Row)
    requires WithinBudget(limits, kind, row)
    ensures WithinBudget(limits, kind, Noted(row.(state := Open, attempts := 0, revision := row.revision + 1, claimOwner := None,
                                                  claimExpiresAt := None, cooldownUntil := None), Reopened(row.revision + 1)))
  {
    var r := row.(state := Open, attempts := 0, revision := row.revision + 1, claimOwner := None, claimExpiresAt := None,
                  cooldownUntil := None);
    NotedParts(r, Reopened(row.revision + 1));
    var limit, climbed := ClaimLimit(limits, kind), |Cycle(row.history)|;
    assert limit * (row.revision - 1) + climbed <= limit * row.revision;
  }

  lemma ObservedWithin(limits: Limits, kind: Kind, row: Row, fingerprint: string, nowMs: int)
    requires WithinBudget(limits, kind, row)
    ensures WithinBudget(limits, kind, Observed(row, fingerprint, nowMs))
  {
    hide Cycle, ClaimCount, Ladder;
    var seen := row.(fingerprint := fingerprint, clearCandidateAt := None);
    QuietNote(limits, kind, seen);
    var r := if row.clearCandidateAt.Some? then Noted(seen, OtherNote) else seen;
    if r.state == Claimed && OrZero(r.claimExpiresAt) <= nowMs {
      QuietNote(limits, kind, r.(state := Open, claimOwner := None, claimExpiresAt := None));
    } else if r.state == Deferred && OrZero(r.cooldownUntil) <= nowMs {
      QuietNote(limits, kind, r.(state := Open, cooldownUntil := None));
    } else if r.state == Resolved {
      ReopenedWithin(limits, kind, r);
    }
  }

  lemma MissingWithin(limits: Limits, kind: Kind, row: Row, nowMs: int)
    requires WithinBudget(limits, kind, row)
    ensures WithinBudget(limits, kind, Missing(limits, row, nowMs))
  {
    hide Cycle, ClaimCount, Ladder;
    if row.state != Resolved {
      var isNew := OrZero(row.clearCandidateAt) == 0;
      var candidate := row.(clearCandidateAt := Some(nowMs));
      QuietNote(limits, kind, candidate);
      var r := if isNew then Noted(candidate, OtherNote) else row;
      QuietNote(limits, kind, r.(state := Resolved, attempts := 0, claimOwner := None, claimExpiresAt := None,
                                 cooldownUntil := None, clearCandidateAt := None));
    }
  }

  lemma ClaimWithin(limits: Limits, kind: Kind, row: Row, controller: string, ttl: int, nowMs: int)
    requires WithinBudget(limits, kind, row) && Claimable(row, nowMs)
    ensures WithinBudget(limits, kind, ClaimFor(limits, kind, row, controller, ttl, nowMs))
  {
    if row.attempts >= ClaimLimit(limits, kind) {
      QuietNote(limits, kind, row.(state := Escalated, claimOwner := None, claimExpiresAt := None));
    } else {
      var attempt := row.attempts + 1;
      NotedParts(row.(state := Claimed, claimOwner := Some(controller), claimExpiresAt := Some(nowMs + ttl * 1000), attempts := attempt),
                 ClaimedBy(controller, attempt, ClaimStage(kind, attempt)));
    }
  }

  lemma ActedWithin(limits: Limits, kind: Kind, row: Row, action: Action, nowMs: int)
    requires WithinBudget(limits, kind, row) && row.state == Claimed
    ensures WithinBudget(limits, kind, Acted(row, action, nowMs))
  {
    hide Cycle, ClaimCount, Ladder;
    match action
    case Extend(_) =>
    case Resolve =>
      QuietNote(limits, kind, row.(state := Resolved, claimOwner := None, claimExpiresAt := None, cooldownUntil := None,
                                   clearCandidateAt := None));
    case Defer(cooldown) =>
      QuietNote(limits, kind, row.(state := Deferred, claimOwner := None, claimExpiresAt := None,
                                   cooldownUntil := Some(nowMs + cooldown * 1000)));
    case Escalate => QuietNote(limits, kind, row.(state := Escalated, claimOwner := None, claimExpiresAt := None));
  }

  /** What the budget means: claims never exceed the limit times the condition revision,
      attempts never exceed the limit, and a coordinator incident reaches the rotation stage
      only after wake-1 and wake-2 in the same cycle. */
  lemma BudgetMeans(limits: Limits, kind: Kind, row: Row)
    requires WithinBudget(limits, kind, row)
    ensures ClaimCount(row.history) <= ClaimLimit(limits, kind) * row.revision
    ensures row.state != Resolved ==> row.attempts <= ClaimLimit(limits, kind)
    ensures var cycle := Cycle(row.history);
      forall i :: 0 <= i < |cycle| && cycle[i] == Rotation ==> i == 2 && cycle[0] == Wake1 && cycle[1] == Wake2
  {
    var limit, climbed := ClaimLimit(limits, kind), |Cycle(row.history)|;
    assert limit * (row.revision - 1) + climbed <= limit * row.revision;
  }
}
