/** The vocabulary of the v4 scheduler: lifecycle states and their transition table,
    failure classes, evidence, and the claim and retry records that bind a run to an issue.
 */
module Domain {
  import opened Wrappers

  // ---------------------------------------------------------------- lifecycle

  datatype LifecycleState =
    | Ready | Claimed | Running | PrOpen | Review | OwnerGate | Merged | Deployed | Done
    | Blocked | RetryWait | Failed | Cancelled | PreservationUnknown

  function Successors(from: LifecycleState): set<LifecycleState> {
    match from
    case Ready => {Claimed, Blocked, Cancelled}
    case Claimed => {Running, RetryWait, Blocked, Failed, Cancelled, PreservationUnknown}
    case Running => {PrOpen, RetryWait, Blocked, Failed, Cancelled, PreservationUnknown}
    case PrOpen => {Review, OwnerGate, Merged, Blocked, Failed, Cancelled, PreservationUnknown}
    case Review => {OwnerGate, Merged, Blocked, Failed, Cancelled, PreservationUnknown}
    case OwnerGate => {Merged, Blocked, Failed, Cancelled, PreservationUnknown}
    case Merged => {Deployed, Done, PreservationUnknown}
    case Deployed => {Done, PreservationUnknown}
    case Done => {}
    case Blocked => {Ready, Cancelled}
    case RetryWait => {Claimed, Failed, Cancelled}
    case Failed => {}
    case Cancelled => {}
    case PreservationUnknown => {}
  }

  predicate Legal(from: LifecycleState, to: LifecycleState) {
    to in Successors(from)
  }

  predicate IsTerminal(s: LifecycleState) {
    s in {Done, Failed, Cancelled, PreservationUnknown}
  }

  datatype FailureClass = Transient | RuntimeFailure | ContractFailure | PolicyFailure | PreservationFailure

  predicate IsRetryable(c: FailureClass) {
    c == Transient || c == RuntimeFailure
  }

  datatype RiskTier = LowRisk | MediumRisk | HighRisk

  datatype DeployAuthority = NoDeploy | DevDeploy | ProductionGated

  // ---------------------------------------------------------------- evidence

  datatype EvidenceField =
    | BranchUrl | BranchSha | PrUrl | MergeCommitSha | MergedAt | DeploymentUrl | BlockerNote | OwnerGateId

  // Spreading one evidence record over another keeps the right-hand value of a shared
  // field, which is exactly what `+` does on maps.
  type Evidence = map<EvidenceField, string>

  // An absent field and an empty string are both falsy in the source.
  predicate Has(e: Evidence, f: EvidenceField) {
    f in e && e[f] != ""
  }

  // ---------------------------------------------------------------- identities

  // Texts that the source derives by hashing. SHA-256 is modelled as an injective
  // function, so a digest is represented by the text that was hashed.
  datatype Id =
    | SessionId(seed: string)
    | WorkspaceId(seed: string)
    | AttemptKey(identifier: string, attempt: Attempt, seed: string)
    | PathUnder(root: string, key: Id)
    | ClaimFence(seed: string)
    | Foreign(text: string)

  type Attempt = n: int | 1 <= n witness 1

  datatype Claim = Claim(
    issueId: string,
    issueIdentifier: string,
    attempt: Attempt,
    fence: Id,
    sessionId: Id,
    workspaceId: Id,
    workspaceKey: Id,
    workspacePath: Id,
    baseSha: string,
    modelProfile: string,
    claimedAtMs: int,
    heartbeatAtMs: int,
    expiresAtMs: int)

  // Everything a heartbeat may not change.
  function Binding(c: Claim): Claim {
    c.(heartbeatAtMs := 0, expiresAtMs := 0)
  }

  function BindingOf(c: Option<Claim>): Option<Claim> {
    if c.Some? then Some(Binding(c.value)) else None
  }

  datatype Retry = Retry(attempt: Attempt, dueAtMs: int, failureClass: FailureClass, reason: string)

  // The material history of an issue; the message text is not modelled.
  datatype MaterialEvent = MaterialEvent(sequence: nat, state: LifecycleState, atMs: int)

  // ---------------------------------------------------------------- retry policy

  // The workflow parser admits only positive integers with retryMaxMs >= retryBaseMs.
  datatype RetryPolicy = RetryPolicy(maxAttempts: int, retryBaseMs: int, retryMaxMs: int)
  {
    predicate Valid() {
      1 <= maxAttempts && 1 <= retryBaseMs <= retryMaxMs
    }
  }

  function Pow2(n: nat): (p: nat)
    ensures 1 <= p
  {
    if n == 0 then 1 else 2 * Pow2(n - 1)
  }

  function RetryDelay(policy: RetryPolicy, attempt: Attempt): int {
    var backoff := policy.retryBaseMs * Pow2(attempt - 1);
    if backoff < policy.retryMaxMs then backoff else policy.retryMaxMs
  }

  predicate RetriesAfter(c: FailureClass, attempt: Attempt, policy: RetryPolicy) {
    IsRetryable(c) && attempt < policy.maxAttempts
  }

  function StateAfterFailure(c: FailureClass, attempt: Attempt, policy: RetryPolicy): LifecycleState {
    if RetriesAfter(c, attempt, policy) then RetryWait else Failed
  }

  function RetryAfter(c: FailureClass, reason: string, attempt: Attempt, nowMs: int, policy: RetryPolicy): Option<Retry> {
    if RetriesAfter(c, attempt, policy)
    then Some(Retry(attempt + 1, nowMs + RetryDelay(policy, attempt), c, reason))
    else None
  }

  // ---------------------------------------------------------------- facts

  /** The four states the source calls terminal are exactly the ones with no way out. */
  lemma TerminalMeansStuck(s: LifecycleState)
    ensures IsTerminal(s) <==> forall t :: !Legal(s, t)
  {
    match s
    case Ready => assert Legal(s, Claimed);
    case Claimed => assert Legal(s, Running);
    case Running => assert Legal(s, PrOpen);
    case PrOpen => assert Legal(s, Review);
    case Review => assert Legal(s, OwnerGate);
    case OwnerGate => assert Legal(s, Merged);
    case Merged => assert Legal(s, Deployed);
    case Deployed => assert Legal(s, Done);
    case Blocked => assert Legal(s, Ready);
    case RetryWait => assert Legal(s, Claimed);
    case _ =>
  }

  /** The lifecycle seen from where it leads: what each state can be reached from. */
  lemma WaysInto(from: LifecycleState, to: LifecycleState)
    ensures Legal(from, to) <==>
      match to
      case Ready => from == Blocked
      case Claimed => from in {Ready, RetryWait}
      case Running => from == Claimed
      case PrOpen => from == Running
      case Review => from == PrOpen
      case OwnerGate => from in {PrOpen, Review}
      case Merged => from in {PrOpen, Review, OwnerGate}
      case Deployed => from == Merged
      case Done => from in {Merged, Deployed}
      case Blocked => from in {Ready, Claimed, Running, PrOpen, Review, OwnerGate}
      case RetryWait => from in {Claimed, Running}
      case Failed => from in {Claimed, Running, PrOpen, Review, OwnerGate, RetryWait}
      case Cancelled => from in {Ready, Claimed, Running, PrOpen, Review, OwnerGate, Blocked, RetryWait}
      case PreservationUnknown => from in {Claimed, Running, PrOpen, Review, OwnerGate, Merged, Deployed}
  {
  }

  lemma {:induction false} Pow2Monotone(m: nat, n: nat)
    requires m <= n
    ensures Pow2(m) <= Pow2(n)
    decreases n - m
  {
    if m < n {
      Pow2Monotone(m + 1, n);
    }
  }

  lemma TimesMonotone(x: int, p: int, q: int)
    requires 0 <= x && p <= q
    ensures x * p <= x * q
  {
  }

  /** Back-off stays within the configured window and never shrinks from one attempt to the next. */
  lemma RetryDelayBounded(policy: RetryPolicy, a: Attempt, b: Attempt)
    requires policy.Valid() && a <= b
    ensures policy.retryBaseMs <= RetryDelay(policy, a) <= RetryDelay(policy, b) <= policy.retryMaxMs
  {
    Pow2Monotone(a - 1, b - 1);
    TimesMonotone(policy.retryBaseMs, 1, Pow2(a - 1));
    TimesMonotone(policy.retryBaseMs, Pow2(a - 1), Pow2(b - 1));
  }

  /** The back-off starts at the base and doubles from one attempt to the next until it meets
      the maximum. */
  lemma RetryDelayDoubles(policy: RetryPolicy, a: Attempt)
    requires policy.Valid()
    ensures RetryDelay(policy, 1) == policy.retryBaseMs
    ensures var doubled := 2 * RetryDelay(policy, a);
      RetryDelay(policy, a + 1) == if doubled < policy.retryMaxMs then doubled else policy.retryMaxMs
  {
    assert Pow2(0) == 1 && Pow2(a) == 2 * Pow2(a - 1);
    TwiceTimes(policy.retryBaseMs, Pow2(a - 1));
  }

  lemma TwiceTimes(x: int, p: int)
    ensures x * (2 * p) == 2 * (x * p)
  {
  }
}
