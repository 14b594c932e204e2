/** What the admission lane keeps on file for one target, and the history of it: the cycle,
    how one stored state may follow another, and what holds of every such history.
 */
module AdmissionHistory {
  import opened Wrappers
  import opened AdmissionReceipt

  datatype Phase = Prepared | DeliveredPhase | Pending | Recovering | Consumed | Blocked | ProbeDeferred

  datatype Marker = Attempted | Acknowledged | Confirmed

  datatype Cycle = Cycle(
    current: bool,
    phase: Phase,
    envelope: Envelope,
    fingerprint: string,
    messageId: Option<string>,
    receipt: Option<Receipt>,
    deliveredAt: Option<int>,
    preparedAt: int,
    consumedAt: Option<int>,
    recoveryAttempts: nat,
    rewakeCount: nat,
    repair: Option<Marker>,
    probeFailures: nat,
    blockedFingerprint: Option<string>,
    blockAcknowledged: bool)

  // What the incidents of this tick ask for.  A retained batch only re-inspects what is
  // outstanding.
  datatype Batch = Batch(envelope: Envelope, fingerprint: string, retained: bool)

  datatype Limits = Limits(recoveryMinAgeMs: int, maxRewakes: nat, rewakeQuietMs: int, maxProbeFailures: nat)

  function PreparedCycle(b: Batch, nowMs: int): Cycle {
    Cycle(true, Prepared, b.envelope, b.fingerprint, None, None, None, nowMs, None, 0, 0, None, 0, None, false)
  }

  // The workspace is not part of a target's identity.
  predicate SameTarget(x: Target, y: Target) {
    && x.targetType == y.targetType && x.kind == y.kind && x.session == y.session && x.generation == y.generation
    && (x.targetType == "coordinator" ==> x.project == y.project)
  }

  predicate Matches(b: Batch, c: Cycle) {
    SameTarget(b.envelope.target, c.envelope.target)
  }

  predicate Outstanding(p: Phase) {
    p == DeliveredPhase || p == Pending || p == Recovering
  }

  function HardBlock(c: Cycle): Cycle {
    c.(phase := Blocked)
  }

  // The target could not be probed: a retry, not a verdict - until the budget is spent.
  function Deferral(limits: Limits, c: Cycle): Cycle {
    var deferred := c.(phase := ProbeDeferred, probeFailures := c.probeFailures + 1);
    if deferred.probeFailures >= limits.maxProbeFailures then HardBlock(deferred) else deferred
  }

  // The times a deadline counts from; zero counts as absent.
  function DeliveredAt(c: Cycle, nowMs: int): int {
    if c.deliveredAt.Some? && c.deliveredAt.value != 0 then c.deliveredAt.value
    else if c.preparedAt != 0 then c.preparedAt else nowMs
  }

  function ConsumedAt(c: Cycle, nowMs: int): int {
    if c.consumedAt.Some? && c.consumedAt.value != 0 then c.consumedAt.value
    else if c.deliveredAt.Some? && c.deliveredAt.value != 0 then c.deliveredAt.value else nowMs
  }

  // Fold newer incidents into the message of the same cycle.
  function Coalesced(c: Cycle, b: Batch): Cycle {
    if b.retained || b.fingerprint == c.fingerprint then c
    else c.(fingerprint := b.fingerprint, envelope := c.envelope.(message := b.envelope.message))
  }

  // ---------------------------------------------------------------- what is persisted

  /** A stored cycle is sound: it says consumed only with proof for its own envelope and
      message ID; a prepared one has no message yet, an outstanding one has; and recovery is
      asked for at most once. */
  predicate Sound(c: Cycle) {
    && (c.current && c.phase == Consumed ==> Proven(c))
    && (c.current && c.phase == Prepared ==> Begins(c) && c.recoveryAttempts == 0 && c.repair.None?)
    && (c.current && Outstanding(c.phase) ==> c.messageId.Some?)
    && c.recoveryAttempts <= 1
  }

  predicate Proven(c: Cycle) {
    && c.messageId.Some? && c.receipt.Some? && ConsumedProof(c.envelope, c.receipt.value, c.messageId.value)
    && c.consumedAt == c.receipt.value.completion.consumedAt
  }

  // Nothing has been sent yet.
  predicate Begins(c: Cycle) {
    c.messageId.None? && c.receipt.None?
  }

  // Within a cycle the message ID, target and scope never change, and neither the recovery
  // nor the repair is forgotten.
  predicate Continues(a: Cycle, b: Cycle) {
    && (a.messageId.Some? ==> b.messageId == a.messageId)
    && b.envelope.target == a.envelope.target && b.envelope.scope == a.envelope.scope
    && b.envelope.workspace == a.envelope.workspace
    && a.recoveryAttempts <= b.recoveryAttempts && (a.repair.Some? ==> b.repair.Some?)
    && b.rewakeCount == a.rewakeCount && b.preparedAt == a.preparedAt && (b.phase == Prepared ==> a.phase == Prepared)
  }

  // The same condition is taken up again although its last message was consumed.
  predicate Rewakes(a: Cycle, b: Cycle) {
    a.phase == Consumed && SameTarget(b.envelope.target, a.envelope.target) && b.fingerprint == a.fingerprint
  }

  // A new cycle begins on a clean slate, after proof, after a deferred probe, or after a
  // block for another target; re-wakes are counted, spaced and bounded.
  predicate Renews(limits: Limits, before: Option<Cycle>, b: Cycle) {
    Begins(b) &&
    match before
    case None => b.rewakeCount == 0
    case Some(a) =>
      && a.current && b.current && b.phase == Prepared
      && (a.phase == Consumed || a.phase == ProbeDeferred
          || (a.phase == Blocked && !SameTarget(b.envelope.target, a.envelope.target)))
      && (if Rewakes(a, b) then
            && b.rewakeCount == a.rewakeCount + 1 <= limits.maxRewakes
            && b.preparedAt - ConsumedAt(a, b.preparedAt) >= limits.rewakeQuietMs
          else b.rewakeCount == 0)
  }

  predicate Linked(limits: Limits, before: Option<Cycle>, after: Cycle) {
    Sound(after) && ((before.Some? && Continues(before.value, after)) || Renews(limits, before, after))
  }

  function Before(start: Option<Cycle>, written: seq<Cycle>, i: nat): Option<Cycle>
    requires i <= |written|
  {
    if i == 0 then start else Some(written[i - 1])
  }

  predicate Chain(limits: Limits, start: Option<Cycle>, written: seq<Cycle>) {
    forall i :: 0 <= i < |written| ==> Linked(limits, Before(start, written, i), written[i])
  }

  function Latest(start: Option<Cycle>, written: seq<Cycle>): Option<Cycle> {
    Before(start, written, |written|)
  }

  lemma ChainGrows(limits: Limits, start: Option<Cycle>, written: seq<Cycle>, c: Cycle)
    requires Chain(limits, start, written) && Linked(limits, Latest(start, written), c)
    ensures Chain(limits, start, written + [c]) && Latest(start, written + [c]) == Some(c)
  {
    hide Linked;
    var longer := written + [c];
    forall i | 0 <= i < |longer| ensures Linked(limits, Before(start, longer, i), longer[i]) {
      assert Before(start, longer, i) == Before(start, written, i);
      if i < |written| {
        assert Linked(limits, Before(start, written, i), written[i]);
      }
    }
  }

  // The step from state k gives the message up: after proof, after a deferred probe, or
  // after a block that another target supersedes.
  predicate GivesUp(written: seq<Cycle>, k: nat)
    requires k + 1 < |written|
  {
    var a, b := written[k], written[k + 1];
    && Begins(b) && b.current && b.phase == Prepared && a.current
    && ((a.phase == Consumed && Proven(a)) || a.phase == ProbeDeferred
        || (a.phase == Blocked && !SameTarget(b.envelope.target, a.envelope.target)))
  }

  lemma NextState(limits: Limits, start: Option<Cycle>, written: seq<Cycle>, k: nat)
    requires Chain(limits, start, written) && k + 1 < |written|
    ensures Continues(written[k], written[k + 1]) || GivesUp(written, k)
  {
    hide Proven;
    assert Linked(limits, Before(start, written, k), written[k]);
    assert Linked(limits, Before(start, written, k + 1), written[k + 1]);
  }

  /** A message is given up only after proof that it was consumed, after a deferred probe, or
      after a block that another target supersedes.  In particular an outstanding message is
      never replaced by another one: until one of these happens, every persisted state has
      the same message ID, target, scope and workspace, and has forgotten neither the
      recovery nor the repair. */
  lemma {:induction false} OneMessagePerCycle(limits: Limits, start: Option<Cycle>, written: seq<Cycle>, i: nat, j: nat)
    requires Chain(limits, start, written) && i <= j < |written|
    requires forall k :: i <= k < j ==> !GivesUp(written, k)
    ensures Continues(written[i], written[j]) && written[j].recoveryAttempts <= 1
    decreases j
  {
    hide GivesUp, Chain, Linked, Continues;
    RecoveredOnce(limits, start, written, j);
    ContinuesOn(written[i], written[i], written[i]);
    if i < j {
      OneMessagePerCycle(limits, start, written, i, j - 1);
      NextState(limits, start, written, j - 1);
      ContinuesOn(written[i], written[j - 1], written[j]);
    }
  }

  lemma ContinuesOn(a: Cycle, b: Cycle, c: Cycle)
    ensures Continues(a, a)
    ensures Continues(a, b) && Continues(b, c) ==> Continues(a, c)
  {
  }

  lemma RecoveredOnce(limits: Limits, start: Option<Cycle>, written: seq<Cycle>, j: nat)
    requires Chain(limits, start, written) && j < |written|
    ensures written[j].recoveryAttempts <= 1
  {
    assert Linked(limits, Before(start, written, j), written[j]);
  }

  /** So a message that is no longer the stored one was given up at a moment k. */
  lemma GivenUpWithReason(limits: Limits, start: Option<Cycle>, written: seq<Cycle>, i: nat, j: nat) returns (k: nat)
    requires Chain(limits, start, written) && i <= j < |written|
    requires written[i].messageId.Some? && written[j].messageId != written[i].messageId
    ensures i <= k < j && GivesUp(written, k) && Continues(written[i], written[k])
  {
    hide GivesUp, Linked;
    k := i;
    while k < j && !GivesUp(written, k)
      invariant i <= k <= j && forall m :: i <= m < k ==> !GivesUp(written, m)
    {
      k := k + 1;
    }
    OneMessagePerCycle(limits, start, written, i, k);
  }

  // ---------------------------------------------------------------- re-wakes

  // How many of the steps after state i, up to state j, re-wake the same condition.
  function RewakesIn(written: seq<Cycle>, i: nat, j: nat): nat
    requires i <= j < |written|
    decreases j
  {
    if i == j then 0
    else RewakesIn(written, i, j - 1) + if IsRewake(written, j - 1) then 1 else 0
  }

  predicate IsRewake(written: seq<Cycle>, k: nat)
    requires k + 1 < |written|
  {
    GivesUp(written, k) && Rewakes(written[k], written[k + 1])
  }

  lemma RewakeStep(limits: Limits, start: Option<Cycle>, written: seq<Cycle>, k: nat)
    requires Chain(limits, start, written) && k + 1 < |written|
    ensures if IsRewake(written, k) then
              && written[k + 1].rewakeCount == written[k].rewakeCount + 1 <= limits.maxRewakes
              && written[k + 1].preparedAt - ConsumedAt(written[k], written[k + 1].preparedAt) >= limits.rewakeQuietMs
            else written[k + 1].rewakeCount == (if GivesUp(written, k) then 0 else written[k].rewakeCount)
  {
    hide Proven;
    NextState(limits, start, written, k);
    assert Linked(limits, Before(start, written, k), written[k]);
    assert Linked(limits, Before(start, written, k + 1), written[k + 1]);
  }

  // The re-wake after state k comes a quiet period after the proof stored there.
  predicate Spaced(limits: Limits, written: seq<Cycle>, k: nat)
    requires k + 1 < |written|
  {
    written[k + 1].preparedAt - ConsumedAt(written[k], written[k + 1].preparedAt) >= limits.rewakeQuietMs
  }

  /** An unresolved condition is taken up again a bounded number of times: as long as every
      new cycle is for the same target and the same condition, at most maxRewakes cycles
      begin, each a quiet period after the proof that closed the one before. */
  lemma {:induction false} RewakesBounded(limits: Limits, start: Option<Cycle>, written: seq<Cycle>, i: nat, j: nat)
    requires Chain(limits, start, written) && i <= j < |written|
    requires forall k :: i <= k < j && GivesUp(written, k) ==> IsRewake(written, k)
    ensures written[j].rewakeCount == written[i].rewakeCount + RewakesIn(written, i, j)
    ensures RewakesIn(written, i, j) <= limits.maxRewakes
    ensures RewakesIn(written, i, j) > 0 ==> written[j].rewakeCount <= limits.maxRewakes
    ensures forall k :: i <= k < j && IsRewake(written, k) ==> Spaced(limits, written, k)
    decreases j
  {
    hide Rewakes, GivesUp, Chain, Continues, ConsumedAt;
    if i < j {
      RewakesBounded(limits, start, written, i, j - 1);
      RewakeStep(limits, start, written, j - 1);
    }
  }

  /** So the cycles span a quiet period for each re-wake, provided no proof is dated before
      its own cycle was prepared: the server's clock dates the proofs. */
  lemma {:induction false} RewakesSpan(limits: Limits, start: Option<Cycle>, written: seq<Cycle>, i: nat, j: nat)
    requires Chain(limits, start, written) && i <= j < |written|
    requires forall k :: i <= k < j && GivesUp(written, k) ==> IsRewake(written, k)
    requires forall k :: i <= k < j && IsRewake(written, k) ==>
      written[k].preparedAt <= ConsumedAt(written[k], written[k + 1].preparedAt)
    ensures written[j].preparedAt - written[i].preparedAt >= RewakesIn(written, i, j) * limits.rewakeQuietMs
    decreases j
  {
    hide Rewakes, GivesUp, Chain, ConsumedAt;
    if i < j {
      RewakesSpan(limits, start, written, i, j - 1);
      RewakeStep(limits, start, written, j - 1);
      NextState(limits, start, written, j - 1);
      OneMore(RewakesIn(written, i, j - 1), limits.rewakeQuietMs);
    }
  }

  lemma OneMore(n: int, d: int)
    ensures (n + 1) * d == n * d + d
  {
  }

  lemma FirstState(limits: Limits, start: Option<Cycle>, written: seq<Cycle>)
    requires Chain(limits, start, written) && written != []
    ensures written[0].rewakeCount <= limits.maxRewakes || (start.Some? && written[0].rewakeCount == start.value.rewakeCount)
  {
    assert Linked(limits, Before(start, written, 0), written[0]);
  }

  /** No persisted state ever counts more re-wakes than the limit, unless the state the file
      had to begin with already did. */
  lemma {:induction false} RewakeCountBounded(limits: Limits, start: Option<Cycle>, written: seq<Cycle>, i: nat)
    requires Chain(limits, start, written) && i < |written|
    requires start.Some? ==> start.value.rewakeCount <= limits.maxRewakes
    ensures written[i].rewakeCount <= limits.maxRewakes
    decreases i
  {
    hide GivesUp, Chain, ConsumedAt, IsRewake;
    if i == 0 {
      FirstState(limits, start, written);
    } else {
      RewakeCountBounded(limits, start, written, i - 1);
      RewakeStep(limits, start, written, i - 1);
    }
  }

  /** The quiet period of a consumed cycle counts from the proof, whatever the clock says. */
  lemma QuietCountsFromProof(c: Cycle, nowMs: int)
    requires Sound(c) && c.current && c.phase == Consumed
    ensures Some(ConsumedAt(c, nowMs)) == c.receipt.value.completion.consumedAt
  {
  }

  /** Two targets are the same when nothing tells them apart but the workspace and, for
      anybody but a coordinator, the project. */
  lemma SameTargetExactly(x: Target, y: Target)
    ensures SameTarget(x, y) <==> if x.targetType == "coordinator" then x == y else x == y.(project := x.project)
  {
  }

  /** Nothing is ever persisted as consumed without proof: the receipt names the cycle's own
      target, generation, scope and message, and the content stored in that very state. */
  lemma ConsumedIsProven(limits: Limits, start: Option<Cycle>, written: seq<Cycle>, i: nat)
    requires Chain(limits, start, written) && i < |written| && written[i].current && written[i].phase == Consumed
    ensures var c := written[i];
      && c.messageId.Some? && c.receipt.Some?
      && var r := c.receipt.value;
         && r.session == c.envelope.target.session && r.generation == c.envelope.target.generation
         && r.scope == c.envelope.scope && r.messageId == c.messageId
         && r.revision == RevisionOf(c.envelope.message) && r.completion.revision == Some(r.revision)
         && r.delivery == ConsumedDelivery && c.consumedAt == r.completion.consumedAt
  {
    assert Linked(limits, Before(start, written, i), written[i]);
    ProofIsExact(written[i].envelope, written[i].receipt.value, written[i].messageId.value);
  }

  lemma SubjectLinked(limits: Limits, stored: Option<Cycle>, batch: Batch, nowMs: int)
    requires stored.Some? ==> Sound(stored.value)
    ensures var c := if stored.Some? then stored.value else PreparedCycle(batch, nowMs);
      Linked(limits, stored, c) && Linked(limits, stored, HardBlock(c)) && Linked(limits, stored, Deferral(limits, c))
      && (stored.Some? ==> Continues(stored.value, HardBlock(c)) && Continues(stored.value, Deferral(limits, c)))
  {
  }

  // ---------------------------------------------------------------- probes that keep failing

  // The cycle after n failed probes in a row.
  function Unprobed(limits: Limits, c: Cycle, n: nat): Cycle {
    if n == 0 then c else Deferral(limits, Unprobed(limits, c, n - 1))
  }

  /** A target that cannot be probed is blocked exactly when the failures since its last first
      delivery reach the limit, and from then on a failed probe does not lift the block. */
  lemma {:induction false} ProbesEndInBlock(limits: Limits, c: Cycle, n: nat)
    requires 0 < n
    ensures var d := Unprobed(limits, c, n);
      && d == c.(phase := d.phase, probeFailures := c.probeFailures + n)
      && d.phase == if c.probeFailures + n >= limits.maxProbeFailures then Blocked else ProbeDeferred
  {
    if n > 1 {
      ProbesEndInBlock(limits, c, n - 1);
    } else {
      assert Unprobed(limits, c, 0) == c;
    }
  }
}
