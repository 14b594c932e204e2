/** What one cycle stores, asks and answers for given replies, and what that means: proof closes
    a cycle, a deadline blocks it, one recovery and one repair come in between.
 */
module AdmissionOutcome {
  import opened Wrappers
  import opened AdmissionReceipt
  import opened AdmissionHistory

  datatype Call = DeliverCall | InspectCall | RecoverCall

  datatype Result = Done(exitCode: nat) | Raised(failure: Failure)

  // When the replies run out the server has stopped answering.
  function NextReply(replies: seq<Reply>): Reply {
    if replies == [] then NoAnswer else replies[0]
  }

  function Rest(replies: seq<Reply>): seq<Reply> {
    if replies == [] then [] else replies[1..]
  }

  // A cycle whose inspection brought a receipt of its current revision: a repair that was
  // under way is confirmed, and that is stored first.
  function Seen(c: Cycle, i: Inspection): Cycle {
    c.(receipt := Some(i.receipt), repair := if c.repair.Some? then Some(Confirmed) else None)
  }

  function Confirmation(c: Cycle, i: Inspection): seq<Cycle> {
    if c.repair.Some? && c.repair != Some(Confirmed) then [Seen(c, i)] else []
  }

  function Closed(c: Cycle, proof: Receipt): Cycle {
    c.(phase := Consumed, consumedAt := proof.completion.consumedAt, receipt := Some(proof))
  }

  // The condition a blocked cycle last saw.
  function ObservedCondition(c: Cycle): string {
    if c.blockedFingerprint.Some? then c.blockedFingerprint.value else c.fingerprint
  }

  predicate IdleTooLong(limits: Limits, c: Cycle, s: Session, nowMs: int) {
    !s.isProcessing && nowMs - DeliveredAt(c, nowMs) >= limits.recoveryMinAgeMs
  }

  predicate StuckTooLong(limits: Limits, s: Session, nowMs: int) {
    s.isProcessing && s.startedAt.Some? && nowMs - s.startedAt.value >= limits.recoveryMinAgeMs
  }

  // What judging the deadline stores, asks and answers; the reply is the one a recovery gets.
  predicate Judged(limits: Limits, c: Cycle, s: Session, nowMs: int, reply: Reply,
                   r: Result, added: seq<Cycle>, asked: seq<Call>)
    requires c.messageId.Some?
  {
    if IdleTooLong(limits, c, s, nowMs) || (StuckTooLong(limits, s, nowMs) && c.recoveryAttempts > 0) then
      r == Done(2) && added == [HardBlock(c)] && asked == []
    else if !StuckTooLong(limits, s, nowMs) then
      r == Done(0) && added == [c.(phase := Pending)] && asked == []
    else
      asked == [RecoverCall] &&
      match CheckRecovery(c.envelope, c.messageId.value, s, reply)
      case Failed(f) => r == Raised(f) && added == []
      case Got(None) => r == Done(0) && added == [c.(phase := Recovering, recoveryAttempts := 1)]
      case Got(Some(proof)) => r == Done(0) && added == [Closed(c.(recoveryAttempts := 1), proof)]
  }

  // The answer to the inspection that the next reply makes.
  function Inspected(c: Cycle, replies: seq<Reply>): Answer<Inspection>
    requires c.messageId.Some?
  {
    CheckInspection(c.envelope, c.messageId.value, NextReply(replies))
  }

  // A stale receipt that may be repaired: the attempt is stored, then made.
  predicate RepairBegun(c: Cycle, added: seq<Cycle>, asked: seq<Call>) {
    && added != [] && added[0] == c.(repair := Some(Attempted))
    && |asked| >= 2 && asked[0] == InspectCall && asked[1] == DeliverCall
  }

  // A settled inspection closes the cycle on proof, or the deadline is judged.
  predicate Decided(limits: Limits, c: Cycle, i: Inspection, nowMs: int, reply: Reply,
                    r: Result, added: seq<Cycle>, asked: seq<Call>)
    requires c.messageId.Some?
  {
    if i.delivery == ConsumedDelivery then r == Done(0) && added == [Closed(c, i.receipt)] && asked == []
    else Judged(limits, c, i.session, nowMs, reply, r, added, asked)
  }

  // What a sent cycle stores, asks and answers when nothing new is to be folded in.
  predicate Concluded(limits: Limits, c: Cycle, nowMs: int, replies: seq<Reply>,
                      r: Result, added: seq<Cycle>, asked: seq<Call>)
    requires c.messageId.Some?
  {
    match Inspected(c, replies)
    case Failed(f) => r == Raised(f) && added == [] && asked == [InspectCall]
    case Got(i) =>
      if i.stale then
        if MayRepair(c, i) then RepairBegun(c, added, asked)
        else r == Raised(Refuse) && added == [] && asked == [InspectCall]
      else
        var k := |Confirmation(c, i)|;
        && |added| >= k && added[..k] == Confirmation(c, i) && |asked| >= 1 && asked[0] == InspectCall
        && Decided(limits, Seen(c, i), i, nowMs, NextReply(Rest(replies)), r, added[k..], asked[1..])
  }

  // What sending newer incidents under the same message ID stores, asks and answers.
  predicate Redelivered(limits: Limits, c: Cycle, nowMs: int, replies: seq<Reply>,
                        r: Result, added: seq<Cycle>, asked: seq<Call>)
    requires c.messageId.Some?
  {
    && |asked| >= 1 && asked[0] == DeliverCall
    && match CheckDelivery(c.envelope, NextReply(replies), true)
       case Failed(f) => r == Raised(f) && added == [] && asked == [DeliverCall]
       case Got(v) =>
         if Some(v.messageId) != c.messageId then
           r == Raised(Refuse) && added == [] && asked == [DeliverCall]
         else if v.receipt.delivery == ConsumedDelivery then
           r == Done(0) && added == [Closed(c, v.receipt)] && asked == [DeliverCall]
         else
           Concluded(limits, c.(phase := Pending, receipt := Some(v.receipt), deliveredAt := v.receipt.deliveredAt),
                     nowMs, Rest(replies), r, added, asked[1..])
  }

  predicate Followed(limits: Limits, c: Cycle, batch: Batch, nowMs: int, replies: seq<Reply>,
                     r: Result, added: seq<Cycle>, asked: seq<Call>)
    requires c.messageId.Some?
  {
    var first := Inspected(c, replies);
    if first.Failed? || first.value.stale || first.value.delivery == ConsumedDelivery || Coalesced(c, batch) == c then
      Concluded(limits, c, nowMs, replies, r, added, asked)
    else
      var k := |Confirmation(c, first.value)|;
      && |added| >= k && added[..k] == Confirmation(c, first.value) && |asked| >= 1 && asked[0] == InspectCall
      && Redelivered(limits, Coalesced(Seen(c, first.value), batch), nowMs, Rest(replies), r, added[k..], asked[1..])
  }


  /** Proof closes a cycle: whatever else is to be reported, an inspection that brings proof of
      consumption ends in the consumed state with that very receipt and its time, exit code
      zero, and no further request. */
  lemma ProofCloses(limits: Limits, c: Cycle, batch: Batch, nowMs: int, replies: seq<Reply>,
                    r: Result, added: seq<Cycle>, asked: seq<Call>)
    requires c.messageId.Some? && Followed(limits, c, batch, nowMs, replies, r, added, asked)
    requires Inspected(c, replies).Got? && Inspected(c, replies).value.delivery == ConsumedDelivery
    ensures r == Done(0) && asked == [InspectCall] && added != []
    ensures var receipt, d := Inspected(c, replies).value.receipt, Latest(Some(c), added).value;
      && d.phase == Consumed && d.receipt == Some(receipt) && d.consumedAt == receipt.completion.consumedAt
      && d.messageId == c.messageId && d.fingerprint == c.fingerprint && d.recoveryAttempts == c.recoveryAttempts && Proven(d)
  {
    InspectionIsBound(c.envelope, c.messageId.value, NextReply(replies));
    var i := Inspected(c, replies).value;
    assert added == Confirmation(c, i) + [Closed(Seen(c, i), i.receipt)];
  }

  lemma JudgedExactly(limits: Limits, c: Cycle, s: Session, nowMs: int, reply: Reply,
                      r: Result, added: seq<Cycle>, asked: seq<Call>)
    requires c.messageId.Some? && ValidSession(s) && Judged(limits, c, s, nowMs, reply, r, added, asked)
    ensures var d := Latest(Some(c), added).value;
      var idle := !s.isProcessing && nowMs - DeliveredAt(c, nowMs) >= limits.recoveryMinAgeMs;
      var stuck := s.isProcessing && nowMs - s.startedAt.value >= limits.recoveryMinAgeMs;
      && asked == (if stuck && c.recoveryAttempts == 0 then [RecoverCall] else [])
      && (idle || (stuck && c.recoveryAttempts > 0) ==> d.phase == Blocked && r == Done(2))
      && (stuck && c.recoveryAttempts == 0 ==>
            (r.Raised? && d == c) || (r == Done(0) && d.recoveryAttempts == 1 && (d.phase == Recovering || d.phase == Consumed)))
      && (!idle && !stuck ==> d.phase == Pending && r == Done(0))
      && d.messageId == c.messageId && d.envelope == c.envelope && d.fingerprint == c.fingerprint
  {
    hide CheckRecovery;
  }

  /** The deadline, exactly: an unchanged batch and a current receipt without consumption
      block the cycle if and only if the session has been idle since the delivery for as long
      as the limit, or has been at work on one turn that long although it was recovered once.
      A session that long at work and never recovered gets exactly one recovery request;
      anything else leaves the cycle pending. */
  lemma DeadlineExactly(limits: Limits, c: Cycle, batch: Batch, nowMs: int, replies: seq<Reply>,
                        r: Result, added: seq<Cycle>, asked: seq<Call>)
    requires c.messageId.Some? && Outstanding(c.phase) && Followed(limits, c, batch, nowMs, replies, r, added, asked)
    requires Inspected(c, replies).Got?
    requires batch.retained || batch.fingerprint == c.fingerprint
    requires !Inspected(c, replies).value.stale && Inspected(c, replies).value.delivery != ConsumedDelivery
    ensures var s, d := Inspected(c, replies).value.session, Latest(Some(c), added).value;
      var idle := !s.isProcessing && nowMs - DeliveredAt(c, nowMs) >= limits.recoveryMinAgeMs;
      var stuck := s.isProcessing && nowMs - s.startedAt.value >= limits.recoveryMinAgeMs;
      && (d.phase == Blocked <==> idle || (stuck && c.recoveryAttempts > 0))
      && (d.phase == Blocked ==> r == Done(2))
      && asked == (if stuck && c.recoveryAttempts == 0 then [InspectCall, RecoverCall] else [InspectCall])
      && (stuck && c.recoveryAttempts == 0 ==> d.recoveryAttempts == 1 || (r.Raised? && d.phase == c.phase))
      && (!idle && !stuck ==> d.phase == Pending && r == Done(0))
      && d.messageId == c.messageId && d.envelope == c.envelope && d.fingerprint == c.fingerprint
  {
    hide CheckInspection, Judged, MayRepair, ConsumedProof, ValidReceipt, ValidSession, Redelivered;
    InspectionIsBound(c.envelope, c.messageId.value, NextReply(replies));
    var i := Inspected(c, replies).value;
    var k := |Confirmation(c, i)|;
    assert added == Confirmation(c, i) + added[k..];
    assert asked == [InspectCall] + asked[1..];
    JudgedExactly(limits, Seen(c, i), i.session, nowMs, NextReply(Rest(replies)), r, added[k..], asked[1..]);
  }

  /** A retry or a refusal at the first inspection leaves the cycle as it was.  A receipt of an
      older revision is repaired if and only if that was not tried before, the session is idle
      with nothing queued, and another turn of a generation no older than the delivery has
      finished after it; then the attempt is on record before anything is sent. */
  lemma UnsettledKeeps(limits: Limits, c: Cycle, batch: Batch, nowMs: int, replies: seq<Reply>,
                       r: Result, added: seq<Cycle>, asked: seq<Call>)
    requires c.messageId.Some? && Followed(limits, c, batch, nowMs, replies, r, added, asked)
    requires var first := Inspected(c, replies); first.Failed? || first.value.stale
    ensures var first := Inspected(c, replies);
      if first.Got? && c.repair.None? && !first.value.session.isProcessing && first.value.session.queueDepth == 0
         && first.value.session.lastFinalId.Some? && first.value.session.lastFinalId != c.messageId
         && first.value.receipt.deliveredAt.value < first.value.session.lastFinalAt.value
         && first.value.receipt.acceptedGeneration.value <= first.value.session.generation then
        asked[..2] == [InspectCall, DeliverCall] && added != [] && added[0].repair == Some(Attempted) && Continues(c, added[0])
      else
        r == Raised(if first.Failed? then first.failure else Refuse) && added == [] && asked == [InspectCall]
  {
    if Inspected(c, replies).Got? {
      InspectionIsBound(c.envelope, c.messageId.value, NextReply(replies));
    }
  }

  /** Newer incidents are sent under the same message ID once the outstanding message has
      been inspected, and whatever comes of it, no other message takes its place. */
  lemma ChangeIsSentOn(limits: Limits, c: Cycle, batch: Batch, nowMs: int, replies: seq<Reply>,
                       r: Result, added: seq<Cycle>, asked: seq<Call>)
    requires c.messageId.Some? && Followed(limits, c, batch, nowMs, replies, r, added, asked)
    requires Inspected(c, replies).Got?
    requires !Inspected(c, replies).value.stale && Inspected(c, replies).value.delivery != ConsumedDelivery
    requires !batch.retained && batch.fingerprint != c.fingerprint
    ensures |asked| >= 2 && asked[..2] == [InspectCall, DeliverCall]
    ensures var answer := CheckDelivery(c.envelope.(message := batch.envelope.message), NextReply(Rest(replies)), true);
      && (answer.Failed? ==> r == Raised(answer.failure) && asked == [InspectCall, DeliverCall])
      && (answer.Got? && Some(answer.value.messageId) != c.messageId ==> r == Raised(Refuse) && asked == [InspectCall, DeliverCall])
      && (answer.Got? && Some(answer.value.messageId) == c.messageId && answer.value.receipt.delivery == ConsumedDelivery ==>
            && r == Done(0) && asked == [InspectCall, DeliverCall]
            && var d := Latest(Some(c), added).value;
               d.phase == Consumed && d.receipt == Some(answer.value.receipt) && d.messageId == c.messageId
               && d.fingerprint == batch.fingerprint && d.envelope.message == batch.envelope.message)
  {
    var i := Inspected(c, replies).value;
    var k := |Confirmation(c, i)|;
    assert Coalesced(Seen(c, i), batch).envelope == c.envelope.(message := batch.envelope.message);
    assert asked == [InspectCall] + asked[1..];
    assert added == Confirmation(c, i) + added[k..];
  }

  // How the first inspection of an outstanding cycle ends a tick: proof closes the cycle, a
  // refusal blocks it, and silence leaves it for the next tick.
  predicate InspectedFirst(c: Cycle, replies: seq<Reply>, stored: Option<Cycle>, exitCode: nat, asked: seq<Call>)
    requires c.messageId.Some?
  {
    match Inspected(c, replies)
    case Failed(Retry) => stored == Some(c) && exitCode == 75 && asked == [InspectCall]
    case Failed(Refuse) => stored == Some(HardBlock(c)) && exitCode == 2 && asked == [InspectCall]
    case Got(i) =>
      i.delivery == ConsumedDelivery ==>
        && exitCode == 0 && asked == [InspectCall]
        && stored.Some? && stored.value.phase == Consumed && stored.value.receipt == Some(i.receipt)
        && stored.value.consumedAt == i.receipt.completion.consumedAt
  }

  // What is stored after a tick: a refusal blocks what the cycle left.
  function Absorbed(r: Result, left: Cycle): Cycle {
    if r == Raised(Refuse) then HardBlock(left) else left
  }

  function ExitCode(r: Result): nat {
    match r
    case Done(code) => code
    case Raised(Retry) => 75
    case Raised(Refuse) => 2
  }

  lemma FirstInspection(limits: Limits, c: Cycle, batch: Batch, nowMs: int, replies: seq<Reply>,
                        r: Result, added: seq<Cycle>, asked: seq<Call>)
    requires c.messageId.Some? && Followed(limits, c, batch, nowMs, replies, r, added, asked)
    ensures InspectedFirst(c, replies, Some(Absorbed(r, Latest(Some(c), added).value)), ExitCode(r), asked)
  {
    hide Followed, CheckInspection;
    var first := Inspected(c, replies);
    if first.Failed? {
      UnsettledKeeps(limits, c, batch, nowMs, replies, r, added, asked);
    } else if first.value.delivery == ConsumedDelivery {
      ProofCloses(limits, c, batch, nowMs, replies, r, added, asked);
    }
  }

  // An outstanding cycle goes on where it stood.
  predicate Resumes(batch: Batch, stored: Option<Cycle>) {
    stored.Some? && stored.value.current && Outstanding(stored.value.phase) && Matches(batch, stored.value)
  }

  // A consumed cycle stands: the same condition, woken again often enough or too recently.
  predicate Stands(limits: Limits, batch: Batch, nowMs: int, stored: Option<Cycle>) {
    && stored.Some? && stored.value.current && stored.value.phase == Consumed && Matches(batch, stored.value)
    && stored.value.fingerprint == batch.fingerprint
    && (stored.value.rewakeCount >= limits.maxRewakes
        || nowMs - ConsumedAt(stored.value, nowMs) < limits.rewakeQuietMs)
  }

  // What was under way is for another target, or of an older kind of file.
  predicate Displaced(batch: Batch, stored: Option<Cycle>) {
    stored.Some? && (!stored.value.current
                     || (!Matches(batch, stored.value) && (Outstanding(stored.value.phase) || stored.value.phase == Prepared)))
  }

  // Nothing is under way any more: a new cycle begins.
  predicate StartsOver(limits: Limits, batch: Batch, nowMs: int, stored: Option<Cycle>) {
    stored.Some? ==>
      && stored.value.current
      && if Matches(batch, stored.value) then
           stored.value.phase == ProbeDeferred
           || (stored.value.phase == Consumed && !Stands(limits, batch, nowMs, stored))
         else
           stored.value.phase == Consumed || stored.value.phase == ProbeDeferred || stored.value.phase == Blocked
  }

  // The next thing stored is a new cycle, and the next request its first delivery.
  predicate Restarts(before: seq<Cycle>, after: seq<Cycle>, callsBefore: seq<Call>, calls: seq<Call>) {
    && |before| < |after| && after[|before|].current && after[|before|].phase == Prepared
    && Begins(after[|before|]) && after[|before|].recoveryAttempts == 0 && after[|before|].repair.None?
    && |callsBefore| < |calls| && calls[|callsBefore|] == DeliverCall
  }

  // A new cycle carries what the batch asks for, and the failed probes counted so far.
  predicate BegunFor(batch: Batch, nowMs: int, before: Option<Cycle>, c: Cycle) {
    && c.envelope == batch.envelope && c.fingerprint == batch.fingerprint && c.preparedAt == nowMs
    && (before.Some? && before.value.phase == ProbeDeferred && Matches(batch, before.value) ==>
          c.probeFailures == before.value.probeFailures)
  }

  // The cycle after its first delivery.
  function Sent(c: Cycle, d: Delivery): Cycle {
    c.(messageId := Some(d.messageId), deliveredAt := d.receipt.deliveredAt, receipt := Some(d.receipt), probeFailures := 0,
       phase := if d.receipt.delivery == ConsumedDelivery then Consumed
                else if d.status == InState(PendingConsumption) || d.status == Duplicate then Pending else DeliveredPhase,
       consumedAt := if d.receipt.delivery == ConsumedDelivery then d.receipt.completion.consumedAt else c.consumedAt)
  }

  lemma SentIsSound(c: Cycle, d: Delivery)
    requires Sound(c) && c.current && c.phase == Prepared
    requires ValidReceipt(c.envelope, d.receipt, Some(d.messageId), true)
    requires d.receipt.delivery == ConsumedDelivery ==> ConsumedProof(c.envelope, d.receipt, d.messageId)
    ensures Sound(Sent(c, d)) && Continues(c, Sent(c, d)) && Sent(c, d).deliveredAt.Some?
    ensures Sent(c, d).messageId == Some(d.messageId) && Sent(c, d).receipt == Some(d.receipt) && Sent(c, d).probeFailures == 0
    ensures Sent(c, d).phase == Consumed <==> d.receipt.delivery == ConsumedDelivery
    ensures Sent(c, d).phase == Pending
       <==> d.receipt.delivery != ConsumedDelivery && (d.status == Duplicate || d.status == InState(PendingConsumption))
    ensures Outstanding(Sent(c, d).phase) || Sent(c, d).phase == Consumed
    ensures forall nowMs :: DeliveredAt(Sent(c, d), nowMs) == d.receipt.deliveredAt.value
  {
  }

  predicate MayRepair(c: Cycle, i: Inspection) {
    && i.receipt.delivery != ConsumedDelivery
    && !i.session.isProcessing && i.session.queueDepth == 0
    && i.session.lastFinalId.Some? && i.session.lastFinalId != c.messageId
    && i.session.lastFinalAt.Some? && i.receipt.deliveredAt.Some?
    && i.receipt.deliveredAt.value < i.session.lastFinalAt.value
    && i.receipt.acceptedGeneration.Some? && i.receipt.acceptedGeneration.value <= i.session.generation
    && c.repair.None?
  }

  lemma Since<T>(a: seq<T>, b: seq<T>, c: seq<T>)
    requires a + b <= c
    ensures a <= c && |b| <= |c[|a|..]| && c[|a|..][..|b|] == b && c[|a|..][|b|..] == c[|a + b|..]
  {
    assert c[|a|..][..|b|] == (a + b)[|a|..];
  }
}
