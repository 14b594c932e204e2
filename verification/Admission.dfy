/** The admission cycle of one target: prepare an envelope, deliver it, and wait for proof that
    exactly this envelope was consumed, with one bounded recovery and one bounded repair.
    Every step is persisted before the next one; the server's replies are arbitrary.
 */
module Admission {
  import opened Wrappers
  import opened AdmissionReceipt
  import opened AdmissionHistory
  import opened AdmissionOutcome

  // What a tick met before it came to the cycle of its target: the kill switch; a probe of
  // the controller that could not be made; a target, server or late kill switch that forbids
  // the cycle; a server that does not answer; or nothing.
  datatype Gate = SwitchedOff | ProbeFailed | Refused | Silent | Clear

  // Only controllers are probed.
  predicate ProbedOnly(batch: Batch, gate: Gate) {
    gate.ProbeFailed? ==> batch.envelope.target.targetType == "recovery-controller"
  }

  class AdmissionFile {
    const limits: Limits
    var stored: Option<Cycle>
    var replies: seq<Reply>
    var calls: seq<Call>
    ghost const start: Option<Cycle>
    ghost var written: seq<Cycle>

    ghost predicate Valid()
      reads this
    {
      && (stored.Some? ==> Sound(stored.value))
      && Chain(limits, start, written) && stored == Latest(start, written)
    }

    constructor (limits: Limits, stored: Option<Cycle>, replies: seq<Reply>)
      requires stored.Some? ==> Sound(stored.value)
      ensures Valid() && this.limits == limits && this.stored == stored && this.replies == replies
      ensures this.start == stored && written == [] && calls == []
    {
      this.limits, this.stored, this.replies, this.start := limits, stored, replies, stored;
      written, calls := [], [];
    }

    method Save(c: Cycle)
      requires Valid() && Linked(limits, stored, c)
      modifies this`stored, this`written
      ensures Valid() && stored == Some(c) && written == old(written) + [c]
    {
      ChainGrows(limits, start, written, c);
      stored := Some(c);
      written := written + [c];
    }

    // One request.
    method Ask(call: Call) returns (reply: Reply)
      modifies this`replies, this`calls
      ensures calls == old(calls) + [call]
      ensures reply == NextReply(old(replies)) && replies == Rest(old(replies))
    {
      calls := calls + [call];
      if replies == [] {
        return NoAnswer;
      }
      reply := replies[0];
      replies := replies[1..];
    }

    // Outstanding and linked: what every helper below starts from and ends in.
    ghost predicate Working(c: Cycle)
      reads this
    {
      && Valid() && c.current && c.messageId.Some? && c.recoveryAttempts <= 1
      && stored.Some? && Continues(stored.value, c)
    }

    // A cycle that has been sent, possibly already with proof of consumption.
    ghost predicate Live(c: Cycle)
      reads this
    {
      Working(c) && Sound(c) && (Outstanding(c.phase) || (c.phase == Consumed && c.repair.None?))
    }

    method Inspect(c: Cycle) returns (r: Answer<Inspection>)
      requires Working(c)
      modifies this`replies, this`calls
      ensures Working(c) && calls == old(calls) + [InspectCall]
      ensures replies == Rest(old(replies))
      ensures r == CheckInspection(c.envelope, c.messageId.value, NextReply(old(replies)))
      ensures r.Got? ==> BoundInspection(c.envelope, c.messageId.value, r.value)
    {
      var reply := Ask(InspectCall);
      r := CheckInspection(c.envelope, c.messageId.value, reply);
    }

    // A repair that was under way is confirmed once the receipt has caught up.
    method ConfirmRepair(c: Cycle, i: Inspection) returns (d: Cycle)
      requires Live(c) && BoundInspection(c.envelope, c.messageId.value, i)
      modifies this`stored, this`written
      ensures Live(d) && d == c.(repair := d.repair, receipt := d.receipt) && (c.repair.None? || i.stale ==> d == c)
      ensures written == old(written) + if i.stale then [] else Confirmation(c, i)
      ensures !i.stale ==> d.(receipt := Some(i.receipt)) == Seen(c, i)
    {
      d := c;
      if c.repair.Some? && c.repair != Some(Confirmed) && !i.stale {
        d := c.(repair := Some(Confirmed), receipt := Some(i.receipt));
        Save(d);
      }
    }

    /** One stale receipt may be repaired, once, by redelivering under the same message ID:
        only when the target is idle and another turn has finished since the delivery.  The
        attempt is on record before the request is made. */
    method Repair(c: Cycle, i: Inspection) returns (r: Answer<Inspection>, d: Cycle)
      requires Live(c) && BoundInspection(c.envelope, c.messageId.value, i)
      modifies this
      ensures Working(d) && d == c.(repair := d.repair, receipt := d.receipt, phase := d.phase)
      ensures (d.phase == c.phase || d.phase == Pending) && (r.Got? && d.phase == Consumed ==> d == c)
      ensures r.Got? ==> BoundInspection(d.envelope, d.messageId.value, r.value) && !r.value.stale
      ensures old(written) <= written && old(calls) <= calls
      ensures !i.stale || !MayRepair(c, i)
        ==> r == (if i.stale then Failed(Refuse) else Got(i)) && d == c && unchanged(this)
      ensures i.stale && MayRepair(c, i) ==>
        && |old(written)| < |written| && written[|old(written)|] == c.(repair := Some(Attempted))
        && |old(calls)| < |calls| && calls[|old(calls)|] == DeliverCall
      ensures i.stale && r.Got? ==>
        && stored == Some(d) && d == c.(repair := Some(Confirmed), receipt := Some(r.value.receipt), phase := Pending)
        && calls == old(calls) + [DeliverCall, InspectCall]
    {
      hide ConsumedProof, ValidSession, Chain;
      d := c;
      if !i.stale {
        return Got(i), d;
      }
      if !MayRepair(c, i) {
        return Failed(Refuse), d;
      }
      r, d := RepairOnce(c);
    }

    method RepairOnce(c: Cycle) returns (r: Answer<Inspection>, d: Cycle)
      requires Live(c) && c.repair.None?
      modifies this
      ensures Working(d) && d == c.(repair := d.repair, receipt := d.receipt, phase := d.phase)
      ensures d.phase == c.phase || d.phase == Pending
      ensures r.Got? ==> BoundInspection(d.envelope, d.messageId.value, r.value) && !r.value.stale
      ensures old(written) <= written && old(calls) <= calls
      ensures |old(written)| < |written| && written[|old(written)|] == c.(repair := Some(Attempted))
      ensures |old(calls)| < |calls| && calls[|old(calls)|] == DeliverCall
      ensures var answer := CheckDelivery(c.envelope, NextReply(old(replies)), false);
        if answer.Failed? || Some(answer.value.messageId) != c.messageId then
          && r == Failed(if answer.Failed? then answer.failure else Refuse)
          && written == old(written) + [d] && calls == old(calls) + [DeliverCall]
        else
          var again := Inspected(c, Rest(old(replies)));
          && calls == old(calls) + [DeliverCall, InspectCall]
          && (r.Got? <==> again.Got? && !again.value.stale) && (r.Got? ==> r == again)
      ensures r.Got? ==>
        && stored == Some(d) && d == c.(repair := Some(Confirmed), receipt := Some(r.value.receipt), phase := Pending)
        && calls == old(calls) + [DeliverCall, InspectCall]
    {
      hide ConsumedProof, ValidSession, ValidReceipt, Chain;
      d := c.(repair := Some(Attempted));
      Save(d);
      var reply := Ask(DeliverCall);
      var repaired := CheckDelivery(d.envelope, reply, false);
      if repaired.Failed? {
        return Failed(repaired.failure), d;
      }
      if Some(repaired.value.messageId) != d.messageId {
        return Failed(Refuse), d;
      }
      d := d.(repair := Some(Acknowledged), receipt := Some(repaired.value.receipt), phase := Pending);
      Save(d);
      r := Inspect(d);
      if r.Failed? {
        return;
      }
      if r.value.stale {
        return Failed(Refuse), d;
      }
      d := d.(repair := Some(Confirmed), receipt := Some(r.value.receipt));
      Save(d);
    }

    // Inspect, confirm, repair.
    method Settle(c: Cycle) returns (r: Answer<Inspection>, d: Cycle)
      requires Live(c)
      modifies this
      ensures Working(d) && d == c.(repair := d.repair, receipt := d.receipt, phase := d.phase)
      ensures (d.phase == c.phase || d.phase == Pending) && (r.Got? && d.phase == Consumed ==> d == c)
      ensures r.Got? ==> BoundInspection(d.envelope, d.messageId.value, r.value)
      ensures old(written) <= written && |old(calls)| < |calls| && calls[..|old(calls)| + 1] == old(calls) + [InspectCall]
      ensures var first := Inspected(c, old(replies));
        if first.Failed? || (first.value.stale && !MayRepair(c, first.value)) then
          && r == Failed(if first.Failed? then first.failure else Refuse) && d == c
          && written == old(written) && calls == old(calls) + [InspectCall]
        else if first.value.stale then
          RepairBegun(c, written[|old(written)|..], calls[|old(calls)|..])
        else
          && r == first && d.(receipt := Some(first.value.receipt)) == Seen(c, first.value)
          && written == old(written) + Confirmation(c, first.value) && calls == old(calls) + [InspectCall]
          && replies == Rest(old(replies))
    {
      hide BoundInspection, Sound, Continues, Chain, MayRepair, CheckInspection;
      r := Inspect(c);
      d := c;
      if r.Failed? {
        return;
      }
      d := ConfirmRepair(c, r.value);
      r, d := Repair(d, r.value);
    }

    // Close the cycle on proof.
    method Consume(c: Cycle, proof: Receipt)
      requires Working(c) && ConsumedProof(c.envelope, proof, c.messageId.value)
      modifies this`stored, this`written
      ensures Valid() && stored == Some(Closed(c, proof)) && written == old(written) + [Closed(c, proof)]
    {
      Save(c.(phase := Consumed, consumedAt := proof.completion.consumedAt, receipt := Some(proof)));
    }

    // First delivery of a prepared envelope; `more` says whether to go on inspecting.
    method FirstDelivery(c: Cycle, nowMs: int) returns (r: Result, d: Cycle, more: bool)
      requires Valid() && c.current && c.phase == Prepared && Linked(limits, stored, c)
      modifies this
      ensures Valid() && old(written) <= written && old(calls) <= calls
      ensures more ==> Live(d)
      ensures Restarts(old(written), written, old(calls), calls) || !Begins(c)
      ensures var answer := CheckDelivery(c.envelope, NextReply(old(replies)), true);
        if answer.Failed? then
          r == Raised(answer.failure) && !more && written == old(written) + [c] && calls == old(calls) + [DeliverCall]
        else if answer.value.stale then
          old(written) + [c, Sent(c, answer.value)] <= written && old(calls) + [DeliverCall, InspectCall] <= calls
        else
          && r == Done(0) && d == Sent(c, answer.value)
          && (more <==> answer.value.status == Duplicate || nowMs > answer.value.receipt.deliveredAt.value)
          && written == old(written) + [c, d] && calls == old(calls) + [DeliverCall]
    {
      hide ConsumedProof, ValidReceipt, Chain;
      Save(c);
      r, d, more := Done(0), c, false;
      var reply := Ask(DeliverCall);
      var answer := CheckDelivery(c.envelope, reply, true);
      if answer.Failed? {
        return Raised(answer.failure), d, false;
      }
      DeliveryIsBound(c.envelope, reply, true);
      var delivery := answer.value;
      d := Sent(c, delivery);
      SentIsSound(c, delivery);
      Save(d);
      if delivery.stale {
        r, d, more := SettleFirst(d);
      } else {
        more := delivery.status == Duplicate || nowMs > d.deliveredAt.value;
      }
    }

    // A first delivery that met an older revision is settled at once.
    method SettleFirst(c: Cycle) returns (r: Result, d: Cycle, more: bool)
      requires Live(c) && Outstanding(c.phase)
      modifies this
      ensures Valid() && old(written) <= written && old(calls) + [InspectCall] <= calls
      ensures more ==> Live(d) && r == Done(0)
      ensures var first := Inspected(c, old(replies));
        && (first.Failed? ==> r == Raised(first.failure) && !more && written == old(written) && calls == old(calls) + [InspectCall])
        && (first.Got? && first.value.delivery == ConsumedDelivery && !first.value.stale ==>
              r == Done(0) && !more && stored == Some(Closed(Seen(c, first.value), first.value.receipt))
              && calls == old(calls) + [InspectCall])
    {
      hide ConsumedProof, ValidReceipt, Chain;
      var settled;
      settled, d := Settle(c);
      if settled.Failed? {
        return Raised(settled.failure), d, false;
      }
      if settled.value.delivery == ConsumedDelivery {
        Consume(d, settled.value.receipt);
        return Done(0), d, false;
      }
      r, more := Done(0), true;
    }

    // Everything after the first delivery: settle, coalesce, and judge the deadline.
    method Follow(c: Cycle, batch: Batch, nowMs: int) returns (r: Result)
      requires Live(c)
      modifies this
      ensures Valid() && old(written) <= written && old(calls) <= calls
      ensures Followed(limits, c, batch, nowMs, old(replies), r, written[|old(written)|..], calls[|old(calls)|..])
    {
      hide Sound, ConsumedProof, ValidReceipt, ValidSession, Chain, Decided, Redelivered, MayRepair, CheckInspection;
      var settled, d := Settle(c);
      if settled.Failed? {
        return Raised(settled.failure);
      }
      d := d.(receipt := Some(settled.value.receipt));
      ghost var written', calls' := written, calls;
      var e := Coalesced(d, batch);
      if settled.value.delivery == ConsumedDelivery || e == d {
        r := Decide(d, settled.value, nowMs);
      } else {
        r := Redeliver(e, nowMs);
      }
      Since(old(written), written'[|old(written)|..], written);
      Since(old(calls), calls'[|old(calls)|..], calls);
    }

    // Newer incidents go out under the same message ID, and the answer is inspected anew.
    method Redeliver(c: Cycle, nowMs: int) returns (r: Result)
      requires Working(c)
      modifies this
      ensures Valid() && old(written) <= written && old(calls) <= calls
      ensures Redelivered(limits, c, nowMs, old(replies), r, written[|old(written)|..], calls[|old(calls)|..])
    {
      hide ConsumedProof, ValidReceipt, ValidSession, Chain, Concluded, CheckDelivery;
      var reply := Ask(DeliverCall);
      var answer := CheckDelivery(c.envelope, reply, true);
      if answer.Failed? {
        return Raised(answer.failure);
      }
      DeliveryIsBound(c.envelope, reply, true);
      var delivery := answer.value;
      if Some(delivery.messageId) != c.messageId {
        return Raised(Refuse);
      }
      if delivery.receipt.delivery == ConsumedDelivery {
        Consume(c, delivery.receipt);
        return Done(0);
      }
      var d := c.(phase := Pending, receipt := Some(delivery.receipt), deliveredAt := delivery.receipt.deliveredAt);
      r := Conclude(d, nowMs);
    }

    // Settle once more, then close the cycle or judge the deadline.
    method Conclude(c: Cycle, nowMs: int) returns (r: Result)
      requires Live(c)
      modifies this
      ensures Valid() && old(written) <= written && old(calls) <= calls
      ensures Concluded(limits, c, nowMs, old(replies), r, written[|old(written)|..], calls[|old(calls)|..])
    {
      hide Sound, ConsumedProof, ValidReceipt, ValidSession, Chain, Decided, MayRepair, CheckInspection;
      var settled, d := Settle(c);
      if settled.Failed? {
        return Raised(settled.failure);
      }
      ghost var written', calls' := written, calls;
      r := Decide(d.(receipt := Some(settled.value.receipt)), settled.value, nowMs);
      Since(old(written), written'[|old(written)|..], written);
      Since(old(calls), calls'[|old(calls)|..], calls);
    }

    // Close the cycle on proof, or judge the deadline.
    method Decide(c: Cycle, i: Inspection, nowMs: int) returns (r: Result)
      requires Working(c) && BoundInspection(c.envelope, c.messageId.value, i)
      modifies this
      ensures Valid() && old(written) <= written && old(calls) <= calls
      ensures Decided(limits, c, i, nowMs, NextReply(old(replies)), r, written[|old(written)|..], calls[|old(calls)|..])
    {
      hide ConsumedProof, Chain, Judged;
      if i.delivery == ConsumedDelivery {
        Consume(c, i.receipt);
        return Done(0);
      }
      r := Judge(c, i, nowMs);
    }

    // Too long idle: blocked.  Too long at work: one recovery, then blocked.
    method Judge(c: Cycle, i: Inspection, nowMs: int) returns (r: Result)
      requires Working(c) && BoundInspection(c.envelope, c.messageId.value, i)
      modifies this
      ensures Valid() && old(written) <= written && old(calls) <= calls
      ensures Judged(limits, c, i.session, nowMs, NextReply(old(replies)), r, written[|old(written)|..], calls[|old(calls)|..])
      ensures r.Raised? ==> stored == old(stored)
    {
      hide ConsumedProof, ValidReceipt, Chain, CheckRecovery;
      var session := i.session;
      var stuck := session.isProcessing && nowMs - session.startedAt.value >= limits.recoveryMinAgeMs;
      if !session.isProcessing && nowMs - DeliveredAt(c, nowMs) >= limits.recoveryMinAgeMs {
        Save(HardBlock(c));
        return Done(2);
      }
      if stuck && c.recoveryAttempts == 0 {
        r := Recover(c, session);
        return;
      }
      if stuck {
        Save(HardBlock(c));
        return Done(2);
      }
      Save(c.(phase := Pending));
      r := Done(0);
    }

    // The one recovery: it may meet proof of consumption, or only have begun.
    method Recover(c: Cycle, session: Session) returns (r: Result)
      requires Working(c) && c.recoveryAttempts == 0
      modifies this
      ensures Valid() && calls == old(calls) + [RecoverCall]
      ensures match CheckRecovery(c.envelope, c.messageId.value, session, NextReply(old(replies)))
        case Failed(f) => r == Raised(f) && written == old(written) && stored == old(stored)
        case Got(None) => r == Done(0) && written == old(written) + [c.(phase := Recovering, recoveryAttempts := 1)]
        case Got(Some(proof)) => r == Done(0) && written == old(written) + [Closed(c.(recoveryAttempts := 1), proof)]
    {
      hide ConsumedProof, ValidReceipt, Chain;
      var reply := Ask(RecoverCall);
      var recovery := CheckRecovery(c.envelope, c.messageId.value, session, reply);
      if recovery.Failed? {
        return Raised(recovery.failure);
      }
      if recovery.value.Some? {
        Consume(c.(recoveryAttempts := 1), recovery.value.value);
        return Done(0);
      }
      Save(c.(phase := Recovering, recoveryAttempts := 1));
      r := Done(0);
    }

    // A block for the same target stays, unanswered by any request; a changed condition is
    // recorded and has to be acknowledged again.
    method KeepBlock(c: Cycle, batch: Batch) returns (r: Result)
      requires Valid() && stored == Some(c) && c.phase == Blocked
      modifies this`stored, this`written
      ensures Valid() && old(written) <= written && old(calls) <= calls && r.Done?
      ensures stored.Some? && stored.value.phase == Blocked && Continues(c, stored.value)
      ensures var known := if batch.retained then c.fingerprint else batch.fingerprint;
        if known == ObservedCondition(c) && c.blockAcknowledged then r == Done(0) && written == old(written)
        else r == Done(2) && stored == Some(c.(blockedFingerprint := Some(known), blockAcknowledged := known == ObservedCondition(c)))
    {
      var incoming := if batch.retained then c.fingerprint else batch.fingerprint;
      var observed := ObservedCondition(c);
      if incoming != observed {
        Save(c.(blockedFingerprint := Some(incoming), blockAcknowledged := false));
        return Done(2);
      }
      if !c.blockAcknowledged {
        Save(c.(blockedFingerprint := Some(incoming), blockAcknowledged := true));
        return Done(2);
      }
      r := Done(0);
    }

    // Where the cycle stands when the batch arrives: finished for now, or a cycle to go on with.
    method Open(batch: Batch, nowMs: int) returns (finished: Option<Result>, c: Cycle)
      requires Valid()
      modifies this`stored, this`written
      ensures Valid() && old(written) <= written && old(calls) <= calls
      ensures old(stored).Some? && old(stored).value.current && old(stored).value.phase == Blocked && Matches(batch, old(stored).value)
        ==> finished.Some? && stored.Some? && stored.value.phase == Blocked && Continues(old(stored).value, stored.value)
      ensures finished.Some? ==> finished.value.Done?
      ensures old(stored).Some? && old(stored).value.current && old(stored).value.phase == ProbeDeferred
        ==> finished.None? && c.phase == Prepared && written == old(written)
      ensures finished.None? ==> c.current && (Live(c) || (c.phase == Prepared && Linked(limits, stored, c)))
      ensures Resumes(batch, old(stored)) ==> finished.None? && c == old(stored).value && written == old(written)
      ensures Stands(limits, batch, nowMs, old(stored)) ==> finished == Some(Done(0)) && written == old(written)
      ensures Displaced(batch, old(stored)) ==> finished == Some(Done(2)) && written == old(written) + [HardBlock(old(stored).value)]
      ensures StartsOver(limits, batch, nowMs, old(stored)) ==>
        && finished.None? && c == PreparedCycle(batch, nowMs).(rewakeCount := c.rewakeCount, probeFailures := c.probeFailures)
        && (written == old(written) || written == old(written) + [c])
        && BegunFor(batch, nowMs, old(stored), c)
    {
      hide ConsumedProof, Chain, SameTarget;
      c := PreparedCycle(batch, nowMs);
      finished := None;
      if stored.None? {
        return;
      }
      var state := stored.value;
      if !state.current {
        Save(HardBlock(state));
        return Some(Done(2)), c;
      }
      if state.phase == Blocked {
        if Matches(batch, state) {
          var r := KeepBlock(state, batch);
          finished := Some(r);
        }
        return;
      }
      if !Matches(batch, state) {
        if Outstanding(state.phase) || state.phase == Prepared {
          Save(HardBlock(state));
          finished := Some(Done(2));
        }
        return;
      }
      if state.phase == Consumed && state.fingerprint == batch.fingerprint {
        if state.rewakeCount >= limits.maxRewakes || nowMs - ConsumedAt(state, nowMs) < limits.rewakeQuietMs {
          return Some(Done(0)), c;
        }
        c := c.(rewakeCount := state.rewakeCount + 1);
        Save(c);
        return;
      }
      if state.phase == Consumed || state.phase == ProbeDeferred {
        c := c.(probeFailures := state.probeFailures);
        return;
      }
      c := if state.phase == Prepared then Coalesced(state, batch) else state;
    }

    /** One cycle against arbitrary replies.  Whatever the server answers, every state it
        writes is sound and linked to the one before; and a block for the same target is kept
        without a single request. */
    method ProcessCycle(batch: Batch, nowMs: int) returns (r: Result)
      requires Valid()
      modifies this
      ensures Valid() && old(written) <= written && old(calls) <= calls
      ensures old(stored).Some? && old(stored).value.current && old(stored).value.phase == Blocked && Matches(batch, old(stored).value)
        ==> calls == old(calls) && r.Done? && stored.Some? && stored.value.phase == Blocked
            && Continues(old(stored).value, stored.value)
      ensures Resumes(batch, old(stored)) ==>
        Followed(limits, old(stored).value, batch, nowMs, old(replies), r, written[|old(written)|..], calls[|old(calls)|..])
      ensures Stands(limits, batch, nowMs, old(stored)) ==> r == Done(0) && written == old(written) && calls == old(calls)
      ensures Displaced(batch, old(stored)) ==>
        r == Done(2) && written == old(written) + [HardBlock(old(stored).value)] && calls == old(calls)
      ensures old(stored).Some? && old(stored).value.current && old(stored).value.phase == ProbeDeferred
        ==> Restarts(old(written), written, old(calls), calls)
      ensures StartsOver(limits, batch, nowMs, old(stored)) ==>
        Restarts(old(written), written, old(calls), calls) && BegunFor(batch, nowMs, old(stored), written[|old(written)|])
      ensures old(stored).Some? && old(stored).value.current && old(stored).value.phase == Consumed && Matches(batch, old(stored).value)
              && old(stored).value.fingerprint == batch.fingerprint ==>
        (calls != old(calls) <==>
         old(stored).value.rewakeCount < limits.maxRewakes
         && nowMs - ConsumedAt(old(stored).value, nowMs) >= limits.rewakeQuietMs)
    {
      hide Sound, Chain, Linked, Continues, Followed, CheckDelivery, Sent, SameTarget, ConsumedAt, BegunFor;
      var finished, c := Open(batch, nowMs);
      if finished.Some? {
        return finished.value;
      }
      if c.phase == Prepared {
        var more;
        r, c, more := FirstDelivery(c, nowMs);
        if !more {
          return;
        }
      }
      r := Follow(c, batch, nowMs);
    }

    // What the tick is about: the stored cycle, or a new one for the batch.
    ghost function Subject(batch: Batch, nowMs: int): Cycle
      reads this
    {
      if stored.Some? then stored.value else PreparedCycle(batch, nowMs)
    }

    /** One tick for this target: what went wrong is left to a retry, defers the cycle, or
        becomes a block.  A block for the same target stays a block, without a request, except
        when the probe of its controller fails while there is budget left. */
    method Tick(batch: Batch, gate: Gate, nowMs: int) returns (exitCode: nat)
      requires Valid() && ProbedOnly(batch, gate)
      modifies this
      ensures Valid() && old(written) <= written && old(calls) <= calls
      ensures gate.SwitchedOff? ==> written == old(written) && stored == old(stored)
      ensures gate.Refused? ==> stored == Some(HardBlock(old(Subject(batch, nowMs))))
      ensures gate.Silent? ==> stored == Some(old(Subject(batch, nowMs))) && exitCode == 75
      ensures gate.ProbeFailed? ==> written == old(written) + [Deferral(limits, old(Subject(batch, nowMs)))]
      ensures !gate.Clear? ==> calls == old(calls) && (exitCode == if gate.Silent? then 75 else 2)
      ensures gate.Clear? && Resumes(batch, old(stored)) ==> InspectedFirst(old(stored).value, old(replies), stored, exitCode, calls[|old(calls)|..])
      ensures gate.Clear? && old(stored).Some? && old(stored).value.current && old(stored).value.phase == ProbeDeferred
        ==> Restarts(old(written), written, old(calls), calls)
      ensures old(stored).Some? && old(stored).value.current && old(stored).value.phase == Blocked && Matches(batch, old(stored).value)
        ==> calls == old(calls) && stored.Some? && Continues(old(stored).value, stored.value)
            && stored.value.phase
               == if gate.ProbeFailed? && old(stored).value.probeFailures + 1 < limits.maxProbeFailures then ProbeDeferred else Blocked
    {
      hide Sound, Chain, Renews;
      if gate.SwitchedOff? {
        return 2;
      }
      var c := if stored.Some? then stored.value else PreparedCycle(batch, nowMs);
      SubjectLinked(limits, stored, batch, nowMs);
      match gate {
        case ProbeFailed =>
          Save(Deferral(limits, c));
          exitCode := 2;
        case Refused =>
          Save(HardBlock(c));
          exitCode := 2;
        case Silent =>
          Save(c);
          exitCode := 75;
        case Clear =>
          exitCode := TickThrough(batch, nowMs);
      }
    }

    // Nothing stands in the way of the cycle itself.
    method TickThrough(batch: Batch, nowMs: int) returns (exitCode: nat)
      requires Valid()
      modifies this
      ensures Valid() && old(written) <= written && old(calls) <= calls
      ensures old(stored).Some? && old(stored).value.current && old(stored).value.phase == Blocked && Matches(batch, old(stored).value)
        ==> calls == old(calls) && stored.Some? && stored.value.phase == Blocked
            && Continues(old(stored).value, stored.value)
      ensures old(stored).Some? && old(stored).value.current && old(stored).value.phase == ProbeDeferred
        ==> Restarts(old(written), written, old(calls), calls)
      ensures Resumes(batch, old(stored)) ==> InspectedFirst(old(stored).value, old(replies), stored, exitCode, calls[|old(calls)|..])
    {
      assert Resumes(batch, stored) ==> stored.value.messageId.Some?;
      hide Sound, Chain, Linked, Continues, Followed, CheckInspection, InspectedFirst, Matches, StartsOver, Stands, Displaced, BegunFor;
      var r := ProcessCycle(batch, nowMs);
      ghost var added, asked := written[|old(written)|..], calls[|old(calls)|..];
      assert old(stored).Some? ==> stored == Latest(old(stored), added);
      if Resumes(batch, old(stored)) {
        FirstInspection(limits, old(stored).value, batch, nowMs, old(replies), r, added, asked);
      }
      exitCode := Absorb(r, batch, nowMs);
    }

    // What went wrong in a cycle is left to the next tick, or becomes a block.
    method Absorb(r: Result, batch: Batch, nowMs: int) returns (exitCode: nat)
      requires Valid()
      modifies this`stored, this`written
      ensures Valid() && old(written) <= written
      ensures exitCode == ExitCode(r)
      ensures if r.Done? then written == old(written) else stored == Some(Absorbed(r, old(Subject(batch, nowMs))))
    {
      hide Sound, Chain, Linked, Continues;
      if r.Done? {
        return r.exitCode;
      }
      var c := if stored.Some? then stored.value else PreparedCycle(batch, nowMs);
      SubjectLinked(limits, stored, batch, nowMs);
      if r.failure == Retry {
        Save(c);
        return 75;
      }
      Save(HardBlock(c));
      exitCode := 2;
    }

    /** Any number of ticks with arbitrary batches, gates and replies: the whole history of
        what was persisted is one chain of sound, linked states. */
    method Run(batches: seq<Batch>, gates: seq<Gate>, times: seq<int>)
      requires Valid() && |batches| == |gates| == |times|
      requires forall i :: 0 <= i < |batches| ==> ProbedOnly(batches[i], gates[i])
      modifies this
      ensures Valid() && old(written) <= written && Chain(limits, start, written)
    {
      for i := 0 to |batches|
        invariant Valid() && old(written) <= written && old(calls) <= calls
      {
        var exitCode := Tick(batches[i], gates[i], times[i]);
      }
    }

    /** One failed probe while there is budget left, and the next tick drops what was stored:
        an outstanding message, or a block that is meant to last, gives way to a new cycle for
        the same target, which knows neither the message nor the recovery or repair already
        spent on it. */
    method ProbeFailsOnce(batch: Batch, nowMs: int, later: int) returns (exitCodes: (nat, nat))
      requires Valid() && ProbedOnly(batch, ProbeFailed)
      requires stored.Some? && stored.value.current && Matches(batch, stored.value)
      requires stored.value.phase == Blocked || Outstanding(stored.value.phase)
      requires stored.value.probeFailures + 1 < limits.maxProbeFailures
      modifies this
      ensures Valid() && old(written) <= written && old(calls) <= calls
      ensures var k := |old(written)|;
        && k + 1 < |written| && GivesUp(written, k)
        && written[k] == old(stored).value.(phase := ProbeDeferred, probeFailures := old(stored).value.probeFailures + 1)
        && written[k + 1].messageId.None? && written[k + 1].recoveryAttempts == 0 && written[k + 1].repair.None?
      ensures |old(calls)| < |calls| && calls[|old(calls)|] == DeliverCall
    {
      hide Sound, Chain, Renews, Continues;
      var first := Tick(batch, ProbeFailed, nowMs);
      var second := Tick(batch, Clear, later);
      exitCodes := (first, second);
    }
  }
}
