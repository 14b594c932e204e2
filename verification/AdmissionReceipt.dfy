/** What the admission lane accepts as an answer: receipts bound to the exact target, scope,
    message and content, and sessions whose timing makes sense.  Replies are arbitrary.
 */
module AdmissionReceipt {
  import opened Wrappers

  datatype Target = Target(targetType: string, kind: string, session: string, generation: string, project: Option<string>)

  datatype Scope = Scope(matcher: string, action: string, occurrence: string, key: string)

  // SHA-256 of the message text, taken as injective; anything else a server might send.
  datatype Revision = RevisionOf(message: string) | OtherRevision(text: string) | MalformedRevision

  datatype DeliveryState = Delivered | PendingConsumption | ConsumedDelivery | OtherDelivery

  // Fields of a receipt that only a completed one may carry.
  datatype Completion = Completion(
    revision: Option<Revision>, generation: Option<int>, messageId: Option<string>, messageAt: Option<int>, consumedAt: Option<int>)

  const NO_COMPLETION := Completion(None, None, None, None, None)

  datatype Receipt = Receipt(
    workspace: string, kind: string, session: string, targetId: string, generation: string, scope: Scope,
    messageId: Option<string>, revision: Revision, delivery: DeliveryState, deliveredAt: Option<int>,
    acceptedGeneration: Option<int>, completion: Completion)

  // The envelope a cycle stands for: where it goes and what it says.
  datatype Envelope = Envelope(workspace: string, target: Target, scope: Scope, message: string)

  predicate ValidScope(s: Scope) {
    s.matcher != "" && s.action != "" && s.occurrence != "" && s.key != ""
  }

  predicate Addressed(e: Envelope, r: Receipt) {
    && r.workspace == e.workspace && r.session == e.target.session && r.kind == e.target.kind
    && r.targetId == e.target.session && r.generation == e.target.generation && r.scope == e.scope
  }

  predicate Stale(e: Envelope, r: Receipt) {
    r.revision != RevisionOf(e.message)
  }

  predicate ValidReceipt(e: Envelope, r: Receipt, messageId: Option<string>, allowStale: bool) {
    && Addressed(e, r)
    && (messageId.Some? ==> r.messageId == messageId)
    && r.revision != MalformedRevision
    && (Stale(e, r) ==> allowStale && r.delivery != ConsumedDelivery)
    && (r.delivery != ConsumedDelivery ==> r.completion == NO_COMPLETION)
    && r.delivery != OtherDelivery
    && r.deliveredAt.Some? && 0 < r.deliveredAt.value
    && r.acceptedGeneration.Some? && 0 <= r.acceptedGeneration.value
  }

  predicate ConsumedProof(e: Envelope, r: Receipt, messageId: string) {
    && ValidReceipt(e, r, Some(messageId), false)
    && r.delivery == ConsumedDelivery
    && r.completion.revision == Some(r.revision)
    && r.completion.generation.Some? && 0 <= r.completion.generation.value
    && r.completion.messageId.Some? && r.completion.messageId.value != "" && r.completion.messageId != r.messageId
    && r.completion.messageAt.Some? && r.deliveredAt.value <= r.completion.messageAt.value
    && r.completion.consumedAt.Some? && r.completion.messageAt.value <= r.completion.consumedAt.value
  }

  /** A receipt is valid exactly when nothing in it but the message, the content and the
      delivery is open: it names workspace, target and scope of the envelope; and an older
      revision is put up with only where that is allowed, and never as consumed. */
  lemma ReceiptExactly(e: Envelope, r: Receipt, messageId: string, allowStale: bool)
    ensures ValidReceipt(e, r, Some(messageId), allowStale) <==>
      && r == Receipt(e.workspace, e.target.kind, e.target.session, e.target.session, e.target.generation, e.scope,
                      Some(messageId), r.revision, r.delivery, r.deliveredAt, r.acceptedGeneration, r.completion)
      && (r.revision == RevisionOf(e.message) || (allowStale && r.revision != MalformedRevision && r.delivery != ConsumedDelivery))
      && (r.delivery == ConsumedDelivery
          || (r.delivery in {Delivered, PendingConsumption} && r.completion == Completion(None, None, None, None, None)))
      && r.deliveredAt.Some? && 0 < r.deliveredAt.value && r.acceptedGeneration.Some? && 0 <= r.acceptedGeneration.value
  {
  }

  /** A receipt proves consumption exactly when it is a valid one of the current content that
      is marked consumed and tells of a later message, by another ID, that answered it. */
  lemma ProofExactly(e: Envelope, r: Receipt, messageId: string)
    ensures ConsumedProof(e, r, messageId) <==>
      && ValidReceipt(e, r, Some(messageId), true) && r.delivery == ConsumedDelivery
      && var c := r.completion;
         && c.revision == Some(RevisionOf(e.message)) && c.generation.Some? && 0 <= c.generation.value
         && c.messageId.Some? && c.messageId.value != "" && c.messageId.value != messageId
         && c.messageAt.Some? && c.consumedAt.Some? && r.deliveredAt.value <= c.messageAt.value <= c.consumedAt.value
  {
  }

  /** What a proof of consumption establishes: the very target, generation and scope, the
      message that was sent, and the content it had - all three times in order. */
  lemma ProofIsExact(e: Envelope, r: Receipt, messageId: string)
    requires ConsumedProof(e, r, messageId)
    ensures r.session == e.target.session && r.generation == e.target.generation && r.scope == e.scope
    ensures r.messageId == Some(messageId) && r.revision == RevisionOf(e.message) == r.completion.revision.value
    ensures r.deliveredAt.value <= r.completion.messageAt.value <= r.completion.consumedAt.value
  {
  }

  datatype Session = Session(
    isProcessing: bool, generation: int, startedAt: Option<int>, queueDepth: int, ageMs: Option<int>,
    lastFinalId: Option<string>, lastFinalAt: Option<int>)

  predicate ValidSession(s: Session) {
    && 0 <= s.generation
    && (if s.isProcessing then s.startedAt.Some? && 0 < s.startedAt.value && s.ageMs.Some? && 0 <= s.ageMs.value
        else s.startedAt.None? && s.ageMs.None?)
    && 0 <= s.queueDepth
    && (s.lastFinalId.Some? <==> s.lastFinalAt.Some?)
    && (s.lastFinalId.Some? ==> s.lastFinalId.value != "" && 0 < s.lastFinalAt.value)
  }

  /** A session at work says since when and for how long, one at rest says neither, and a last
      answer has an ID and a time or is missing altogether. */
  lemma SessionExactly(s: Session)
    ensures ValidSession(s) <==>
      && 0 <= s.generation && 0 <= s.queueDepth
      && (s.isProcessing ==> s.startedAt.Some? && s.ageMs.Some? && 0 < s.startedAt.value && 0 <= s.ageMs.value)
      && (!s.isProcessing ==> s.startedAt == None && s.ageMs == None)
      && ((s.lastFinalId == None && s.lastFinalAt == None)
          || (s.lastFinalId.Some? && s.lastFinalAt.Some? && s.lastFinalId != Some("") && 0 < s.lastFinalAt.value))
  {
  }

  // ---------------------------------------------------------------- replies

  datatype Status = Busy | Refused | Duplicate | Missing | Recovered | InState(delivery: DeliveryState)

  datatype Reply =
    | NoAnswer
    | DeliverReply(status: Status, messageId: Option<string>, receipt: Option<Receipt>)
    | InspectReply(status: Status, receipt: Option<Receipt>, session: Option<Session>)
    | RecoverReply(status: Status, messageId: Option<string>, receipt: Option<Receipt>, reason: string,
                   previousGeneration: Option<int>, generation: Option<int>)

  // A retry leaves the cycle as it is; a refusal blocks it.
  datatype Failure = Retry | Refuse

  datatype Answer<+T> = Got(value: T) | Failed(failure: Failure)

  datatype Delivery = Delivery(status: Status, messageId: string, receipt: Receipt, stale: bool)

  function CheckDelivery(e: Envelope, reply: Reply, allowStale: bool): Answer<Delivery> {
    if !ValidScope(e.scope) then Failed(Refuse)
    else if reply.NoAnswer? then Failed(Retry)
    else if !reply.DeliverReply? then Failed(Refuse)
    else if reply.status == Busy then Failed(Retry)
    else if !(reply.status == Duplicate || (reply.status.InState? && reply.status.delivery != OtherDelivery)) then Failed(Refuse)
    else if reply.receipt.None? || !ValidReceipt(e, reply.receipt.value, None, allowStale) then Failed(Refuse)
    else
      var r := reply.receipt.value;
      var messageId := if reply.messageId.Some? && reply.messageId.value != "" then reply.messageId else r.messageId;
      if messageId.None? || messageId.value == "" || r.messageId != messageId then Failed(Refuse)
      else if reply.status != Duplicate && reply.status != InState(r.delivery) then Failed(Refuse)
      else if r.delivery == ConsumedDelivery && !ConsumedProof(e, r, messageId.value) then Failed(Refuse)
      else Got(Delivery(reply.status, messageId.value, r, Stale(e, r)))
  }

  lemma DeliveryIsBound(e: Envelope, reply: Reply, allowStale: bool)
    requires CheckDelivery(e, reply, allowStale).Got?
    ensures var d := CheckDelivery(e, reply, allowStale).value;
      && ValidReceipt(e, d.receipt, Some(d.messageId), allowStale) && d.stale == Stale(e, d.receipt)
      && (d.receipt.delivery == ConsumedDelivery ==> ConsumedProof(e, d.receipt, d.messageId))
  {
  }

  /** A first delivery is accepted exactly for a valid receipt under a message ID both halves of
      the reply agree on, and a retry is asked for exactly when the server is silent or busy. */
  lemma DeliveryExactly(e: Envelope, reply: Reply, allowStale: bool)
    requires e.scope.matcher != "" && e.scope.action != "" && e.scope.occurrence != "" && e.scope.key != ""
    ensures CheckDelivery(e, reply, allowStale) == Failed(Retry) <==> reply.NoAnswer? || (reply.DeliverReply? && reply.status == Busy)
    ensures CheckDelivery(e, reply, allowStale).Got? <==>
      && reply.DeliverReply? && reply.receipt.Some?
      && var r := reply.receipt.value;
         && r.messageId.Some? && r.messageId.value != "" && ValidReceipt(e, r, r.messageId, allowStale)
         && (reply.messageId == r.messageId || reply.messageId == Some("") || reply.messageId == None)
         && (reply.status == Duplicate || reply.status == InState(r.delivery))
         && (r.delivery == ConsumedDelivery ==> ConsumedProof(e, r, r.messageId.value))
  {
    hide ConsumedProof;
  }

  datatype Inspection = Inspection(delivery: DeliveryState, receipt: Receipt, session: Session, stale: bool)

  function CheckInspection(e: Envelope, messageId: string, reply: Reply): Answer<Inspection> {
    if !ValidScope(e.scope) then Failed(Refuse)
    else if reply.NoAnswer? then Failed(Retry)
    else if !reply.InspectReply? || reply.session.None? || !ValidSession(reply.session.value) then Failed(Refuse)
    else if !reply.status.InState? || reply.status.delivery == OtherDelivery then Failed(Refuse)
    else if reply.receipt.None? || !ValidReceipt(e, reply.receipt.value, Some(messageId), true) then Failed(Refuse)
    else
      var r := reply.receipt.value;
      if r.delivery != reply.status.delivery then Failed(Refuse)
      else if r.delivery == ConsumedDelivery && !ConsumedProof(e, r, messageId) then Failed(Refuse)
      else Got(Inspection(r.delivery, r, reply.session.value, Stale(e, r)))
  }

  predicate BoundInspection(e: Envelope, messageId: string, i: Inspection) {
    && ValidReceipt(e, i.receipt, Some(messageId), true) && i.delivery == i.receipt.delivery && i.stale == Stale(e, i.receipt)
    && (i.delivery == ConsumedDelivery ==> ConsumedProof(e, i.receipt, messageId))
    && ValidSession(i.session)
  }

  lemma InspectionIsBound(e: Envelope, messageId: string, reply: Reply)
    requires CheckInspection(e, messageId, reply).Got?
    ensures BoundInspection(e, messageId, CheckInspection(e, messageId, reply).value)
  {
  }

  /** An inspection is accepted exactly for a valid receipt of this very message with a session
      whose timing makes sense, and a retry is asked for exactly when the server is silent. */
  lemma InspectionExactly(e: Envelope, messageId: string, reply: Reply)
    requires e.scope.matcher != "" && e.scope.action != "" && e.scope.occurrence != "" && e.scope.key != ""
    ensures CheckInspection(e, messageId, reply) == Failed(Retry) <==> reply.NoAnswer?
    ensures CheckInspection(e, messageId, reply).Got? <==>
      && reply.InspectReply? && reply.session.Some? && ValidSession(reply.session.value) && reply.receipt.Some?
      && var r := reply.receipt.value;
         && ValidReceipt(e, r, Some(messageId), true) && reply.status == InState(r.delivery)
         && (r.delivery == ConsumedDelivery ==> ConsumedProof(e, r, messageId))
  {
    hide ConsumedProof, ValidSession;
  }

  // Some proof: consumption was observed while recovery was asked for; None: recovered.
  function CheckRecovery(e: Envelope, messageId: string, session: Session, reply: Reply): Answer<Option<Receipt>> {
    if !session.isProcessing || !ValidScope(e.scope) then Failed(Refuse)
    else if reply.NoAnswer? then Failed(Retry)
    else if !reply.RecoverReply? then Failed(Refuse)
    else if reply.status == Busy then
      if reply.messageId != Some(messageId) || reply.reason == "" then Failed(Refuse) else Failed(Retry)
    else if reply.status != Recovered && reply.status != InState(ConsumedDelivery) then Failed(Refuse)
    else if reply.messageId != Some(messageId) then Failed(Refuse)
    else if reply.status == InState(ConsumedDelivery) then
      if reply.previousGeneration.Some? || reply.generation.None? || reply.generation.value < 0 then Failed(Refuse)
      else if reply.receipt.None? || !ConsumedProof(e, reply.receipt.value, messageId) then Failed(Refuse)
      else Got(reply.receipt)
    else if reply.previousGeneration != Some(session.generation) || reply.generation.None?
            || reply.generation.value <= session.generation then Failed(Refuse)
    else Got(None)
  }

  /** A recovery counts exactly when the server names this message and moves the processing
      generation of the session forward, or proves consumption instead. */
  lemma RecoveryExactly(e: Envelope, messageId: string, session: Session, reply: Reply)
    requires e.scope.matcher != "" && e.scope.action != "" && e.scope.occurrence != "" && e.scope.key != ""
    requires session.isProcessing
    ensures CheckRecovery(e, messageId, session, reply) == Got(None) <==>
      && reply.RecoverReply? && reply.status == Recovered && reply.messageId == Some(messageId)
      && reply.previousGeneration == Some(session.generation)
      && reply.generation.Some? && session.generation < reply.generation.value
    ensures forall r :: CheckRecovery(e, messageId, session, reply) == Got(Some(r)) <==>
      && reply.RecoverReply? && reply.status == InState(ConsumedDelivery) && reply.messageId == Some(messageId)
      && reply.previousGeneration.None? && reply.generation.Some? && 0 <= reply.generation.value
      && reply.receipt == Some(r) && ConsumedProof(e, r, messageId)
    ensures CheckRecovery(e, messageId, session, reply) == Failed(Retry) <==>
      reply.NoAnswer? || (reply.RecoverReply? && reply.status == Busy && reply.messageId == Some(messageId) && reply.reason != "")
  {
    hide ConsumedProof;
  }

  /** Without a complete scope nothing the server says is accepted. */
  lemma BlankScopeIsRefused(e: Envelope, messageId: string, session: Session, reply: Reply, allowStale: bool)
    requires e.scope.matcher == "" || e.scope.action == "" || e.scope.occurrence == "" || e.scope.key == ""
    ensures CheckDelivery(e, reply, allowStale) == Failed(Refuse)
    ensures CheckInspection(e, messageId, reply) == Failed(Refuse)
    ensures CheckRecovery(e, messageId, session, reply) == Failed(Refuse)
  {
  }
}
