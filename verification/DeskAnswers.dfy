/** What an ingest answers on a desk that can be read: exactly when a new directive is taken,
    what is kept of it, and exactly when a repeated ID is.
 */
module DeskAnswers {
  import opened Wrappers
  import opened DirectiveLedger
  import opened DeskNotes
  import opened DeskRecords
  import opened MarkerFreeText
  import opened DirectiveDesk

  // One record was added, and it is the caller's directive.
  predicate OneMore(before: Option<seq<OwnerDirective>>, after: Option<seq<OwnerDirective>>, input: Input) {
    && before.Some? && after.Some? && |after.value| == |before.value| + 1
    && after.value[..|before.value|] == before.value
    && var e := after.value[|before.value|];
       && e.id == input.id && e.issueId == input.issueId && e.receivedAtMs == input.receivedAtMs && e.verbatim == input.verbatim
       && e.direct.Some? && e.direct.value.sourceSessionId == input.sourceSessionId
       && e.direct.value.sourceMessageId == input.sourceMessageId && e.acknowledgedAtMs == input.ackAtMs
  }

  /** A known ID is answered from the record: the call succeeds if and only if it comes from the
      owner's desk and all five fields agree with what was stored, and it never writes. */
  lemma RepeatExactly(s: Desk, input: Input, i: nat)
    requires Healthy(s) && i < |Records(s.notes).value| && Records(s.notes).value[i].id == input.id
    ensures var r, e := Ingest(s, input), Records(s.notes).value[i];
      && !r.wrote && r.desk.notes == s.notes
      && (r.ok <==>
          && input.fromOwnerDesk && e.issueId == input.issueId && e.receivedAtMs == input.receivedAtMs
          && e.verbatim == input.verbatim && e.direct.Some? && e.direct.value.sourceSessionId == input.sourceSessionId
          && e.direct.value.sourceMessageId == input.sourceMessageId)
  {
    hide Records, PlainBlocks, AllAppendable, Loaded, WithDirective, Appended;
    LoadIsExact(s);
    FindIs(Records(s.notes).value, i);
  }

  /** A new ID is written if and only if the call comes from the owner's desk, matches one of
      its messages and is acknowledged within the window; it succeeds if and only if moreover
      the window is still open after the write, the notes read back, and the ledger takes it.
      What is written keeps the caller's five fields and the time of acknowledgement. */
  lemma NewExactly(s: Desk, input: Input)
    requires Healthy(s) && forall e :: e in Records(s.notes).value ==> e.id != input.id
    ensures var r := Ingest(s, input);
      && (r.wrote <==> input.fromOwnerDesk && input.matchesMessage
                       && input.receivedAtMs <= input.ackAtMs <= input.receivedAtMs + 60_000)
      && (r.ok <==> r.wrote && input.doneAtMs <= input.receivedAtMs + 60_000 && input.readBack && Appendable(Candidate(input)))
      && (r.wrote && Storable(Candidate(input)) ==> OneMore(Records(s.notes), Records(r.desk.notes), input))
  {
    hide Records, PlainBlocks, AllAppendable, Loaded, WithDirective, Appendable, Printed, Storable, DistinctIds;
    LoadIsExact(s);
    IngestOnHealthy(s, input);
  }

  /** What is written acknowledges the directive where its owner reads it: the notes as they
      were, and after them a line that names the directive and its acknowledgement. */
  lemma WriteAcknowledges(s: Desk, input: Input) returns (before: string, after: string)
    requires Ingest(s, input).wrote
    ensures Ingest(s, input).desk.notes == before + "ACK " + input.id + " ack-" + input.digest + after
    ensures Trim(s.notes) <= before
  {
    hide Loaded, Appended, Printed, Trim, Block, Find;
    var e, head := Candidate(input), if Trim(s.notes) == "" then "" else Trim(s.notes) + SEPARATOR;
    before, after := head + HEADING + SEPARATOR, SEPARATOR + Block(MARKER, Printed(e));
    assert AckLine(e) == "ACK " + input.id + " ack-" + input.digest;
    assert WithDirective(s.notes, e) == before + AckLine(e) + after;
  }

  /** So a directive that was taken is taken again under the same five fields, and under no
      other: a caller that lost the answer may repeat itself, and nobody may rewrite. */
  lemma RepeatAfterIngest(s: Desk, first: Input, again: Input)
    requires Healthy(s) && forall e :: e in Records(s.notes).value ==> e.id != first.id
    requires Ingest(s, first).wrote && Storable(Candidate(first)) && again.id == first.id
    ensures var r := Ingest(Ingest(s, first).desk, again);
      && !r.wrote && r.desk.notes == Ingest(s, first).desk.notes
      && (r.ok <==> again.fromOwnerDesk && again.issueId == first.issueId && again.receivedAtMs == first.receivedAtMs
                    && again.verbatim == first.verbatim && again.sourceSessionId == first.sourceSessionId
                    && again.sourceMessageId == first.sourceMessageId)
  {
    hide Ingest, Records, PlainBlocks, AllAppendable, DistinctIds, Storable;
    IngestOnHealthy(s, first);
    NewExactly(s, first);
    RepeatExactly(Ingest(s, first).desk, again, |Records(s.notes).value|);
  }
}
