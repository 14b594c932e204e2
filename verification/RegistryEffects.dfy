/** When each command of the coordinator registry writes and what it leaves, and that an open
    transfer can always be completed - by its successor, for its generation, and not otherwise.
 */
module RegistryEffects {
  import opened Wrappers
  import opened Registry

  // Another project has the session as its owner or as the pending successor of its owner.
  ghost predicate TakenElsewhere(rows: Rows, session: string, project: string) {
    exists p :: p in rows && p != project
                && (rows[p].owner == session || (rows[p].state == Rotating && rows[p].successor == Some(session)))
  }

  lemma TakenIsConflict(rows: Rows, session: string, project: string)
    ensures ConflictFree(rows, session, project) <==> !TakenElsewhere(rows, session, project)
  {
  }

  /** A command writes at most the record of its own project. */
  lemma OthersUntouched(rows: Rows, c: Command, p: string)
    requires p != c.project
    ensures p in Step(rows, c) <==> p in rows
    ensures p in rows ==> Step(rows, c)[p] == rows[p]
    ensures NewRow(rows, c).None? ==> Step(rows, c) == rows
  {
  }

  /** A claim is let through if and only if its session is admitted, live and not taken
      elsewhere, and the project has no owner but itself or a dead one; it ends holds,
      transfers and quarantine, and the generation counts the owners. */
  lemma ClaimExactly(rows: Rows, c: Command)
    requires c.Claim?
    ensures NewRow(rows, c).Some? <==>
      && c.admitted && c.session in c.live && !TakenElsewhere(rows, c.session, c.project)
      && (c.project in rows ==> rows[c.project].owner == c.session || rows[c.project].owner !in c.live)
    ensures NewRow(rows, c).Some? ==>
      var row := Step(rows, c)[c.project];
      && row.owner == c.session && row.state == Authoritative && row.successor.None? && !row.violation
      && row.predecessor == c.recordedPredecessor
      && (c.project !in rows ==> row.generation == 1)
      && (c.project in rows ==> row.generation == rows[c.project].generation + if rows[c.project].owner == c.session then 0 else 1)
  {
    hide ConflictFree, TakenElsewhere;
    TakenIsConflict(rows, c.session, c.project);
  }

  /** A renewal is for the owner alone.  A reporting violation quarantines the project whatever
      its state; without one, a quarantine for that reason is cured, a hold stays a hold, and
      a project in transfer, or quarantined for another reason, is not renewed. */
  lemma RenewExactly(rows: Rows, c: Command)
    requires c.Renew? && c.project in rows
    ensures var before, after := rows[c.project], Step(rows, c)[c.project];
      if before.owner != c.session then after == before
      else if c.violation then after == before.(state := NeedsOwner, violation := true)
      else if c.admitted && before.state == NeedsOwner && before.violation then
        after == before.(state := Authoritative, violation := false)
      else after == before
    ensures NewRow(rows, c).Some? <==>
      && rows[c.project].owner == c.session
      && (c.violation || (c.admitted && (rows[c.project].state == Authoritative || rows[c.project].state == OnHold
                                         || (rows[c.project].state == NeedsOwner && rows[c.project].violation))))
  {
    hide ConflictFree;
  }

  /** A transfer is opened if and only if the owner asks for it, for an admitted successor not
      taken elsewhere, while none is open - and not from a hold, unless the owner has an
      unresolved reporting violation. */
  lemma BeginExactly(rows: Rows, c: Command)
    requires c.BeginTransfer?
    ensures NewRow(rows, c).Some? <==>
      && c.admitted && !TakenElsewhere(rows, c.successor, c.project) && c.project in rows && rows[c.project].owner == c.session
      && (c.violation || (rows[c.project].state != Rotating && rows[c.project].state != OnHold))
    ensures NewRow(rows, c).Some? ==>
      var before, after := rows[c.project], Step(rows, c)[c.project];
      && after.state == Rotating && after.successor == Some(c.successor)
      && after.owner == before.owner && after.generation == before.generation && after.predecessor == before.predecessor
      && after.violation == (before.violation || c.violation)
  {
    hide ConflictFree, TakenElsewhere;
    TakenIsConflict(rows, c.successor, c.project);
  }

  /** A transfer is accepted if and only if it is open, by the successor it names, admitted and
      not taken elsewhere, and for no other generation than the current one: an accept that
      names another generation is refused. */
  lemma AcceptExactly(rows: Rows, c: Command)
    requires c.AcceptTransfer?
    ensures NewRow(rows, c).Some? <==>
      && c.admitted && !TakenElsewhere(rows, c.session, c.project) && c.project in rows
      && rows[c.project].state == Rotating && rows[c.project].successor == Some(c.session)
      && (c.expectedGeneration == None || c.expectedGeneration == Some(rows[c.project].generation))
    ensures NewRow(rows, c).Some? ==>
      var before, after := rows[c.project], Step(rows, c)[c.project];
      && after.owner == c.session && after.predecessor == Some(before.owner) && after.successor.None?
      && after.generation == before.generation + 1 && after.state == Authoritative && after.violation == before.violation
  {
    hide ConflictFree, TakenElsewhere;
    TakenIsConflict(rows, c.session, c.project);
  }

  /** Hold, resume and quarantine change the state and nothing else. */
  lemma HoldResumeQuarantineExactly(rows: Rows, c: Command)
    requires (c.Hold? || c.Resume? || c.Quarantine?) && c.project in rows
    ensures var before, after := rows[c.project], Step(rows, c)[c.project];
      && (c.Hold? ==> after == if before.owner == c.session then before.(state := OnHold) else before)
      && (c.Resume? ==> after == if c.authorized && before.state == OnHold then before.(state := Authoritative) else before)
      && (c.Quarantine? ==>
            after == if before.state == Authoritative || before.state == Rotating
                     then before.(state := NeedsOwner, violation := true) else before)
  {
  }

  // ---------------------------------------------------------------- transfers over whole runs

  /** At every point of every run, an open transfer can be completed: no claim or transfer of
      another project can have taken the pending successor away, so its accept goes through
      under the current generation or without naming one, and under no other. */
  lemma OpenTransferCompletes(run: seq<Command>, n: nat, p: string, accept: Command)
    requires n <= |run| && p in At(run, n) && At(run, n)[p].state == Rotating
    requires accept.AcceptTransfer? && accept.project == p && accept.admitted && At(run, n)[p].successor == Some(accept.session)
    ensures NewRow(At(run, n), accept).Some? <==>
      accept.expectedGeneration == None || accept.expectedGeneration == Some(At(run, n)[p].generation)
    ensures NewRow(At(run, n), accept).Some? ==>
      var after := Step(At(run, n), accept)[p];
      after.owner == accept.session && after.predecessor == Some(At(run, n)[p].owner)
      && after.generation == At(run, n)[p].generation + 1 && after.state == Authoritative
  {
    hide NewRow;
    RunsAreExclusive(run, n);
    AcceptExactly(At(run, n), accept);
  }

  lemma {:induction false} RowStands(run: seq<Command>, m: nat, n: nat, p: string)
    requires m <= n <= |run| && p in At(run, m) && forall k :: m <= k < n ==> run[k].project != p
    ensures p in At(run, n) && At(run, n)[p] == At(run, m)[p]
    decreases n
  {
    hide Step, NewRow;
    if m < n {
      RowStands(run, m, n - 1, p);
      OthersUntouched(At(run, n - 1), run[n - 1], p);
    }
  }

  /** The two phases together, whatever other projects do in between: a transfer that command
      m opened, and that no later command of the project disturbs, hands the project to the
      named successor under the generation it was opened in. */
  lemma TransferRoundTrip(run: seq<Command>, m: nat, n: nat, accept: Command)
    requires m < n <= |run| && run[m].BeginTransfer? && NewRow(At(run, m), run[m]).Some?
    requires forall k :: m < k < n ==> run[k].project != run[m].project
    requires accept.AcceptTransfer? && accept.project == run[m].project && accept.admitted && accept.session == run[m].successor
    requires run[m].project in At(run, m) && accept.expectedGeneration == Some(At(run, m)[run[m].project].generation)
    ensures var p := run[m].project;
      var after := Step(At(run, n), accept);
      && p in after && after[p].owner == run[m].successor && after[p].predecessor == Some(run[m].session)
      && after[p].generation == At(run, m)[p].generation + 1 && after[p].state == Authoritative
  {
    hide NewRow, ConflictFree;
    var p := run[m].project;
    BeginExactly(At(run, m), run[m]);
    assert At(run, m + 1) == Step(At(run, m), run[m]);
    RowStands(run, m + 1, n, p);
    OpenTransferCompletes(run, n, p, accept);
  }
}
