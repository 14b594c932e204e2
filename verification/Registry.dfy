/** The coordinator registry: one record per project, two-phase transfer between sessions.
    Each command runs under one lock and is one step; what the session store and the
    reporting policy say at that moment comes in as input.
 */
module Registry {
  import opened Wrappers

  datatype CoordinatorState = Authoritative | Rotating | OnHold | NeedsOwner

  datatype Row = Row(
    owner: string,
    generation: int,
    state: CoordinatorState,
    predecessor: Option<string>,
    successor: Option<string>,
    violation: bool)

  type Rows = map<string, Row>

  // `live` are the sessions that exist and run now; `admitted` stands for the identity,
  // policy and manifest checks of the command; `violation` for an unresolved reporting
  // violation of the owner.
  datatype Command =
    | Claim(project: string, session: string, recordedPredecessor: Option<string>, live: set<string>, admitted: bool)
    | Renew(project: string, session: string, violation: bool, admitted: bool)
    | BeginTransfer(project: string, session: string, successor: string, violation: bool, admitted: bool)
    | AcceptTransfer(project: string, session: string, expectedGeneration: Option<int>, admitted: bool)
    | Hold(project: string, session: string)
    | Resume(project: string, authorized: bool)
    | Quarantine(project: string)

  // Every stored record is in an active state, so every one counts for exclusivity.
  predicate Holds(row: Row, session: string) {
    row.owner == session || (row.state == Rotating && row.successor == Some(session))
  }

  predicate ConflictFree(rows: Rows, session: string, project: string) {
    forall p :: p in rows && p != project ==> !Holds(rows[p], session)
  }

  predicate OwnedBy(rows: Rows, project: string, session: string) {
    project in rows && rows[project].owner == session
  }

  function ClaimRow(rows: Rows, c: Command): Option<Row>
    requires c.Claim?
  {
    if !c.admitted || c.session !in c.live || !ConflictFree(rows, c.session, c.project) then None
    else if c.project !in rows then Some(Row(c.session, 1, Authoritative, c.recordedPredecessor, None, false))
    else
      var current := rows[c.project];
      if current.owner != c.session && current.owner in c.live then None
      else Some(Row(c.session, current.generation + (if current.owner == c.session then 0 else 1), Authoritative,
                    c.recordedPredecessor, None, false))
  }

  function RenewRow(rows: Rows, c: Command): Option<Row>
    requires c.Renew?
  {
    if !OwnedBy(rows, c.project, c.session) then None
    else
      var row := rows[c.project];
      if c.violation then Some(row.(state := NeedsOwner, violation := true))
      else
        var cured := if row.state == NeedsOwner && row.violation then row.(state := Authoritative, violation := false) else row;
        if c.admitted && (cured.state == Authoritative || cured.state == OnHold) then Some(cured) else None
  }

  function BeginRow(rows: Rows, c: Command): Option<Row>
    requires c.BeginTransfer?
  {
    if !c.admitted || !ConflictFree(rows, c.successor, c.project) || !OwnedBy(rows, c.project, c.session) then None
    else
      var row := if c.violation then rows[c.project].(state := NeedsOwner, violation := true) else rows[c.project];
      if row.state == Rotating || row.state == OnHold then None
      else Some(row.(state := Rotating, successor := Some(c.successor)))
  }

  function AcceptRow(rows: Rows, c: Command): Option<Row>
    requires c.AcceptTransfer?
  {
    if !ConflictFree(rows, c.session, c.project) || c.project !in rows then None
    else
      var row := rows[c.project];
      if row.state != Rotating || row.successor != Some(c.session) || !c.admitted then None
      else if c.expectedGeneration.Some? && c.expectedGeneration.value != row.generation then None
      else Some(row.(owner := c.session, predecessor := Some(row.owner), successor := None,
                     generation := row.generation + 1, state := Authoritative))
  }

  /** The record a command writes; None when it refuses or has nothing to write. */
  function NewRow(rows: Rows, c: Command): Option<Row> {
    match c
    case Claim(_, _, _, _, _) => ClaimRow(rows, c)
    case Renew(_, _, _, _) => RenewRow(rows, c)
    case BeginTransfer(_, _, _, _, _) => BeginRow(rows, c)
    case AcceptTransfer(_, _, _, _) => AcceptRow(rows, c)
    case Hold(project, session) =>
      if OwnedBy(rows, project, session) then Some(rows[project].(state := OnHold)) else None
    case Resume(project, authorized) =>
      if authorized && project in rows && rows[project].state == OnHold then Some(rows[project].(state := Authoritative)) else None
    case Quarantine(project) =>
      if project in rows && (rows[project].state == Authoritative || rows[project].state == Rotating)
      then Some(rows[project].(state := NeedsOwner, violation := true)) else None
  }

  function Step(rows: Rows, c: Command): Rows {
    var row := NewRow(rows, c);
    if row.Some? then rows[c.project := row.value] else rows
  }

  // ---------------------------------------------------------------- the registry object

  class CoordinatorRegistry {
    var rows: Rows

    constructor ()
      ensures rows == map[]
    {
      rows := map[];
    }

    // The projects other than `project` in which a session holds or awaits authority.
    method SessionProjects(session: string, exclude: string) returns (conflicts: set<string>)
      ensures conflicts == {} <==> ConflictFree(rows, session, exclude)
    {
      var left := rows.Keys;
      conflicts := {};
      while left != {}
        invariant left <= rows.Keys
        invariant conflicts == set p | p in rows.Keys - left && p != exclude && Holds(rows[p], session)
        decreases left
      {
        var p :| p in left;
        left := left - {p};
        if p != exclude {
          var owns := rows[p].owner == session;
          var pending := rows[p].state == Rotating && rows[p].successor == Some(session);
          if owns || pending {
            conflicts := conflicts + {p};
          }
        }
      }
      assert conflicts == {} ==> forall p :: p in rows && p != exclude && Holds(rows[p], session) ==> p in conflicts;
    }

    method ClaimProject(project: string, session: string, recordedPredecessor: Option<string>, live: set<string>, admitted: bool)
      returns (ok: bool)
      modifies this
      ensures var c := Claim(project, session, recordedPredecessor, live, admitted);
        ok == NewRow(old(rows), c).Some? && rows == Step(old(rows), c)
    {
      if session !in live || !admitted {
        return false;
      }
      var conflicts := SessionProjects(session, project);
      if conflicts != {} {
        return false;
      }
      var generation := 1;
      if project in rows {
        var current := rows[project];
        if current.owner != session && current.owner in live {
          return false;
        }
        generation := current.generation + (if current.owner == session then 0 else 1);
      }
      rows := rows[project := Row(session, generation, Authoritative, recordedPredecessor, None, false)];
      ok := true;
    }

    method RenewLease(project: string, session: string, violation: bool, admitted: bool) returns (ok: bool)
      modifies this
      ensures var c := Renew(project, session, violation, admitted);
        rows == Step(old(rows), c) && (ok <==> NewRow(old(rows), c).Some? && !violation)
    {
      if project !in rows || rows[project].owner != session {
        return false;
      }
      var value := rows[project];
      if violation {
        rows := rows[project := value.(state := NeedsOwner, violation := true)];
        return false;
      }
      if value.state == NeedsOwner && value.violation {
        value := value.(state := Authoritative, violation := false);
      }
      if !admitted || (value.state != Authoritative && value.state != OnHold) {
        return false;
      }
      rows := rows[project := value];
      ok := true;
    }

    method Begin(project: string, session: string, successor: string, violation: bool, admitted: bool) returns (ok: bool)
      modifies this
      ensures var c := BeginTransfer(project, session, successor, violation, admitted);
        && rows == Step(old(rows), c)
        && (ok <==> NewRow(old(rows), c).Some?
                    || (admitted && ConflictFree(old(rows), successor, project) && OwnedBy(old(rows), project, session)
                        && old(rows)[project].state == Rotating && old(rows)[project].successor == Some(successor)))
      ensures ok ==> project in rows && rows[project].state == Rotating && rows[project].successor == Some(successor)
    {
      if !admitted {
        return false;
      }
      var conflicts := SessionProjects(successor, project);
      if conflicts != {} || project !in rows || rows[project].owner != session {
        return false;
      }
      var value := rows[project];
      if violation {
        value := value.(state := NeedsOwner, violation := true);
      }
      if value.state == Rotating {
        return value.successor == Some(successor);
      }
      if value.state == OnHold {
        return false;
      }
      value := value.(state := Rotating, successor := Some(successor));
      rows := rows[project := value];
      ok := true;
    }

    method Accept(project: string, session: string, expectedGeneration: Option<int>, admitted: bool) returns (ok: bool)
      modifies this
      ensures var c := AcceptTransfer(project, session, expectedGeneration, admitted);
        ok == NewRow(old(rows), c).Some? && rows == Step(old(rows), c)
    {
      var conflicts := SessionProjects(session, project);
      if conflicts != {} || project !in rows {
        return false;
      }
      var value := rows[project];
      if value.state != Rotating || value.successor != Some(session) {
        return false;
      }
      if expectedGeneration.Some? && value.generation != expectedGeneration.value {
        return false;
      }
      if !admitted {
        return false;
      }
      var predecessor := value.owner;
      value := value.(owner := session, predecessor := Some(predecessor), successor := None,
                      generation := value.generation + 1, state := Authoritative);
      rows := rows[project := value];
      ok := true;
    }

    method HoldProject(project: string, session: string) returns (ok: bool)
      modifies this
      ensures ok == NewRow(old(rows), Hold(project, session)).Some? && rows == Step(old(rows), Hold(project, session))
    {
      ok := project in rows && rows[project].owner == session;
      if ok {
        rows := rows[project := rows[project].(state := OnHold)];
      }
    }

    method ResumeProject(project: string, authorized: bool) returns (ok: bool)
      modifies this
      ensures ok == NewRow(old(rows), Resume(project, authorized)).Some? && rows == Step(old(rows), Resume(project, authorized))
    {
      ok := authorized && project in rows && rows[project].state == OnHold;
      if ok {
        rows := rows[project := rows[project].(state := Authoritative)];
      }
    }

    // What reconciliation does to an owner with an unresolved reporting violation.
    method QuarantineProject(project: string) returns (ok: bool)
      modifies this
      ensures ok == NewRow(old(rows), Quarantine(project)).Some? && rows == Step(old(rows), Quarantine(project))
    {
      ok := project in rows && (rows[project].state == Authoritative || rows[project].state == Rotating);
      if ok {
        rows := rows[project := rows[project].(state := NeedsOwner, violation := true)];
      }
    }
  }

  // ---------------------------------------------------------------- one step

  // No session holds or awaits authority over two projects.
  predicate Exclusive(rows: Rows) {
    forall p, q :: p in rows && q in rows && p != q ==> Apart(rows[p], rows[q])
  }

  predicate Apart(a: Row, b: Row) {
    && a.owner != b.owner
    && (a.state == Rotating ==> a.successor != Some(b.owner))
    && (b.state == Rotating ==> b.successor != Some(a.owner))
    && (a.state == Rotating && b.state == Rotating && a.successor.Some? ==> a.successor != b.successor)
  }

  // The new record claims no session that another project holds, given the old one did not.
  lemma NewRowApart(rows: Rows, c: Command, q: string)
    requires Exclusive(rows) && NewRow(rows, c).Some? && q in rows && q != c.project
    ensures Apart(NewRow(rows, c).value, rows[q]) && Apart(rows[q], NewRow(rows, c).value)
  {
    if c.project in rows {
      assert Apart(rows[c.project], rows[q]);
    }
  }

  lemma StepKeepsExclusive(rows: Rows, c: Command)
    requires Exclusive(rows)
    ensures Exclusive(Step(rows, c))
  {
    hide Apart, NewRow;
    var after := Step(rows, c);
    forall p, q | p in after && q in after && p != q ensures Apart(after[p], after[q]) {
      if NewRow(rows, c).Some? {
        if p == c.project {
          NewRowApart(rows, c, q);
        } else if q == c.project {
          NewRowApart(rows, c, p);
        }
      }
    }
  }

  /** What one command can do to one project: the generation goes up by one exactly when the
      owner changes or a transfer is accepted, and otherwise stands still; a live owner is
      replaced only by accepting the transfer it is the recorded successor of. */
  lemma StepEffect(rows: Rows, c: Command, p: string)
    requires p in rows
    ensures p in Step(rows, c)
    ensures var before, after := rows[p], Step(rows, c)[p];
      && after.generation == before.generation + (if after.owner != before.owner || AcceptsNow(rows, c, p) then 1 else 0)
      && (after.owner != before.owner ==>
            || AcceptsNow(rows, c, p)
            || (c.Claim? && c.project == p && before.owner !in c.live))
  {
  }

  predicate AcceptsNow(rows: Rows, c: Command, p: string)
    requires p in rows
  {
    && c.AcceptTransfer? && c.project == p && NewRow(rows, c).Some?
    && rows[p].state == Rotating && rows[p].successor == Some(c.session)
  }

  // ---------------------------------------------------------------- whole runs

  function At(run: seq<Command>, n: nat): Rows
    requires n <= |run|
  {
    if n == 0 then map[] else Step(At(run, n - 1), run[n - 1])
  }

  /** At every point of every run, no session is the owner or the pending successor of two
      projects. */
  lemma {:induction false} RunsAreExclusive(run: seq<Command>, n: nat)
    requires n <= |run|
    ensures Exclusive(At(run, n))
    decreases n
  {
    if n > 0 {
      RunsAreExclusive(run, n - 1);
      StepKeepsExclusive(At(run, n - 1), run[n - 1]);
    }
  }

  /** Generations never decrease, and the owner of a project is the same at two moments of
      equal generation. */
  lemma {:induction false} GenerationsGrow(run: seq<Command>, m: nat, n: nat, p: string)
    requires m <= n <= |run| && p in At(run, m)
    ensures p in At(run, n)
    ensures At(run, m)[p].generation <= At(run, n)[p].generation
    ensures At(run, m)[p].generation == At(run, n)[p].generation ==> At(run, m)[p].owner == At(run, n)[p].owner
    decreases n
  {
    hide Step;
    if m < n {
      GenerationsGrow(run, m, n - 1, p);
      StepEffect(At(run, n - 1), run[n - 1], p);
    }
  }

  // Command m opened the transfer that is still open after n commands.
  predicate OpenedBy(run: seq<Command>, n: nat, p: string, m: nat)
    requires n <= |run|
  {
    && m < n && run[m].BeginTransfer? && run[m].project == p
    && p in At(run, m) && p in At(run, n)
    && run[m].session == At(run, m)[p].owner == At(run, n)[p].owner
    && At(run, n)[p].successor == Some(run[m].successor)
    && At(run, m)[p].generation == At(run, n)[p].generation
  }

  lemma StillRotating(rows: Rows, c: Command, p: string)
    requires p in Step(rows, c) && Step(rows, c)[p].state == Rotating
    ensures p in rows
    ensures if c.BeginTransfer? && c.project == p && NewRow(rows, c).Some?
      then && c.session == rows[p].owner == Step(rows, c)[p].owner && Step(rows, c)[p].successor == Some(c.successor)
           && Step(rows, c)[p].generation == rows[p].generation
      else Step(rows, c)[p] == rows[p]
  {
  }

  /** Every open transfer was opened by the project's owner of that generation, who named
      the pending successor - so with StepEffect, a live owner only ever gives way to the
      session it named itself. */
  lemma {:induction false} TransferWasOpenedByOwner(run: seq<Command>, n: nat, p: string) returns (m: nat)
    requires n <= |run| && p in At(run, n) && At(run, n)[p].state == Rotating
    ensures OpenedBy(run, n, p, m)
    decreases n
  {
    hide Step, NewRow;
    StillRotating(At(run, n - 1), run[n - 1], p);
    if Step(At(run, n - 1), run[n - 1])[p] == At(run, n - 1)[p] {
      m := TransferWasOpenedByOwner(run, n - 1, p);
    } else {
      m := n - 1;
    }
  }

  /** Over whole runs: when command n replaces an owner that is still live, some earlier
      command by that very owner, in the same generation, had named the new one. */
  lemma LiveOwnerGivesWayToItsSuccessor(run: seq<Command>, n: nat, p: string, live: set<string>) returns (m: nat)
    requires n < |run| && p in At(run, n) && At(run, n)[p].owner in live
    requires run[n].Claim? ==> run[n].live == live
    requires At(run, n + 1)[p].owner != At(run, n)[p].owner
    ensures m < n && run[m].BeginTransfer? && run[m].project == p
    ensures p in At(run, m) && run[m].session == At(run, m)[p].owner == At(run, n)[p].owner
    ensures At(run, m)[p].generation == At(run, n)[p].generation
    ensures p in At(run, n + 1) && run[m].successor == At(run, n + 1)[p].owner
    ensures At(run, n + 1)[p].generation == At(run, n)[p].generation + 1
  {
    StepEffect(At(run, n), run[n], p);
    assert AcceptsNow(At(run, n), run[n], p);
    m := TransferWasOpenedByOwner(run, n, p);
  }

  // ---------------------------------------------------------------- holds

  // The command lifts a hold of its project: the direct owner resumes it, its coordinator (or
  // another session, when that one is gone) claims it anew, or its coordinator renews or
  // begins a transfer with an unresolved reporting violation.
  predicate EndsHold(rows: Rows, c: Command)
    requires c.project in rows
  {
    var owner := rows[c.project].owner;
    match c
    case Resume(_, authorized) => authorized
    case Claim(project, session, _, live, admitted) =>
      admitted && session in live && ConflictFree(rows, session, project) && (owner == session || owner !in live)
    case Renew(_, session, violation, _) => session == owner && violation
    case BeginTransfer(project, session, successor, violation, admitted) =>
      session == owner && violation && admitted && ConflictFree(rows, successor, project)
    case _ => false
  }

  /** A hold ends exactly with one of these commands. */
  lemma HoldEndsExactly(rows: Rows, c: Command, p: string)
    requires p in rows && rows[p].state == OnHold
    ensures p in Step(rows, c) && (Step(rows, c)[p].state != OnHold <==> c.project == p && EndsHold(rows, c))
  {
    hide ConflictFree;
  }

  /** Over whole runs: a project on hold is still on hold unless such a command came. */
  lemma {:induction false} HoldLasts(run: seq<Command>, m: nat, n: nat, p: string)
    requires m <= n <= |run| && p in At(run, m) && At(run, m)[p].state == OnHold
    requires forall k :: m <= k < n && run[k].project == p && p in At(run, k) ==> !EndsHold(At(run, k), run[k])
    ensures p in At(run, n) && At(run, n)[p].state == OnHold
    decreases n
  {
    hide Step, EndsHold;
    if m < n {
      HoldLasts(run, m, n - 1, p);
      HoldEndsExactly(At(run, n - 1), run[n - 1], p);
    }
  }

  // A project put on hold by its coordinator, and then what ends the hold.
  function HeldThen(c: Command): seq<Command> {
    [Claim("p", "a", None, {"a"}, true), Hold("p", "a"), c]
  }

  /** Two runs in which a hold ends without the owner's word: the coordinator claims its
      project again, or begins a transfer while it has a reporting violation. */
  lemma HoldEndsWithoutResume()
    ensures var claimed := HeldThen(Claim("p", "a", None, {"a"}, true));
      && "p" in At(claimed, 2) && At(claimed, 2)["p"].state == OnHold
      && "p" in At(claimed, 3) && At(claimed, 3)["p"].state == Authoritative
    ensures var rotating := HeldThen(BeginTransfer("p", "a", "b", true, true));
      && "p" in At(rotating, 2) && At(rotating, 2)["p"].state == OnHold
      && "p" in At(rotating, 3) && At(rotating, 3)["p"].state == Rotating
  {
    var claimed := HeldThen(Claim("p", "a", None, {"a"}, true));
    assert At(claimed, 0) == map[];
    assert At(claimed, 1) == map["p" := Row("a", 1, Authoritative, None, None, false)];
    var rotating := HeldThen(BeginTransfer("p", "a", "b", true, true));
    assert At(rotating, 0) == map[];
    assert At(rotating, 1) == map["p" := Row("a", 1, Authoritative, None, None, false)];
  }
}
