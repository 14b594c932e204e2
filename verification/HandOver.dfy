/** A coordinator hand-over as a whole: the registry passes authority on, and the successor
    adopts the inbox.
 */
module HandOver {
  import opened Wrappers
  import R = Registry
  import opened InboxLog
  import opened Inbox
  import opened InboxGuarantees
  import opened InboxRuns

  // The inbox's view of a registry row.
  function OwnerOf(row: R.Row): Option<Owner>
    requires 1 <= row.generation
  {
    if row.state in {R.Authoritative, R.OnHold} then Some(Owner(row.owner, row.generation, row.predecessor, row.state == R.OnHold))
    else None
  }

  // The owner of a row, calling while its session is live.
  function Coordinator(row: R.Row, nowMs: nat): Caller
    requires 1 <= row.generation
  {
    Caller(row.owner, row.generation, nowMs, OwnerOf(row), true)
  }

  function AdoptionOf(d: Desk, row: R.Row, nowMs: nat, limit: nat): Option<seq<Write>>
    requires 1 <= row.generation
  {
    Plan(d, Coordinator(row, nowMs), AdoptCmd, limit)
  }

  // By adopting, the owner of the row gets to claim this item.
  predicate Reaches(d: Desk, row: R.Row, nowMs: nat, limit: nat, key: Key)
    requires 1 <= row.generation
  {
    && AdoptionOf(d, row, nowMs, limit).Some?
    && Eligible(After(d, AdoptionOf(d, row, nowMs, limit).value), Coordinator(row, nowMs), key)
  }

  // An event that was addressed to somebody under another generation and is not dealt with.
  predicate LeftBehind(d: Desk, row: R.Row, key: Key) {
    key in d.items && d.items[key].generation != row.generation && d.items[key].state != Acknowledged
  }

  /** An authoritative owner reaches an event of another generation exactly when the registry
      records the event's addressee as its predecessor and that is not the owner itself. */
  lemma ReachedExactly(d: Desk, row: R.Row, nowMs: nat, limit: nat, key: Key)
    requires SoundDesk(d, limit) && 1 <= row.generation && row.state == R.Authoritative && LeftBehind(d, row, key)
    ensures Reaches(d, row, nowMs, limit, key)
       <==> row.predecessor == Some(d.items[key].session) && d.items[key].session != "" && d.items[key].session != row.owner
  {
    hide Run, AdoptWrites, SoundDesk, SameFact;
    if AdoptionOf(d, row, nowMs, limit).Some? {
      AdoptionKeepsEvents(d, Coordinator(row, nowMs), row.predecessor.value, limit, key);
    }
  }

  /** After accept-transfer the successor reaches the unacknowledged events of the owner it
      follows exactly when that owner is somebody else (with a name). */
  lemma HandOverExactly(rows: R.Rows, c: R.Command, d: Desk, nowMs: nat, limit: nat, key: Key)
    requires c.AcceptTransfer? && R.NewRow(rows, c).Some? && 1 <= rows[c.project].generation
    requires SoundDesk(d, limit) && key in d.items && d.items[key].state != Acknowledged
    requires d.items[key].session == rows[c.project].owner && d.items[key].generation <= rows[c.project].generation
    ensures Reaches(d, R.Step(rows, c)[c.project], nowMs, limit, key)
       <==> rows[c.project].owner != "" && rows[c.project].owner != c.session
  {
    hide Run, Reaches, SoundDesk;
    ReachedExactly(d, R.Step(rows, c)[c.project], nowMs, limit, key);
  }

  /** A claim, of a new project owner or of the same one again, replaces the recorded
      predecessor; the events of another generation are then reached exactly when the claim
      names their addressee. */
  lemma ClaimReachesExactly(rows: R.Rows, c: R.Command, d: Desk, nowMs: nat, limit: nat, key: Key)
    requires c.Claim? && R.NewRow(rows, c).Some? && 1 <= R.NewRow(rows, c).value.generation
    requires SoundDesk(d, limit) && LeftBehind(d, R.NewRow(rows, c).value, key)
    ensures Reaches(d, R.Step(rows, c)[c.project], nowMs, limit, key)
       <==> c.recordedPredecessor == Some(d.items[key].session) && d.items[key].session != "" && d.items[key].session != c.session
  {
    hide Run, Reaches, SoundDesk;
    ReachedExactly(d, R.Step(rows, c)[c.project], nowMs, limit, key);
  }

  /** When the two differ, the successor may adopt at once, and then every unacknowledged
      event that had been addressed to its immediate predecessor is claimable by it, with
      revision and payload unchanged, while acknowledged events stay acknowledged. */
  lemma HandOverKeepsEvents(rows: R.Rows, c: R.Command, d: Desk, nowMs: nat, limit: nat, key: Key)
    requires c.AcceptTransfer? && R.NewRow(rows, c).Some? && 1 <= rows[c.project].generation
    requires SoundDesk(d, limit) && key in d.items
    requires d.items[key].session == rows[c.project].owner && d.items[key].generation <= rows[c.project].generation
    requires rows[c.project].owner != "" && rows[c.project].owner != c.session
    ensures var row := R.Step(rows, c)[c.project];
      && AdoptionOf(d, row, nowMs, limit).Some?
      && var e := After(d, AdoptionOf(d, row, nowMs, limit).value);
         && key in e.items && SameFact(d.items[key], e.items[key])
         && (d.items[key].state != Acknowledged ==> Eligible(e, Coordinator(row, nowMs), key))
  {
    hide Run, AdoptWrites, SoundDesk, SameFact;
    var row := R.Step(rows, c)[c.project];
    AdoptionKeepsEvents(d, Coordinator(row, nowMs), rows[c.project].owner, limit, key);
  }

  lemma {:induction false} GenerationsPositive(run: seq<R.Command>, n: nat, p: string)
    requires n <= |run| && p in R.At(run, n)
    ensures 1 <= R.At(run, n)[p].generation
    decreases n
  {
    if n > 0 && p in R.At(run, n - 1) {
      GenerationsPositive(run, n - 1, p);
      R.StepEffect(R.At(run, n - 1), run[n - 1], p);
    }
  }

  /** Whether a hand-over will keep its events is settled when the transfer is opened: the
      begin-transfer command m that led to it must name somebody else than the caller. */
  lemma TransferKeepsExactly(run: seq<R.Command>, n: nat, d: Desk, nowMs: nat, limit: nat, key: Key) returns (m: nat)
    requires n < |run| && run[n].AcceptTransfer? && R.NewRow(R.At(run, n), run[n]).Some?
    requires SoundDesk(d, limit) && key in d.items && d.items[key].state != Acknowledged
    requires var row := R.At(run, n)[run[n].project];
      d.items[key].session == row.owner && d.items[key].generation <= row.generation
    ensures R.OpenedBy(run, n, run[n].project, m)
    ensures run[n].project in R.At(run, n + 1) && 1 <= R.At(run, n + 1)[run[n].project].generation
    ensures Reaches(d, R.At(run, n + 1)[run[n].project], nowMs, limit, key)
       <==> run[m].session != "" && run[m].session != run[m].successor
  {
    hide Reaches, SoundDesk, Run;
    var p := run[n].project;
    GenerationsPositive(run, n, p);
    m := R.TransferWasOpenedByOwner(run, n, p);
    assert R.At(run, n + 1) == R.Step(R.At(run, n), run[n]);
    HandOverExactly(R.At(run, n), run[n], d, nowMs, limit, key);
  }

  // ---------------------------------------------------------------- registry and inbox together

  // Registry commands and inbox turns in the order in which they take their locks; an inbox
  // command consults the registry once, at its start.
  datatype Event = RegistryEvent(command: R.Command) | InboxEvent(turn: Turn)

  datatype System = System(rows: R.Rows, desk: Desk)

  function Next(s: System, event: Event, limit: nat): System {
    match event
    case RegistryEvent(command) => s.(rows := R.Step(s.rows, command))
    case InboxEvent(turn) => s.(desk := After(s.desk, Written(s.desk, turn, limit)))
  }

  function At(run: seq<Event>, n: nat, limit: nat): System
    requires n <= |run|
  {
    if n == 0 then System(map[], EMPTY) else Next(At(run, n - 1, limit), run[n - 1], limit)
  }

  // What the registry tells the inbox about a project.
  function Registered(rows: R.Rows, p: string): Option<Owner> {
    if p in rows && 1 <= rows[p].generation then OwnerOf(rows[p]) else None
  }

  // Whoever calls an inbox command is judged by the registry as it stands.
  predicate Judged(run: seq<Event>, p: string, limit: nat) {
    forall i :: 0 <= i < |run| && run[i].InboxEvent? ==>
      run[i].turn.invocation.caller.registry == Registered(At(run, i, limit).rows, p)
  }

  lemma {:induction false} SystemSound(run: seq<Event>, n: nat, limit: nat)
    requires n <= |run|
    ensures SoundDesk(At(run, n, limit).desk, limit)
    decreases n
  {
    hide SoundDesk, Written, Run;
    if n == 0 {
      EmptySound(limit);
    } else {
      SystemSound(run, n - 1, limit);
      if run[n - 1].InboxEvent? {
        var d, turn := At(run, n - 1, limit).desk, run[n - 1].turn;
        WrittenPermitted(d, turn, limit);
        PermittedSound(d, Written(d, turn, limit), |Written(d, turn, limit)|, limit);
      }
    }
  }

  lemma EmptySound(limit: nat)
    ensures SoundDesk(EMPTY, limit)
  {
  }

  // ---------------------------------------------------------------- events that stay behind

  // The write neither re-addresses the item nor acknowledges it.
  predicate Leaves(w: Write, key: Key) {
    !((w.Adopt? || w.Acknowledge?) && w.key == key)
  }

  // Same addressee, and not acknowledged unless it was.
  predicate Stays(item: Item, after: Item) {
    && after.session == item.session && after.generation == item.generation
    && (after.state == Acknowledged ==> item.state == Acknowledged)
  }

  lemma ApplyLeaves(d: Desk, w: Write, key: Key)
    requires key in d.items && Leaves(w, key)
    ensures key in Apply(d, w).items && Stays(d.items[key], Apply(d, w).items[key])
  {
  }

  lemma {:induction false} RunLeaves(d: Desk, ws: seq<Write>, n: nat, key: Key)
    requires key in d.items && n <= |ws| && forall i :: 0 <= i < n ==> Leaves(ws[i], key)
    ensures key in Run(d, ws, n).items && Stays(d.items[key], Run(d, ws, n).items[key])
    decreases n
  {
    hide Apply, Leaves;
    if n > 0 {
      RunLeaves(d, ws, n - 1, key);
      ApplyLeaves(Run(d, ws, n - 1), ws[n - 1], key);
    }
  }

  predicate AllLeave(ws: seq<Write>, key: Key) {
    forall i :: 0 <= i < |ws| ==> Leaves(ws[i], key)
  }

  // The item belongs to the caller's own past: addressed to its session, under another generation.
  predicate OwnPast(item: Item, caller: Caller) {
    item.session == caller.session && item.generation != caller.generation
  }

  lemma PassLeaves(d: Desk, keys: seq<Key>, pass: Pass, key: Key)
    requires key in d.items && (Choice(d.items[key], key, pass).Some? ==> Leaves(Choice(d.items[key], key, pass).value, key))
    ensures AllLeave(PassWrites(d.items, keys, pass, |keys|), key)
  {
    hide Choice;
    var ws := PassWrites(d.items, keys, pass, |keys|);
    forall i | 0 <= i < |ws| ensures Leaves(ws[i], key) {
      PassWriteOrigin(d.items, keys, pass, |keys|, i);
    }
  }

  // A token of another generation is not the item's.
  lemma AckLeaves(d: Desk, caller: Caller, token: Token, statusRevision: int, requested: Option<set<Key>>, limit: nat, key: Key)
    requires SoundDesk(d, limit) && key in d.items && OwnPast(d.items[key], caller) && ClaimMatches(d, caller, token)
    ensures AllLeave(WalkAndSave(AfterReading(d), AckPass(token, statusRevision, requested)), key)
  {
    hide PassWrites, SavedAfter;
    assert Sound(d.items[key]);
    PassLeaves(AfterReading(d), d.claim.value.items, AckPass(token, statusRevision, requested), key);
  }

  lemma ExpireLeaves(d: Desk, nowMs: int, key: Key)
    requires key in d.items
    ensures AllLeave(ExpireWrites(d, nowMs), key)
  {
    hide PassWrites, SavedAfter;
    if Lapsed(d.claim, nowMs) {
      PassLeaves(d, d.claim.value.items, ExpirePass(d.claim.value.token.value), key);
    }
  }

  lemma ReconcileLeaves(d: Desk, nowMs: int, current: Option<Generation>, key: Key)
    requires key in d.items
    ensures AllLeave(ReconcileWrites(d, nowMs, current), key)
  {
    hide PassWrites, ExpireWrites, Apply;
    var expiry := ExpireWrites(d, nowMs);
    ExpireLeaves(d, nowMs, key);
    RunLeaves(d, expiry, |expiry|, key);
    var e := After(d, expiry);
    PassLeaves(e, e.listing, FlagPass(current), key);
  }

  lemma ClaimLeaves(d: Desk, caller: Caller, ttl: int, limit: nat, key: Key)
    ensures AllLeave(ClaimWrites(d, caller, ttl, limit), key)
  {
    var g := GrantFor(d.claim, caller, ttl);
    var ws := BindWrites(d, caller, g, limit, |d.listing|);
    forall i | 0 <= i < |ws| ensures Leaves(ws[i], key) {
      BindWriteOrigin(d, caller, g, limit, |d.listing|, i);
    }
  }

  // Nothing the coordinator itself can call re-addresses or acknowledges its own past.
  lemma PlanLeaves(d: Desk, caller: Caller, command: Command, limit: nat, key: Key)
    requires SoundDesk(d, limit) && key in d.items && (caller.Authoritative() ==> OwnPast(d.items[key], caller))
    requires Plan(d, caller, command, limit).Some?
    ensures AllLeave(Plan(d, caller, command, limit).value, key)
  {
    hide ClaimWrites, ReconcileWrites, PassWrites, SavedAfter, SoundDesk, OwnPast;
    match command
    case SubmitCmd(report, admitted) =>
    case ClaimCmd(ttl) => ClaimLeaves(AfterReading(d), caller, ttl, limit, key);
    case AckCmd(token, statusRevision, requested) =>
      if ClaimMatches(d, caller, token) {
        AckLeaves(d, caller, token, statusRevision.value, requested, limit, key);
      }
    case AdoptCmd => AdoptLeaves(d, caller, key);
    case ReleaseCmd(token) =>
      if d.claim.Some? && d.claim.value.token == Some(token) {
        PassLeaves(d, d.claim.value.items, ReleasePass(token), key);
      }
    case ReconcileCmd => ReconcileLeaves(d, caller.nowMs, caller.CurrentGeneration(), key);
    case PublishCmd(_) =>
  }

  lemma AdoptLeaves(d: Desk, caller: Caller, key: Key)
    requires AdoptPlan(d, caller).Some? && key in d.items && OwnPast(d.items[key], caller)
    ensures AllLeave(AdoptPlan(d, caller).value, key)
  {
    hide PassWrites;
    PassLeaves(d, d.listing, AdoptPass(caller.session, caller.generation, caller.registry.value.predecessor.value), key);
  }

  lemma TurnLeaves(d: Desk, turn: Turn, limit: nat, key: Key)
    requires SoundDesk(d, limit) && key in d.items
    requires var caller := turn.invocation.caller; caller.Authoritative() ==> OwnPast(d.items[key], caller)
    ensures var e := After(d, Written(d, turn, limit)); key in e.items && Stays(d.items[key], e.items[key])
  {
    hide Plan, SoundDesk, OwnPast, Apply, Stays, Leaves, Written;
    var inv := turn.invocation;
    var made := Made(d, inv, limit);
    WrittenPermitted(d, turn, limit);
    if Plan(d, inv.caller, inv.command, limit).Some? {
      PlanLeaves(d, inv.caller, inv.command, limit, key);
    }
    RunLeaves(d, made, |made|, key);
  }

  // From step m to step n the project has this owner.
  predicate OwnedThroughout(run: seq<Event>, m: nat, n: nat, p: string, owner: string, limit: nat)
    requires n <= |run|
  {
    forall k :: m <= k <= n ==> p in At(run, k, limit).rows && At(run, k, limit).rows[p].owner == owner
  }

  // An unacknowledged event of the owner's own past, addressed under generation g.
  predicate OfOwnPast(s: System, p: string, owner: string, g: Generation, key: Key) {
    && p in s.rows && s.rows[p].owner == owner && g < s.rows[p].generation
    && key in s.desk.items && s.desk.items[key].session == owner && s.desk.items[key].generation == g
    && s.desk.items[key].state != Acknowledged
  }

  // No caller that the registry accepts for the project can claim the item.
  ghost predicate NobodyClaims(s: System, p: string, key: Key) {
    forall caller: Caller :: caller.registry == Registered(s.rows, p) && caller.Authoritative() ==> !Eligible(s.desk, caller, key)
  }

  lemma OwnPastIsUnclaimable(s: System, p: string, owner: string, g: Generation, key: Key)
    requires OfOwnPast(s, p, owner, g, key)
    ensures NobodyClaims(s, p, key)
  {
  }

  lemma StepLeaves(s: System, event: Event, limit: nat, p: string, owner: string, g: Generation, key: Key)
    requires SoundDesk(s.desk, limit) && OfOwnPast(s, p, owner, g, key)
    requires event.InboxEvent? ==> event.turn.invocation.caller.registry == Registered(s.rows, p)
    requires p in Next(s, event, limit).rows && Next(s, event, limit).rows[p].owner == owner
    ensures OfOwnPast(Next(s, event, limit), p, owner, g, key)
  {
    hide Written, SoundDesk, Run;
    match event
    case RegistryEvent(command) => R.StepEffect(s.rows, command, p);
    case InboxEvent(turn) => TurnLeaves(s.desk, turn, limit, key);
  }

  /** An event of the owner's own past stays behind for as long as the owner stays: whatever
      anybody calls, and wherever calls die, it keeps its address, is not acknowledged, and
      cannot be claimed by the coordinator.  Only a change of the owner can end this. */
  lemma {:induction false} OwnPastStaysBehind(run: seq<Event>, m: nat, n: nat, p: string, owner: string, g: Generation,
                                              limit: nat, key: Key)
    requires Judged(run, p, limit) && m <= n <= |run| && OwnedThroughout(run, m, n, p, owner, limit)
    requires OfOwnPast(At(run, m, limit), p, owner, g, key)
    ensures OfOwnPast(At(run, n, limit), p, owner, g, key)
    ensures NobodyClaims(At(run, n, limit), p, key)
    decreases n
  {
    hide Next, SoundDesk, OfOwnPast, NobodyClaims;
    if m < n {
      assert p in At(run, n, limit).rows;
      OwnPastStaysBehind(run, m, n - 1, p, owner, g, limit, key);
      SystemSound(run, n - 1, limit);
      assert At(run, n, limit).rows[p].owner == owner;
      StepLeaves(At(run, n - 1, limit), run[n - 1], limit, p, owner, g, key);
    }
    OwnPastIsUnclaimable(At(run, n, limit), p, owner, g, key);
  }

  // ---------------------------------------------------------------- a transfer to oneself

  // A coordinator claims its project, receives a report, transfers the project to itself, and
  // tries to adopt.
  function SelfTransfer(): seq<Event> {
    [RegistryEvent(R.Claim("p", "coordinator", None, {"coordinator"}, true)),
     InboxEvent(ReportTurn(1)),
     RegistryEvent(R.BeginTransfer("p", "coordinator", "coordinator", false, true)),
     RegistryEvent(R.AcceptTransfer("p", "coordinator", Some(1), true)),
     InboxEvent(Turn(Invocation(Coordinator(SECOND, 0), AdoptCmd, 1), []))]
  }

  const FIRST := R.Row("coordinator", 1, R.Authoritative, None, None, false)

  const SECOND := R.Row("coordinator", 2, R.Authoritative, Some("coordinator"), None, false)

  lemma SelfTransferStates(limit: nat)
    ensures var run := SelfTransfer();
      && At(run, 1, limit) == System(map["p" := FIRST], EMPTY)
      && At(run, 2, limit) == System(map["p" := FIRST], ReportedDesk(1))
      && At(run, 4, limit) == System(map["p" := SECOND], ReportedDesk(1))
      && At(run, 5, limit) == System(map["p" := SECOND], ReportedDesk(1))
      && AdoptionOf(ReportedDesk(1), SECOND, 0, limit).None?
  {
    hide Written, Run;
    var run := SelfTransfer();
    ReportWrites(1, limit);
    assert At(run, 0, limit).rows == map[];
    assert At(run, 1, limit) == System(map["p" := FIRST], EMPTY);
    assert At(run, 2, limit).desk == ReportedDesk(1);
    assert At(run, 3, limit).rows == map["p" := FIRST.(state := R.Rotating, successor := Some("coordinator"))];
    RefusedTurn(ReportedDesk(1), run[4].turn, limit);
  }

  lemma RefusedTurn(d: Desk, turn: Turn, limit: nat)
    requires Plan(d, turn.invocation.caller, turn.invocation.command, limit).None?
    ensures After(d, Written(d, turn, limit)) == d
  {
    hide Plan;
    assert Made(d, turn.invocation, limit) == [];
    NothingPermitted(d, limit);
  }

  /** The registry accepts a transfer of a project to its own owner; afterwards the owner can
      neither adopt nor claim the report it had received before. */
  lemma SelfTransferStrands(limit: nat)
    ensures var run := SelfTransfer(); var s := At(run, 5, limit);
      && Judged(run, "p", limit) && OfOwnPast(s, "p", "coordinator", 1, 7)
      && s.rows == map["p" := SECOND] && 7 in s.desk.items
      && s.desk.items[7].state == Pending && s.desk.items[7].generation == 1
      && AdoptionOf(s.desk, SECOND, 0, limit).None? && !Eligible(s.desk, Coordinator(SECOND, 0), 7)
  {
    hide Written, Run, R.Step, AdoptionOf;
    SelfTransferStates(limit);
  }
}
