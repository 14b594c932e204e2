/** Runs of the inbox: commands that may die between any two writes, while status files are
    published under a lock of their own between any two of their steps.
 */
module InboxRuns {
  import opened Wrappers
  import opened InboxLog
  import opened Inbox

  // One invocation, and the generations whose status was published after each of its steps.
  datatype Turn = Turn(invocation: Invocation, published: seq<seq<Generation>>)

  function Published(turn: Turn, i: nat): seq<Generation> {
    if i < |turn.published| then turn.published[i] else []
  }

  function PublishWrites(status: Option<Status>, generations: seq<Generation>): seq<Write>
    decreases generations
  {
    if generations == [] then []
    else
      var next := Status(generations[0], if status.Some? then status.value.revision + 1 else 1);
      [Publish(next)] + PublishWrites(Some(next), generations[1..])
  }

  // The first n writes of a command, each followed by what others published meanwhile.
  function Woven(d: Desk, ws: seq<Write>, turn: Turn, n: nat): seq<Write>
    requires n <= |ws|
  {
    if n == 0 then []
    else
      var log := Woven(d, ws, turn, n - 1) + [ws[n - 1]];
      log + PublishWrites(After(d, log).status, Published(turn, n - 1))
  }

  function After(d: Desk, log: seq<Write>): Desk {
    Run(d, log, |log|)
  }

  // Everything written while one turn lasted.
  function Written(d: Desk, turn: Turn, limit: nat): seq<Write> {
    var made := Made(d, turn.invocation, limit);
    Woven(d, made, turn, |made|)
  }

  // Everything ever written by a run.
  function History(run: seq<Turn>, limit: nat): seq<Write> {
    if run == [] then []
    else
      var before := History(run[..|run| - 1], limit);
      before + Written(After(EMPTY, before), run[|run| - 1], limit)
  }

  // ---------------------------------------------------------------- what depends on the status file

  // A write that neither reads nor changes the status file.
  predicate Quiet(w: Write) {
    !w.Publish? && !w.ReadStatus?
  }

  function WithStatus(d: Desk, status: Option<Status>): Desk {
    d.(status := status)
  }

  lemma QuietIgnoresStatus(d: Desk, w: Write, status: Option<Status>, limit: nat)
    requires Quiet(w)
    ensures Permitted(WithStatus(d, status), w, limit) <==> Permitted(d, w, limit)
    ensures Apply(WithStatus(d, status), w) == WithStatus(Apply(d, w), status)
  {
  }

  lemma {:induction false} PublishingOnlyPublishes(d: Desk, generations: seq<Generation>, limit: nat)
    ensures var ws := PublishWrites(d.status, generations);
      AllPermitted(d, ws, limit) && After(d, ws) == WithStatus(d, After(d, ws).status)
    decreases generations
  {
    hide AllPermitted;
    var ws := PublishWrites(d.status, generations);
    if generations == [] {
      NothingPermitted(d, limit);
    } else {
      var rest := PublishWrites(Some(ws[0].status), generations[1..]);
      var e := Apply(d, ws[0]);
      OnePermitted(d, ws[0], limit);
      RunOne(d, ws[0]);
      PublishingOnlyPublishes(e, generations[1..], limit);
      PermittedAppend(d, [ws[0]], rest, limit);
      RunAppend(d, [ws[0]], rest, |ws|);
    }
  }

  lemma NothingPermitted(d: Desk, limit: nat)
    ensures AllPermitted(d, [], limit) && After(d, []) == d
  {
  }

  lemma RunOne(d: Desk, w: Write)
    ensures After(d, [w]) == Apply(d, w)
  {
    assert Run(d, [w], 0) == d;
  }

  // Only the first write of a command has to do with the status file.
  predicate StatusFirst(ws: seq<Write>) {
    forall i :: 1 <= i < |ws| ==> Quiet(ws[i])
  }

  /** What is published while a command runs changes nothing else of what it leaves, and
      does not forbid any of its writes. */
  lemma {:induction false} WeavingKeeps(d: Desk, ws: seq<Write>, turn: Turn, n: nat, limit: nat)
    requires n <= |ws| && StatusFirst(ws) && AllPermitted(d, ws, limit)
    ensures AllPermitted(d, Woven(d, ws, turn, n), limit)
    ensures After(d, Woven(d, ws, turn, n)) == WithStatus(Run(d, ws, n), After(d, Woven(d, ws, turn, n)).status)
    decreases n
  {
    hide AllPermitted, Permitted, Apply;
    if n == 0 {
      NothingPermitted(d, limit);
    } else {
      var before, w := Woven(d, ws, turn, n - 1), ws[n - 1];
      var e := After(d, before);
      WeavingKeeps(d, ws, turn, n - 1, limit);
      PermittedAt(d, ws, n - 1, limit);
      if n > 1 {
        QuietIgnoresStatus(Run(d, ws, n - 1), w, e.status, limit);
      }
      OnePermitted(e, w, limit);
      RunOne(e, w);
      PermittedAppend(d, before, [w], limit);
      RunAppend(d, before, [w], |before| + 1);
      ThenPublished(d, before + [w], Published(turn, n - 1), limit);
    }
  }

  lemma ThenPublished(d: Desk, log: seq<Write>, generations: seq<Generation>, limit: nat)
    requires AllPermitted(d, log, limit)
    ensures var longer := log + PublishWrites(After(d, log).status, generations);
      AllPermitted(d, longer, limit) && After(d, longer) == WithStatus(After(d, log), After(d, longer).status)
  {
    hide AllPermitted, Apply;
    var more := PublishWrites(After(d, log).status, generations);
    PublishingOnlyPublishes(After(d, log), generations, limit);
    PermittedAppend(d, log, more, limit);
    RunAppend(d, log, more, |log + more|);
  }

  lemma PermittedAt(d: Desk, ws: seq<Write>, n: nat, limit: nat)
    requires AllPermitted(d, ws, limit) && n < |ws|
    ensures Permitted(Run(d, ws, n), ws[n], limit)
  {
  }

  // ---------------------------------------------------------------- every command reads it first or not at all

  predicate AllQuiet(ws: seq<Write>) {
    forall i :: 0 <= i < |ws| ==> Quiet(ws[i])
  }

  lemma PassIsQuiet(items: map<Key, Item>, keys: seq<Key>, pass: Pass)
    ensures AllQuiet(PassWrites(items, keys, pass, |keys|))
  {
    forall i | 0 <= i < |PassWrites(items, keys, pass, |keys|)| ensures Quiet(PassWrites(items, keys, pass, |keys|)[i]) {
      PassWriteOrigin(items, keys, pass, |keys|, i);
    }
  }

  lemma WalkIsQuiet(d: Desk, pass: Pass)
    requires d.claim.Some?
    ensures AllQuiet(WalkAndSave(d, pass))
  {
    PassIsQuiet(d.items, d.claim.value.items, pass);
  }

  lemma ClaimIsQuiet(d: Desk, caller: Caller, ttl: int, limit: nat)
    ensures AllQuiet(ClaimWrites(d, caller, ttl, limit))
  {
    var g := GrantFor(d.claim, caller, ttl);
    var ws := BindWrites(d, caller, g, limit, |d.listing|);
    forall i | 0 <= i < |ws| ensures Quiet(ws[i]) {
      BindWriteOrigin(d, caller, g, limit, |d.listing|, i);
    }
  }

  lemma ReconcileIsQuiet(d: Desk, nowMs: int, current: Option<Generation>)
    ensures AllQuiet(ReconcileWrites(d, nowMs, current))
  {
    hide WalkAndSave, PassWrites;
    var expiry := ExpireWrites(d, nowMs);
    if Lapsed(d.claim, nowMs) {
      WalkIsQuiet(d, ExpirePass(d.claim.value.token.value));
    }
    var e := After(d, expiry);
    PassIsQuiet(e.items, e.listing, FlagPass(current));
  }

  lemma PlanStatusFirst(d: Desk, caller: Caller, command: Command, limit: nat)
    requires Plan(d, caller, command, limit).Some?
    ensures StatusFirst(Plan(d, caller, command, limit).value)
  {
    hide ClaimWrites, WalkAndSave, ReconcileWrites, PassWrites;
    match command
    case SubmitCmd(report, admitted) =>
    case ClaimCmd(ttl) => ClaimIsQuiet(AfterReading(d), caller, ttl, limit);
    case AckCmd(token, statusRevision, requested) =>
      if ClaimMatches(d, caller, token) {
        WalkIsQuiet(AfterReading(d), AckPass(token, statusRevision.value, requested));
      }
    case AdoptCmd =>
      PassIsQuiet(d.items, d.listing, AdoptPass(caller.session, caller.generation, caller.registry.value.predecessor.value));
    case ReleaseCmd(token) =>
      if d.claim.Some? && d.claim.value.token == Some(token) {
        WalkIsQuiet(d, ReleasePass(token));
      }
    case ReconcileCmd => ReconcileIsQuiet(d, caller.nowMs, caller.CurrentGeneration());
    case PublishCmd(_) =>
  }

  lemma WrittenPermitted(d: Desk, turn: Turn, limit: nat)
    requires SoundDesk(d, limit)
    ensures AllPermitted(d, Written(d, turn, limit), limit)
    ensures var made := Made(d, turn.invocation, limit);
      After(d, Written(d, turn, limit)) == WithStatus(After(d, made), After(d, Written(d, turn, limit)).status)
  {
    hide Plan, AllPermitted;
    var made := Made(d, turn.invocation, limit);
    MadePermitted(d, turn.invocation, limit);
    if Plan(d, turn.invocation.caller, turn.invocation.command, limit).Some? {
      PlanStatusFirst(d, turn.invocation.caller, turn.invocation.command, limit);
    }
    WeavingKeeps(d, made, turn, |made|, limit);
  }

  lemma LawfulIsAllPermitted(log: seq<Write>, limit: nat)
    ensures Lawful(log, limit) <==> AllPermitted(EMPTY, log, limit)
  {
    if Lawful(log, limit) {
      forall i | 0 <= i < |log| ensures Permitted(Run(EMPTY, log, i), log[i], limit) {
        assert Permitted(Replay(log, i), log[i], limit);
      }
    } else {
      var i :| 0 <= i < |log| && !Permitted(Replay(log, i), log[i], limit);
      assert !Permitted(Run(EMPTY, log, i), log[i], limit);
    }
  }

  /** Whatever coordinators and workers invoke, wherever their processes die between two file
      writes, and whatever statuses are published in between, every write in the history was
      permitted when it was made.  With this, everything proved about permitted logs holds of
      every run of the inbox. */
  lemma {:induction false} HistoryIsLawful(run: seq<Turn>, limit: nat)
    ensures Lawful(History(run, limit), limit)
  {
    hide Written, Permitted, Apply;
    LawfulIsAllPermitted(History(run, limit), limit);
    if run != [] {
      var before := History(run[..|run| - 1], limit);
      HistoryIsLawful(run[..|run| - 1], limit);
      LawfulIsAllPermitted(before, limit);
      ReplaySound(before, |before|, limit);
      var d := After(EMPTY, before);
      WrittenPermitted(d, run[|run| - 1], limit);
      PermittedAppend(EMPTY, before, Written(d, run[|run| - 1], limit), limit);
    }
  }

  // ---------------------------------------------------------------- what an acknowledgement takes

  predicate AcknowledgesIn(ws: seq<Write>, key: Key) {
    exists i :: 0 <= i < |ws| && ws[i].Acknowledge? && ws[i].key == key
  }

  // The command acknowledges this item.
  predicate Acknowledges(plan: Option<seq<Write>>, key: Key) {
    plan.Some? && AcknowledgesIn(plan.value, key)
  }

  // The item is bound to the token by the claim of this coordinator, at a revision other than zero.
  predicate BoundFor(d: Desk, caller: Caller, token: Token, key: Key) {
    && ClaimMatches(d, caller, token) && key in d.claim.value.items
    && key in d.items && d.items[key].claimToken == Some(token) && d.items[key].revision != 0
  }

  predicate Answered(d: Desk, caller: Caller, statusRevision: Option<int>, key: Key)
    requires key in d.items
  {
    && statusRevision.Some? && StatusMatches(d, caller, statusRevision.value)
    && OrElse(d.items[key].claimedStatusRevision, 0) < statusRevision.value
  }

  /** The ack command acknowledges an item exactly when the caller is the coordinator, the
      claim and the item carry its token, the item is asked for and has a revision other than
      zero, and the status cited is the one on file and newer than what the claim had seen. */
  lemma AckExactly(d: Desk, caller: Caller, token: Token, statusRevision: Option<int>, requested: Option<set<Key>>,
                   limit: nat, key: Key)
    requires SoundDesk(d, limit)
    ensures Acknowledges(Plan(d, caller, AckCmd(token, statusRevision, requested), limit), key)
       <==> caller.Authoritative() && Requested(requested, key) && BoundFor(d, caller, token, key)
            && Answered(d, caller, statusRevision, key)
  {
    hide Permitted, Apply, Remaining;
    var plan := Plan(d, caller, AckCmd(token, statusRevision, requested), limit);
    if caller.Authoritative() && ClaimMatches(d, caller, token) && statusRevision.Some? && StatusMatches(d, caller, statusRevision.value) {
      var keys, pass := d.claim.value.items, AckPass(token, statusRevision.value, requested);
      PassAcknowledges(d, keys, pass, limit, key);
      var ws := PassWrites(d.items, keys, pass, |keys|);
      assert plan == Some([ReadStatus] + (ws + [Record(SavedAfter(AfterReading(d), pass))]));
      AmongOthers(ws, Record(SavedAfter(AfterReading(d), pass)), key);
    }
  }

  lemma AmongOthers(ws: seq<Write>, last: Write, key: Key)
    requires last.Record?
    ensures AcknowledgesIn([ReadStatus] + (ws + [last]), key) <==> AcknowledgesIn(ws, key)
  {
    var longer := [ReadStatus] + (ws + [last]);
    assert forall i :: 0 <= i < |ws| ==> longer[i + 1] == ws[i];
    if j :| 0 <= j < |longer| && longer[j].Acknowledge? && longer[j].key == key {
      assert longer[j] == ws[j - 1];
    }
  }

  lemma PassAcknowledges(d: Desk, keys: seq<Key>, pass: Pass, limit: nat, key: Key)
    requires SoundDesk(d, limit) && pass.AckPass?
    ensures var ws := PassWrites(d.items, keys, pass, |keys|);
      AcknowledgesIn(ws, key)
      <==> key in keys && key in d.items && Requested(pass.requested, key) && d.items[key].claimToken == Some(pass.token)
           && d.items[key].revision != 0 && OrElse(d.items[key].claimedStatusRevision, 0) < pass.statusRevision
  {
    var ws := PassWrites(d.items, keys, pass, |keys|);
    assert keys[..|keys|] == keys;
    if i :| 0 <= i < |ws| && ws[i].Acknowledge? && ws[i].key == key {
      PassWriteOrigin(d.items, keys, pass, |keys|, i);
      assert Sound(d.items[key]);
    }
    if key in keys && key in d.items && Choice(d.items[key], key, pass).Some? {
      var i := PassIsComplete(d.items, keys, pass, |keys|, key);
    }
  }

  // ---------------------------------------------------------------- a report and its claim

  const COORDINATOR := Caller("coordinator", 1, 0, Some(Owner("coordinator", 1, None, false)), true)

  const TOKEN := Token(1, 0, 1)

  function ReportTurn(revision: int): Turn {
    Turn(Invocation(COORDINATOR, SubmitCmd(Report(7, "payload", true, Some(revision)), true), 1), [])
  }

  function ClaimTurn(published: seq<seq<Generation>>): Turn {
    Turn(Invocation(COORDINATOR, ClaimCmd(900), 3), published)
  }

  function Reported(revision: int): Item {
    Item("coordinator", 1, "payload", true, revision, Pending, None, None, None, None, None, None, 0, false, None)
  }

  function SubmitOf(revision: int): Write {
    Submit(7, "coordinator", 1, "payload", true, revision)
  }

  const BOUND := Bind(7, TOKEN, 0, 900000, 0)

  const CLAIMED := Record(ClaimRecord("coordinator", 1, Some(TOKEN), Some(900000), 1, [7]))

  function ReportedDesk(revision: int): Desk {
    Desk(map[7 := Reported(revision)], [7], None, None, Unread)
  }

  function ClaimedDesk(revision: int, status: Option<Status>): Desk {
    Desk(map[7 := Rewritten(Reported(revision), BOUND)], [7], Some(CLAIMED.claim), status, Saw(None))
  }

  lemma ReportWrites(revision: int, limit: nat)
    ensures var log := Written(EMPTY, ReportTurn(revision), limit);
      log == [SubmitOf(revision)] && After(EMPTY, log) == ReportedDesk(revision)
  {
    var made := Made(EMPTY, ReportTurn(revision).invocation, limit);
    assert made == [SubmitOf(revision)];
    RunOne(EMPTY, SubmitOf(revision));
    assert Woven(EMPTY, made, ReportTurn(revision), 0) == [];
  }

  // A turn without publications writes what its command writes.
  lemma {:induction false} UndisturbedTurn(d: Desk, ws: seq<Write>, turn: Turn, n: nat)
    requires n <= |ws| && turn.published == []
    ensures Woven(d, ws, turn, n) == ws[..n]
    decreases n
  {
    if n > 0 {
      UndisturbedTurn(d, ws, turn, n - 1);
      assert ws[..n] == ws[..n - 1] + [ws[n - 1]];
    }
  }

  lemma ReadingIs(d: Desk)
    ensures Apply(d, ReadStatus) == AfterReading(d)
  {
  }

  lemma ClaimPlan(revision: int, published: seq<seq<Generation>>, limit: nat)
    requires 1 <= limit
    ensures Made(ReportedDesk(revision), ClaimTurn(published).invocation, limit) == [ReadStatus, BOUND, CLAIMED]
  {
    var d, g := AfterReading(ReportedDesk(revision)), Grant(TOKEN, 900000, 1, []);
    assert GrantFor(d.claim, COORDINATOR, 900) == g;
    assert BindWrites(d, COORDINATOR, g, limit, 0) == [] && Digest(d, COORDINATOR, [], limit, 0) == [];
    assert Eligible(d, COORDINATOR, 7) && d.listing[0] == 7;
    assert BindWrites(d, COORDINATOR, g, limit, 1) == [BOUND];
    assert Digest(d, COORDINATOR, [], limit, 1) == [7];
    assert SortKeys([]) == [] && SortKeys([7]) == [7];
    assert ClaimWrites(d, COORDINATOR, 900, limit) == [BOUND, CLAIMED];
  }

  lemma TwoTurns(first: Turn, second: Turn, limit: nat)
    ensures var one := Written(EMPTY, first, limit); var two := Written(After(EMPTY, one), second, limit);
      && History([first, second], limit) == one + two
      && After(EMPTY, one + two) == After(After(EMPTY, one), two)
  {
    hide Written, Apply;
    var one := Written(EMPTY, first, limit);
    var two := Written(After(EMPTY, one), second, limit);
    assert [first, second][..1] == [first] && [first][..0] == [];
    NothingPermitted(EMPTY, limit);
    assert History([], limit) == [];
    assert History([first], limit) == one;
    RunAppend(EMPTY, one, two, |one + two|);
  }

  lemma OneTurnMore(run: seq<Turn>, turn: Turn, limit: nat)
    ensures var before := History(run, limit); var more := Written(After(EMPTY, before), turn, limit);
      && History(run + [turn], limit) == before + more
      && After(EMPTY, before + more) == After(After(EMPTY, before), more)
  {
    hide Written, Apply;
    assert (run + [turn])[..|run|] == run;
    var before := History(run, limit);
    var more := Written(After(EMPTY, before), turn, limit);
    RunAppend(EMPTY, before, more, |before + more|);
  }

  // ---------------------------------------------------------------- a status published while a claim is being made

  // A report; a claim during which a status is published; an acknowledgement citing it.
  function EarlyRun(): seq<Turn> {
    [ReportTurn(1), ClaimTurn([[1]])] + [Turn(Invocation(COORDINATOR, AckCmd(TOKEN, Some(1), None), 3), [])]
  }

  lemma EarlyClaim(limit: nat)
    requires 1 <= limit
    ensures var log := Written(ReportedDesk(1), ClaimTurn([[1]]), limit);
      log == [ReadStatus, Publish(Status(1, 1)), BOUND, CLAIMED]
      && After(ReportedDesk(1), log) == ClaimedDesk(1, Some(Status(1, 1)))
  {
    hide Made, Permitted, Apply, Rewritten;
    ClaimPlan(1, [[1]], limit);
    var d, ws, turn := ReportedDesk(1), [ReadStatus, BOUND, CLAIMED], ClaimTurn([[1]]);
    assert Woven(d, ws, turn, 0) + [ws[0]] == [ReadStatus] && Published(turn, 0) == [1];
    RunOne(d, ReadStatus);
    assert Apply(d, ReadStatus) == AfterReading(d) by { ReadingIs(d); }
    assert PublishWrites(None, [1]) == [Publish(Status(1, 1))];
    assert Woven(d, ws, turn, 1) == [ReadStatus, Publish(Status(1, 1))];
    assert Woven(d, ws, turn, 2) == [ReadStatus, Publish(Status(1, 1)), BOUND];
    assert Woven(d, ws, turn, 3) == [ReadStatus, Publish(Status(1, 1)), BOUND, CLAIMED];
    EarlyClaimLeaves();
  }

  lemma EarlyClaimLeaves()
    ensures After(ReportedDesk(1), [ReadStatus, Publish(Status(1, 1)), BOUND, CLAIMED]) == ClaimedDesk(1, Some(Status(1, 1)))
  {
    var d, log := ReportedDesk(1), [ReadStatus, Publish(Status(1, 1)), BOUND, CLAIMED];
    assert Run(d, log, 0) == d;
    assert Run(d, log, 1) == AfterReading(d);
    assert Run(d, log, 2) == AfterReading(d).(status := Some(Status(1, 1)));
    assert Run(d, log, 3).items == map[7 := Rewritten(Reported(1), BOUND)];
  }

  lemma EarlyAcknowledgement(limit: nat)
    ensures var log := Written(ClaimedDesk(1, Some(Status(1, 1))), EarlyRun()[2], limit);
      |log| == 3 && log[0] == ReadStatus && log[1] == Acknowledge(7, TOKEN, 1)
  {
    var d, turn := ClaimedDesk(1, Some(Status(1, 1))), EarlyRun()[2];
    var e, pass := AfterReading(d), AckPass(TOKEN, 1, None);
    assert PassWrites(e.items, [7], pass, 0) == [];
    assert e.items[7].revision == 1 && Choice(e.items[7], 7, pass) == Some(Acknowledge(7, TOKEN, 1));
    assert PassWrites(e.items, [7], pass, 1) == [Acknowledge(7, TOKEN, 1)];
    assert e.claim.value.items == [7];
    assert WalkAndSave(e, pass) == [Acknowledge(7, TOKEN, 1), Record(SavedAfter(e, pass))];
    var made := Made(d, turn.invocation, limit);
    UndisturbedTurn(d, made, turn, |made|);
  }

  /** Otherwise it need not be.  Here a status is published after the claim has read the old
      one and before it binds the item; it is then accepted as the evidence that the item was
      dealt with, although it came before the binding. */
  lemma EarlyStatusAcknowledges(limit: nat)
    requires 1 <= limit
    ensures var log := History(EarlyRun(), limit);
      && Lawful(log, limit) && |log| == 8 && LastRead(log, 3, 1)
      && log[2] == Publish(Status(1, 1)) && log[3] == BOUND && log[6] == Acknowledge(7, TOKEN, 1)
  {
    hide Written, Lawful, Run;
    HistoryIsLawful(EarlyRun(), limit);
    ReportWrites(1, limit);
    EarlyClaim(limit);
    EarlyAcknowledgement(limit);
    TwoTurns(ReportTurn(1), ClaimTurn([[1]]), limit);
    OneTurnMore([ReportTurn(1), ClaimTurn([[1]])], EarlyRun()[2], limit);
  }

  // ---------------------------------------------------------------- revision zero

  // A report of revision zero, its claim, and a status published afterwards.
  function ZeroRun(): seq<Turn> {
    [ReportTurn(0), ClaimTurn([])] + [Turn(Invocation(COORDINATOR, PublishCmd(true), 1), [])]
  }

  lemma ZeroClaim(limit: nat)
    requires 1 <= limit
    ensures var log := Written(ReportedDesk(0), ClaimTurn([]), limit); After(ReportedDesk(0), log) == ClaimedDesk(0, None)
  {
    hide Made, Permitted, Rewritten;
    ClaimPlan(0, [], limit);
    var d, ws := ReportedDesk(0), [ReadStatus, BOUND, CLAIMED];
    UndisturbedTurn(d, ws, ClaimTurn([]), 3);
    assert ws[..3] == ws;
    assert Run(d, ws, 0) == d;
    assert Run(d, ws, 1) == AfterReading(d);
    assert Run(d, ws, 2).items == map[7 := Rewritten(Reported(0), BOUND)];
  }

  lemma ZeroPublication(limit: nat)
    ensures var d := ClaimedDesk(0, None);
      After(d, Written(d, ZeroRun()[2], limit)) == ClaimedDesk(0, Some(Status(1, 1)))
  {
    var d := ClaimedDesk(0, None);
    var made := Made(d, ZeroRun()[2].invocation, limit);
    assert made == [Publish(Status(1, 1))];
    UndisturbedTurn(d, made, ZeroRun()[2], 1);
    assert made[..1] == made;
    RunOne(d, made[0]);
  }

  /** A report of revision zero is claimed, a newer status is published, and still no ack by
      anybody, with any token and any status, acknowledges it. */
  lemma ZeroRevisionStuck(caller: Caller, token: Token, statusRevision: Option<int>, requested: Option<set<Key>>, limit: nat)
    requires 1 <= limit
    ensures var d := After(EMPTY, History(ZeroRun(), limit));
      && d == ClaimedDesk(0, Some(Status(1, 1))) && d.items[7].revision == 0 && d.items[7].state == Claimed
      && !Acknowledges(Plan(d, caller, AckCmd(token, statusRevision, requested), limit), 7)
  {
    hide Written, Lawful, Run, Acknowledges, Plan;
    ReportWrites(0, limit);
    ZeroClaim(limit);
    ZeroPublication(limit);
    TwoTurns(ReportTurn(0), ClaimTurn([]), limit);
    OneTurnMore([ReportTurn(0), ClaimTurn([])], ZeroRun()[2], limit);
    HistoryIsLawful(ZeroRun(), limit);
    var log := History(ZeroRun(), limit);
    ReplaySound(log, |log|, limit);
    AckExactly(After(EMPTY, log), caller, token, statusRevision, requested, limit, 7);
  }
}
