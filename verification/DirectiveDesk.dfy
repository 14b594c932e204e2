/** The project desk: every call first loads the records in the notes into the in-memory
    ledger, then stores a directive or projects a status.
 */
module DirectiveDesk {
  import opened Wrappers
  import opened DirectiveLedger
  import opened DeskNotes
  import opened DeskRecords
  import opened MarkerFreeText

  // ---------------------------------------------------------------- loading

  // Append records until one is refused.
  function AppendAll(entries: seq<OwnerDirective>, records: seq<OwnerDirective>): (r: (seq<OwnerDirective>, bool)) {
    if records == [] then (entries, true)
    else
      var (front, ok) := AppendAll(entries, records[..|records| - 1]);
      if !ok then (front, false)
      else match Appended(front, records[|records| - 1])
        case None => (front, false)
        case Some(longer) => (longer, true)
  }

  // The ledger after loading the notes, and whether loading succeeded.
  function Loaded(entries: seq<OwnerDirective>, notes: string): (seq<OwnerDirective>, bool) {
    match Records(notes)
    case None => (entries, false)
    case Some(records) => AppendAll(entries, records)
  }

  // ---------------------------------------------------------------- calls

  // `fromOwnerDesk` and `matchesMessage` are the checks against the session store, `digest`
  // is that of the directive; the two times are read before and after the notes are written,
  // and `readBack` says whether they then read back as written.
  datatype Input = Input(
    id: string, issueId: string, receivedAtMs: nat, verbatim: string, sourceSessionId: string, sourceMessageId: string,
    fromOwnerDesk: bool, matchesMessage: bool, digest: Digest, ackAtMs: nat, doneAtMs: nat, readBack: bool)

  function Candidate(input: Input): (e: OwnerDirective)
    ensures Digested(e)
  {
    OwnerDirective(input.id, input.issueId, input.receivedAtMs, input.ackAtMs, input.verbatim,
                   Some(Evidence(input.sourceSessionId, input.sourceMessageId, AckId(input.digest))))
  }

  predicate SameDirective(existing: OwnerDirective, input: Input) {
    && existing.issueId == input.issueId && existing.receivedAtMs == input.receivedAtMs && existing.verbatim == input.verbatim
    && existing.direct.Some? && existing.direct.value.sourceSessionId == input.sourceSessionId
    && existing.direct.value.sourceMessageId == input.sourceMessageId
  }

  predicate InTime(input: Input) {
    input.receivedAtMs <= input.ackAtMs <= input.receivedAtMs + ACK_WINDOW_MS
  }

  datatype Desk = Desk(notes: string, entries: seq<OwnerDirective>)

  // The state an ingest ends in, whether it wrote the notes, and whether it succeeded.
  datatype Ingested = Ingested(desk: Desk, wrote: bool, ok: bool)

  function Ingest(s: Desk, input: Input): Ingested {
    var (entries, loaded) := Loaded(s.entries, s.notes);
    var t := s.(entries := entries);
    if !input.fromOwnerDesk then Ingested(s, false, false)
    else if !loaded then Ingested(t, false, false)
    else match Find(entries, input.id)
      case Some(existing) => Ingested(t, false, SameDirective(existing, input))
      case None =>
        if !input.matchesMessage || !InTime(input) then Ingested(t, false, false)
        else
          var written := t.(notes := WithDirective(s.notes, Candidate(input)));
          var longer := Appended(entries, Candidate(input));
          if input.doneAtMs > input.receivedAtMs + ACK_WINDOW_MS || !input.readBack || longer.None? then Ingested(written, true, false)
          else Ingested(written.(entries := longer.value), true, true)
  }

  function Project(s: Desk, text: string, readBack: bool): (Desk, bool) {
    var (entries, loaded) := Loaded(s.entries, s.notes);
    if !loaded then (s.(entries := entries), false)
    else (Desk(WithBlocks(text, Blocks(MARKER, s.notes)), entries), readBack)
  }

  // The desk object: the notes live in the session store, the ledger in memory.
  class ProjectDesk {
    var notes: string
    var ledger: OwnerDirectiveLedger

    ghost predicate Valid()
      reads this, ledger
    {
      ledger.Valid()
    }

    ghost function View(): Desk
      reads this, ledger
    {
      Desk(notes, ledger.entries)
    }

    // Restarting keeps the notes and forgets the ledger.
    constructor (notes: string)
      ensures Valid() && View() == Desk(notes, []) && fresh(ledger)
    {
      this.notes := notes;
      ledger := new OwnerDirectiveLedger();
    }

    method LoadDirectives() returns (ok: bool, blocks: seq<string>)
      requires Valid()
      modifies ledger
      ensures Valid() && notes == old(notes) && ledger == old(ledger)
      ensures var (entries, loaded) := Loaded(old(ledger.entries), notes);
        ok == loaded && ledger.entries == entries
      ensures ok ==> blocks == Blocks(MARKER, notes)
    {
      hide Blocks, Markers, DecodeAll, Appended;
      blocks := Blocks(MARKER, notes);
      if Markers(MARKER, notes) != |blocks| {
        return false, [];
      }
      var records := DecodeAll(blocks);
      if records.None? {
        return false, [];
      }
      ok := AppendRecords(records.value);
    }

    method AppendRecords(records: seq<OwnerDirective>) returns (ok: bool)
      requires Valid()
      modifies ledger
      ensures Valid() && notes == old(notes) && ledger == old(ledger)
      ensures (ledger.entries, ok) == AppendAll(old(ledger.entries), records)
    {
      hide Appended;
      ok := true;
      for i := 0 to |records|
        invariant Valid() && ok
        invariant (ledger.entries, true) == AppendAll(old(ledger.entries), records[..i])
      {
        assert records[..i + 1][..i] == records[..i];
        ok := ledger.Append(records[i]);
        if !ok {
          AppendAllStops(old(ledger.entries), records, i + 1);
          return;
        }
      }
      assert records[..|records|] == records;
    }

    method IngestOwnerDirective(input: Input) returns (ok: bool)
      requires Valid()
      modifies this`notes, ledger
      ensures Valid() && ledger == old(ledger)
      ensures var r := Ingest(old(View()), input); View() == r.desk && ok == r.ok
    {
      hide Loaded, WithDirective, Appended, Printed;
      if !input.fromOwnerDesk {
        return false;
      }
      var loaded, blocks := LoadDirectives();
      if !loaded {
        return false;
      }
      var existing := ledger.Get(input.id);
      if existing.Some? {
        return SameDirective(existing.value, input);
      }
      if !input.matchesMessage || input.ackAtMs < input.receivedAtMs || input.receivedAtMs + ACK_WINDOW_MS < input.ackAtMs {
        return false;
      }
      var candidate := Candidate(input);
      notes := WithDirective(notes, candidate);
      if input.doneAtMs - input.receivedAtMs > ACK_WINDOW_MS {
        return false;
      }
      if !input.readBack {
        return false;
      }
      ok := ledger.Append(candidate);
    }

    method ProjectToDesk(text: string, readBack: bool) returns (ok: bool)
      requires Valid()
      modifies this`notes, ledger
      ensures Valid() && ledger == old(ledger)
      ensures (View(), ok) == Project(old(View()), text, readBack)
    {
      hide Loaded, WithBlocks;
      var loaded, blocks := LoadDirectives();
      if !loaded {
        return false;
      }
      notes := WithBlocks(text, blocks);
      ok := readBack;
    }
  }

  lemma {:induction false} AppendAllStops(entries: seq<OwnerDirective>, records: seq<OwnerDirective>, n: nat)
    requires n <= |records| && !AppendAll(entries, records[..n]).1
    ensures AppendAll(entries, records) == AppendAll(entries, records[..n])
    decreases |records|
  {
    if n == |records| {
      assert records[..n] == records;
    } else {
      assert records[..|records| - 1][..n] == records[..n];
      AppendAllStops(entries, records[..|records| - 1], n);
    }
  }

  // ---------------------------------------------------------------- a readable desk

  predicate AllAppendable(records: seq<OwnerDirective>) {
    forall i :: 0 <= i < |records| ==> Appendable(records[i])
  }

  /** The notes can be read, every record can be loaded, and the memory knows a beginning of
      the records - all of them after the next load. */
  predicate Healthy(s: Desk) {
    && Records(s.notes).Some? && PlainBlocks(Blocks(MARKER, s.notes))
    && AllAppendable(Records(s.notes).value) && DistinctIds(Records(s.notes).value)
    && s.entries <= Records(s.notes).value
  }

  // A record that is already there changes nothing; the next one is added.
  lemma AppendNext(records: seq<OwnerDirective>, front: seq<OwnerDirective>, i: nat)
    requires i < |records| && AllAppendable(records) && DistinctIds(records) && front <= records && i <= |front|
    ensures Appended(front, records[i]) == Some(if i < |front| then front else records[..i + 1])
  {
    hide Appendable, Printed;
    assert Appendable(records[i]);
    if i < |front| {
      assert front[i] == records[i];
      FindIs(front, i);
    } else {
      assert front == records[..i] && records[..i + 1] == front + [records[i]];
    }
  }

  lemma {:induction false} AppendPrefix(entries: seq<OwnerDirective>, records: seq<OwnerDirective>, n: nat)
    requires entries <= records && n <= |records| && AllAppendable(records) && DistinctIds(records)
    ensures AppendAll(entries, records[..n]) == (if n <= |entries| then entries else records[..n], true)
    decreases n
  {
    hide Appended, AllAppendable, DistinctIds;
    if n > 0 {
      AppendPrefix(entries, records, n - 1);
      assert records[..n][..n - 1] == records[..n - 1] && records[..n][n - 1] == records[n - 1];
      AppendNext(records, if n - 1 <= |entries| then entries else records[..n - 1], n - 1);
    }
  }

  /** Loading a readable desk makes the ledger equal to the records in the notes, in order. */
  lemma LoadIsExact(s: Desk)
    requires Healthy(s)
    ensures Loaded(s.entries, s.notes) == (Records(s.notes).value, true)
  {
    hide Records, PlainBlocks, AllAppendable, DistinctIds, AppendAll;
    var records := Records(s.notes).value;
    AppendPrefix(s.entries, records, |records|);
    assert records[..|records|] == records;
    if |records| <= |s.entries| {
      assert s.entries == records;
    }
  }

  lemma PlainMore(notes: string, e: OwnerDirective)
    requires PlainBlocks(Blocks(MARKER, notes)) && Markers(MARKER, Printed(e)) == 0
    ensures PlainBlocks(Blocks(MARKER, notes) + [Printed(e)])
  {
  }

  lemma FindNoneIsNew(records: seq<OwnerDirective>, e: OwnerDirective)
    requires DistinctIds(records) && Find(records, e.id).None?
    ensures DistinctIds(records + [e])
  {
  }

  // ---------------------------------------------------------------- an unreadable desk

  // The notes do not scan, or they hold a record the ledger refuses.
  predicate Unreadable(notes: string) {
    Records(notes).None? || !AllAppendable(Records(notes).value)
  }

  lemma {:induction false} OnlyAppendableLoads(entries: seq<OwnerDirective>, records: seq<OwnerDirective>)
    requires AppendAll(entries, records).1
    ensures AllAppendable(records)
  {
    hide Appendable, Printed;
    if records != [] {
      var front := records[..|records| - 1];
      OnlyAppendableLoads(entries, front);
      assert records == front + [records[|records| - 1]];
    }
  }

  // Whatever the memory knows, such notes do not load.
  lemma UnreadableFails(entries: seq<OwnerDirective>, notes: string)
    requires Unreadable(notes)
    ensures !Loaded(entries, notes).1
  {
    hide AppendAll, Appendable;
    if Records(notes).Some? && AppendAll(entries, Records(notes).value).1 {
      OnlyAppendableLoads(entries, Records(notes).value);
    }
  }

  // A written directive leaves the desk readable exactly when it is storable.
  lemma WrittenHealthy(s: Desk, e: OwnerDirective, entries: seq<OwnerDirective>)
    requires Healthy(s) && Digested(e) && Find(Records(s.notes).value, e.id).None?
    requires entries == Records(s.notes).value || entries == Records(s.notes).value + [e]
    ensures Storable(e) ==> Healthy(Desk(WithDirective(s.notes, e), entries))
    ensures Storable(e) ==> Records(WithDirective(s.notes, e)) == Some(Records(s.notes).value + [e])
    ensures !Storable(e) ==> Unreadable(WithDirective(s.notes, e))
  {
    hide Markers, Blocks, Printed, AckLine, WithDirective, DecodeAll, Appendable, Find, MarkerFree;
    StoreAddsRecord(s.notes, e);
    DigestedStorable(e);
    if Storable(e) {
      WithDirectiveScan(s.notes, e);
      PlainMore(s.notes, e);
      FindNoneIsNew(Records(s.notes).value, e);
    } else if Markers(MARKER, Printed(e)) == 0 {
      AckLineFree(e);
      var records := Records(s.notes).value + [e];
      assert records[|records| - 1] == e;
    }
  }

  lemma AckLineFree(e: OwnerDirective)
    requires Digested(e) && Markers(MARKER, Printed(e)) == 0
    ensures Markers(MARKER, AckLine(e)) == 0
  {
    hide Markers, Printed, AckLine, Digested;
    PrintedFree(e);
    AckLineMarkers(e);
  }

  /** Ingesting on a readable desk.  Without a write the notes stand.  A write leaves notes
      that load again exactly when the directive is storable: then they hold exactly one more
      record, which is in the ledger too when the call reported success.  Otherwise no later
      load succeeds, whatever the memory knows. */
  lemma IngestOnHealthy(s: Desk, input: Input)
    requires Healthy(s)
    ensures var r := Ingest(s, input);
      var records := Records(s.notes).value;
      if !r.wrote then Healthy(r.desk) && r.desk.notes == s.notes
      else
        && (forall entries :: Storable(Candidate(input)) || !Loaded(entries, r.desk.notes).1)
        && (Loaded(r.desk.entries, r.desk.notes).1 <==> Storable(Candidate(input)))
        && (Unreadable(r.desk.notes) <==> !Storable(Candidate(input)))
        && (Storable(Candidate(input)) ==>
              && Healthy(r.desk) && Records(r.desk.notes) == Some(records + [Candidate(input)])
              && (r.ok ==> r.desk.entries == records + [Candidate(input)]))
  {
    hide Records, PlainBlocks, AllAppendable, DistinctIds, Find, Printed, Appendable, WithDirective, AckLine, Loaded;
    hide Unreadable, Storable, Digested;
    LoadIsExact(s);
    var r, e := Ingest(s, input), Candidate(input);
    if r.wrote {
      WrittenHealthy(s, e, r.desk.entries);
      if Storable(e) {
        LoadIsExact(r.desk);
        if Unreadable(r.desk.notes) {
          UnreadableFails(r.desk.entries, r.desk.notes);
        }
      } else {
        forall entries ensures !Loaded(entries, r.desk.notes).1 {
          UnreadableFails(entries, r.desk.notes);
        }
      }
    }
  }

  lemma ProjectOnHealthy(s: Desk, text: string, readBack: bool)
    requires Healthy(s)
    ensures var (t, ok) := Project(s, text, readBack);
      && ok == readBack
      && (Markers(MARKER, text) == 0 ==> Healthy(t) && Records(t.notes) == Records(s.notes) && t.entries == Records(s.notes).value)
      && (Markers(MARKER, text) > 0 ==> Records(t.notes) != Records(s.notes))
  {
    hide Markers, Blocks, DecodeAll, WithBlocks, Loaded, AllAppendable, DistinctIds, Balanced;
    LoadIsExact(s);
    ProjectKeepsRecords(s.notes, text);
  }

  // ---------------------------------------------------------------- whole runs

  datatype Step = IngestStep(input: Input) | ProjectStep(text: string, readBack: bool) | RestartStep

  // A projected text is free of the marker, and a directive that passes the checks made
  // before anything is written can be stored.
  predicate Clean(step: Step) {
    match step
    case IngestStep(input) =>
      input.fromOwnerDesk && input.matchesMessage && InTime(input) ==> Storable(Candidate(input))
    case ProjectStep(text, _) => Markers(MARKER, text) == 0
    case RestartStep => true
  }

  function Next(s: Desk, step: Step): Desk {
    match step
    case IngestStep(input) => Ingest(s, input).desk
    case ProjectStep(text, readBack) => Project(s, text, readBack).0
    case RestartStep => s.(entries := [])
  }

  // Whether the call behind a step reports success.
  predicate Succeeds(s: Desk, step: Step) {
    match step
    case IngestStep(input) => Ingest(s, input).ok
    case ProjectStep(text, readBack) => Project(s, text, readBack).1
    case RestartStep => true
  }

  // The step writes a directive that cannot be stored.
  predicate Spoils(s: Desk, step: Step) {
    step.IngestStep? && Ingest(s, step.input).wrote && !Storable(Candidate(step.input))
  }

  function At(s: Desk, run: seq<Step>, n: nat): Desk
    requires n <= |run|
  {
    if n == 0 then s else Next(At(s, run, n - 1), run[n - 1])
  }

  // A clean step writes nothing that cannot be stored.
  lemma CleanNeverSpoils(s: Desk, step: Step)
    requires Clean(step)
    ensures !Spoils(s, step)
  {
    hide Storable, Loaded, Appended, WithDirective;
  }

  lemma NextHealthy(s: Desk, step: Step)
    requires Healthy(s) && !Spoils(s, step) && (step.ProjectStep? ==> Markers(MARKER, step.text) == 0)
    ensures Healthy(Next(s, step)) && Records(s.notes).value <= Records(Next(s, step).notes).value
  {
    hide Records, PlainBlocks, AllAppendable, DistinctIds, Storable, Ingest, Project, Markers, Loaded, Unreadable;
    match step
    case IngestStep(input) => IngestOnHealthy(s, input);
    case ProjectStep(text, readBack) => ProjectOnHealthy(s, text, readBack);
    case RestartStep =>
  }

  /** The directive round trip: starting from any marker-free notes, after any run of ingests,
      projections and restarts with marker-free texts, the notes parse to records that only
      ever grew, and loading them makes the ledger equal to exactly those records, in order. */
  lemma {:induction false} RoundTrip(notes: string, run: seq<Step>, m: nat, n: nat)
    requires Markers(MARKER, notes) == 0 && m <= n <= |run| && forall i :: 0 <= i < |run| ==> Clean(run[i])
    ensures var early, late := At(Desk(notes, []), run, m), At(Desk(notes, []), run, n);
      && Healthy(early) && Healthy(late)
      && Records(early.notes).value <= Records(late.notes).value
      && Loaded(late.entries, late.notes) == (Records(late.notes).value, true)
    decreases n
  {
    hide Records, PlainBlocks, AllAppendable, DistinctIds, Next, Markers, Loaded, Spoils, Storable, InTime;
    var start := Desk(notes, []);
    if n == 0 {
      EmptyDesk(notes);
    } else {
      RoundTrip(notes, run, if m < n then m else n - 1, n - 1);
      CleanNeverSpoils(At(start, run, n - 1), run[n - 1]);
      NextHealthy(At(start, run, n - 1), run[n - 1]);
    }
    LoadIsExact(At(start, run, n));
  }

  lemma EmptyDesk(notes: string)
    requires Markers(MARKER, notes) == 0
    ensures Healthy(Desk(notes, []))
  {
    NoMarkersNoBlocks(notes);
  }

  // ---------------------------------------------------------------- runs that spoil the notes

  lemma UnreadableStays(s: Desk, step: Step)
    requires Unreadable(s.notes)
    ensures Next(s, step).notes == s.notes && (step.RestartStep? || !Succeeds(s, step))
  {
    hide Unreadable, Loaded, Appended, WithDirective, WithBlocks;
    UnreadableFails(s.entries, s.notes);
  }

  /** Unreadable notes stay as they are for good: from then on every ingest - even a repeated
      one that had succeeded before - and every projection fails. */
  lemma {:induction false} UnreadableForGood(s: Desk, run: seq<Step>, n: nat)
    requires Unreadable(s.notes) && n <= |run|
    ensures At(s, run, n).notes == s.notes
    ensures n < |run| && !run[n].RestartStep? ==> !Succeeds(At(s, run, n), run[n])
    decreases n
  {
    hide Unreadable, Next, Succeeds;
    if n > 0 {
      UnreadableForGood(s, run, n - 1);
      UnreadableStays(At(s, run, n - 1), run[n - 1]);
    }
    if n < |run| {
      UnreadableStays(At(s, run, n), run[n]);
    }
  }

  predicate NoneSpoils(s: Desk, run: seq<Step>, n: nat)
    requires n <= |run|
  {
    forall i :: 0 <= i < n ==> !Spoils(At(s, run, i), run[i])
  }

  lemma {:induction false} ReadableOrNot(s: Desk, run: seq<Step>, n: nat)
    requires Healthy(s) && n <= |run| && forall i :: 0 <= i < |run| && run[i].ProjectStep? ==> Markers(MARKER, run[i].text) == 0
    ensures if NoneSpoils(s, run, n) then Healthy(At(s, run, n)) else Unreadable(At(s, run, n).notes)
    decreases n
  {
    hide Healthy, Unreadable, Next, Spoils, Markers;
    if n > 0 {
      var t, step := At(s, run, n - 1), run[n - 1];
      ReadableOrNot(s, run, n - 1);
      if !NoneSpoils(s, run, n - 1) {
        UnreadableStays(t, step);
      } else if Spoils(t, step) {
        SpoiledUnreadable(t, step);
      } else {
        NextHealthy(t, step);
      }
    }
  }

  lemma SpoiledUnreadable(s: Desk, step: Step)
    requires Healthy(s) && Spoils(s, step)
    ensures Unreadable(Next(s, step).notes)
  {
    hide Healthy, Unreadable, Ingest, Storable, Loaded;
    IngestOnHealthy(s, step.input);
  }

  /** With marker-free projections, the desk can be read after n steps exactly when none of
      them wrote a directive that cannot be stored. */
  lemma ReadableExactly(notes: string, run: seq<Step>, n: nat)
    requires Markers(MARKER, notes) == 0 && n <= |run|
    requires forall i :: 0 <= i < |run| && run[i].ProjectStep? ==> Markers(MARKER, run[i].text) == 0
    ensures var start := Desk(notes, []); var s := At(start, run, n);
      Loaded(s.entries, s.notes).1 <==> NoneSpoils(start, run, n)
  {
    hide Healthy, Unreadable, Loaded, NoneSpoils, Markers;
    var start := Desk(notes, []);
    EmptyDesk(notes);
    ReadableOrNot(start, run, n);
    var s := At(start, run, n);
    if NoneSpoils(start, run, n) {
      LoadIsExact(s);
    } else {
      UnreadableFails(s.entries, s.notes);
    }
  }

  // ---------------------------------------------------------------- two directives that do

  // A directive that quotes the marker, and one whose ID is blank.
  function Quoting(digest: Digest): Input {
    Input("d", "i", 0, MARKER, "s", "m", true, true, digest, 0, 0, true)
  }

  function BlankId(digest: Digest): Input {
    Input(" ", "i", 0, "v", "s", "m", true, true, digest, 0, 0, true)
  }

  lemma NotBlank(s: string)
    requires s != "" && !IsSpace(s[0])
    ensures !Blank(s)
  {
  }

  /** On an empty desk the first is accepted, and the second refused after the notes were
      written; in both cases no call ever succeeds again. */
  lemma TwoSpoil(digest: Digest, run: seq<Step>, n: nat)
    requires n < |run| && !run[n].RestartStep?
    ensures var empty := Desk("", []);
      var quoted, blank := Ingest(empty, Quoting(digest)), Ingest(empty, BlankId(digest));
      && quoted.wrote && quoted.ok && !Succeeds(At(quoted.desk, run, n), run[n])
      && blank.wrote && !blank.ok && !Succeeds(At(blank.desk, run, n), run[n])
  {
    hide Succeeds, Next, Unreadable, Storable, WithDirective, Printed, Markers, IsSpace;
    var empty := Desk("", []);
    EmptyScan();
    EmptyDesk("");
    QuotingSpoils(digest);
    BlankSpoils(digest);
    IngestOnHealthy(empty, Quoting(digest));
    IngestOnHealthy(empty, BlankId(digest));
    UnreadableForGood(Ingest(empty, Quoting(digest)).desk, run, n);
    UnreadableForGood(Ingest(empty, BlankId(digest)).desk, run, n);
  }

  lemma EmptyLoads()
    ensures Loaded([], "") == ([], true)
  {
    hide Healthy;
    EmptyScan();
    EmptyDesk("");
    LoadIsExact(Desk("", []));
  }

  lemma QuotingSpoils(digest: Digest)
    ensures var r := Ingest(Desk("", []), Quoting(digest)); r.wrote && r.ok && !Storable(Candidate(Quoting(digest)))
  {
    hide Loaded, WithDirective, Printed, AckLine, Markers, IsSpace;
    var e := Candidate(Quoting(digest));
    EmptyLoads();
    SpacesAre();
    NotBlank(e.id);
    NotBlank(e.issueId);
    NotBlank(e.verbatim);
    NotBlank(e.direct.value.sourceSessionId);
    NotBlank(e.direct.value.sourceMessageId);
    NotBlank(e.direct.value.acknowledgementId);
    DigestedStorable(e);
    MarkerCounts();
  }

  lemma MarkerCounts()
    ensures Markers(MARKER, MARKER) > 0
  {
    assert StartsWith(MARKER, MARKER);
  }

  lemma SpacesAre()
    ensures IsSpace(' ') && !IsSpace('d') && !IsSpace('i') && !IsSpace('<') && !IsSpace('s') && !IsSpace('m') && !IsSpace('a')
  {
  }

  lemma BlankSpoils(digest: Digest)
    ensures var r := Ingest(Desk("", []), BlankId(digest)); r.wrote && !r.ok && !Storable(Candidate(BlankId(digest)))
  {
    hide Loaded, WithDirective, Printed, AckLine, Markers, IsSpace;
    EmptyLoads();
    SpacesAre();
    assert Blank(" ");
  }
}
