/** Owner directives as blocks in the free-form notes of the project desk: what a scan reads
    back after a directive was stored or a status projected.
 */
module DeskRecords {
  import opened Wrappers
  import opened DirectiveLedger
  import opened DeskNotes
  import J = JsonRecord

  const MARKER := "<!-- craft-protocol-v4:owner-directive"

  lemma MarkerIsGood()
    ensures GoodMarker(MARKER)
  {
  }

  // ---------------------------------------------------------------- reading the notes

  function DecodeAll(texts: seq<string>): (r: Option<seq<OwnerDirective>>)
    ensures r.Some? ==> |r.value| == |texts| && forall i :: 0 <= i < |texts| ==> ParseDirective(texts[i]) == Some(r.value[i])
  {
    if texts == [] then Some([])
    else
      var front, last := DecodeAll(texts[..|texts| - 1]), ParseDirective(texts[|texts| - 1]);
      if front.Some? && last.Some? then Some(front.value + [last.value]) else None
  }

  // The records of the notes; None when a marker is unaccounted for or a record unreadable.
  function Records(notes: string): Option<seq<OwnerDirective>> {
    if Balanced(MARKER, notes) then DecodeAll(Blocks(MARKER, notes)) else None
  }

  // ---------------------------------------------------------------- writing the notes

  predicate HexDigit(c: char) {
    '0' <= c <= '9' || 'a' <= c <= 'f'
  }

  // The digest an acknowledgement is named by.
  type Digest = s: string | |s| == 24 && forall i :: 0 <= i < |s| ==> HexDigit(s[i]) witness seq(24, _ => '0')

  function AckId(digest: Digest): string {
    "ack-" + digest
  }

  // The directive is acknowledged under a name of that form.
  predicate Digested(e: OwnerDirective) {
    && e.direct.Some?
    && var id := e.direct.value.acknowledgementId;
       |id| == 28 && id[..4] == "ack-" && forall i :: 4 <= i < 28 ==> HexDigit(id[i])
  }

  const SEPARATOR := "\n\n"
  const HEADING := "## Latest owner acknowledgement"

  function AckLine(e: OwnerDirective): string
    requires e.direct.Some?
  {
    "ACK " + e.id + " " + e.direct.value.acknowledgementId
  }

  // Notes with one more acknowledged directive.
  function WithDirective(notes: string, e: OwnerDirective): string
    requires e.direct.Some?
  {
    var tail := HEADING + SEPARATOR + AckLine(e) + SEPARATOR + Block(MARKER, Printed(e));
    if Trim(notes) == "" then tail else Trim(notes) + SEPARATOR + tail
  }

  // A projection above the blocks that were there.
  function WithBlocks(text: string, blocks: seq<string>): string {
    if blocks == [] then text
    else WithBlocks(text, blocks[..|blocks| - 1]) + SEPARATOR + Block(MARKER, blocks[|blocks| - 1])
  }

  // ---------------------------------------------------------------- one more block

  lemma AppendSection(notes: string, section: string)
    requires Balanced(MARKER, notes)
    ensures Blocks(MARKER, notes + SEPARATOR + section) == Blocks(MARKER, notes) + Blocks(MARKER, section)
    ensures Markers(MARKER, notes + SEPARATOR + section) == Markers(MARKER, notes) + Markers(MARKER, section)
  {
    MarkerIsGood();
    var r := SEPARATOR + section;
    assert notes + SEPARATOR + section == notes + r;
    BlocksConcat(MARKER, notes, r);
    MarkersConcat(MARKER, notes, r);
    assert r == ['\n'] + (['\n'] + section);
    SkipChar(MARKER, '\n', ['\n'] + section);
    SkipChar(MARKER, '\n', section);
  }

  // Text in front of the marker-free text counts only its markers.
  lemma MarkersOfSection(a: string, section: string)
    ensures Markers(MARKER, a + SEPARATOR + section) == Markers(MARKER, a) + Markers(MARKER, section)
  {
    MarkerIsGood();
    var r := SEPARATOR + section;
    assert a + SEPARATOR + section == a + r;
    MarkersConcat(MARKER, a, r);
    assert r == ['\n'] + (['\n'] + section);
    SkipChar(MARKER, '\n', ['\n'] + section);
    SkipChar(MARKER, '\n', section);
  }

  // The directive can be stored without confusing a later scan.
  predicate Storable(e: OwnerDirective) {
    && Appendable(e) && e.direct.Some?
    && Markers(MARKER, AckLine(e)) == 0 && Markers(MARKER, Printed(e)) == 0
  }

  lemma HeadingHasNoMarker()
    ensures Markers(MARKER, HEADING) == 0
  {
    MarkerIsGood();
    NoOpenerNoMarker(HEADING);
  }

  lemma {:induction false} NoOpenerNoMarker(s: string)
    requires '<' !in s
    ensures Markers(MARKER, s) == 0
  {
    if s != "" {
      MarkerIsGood();
      NoOpenerNoMarker(s[1..]);
      SkipChar(MARKER, s[0], s[1..]);
      assert [s[0]] + s[1..] == s;
    }
  }

  lemma TailMarkers(e: OwnerDirective)
    requires e.direct.Some?
    ensures var tail := HEADING + SEPARATOR + AckLine(e) + SEPARATOR + Block(MARKER, Printed(e));
      Markers(MARKER, tail) == Markers(MARKER, AckLine(e)) + 1 + Markers(MARKER, Printed(e))
  {
    MarkerIsGood();
    HeadingHasNoMarker();
    OneBlock(MARKER, Printed(e));
    MarkersOfSection(HEADING, AckLine(e));
    MarkersOfSection(HEADING + SEPARATOR + AckLine(e), Block(MARKER, Printed(e)));
  }

  lemma NoMarkersNoBlocks(s: string)
    requires Markers(MARKER, s) == 0
    ensures Blocks(MARKER, s) == [] && Balanced(MARKER, s)
  {
    MarkerIsGood();
    BlocksWithinMarkers(MARKER, s);
  }

  lemma TailBlocks(e: OwnerDirective)
    requires e.direct.Some? && Markers(MARKER, AckLine(e)) == 0
    ensures var tail := HEADING + SEPARATOR + AckLine(e) + SEPARATOR + Block(MARKER, Printed(e));
      Blocks(MARKER, tail) == [Printed(e)]
  {
    hide Markers, Blocks, Printed, AckLine, Block;
    MarkerIsGood();
    HeadingHasNoMarker();
    NoMarkersNoBlocks(HEADING);
    OneBlock(MARKER, Printed(e));
    AppendSection(HEADING, AckLine(e));
    NoMarkersNoBlocks(AckLine(e));
    NoMarkersNoBlocks(HEADING + SEPARATOR + AckLine(e));
    AppendSection(HEADING + SEPARATOR + AckLine(e), Block(MARKER, Printed(e)));
  }

  // What storing a directive does to the scan of balanced notes.
  lemma WithDirectiveScan(notes: string, e: OwnerDirective)
    requires Balanced(MARKER, notes) && e.direct.Some?
    ensures Markers(MARKER, WithDirective(notes, e))
         == Markers(MARKER, notes) + Markers(MARKER, AckLine(e)) + 1 + Markers(MARKER, Printed(e))
    ensures Markers(MARKER, AckLine(e)) == 0 ==>
      Blocks(MARKER, WithDirective(notes, e)) == Blocks(MARKER, notes) + [Printed(e)]
  {
    hide Markers, Blocks, Printed, AckLine, Block, Trim;
    MarkerIsGood();
    TrimHarmless(MARKER, notes);
    TailMarkers(e);
    var tail := HEADING + SEPARATOR + AckLine(e) + SEPARATOR + Block(MARKER, Printed(e));
    if Markers(MARKER, AckLine(e)) == 0 {
      TailBlocks(e);
    }
    if Trim(notes) == "" {
      EmptyScan();
    } else {
      AppendSection(Trim(notes), tail);
    }
  }

  lemma EmptyScan()
    ensures Blocks(MARKER, "") == [] && Markers(MARKER, "") == 0
  {
  }

  lemma DecodeMore(texts: seq<string>, e: OwnerDirective)
    requires DecodeAll(texts).Some?
    ensures DecodeAll(texts + [Printed(e)]) == Some(DecodeAll(texts).value + [e])
  {
    ParsePrinted(e);
    assert (texts + [Printed(e)])[..|texts|] == texts;
  }

  lemma PrintedEnds(e: OwnerDirective)
    ensures Printed(e) != "" && Printed(e)[|Printed(e)| - 1] == '}'
  {
    FieldsEnd(FieldsOf(e));
  }

  lemma {:induction false} FieldsEnd(fields: seq<J.Field>)
    requires fields != []
    ensures var s := J.PrintFields(fields); s[|s| - 1] == '}'
  {
    hide J.PrintField;
    if |fields| > 1 {
      FieldsEnd(fields[1..]);
    }
  }

  // A marker inside the printed record is counted but opens no block.
  lemma MarkerInsideUnbalances(before: string, e: OwnerDirective)
    requires Markers(MARKER, Printed(e)) > 0
    ensures !Balanced(MARKER, before + SEPARATOR + Block(MARKER, Printed(e)))
  {
    hide Markers, Blocks, Printed, Block;
    var block := Block(MARKER, Printed(e));
    var r, s := SEPARATOR + block, before + SEPARATOR + block;
    MarkerIsGood();
    PrintedEnds(e);
    OneOpener(MARKER, Printed(e));
    OneBlock(MARKER, Printed(e));
    MarkersOfSection(before, block);
    assert r == ['\n'] + (['\n'] + block);
    assert r[1..] == ['\n'] + block && r[1..][1..] == block;
    NotOpening(MARKER, r);
    NotOpening(MARKER, r[1..]);
    OpensPlain(before, r);
    assert s == before + r;
    BlocksWithinOpeners(MARKER, s);
  }

  lemma OpensPlain(before: string, r: string)
    requires LineStart(r)
    ensures Openers(MARKER, before + r) <= Markers(MARKER, before) + Openers(MARKER, r)
  {
    MarkerIsGood();
    OpenersConcat(MARKER, before, r);
  }

  lemma MarkerInsideUnreadable(notes: string, e: OwnerDirective)
    requires e.direct.Some? && Markers(MARKER, Printed(e)) > 0
    ensures Records(WithDirective(notes, e)) == None
  {
    hide Markers, Blocks, Printed, Block, Trim, AckLine;
    var front := HEADING + SEPARATOR + AckLine(e);
    MarkerInsideUnbalances(front, e);
    MarkerInsideUnbalances(Trim(notes) + SEPARATOR + front, e);
    assert Trim(notes) + SEPARATOR + (front + SEPARATOR + Block(MARKER, Printed(e)))
        == Trim(notes) + SEPARATOR + front + SEPARATOR + Block(MARKER, Printed(e));
  }

  /** Storing a directive adds exactly that record to the notes - precisely when neither its
      acknowledgement line nor its printed record contains the marker.  A marker in the
      printed record makes the notes as a whole unreadable. */
  lemma StoreAddsRecord(notes: string, e: OwnerDirective)
    requires Records(notes).Some? && e.direct.Some?
    ensures Records(WithDirective(notes, e)) == Some(Records(notes).value + [e])
       <==> Markers(MARKER, AckLine(e)) == 0 && Markers(MARKER, Printed(e)) == 0
    ensures Markers(MARKER, Printed(e)) > 0 ==> Records(WithDirective(notes, e)) == None
  {
    hide Markers, Blocks, Printed, AckLine, WithDirective, DecodeAll;
    if Markers(MARKER, Printed(e)) > 0 {
      MarkerInsideUnreadable(notes, e);
    }
    var longer := WithDirective(notes, e);
    WithDirectiveScan(notes, e);
    if Markers(MARKER, AckLine(e)) == 0 && Markers(MARKER, Printed(e)) == 0 {
      DecodeMore(Blocks(MARKER, notes), e);
    }
  }

  // ---------------------------------------------------------------- a new projection

  lemma {:induction false} WithBlocksScan(text: string, notes: string, n: nat)
    requires Balanced(MARKER, notes) && n <= |Blocks(MARKER, notes)| && PlainBlocks(Blocks(MARKER, notes))
    ensures var body := WithBlocks(text, Blocks(MARKER, notes)[..n]);
      && Markers(MARKER, body) == Markers(MARKER, text) + n
      && (Markers(MARKER, text) == 0 ==> Blocks(MARKER, body) == Blocks(MARKER, notes)[..n])
    decreases n
  {
    hide Markers, Blocks, Block;
    var blocks := Blocks(MARKER, notes);
    if n == 0 {
      if Markers(MARKER, text) == 0 {
        NoMarkersNoBlocks(text);
      }
    } else {
      WithBlocksScan(text, notes, n - 1);
      assert blocks[..n][..n - 1] == blocks[..n - 1] && blocks[..n][n - 1] == blocks[n - 1];
      MarkerIsGood();
      OneBlock(MARKER, blocks[n - 1]);
      var body := WithBlocks(text, blocks[..n - 1]);
      MarkersOfSection(body, Block(MARKER, blocks[n - 1]));
      if Markers(MARKER, text) == 0 {
        AppendSection(body, Block(MARKER, blocks[n - 1]));
        assert blocks[..n] == blocks[..n - 1] + [blocks[n - 1]];
      }
    }
  }

  // Block texts on one line, without a marker of their own.
  predicate PlainBlocks(blocks: seq<string>) {
    forall i :: 0 <= i < |blocks| ==> '\n' !in blocks[i] && Markers(MARKER, blocks[i]) == 0
  }

  /** Projecting a new status keeps exactly the records of the notes - precisely when the
      projected text is free of the marker. */
  lemma ProjectKeepsRecords(notes: string, text: string)
    requires Records(notes).Some? && PlainBlocks(Blocks(MARKER, notes))
    ensures var body := WithBlocks(text, Blocks(MARKER, notes));
      && (Markers(MARKER, text) == 0 ==> Blocks(MARKER, body) == Blocks(MARKER, notes))
      && (Records(body) == Records(notes) <==> Markers(MARKER, text) == 0)
  {
    hide Markers, Blocks, DecodeAll, WithBlocks;
    var blocks := Blocks(MARKER, notes);
    assert blocks[..|blocks|] == blocks;
    WithBlocksScan(text, notes, |blocks|);
    if Records(WithBlocks(text, blocks)) == Records(notes) {
      DecodeLength(Blocks(MARKER, WithBlocks(text, blocks)));
      DecodeLength(blocks);
    }
  }

  lemma DecodeLength(texts: seq<string>)
    requires DecodeAll(texts).Some?
    ensures |DecodeAll(texts).value| == |texts|
  {
  }
}
