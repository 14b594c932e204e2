/** Owner directives, their printed records, and the append-only ledger that keeps a list and an
    index of them in step.
 */
module DirectiveLedger {
  import opened Wrappers
  import opened JsonRecord

  // Evidence that a directive came straight from the owner's desk; all three or none.
  datatype Evidence = Evidence(sourceSessionId: string, sourceMessageId: string, acknowledgementId: string)

  datatype OwnerDirective = OwnerDirective(
    id: string,
    issueId: string,
    receivedAtMs: nat,
    acknowledgedAtMs: nat,
    verbatim: string,
    direct: Option<Evidence>)

  // ---------------------------------------------------------------- records

  function BaseFields(e: OwnerDirective): seq<Field> {
    [Field("id", TextValue(e.id)), Field("issueId", TextValue(e.issueId)),
     Field("receivedAtMs", CountValue(e.receivedAtMs)), Field("acknowledgedAtMs", CountValue(e.acknowledgedAtMs)),
     Field("verbatim", TextValue(e.verbatim))]
  }

  function DirectFields(d: Evidence): seq<Field> {
    [Field("sourceSessionId", TextValue(d.sourceSessionId)), Field("sourceMessageId", TextValue(d.sourceMessageId)),
     Field("acknowledgementId", TextValue(d.acknowledgementId))]
  }

  // Missing optional fields are left out by the serializer.
  function FieldsOf(e: OwnerDirective): (fields: seq<Field>)
    ensures fields != []
  {
    BaseFields(e) + if e.direct.Some? then DirectFields(e.direct.value) else []
  }

  predicate HasText(f: Field, key: string) {
    f.key == key && f.value.TextValue?
  }

  predicate HasCount(f: Field, key: string) {
    f.key == key && f.value.CountValue?
  }

  function DirectiveOf(fields: seq<Field>): Option<OwnerDirective> {
    if |fields| < 5 || !HasText(fields[0], "id") || !HasText(fields[1], "issueId") || !HasCount(fields[2], "receivedAtMs")
       || !HasCount(fields[3], "acknowledgedAtMs") || !HasText(fields[4], "verbatim") then None
    else if |fields| == 5 then
      Some(OwnerDirective(fields[0].value.text, fields[1].value.text, fields[2].value.count, fields[3].value.count,
                          fields[4].value.text, None))
    else if |fields| == 8 && HasText(fields[5], "sourceSessionId") && HasText(fields[6], "sourceMessageId")
            && HasText(fields[7], "acknowledgementId") then
      Some(OwnerDirective(fields[0].value.text, fields[1].value.text, fields[2].value.count, fields[3].value.count,
                          fields[4].value.text,
                          Some(Evidence(fields[5].value.text, fields[6].value.text, fields[7].value.text))))
    else None
  }

  // The canonical text of an entry; also what is stored on the desk.
  function Printed(e: OwnerDirective): (s: string)
    ensures '\n' !in s
  {
    PrintObject(FieldsOf(e))
  }

  function ParseDirective(s: string): Option<OwnerDirective> {
    var fields := ParseObject(s);
    if fields.Some? then DirectiveOf(fields.value) else None
  }

  lemma FieldsRoundTrip(e: OwnerDirective)
    ensures DirectiveOf(FieldsOf(e)) == Some(e)
  {
  }

  /** Reading back the printed record of a directive gives that directive. */
  lemma ParsePrinted(e: OwnerDirective)
    ensures ParseDirective(Printed(e)) == Some(e)
  {
    hide FieldsOf, DirectiveOf, PrintObject, ParseObject;
    FieldsRoundTrip(e);
    ParsePrintedObject(FieldsOf(e));
  }

  /** Two directives have the same canonical text only when they are equal. */
  lemma CanonicalInjective(a: OwnerDirective, b: OwnerDirective)
    requires Printed(a) == Printed(b)
    ensures a == b
  {
    ParsePrinted(a);
    ParsePrinted(b);
  }

  // ---------------------------------------------------------------- the ledger

  predicate IsSpace(c: char) {
    c in {' ', '\n', '\r', '\t', 11 as char, 12 as char, 160 as char, 0x1680 as char, 0x2028 as char, 0x2029 as char,
          0x202f as char, 0x205f as char, 0x3000 as char, 0xfeff as char}
    || 0x2000 <= c as int <= 0x200a
  }

  predicate Blank(s: string) {
    forall i :: 0 <= i < |s| ==> IsSpace(s[i])
  }

  const ACK_WINDOW_MS := 60_000

  predicate Appendable(e: OwnerDirective) {
    && !Blank(e.id) && !Blank(e.issueId) && !Blank(e.verbatim)
    && (e.direct.Some? ==> !Blank(e.direct.value.sourceSessionId) && !Blank(e.direct.value.sourceMessageId)
                           && !Blank(e.direct.value.acknowledgementId))
    && e.receivedAtMs <= e.acknowledgedAtMs <= e.receivedAtMs + ACK_WINDOW_MS
  }

  // What the ledger holds under an ID.
  function Find(entries: seq<OwnerDirective>, id: string): (r: Option<OwnerDirective>)
    ensures r.Some? <==> exists i :: 0 <= i < |entries| && entries[i].id == id
    ensures r.Some? ==> r.value in entries && r.value.id == id
  {
    if entries == [] then None
    else if entries[0].id == id then Some(entries[0])
    else
      assert entries == [entries[0]] + entries[1..];
      Find(entries[1..], id)
  }

  predicate DistinctIds(entries: seq<OwnerDirective>) {
    forall i, j :: 0 <= i < j < |entries| ==> entries[i].id != entries[j].id
  }

  lemma FindIs(entries: seq<OwnerDirective>, i: nat)
    requires DistinctIds(entries) && i < |entries|
    ensures Find(entries, entries[i].id) == Some(entries[i])
  {
  }

  /** Of the characters below 128 exactly the blank and the five that move the line or the
      position count as space. */
  lemma SpacesOfAscii(c: char)
    requires c as int < 128
    ensures IsSpace(c) <==> c == ' ' || 9 <= c as int <= 13
  {
  }

  /** The ledger after an append; None when it throws. */
  function Appended(entries: seq<OwnerDirective>, e: OwnerDirective): Option<seq<OwnerDirective>> {
    if !Appendable(e) then None
    else match Find(entries, e.id)
      case None => Some(entries + [e])
      case Some(existing) => if Printed(existing) == Printed(e) then Some(entries) else None
  }

  /** An append is refused exactly when a text is blank, the acknowledgement is not within a
      minute of the receipt, or the ID already stands for something else. */
  lemma RefusedExactly(entries: seq<OwnerDirective>, e: OwnerDirective)
    requires DistinctIds(entries)
    ensures Appended(entries, e).None? <==>
      || Blank(e.id) || Blank(e.issueId) || Blank(e.verbatim)
      || (e.direct.Some? && (Blank(e.direct.value.sourceSessionId) || Blank(e.direct.value.sourceMessageId)
                             || Blank(e.direct.value.acknowledgementId)))
      || e.acknowledgedAtMs < e.receivedAtMs || e.acknowledgedAtMs > e.receivedAtMs + 60_000
      || exists i :: 0 <= i < |entries| && entries[i].id == e.id && entries[i] != e
  {
    hide IsSpace, Printed;
    var found := Find(entries, e.id);
    if found.Some? {
      var i :| 0 <= i < |entries| && entries[i].id == e.id;
      FindIs(entries, i);
      if Printed(entries[i]) == Printed(e) {
        CanonicalInjective(entries[i], e);
      }
    }
  }

  class OwnerDirectiveLedger {
    var entries: seq<OwnerDirective>
    var byId: map<string, OwnerDirective>

    // The list and the index agree.
    ghost predicate Valid()
      reads this
    {
      && DistinctIds(entries)
      && (forall i :: 0 <= i < |entries| ==> entries[i].id in byId && byId[entries[i].id] == entries[i])
      && (forall id :: id in byId ==> byId[id] in entries && byId[id].id == id)
    }

    constructor ()
      ensures Valid() && entries == []
    {
      entries, byId := [], map[];
    }

    method Append(e: OwnerDirective) returns (ok: bool)
      requires Valid()
      modifies this
      ensures Valid()
      ensures var r := Appended(old(entries), e);
        ok == r.Some? && entries == (if r.Some? then r.value else old(entries))
      ensures old(entries) <= entries
      ensures forall id :: id in old(byId) ==> id in byId && byId[id] == old(byId)[id]
      ensures ok ==> e.id in byId && byId[e.id] == e
    {
      hide Printed, IsSpace;
      IndexIsFind(e.id);
      if Blank(e.id) || Blank(e.issueId) || Blank(e.verbatim) {
        return false;
      }
      if e.direct.Some? && (Blank(e.direct.value.sourceSessionId) || Blank(e.direct.value.sourceMessageId)
                            || Blank(e.direct.value.acknowledgementId)) {
        return false;
      }
      if e.acknowledgedAtMs < e.receivedAtMs || e.acknowledgedAtMs - e.receivedAtMs > ACK_WINDOW_MS {
        return false;
      }
      if e.id in byId {
        var existing := byId[e.id];
        ok := Printed(existing) == Printed(e);
        if ok {
          CanonicalInjective(existing, e);
        }
        return;
      }
      entries := entries + [e];
      byId := byId[e.id := e];
      ok := true;
    }

    lemma IndexIsFind(id: string)
      requires Valid()
      ensures Find(entries, id) == if id in byId then Some(byId[id]) else None
    {
      if id in byId {
        var i :| 0 <= i < |entries| && entries[i] == byId[id];
        FindIs(entries, i);
      }
    }

    method Get(id: string) returns (r: Option<OwnerDirective>)
      requires Valid()
      ensures r == Find(entries, id)
    {
      IndexIsFind(id);
      r := if id in byId then Some(byId[id]) else None;
    }
  }
}
