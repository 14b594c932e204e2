/** When a printed directive is free of the record marker: exactly when its own texts are. */
module MarkerFreeText {
  import opened Wrappers
  import opened Text
  import opened JsonRecord
  import opened DirectiveLedger
  import opened DeskNotes
  import opened DeskRecords

  // A character that the serializer leaves alone and that is not part of its punctuation.
  predicate PlainChar(c: char) {
    ShortEscape(c).None? && 32 <= c as int && c !in {',', '{', '}'}
  }

  predicate PlainText(p: string) {
    forall i :: 0 <= i < |p| ==> PlainChar(p[i])
  }

  predicate PlainMarker(m: string) {
    GoodMarker(m) && PlainText(m)
  }

  // Letters, digits and the punctuation of the marker.
  predicate MarkerChar(c: char) {
    c == ' ' || ('!' <= c <= 'z' && c != '"' && c != '\\' && c != ',')
  }

  lemma MarkerCharIsPlain(c: char)
    requires MarkerChar(c)
    ensures PlainChar(c)
  {
  }

  lemma MarkerIsPlain()
    ensures PlainMarker(MARKER)
  {
    hide PlainChar;
    MarkerIsGood();
    forall i | 0 <= i < |MARKER| ensures PlainChar(MARKER[i]) {
      MarkerCharIsPlain(MARKER[i]);
    }
  }

  // A text that starts with something no marker contains.
  predicate Breaks(r: string) {
    r == "" || !PlainChar(r[0])
  }

  lemma StartsBefore(m: string, s: string, r: string)
    requires PlainMarker(m) && Breaks(r)
    ensures StartsWith(s + r, m) <==> StartsWith(s, m)
  {
    if |s| < |m| <= |s + r| {
      assert (s + r)[..|m|][|s|] == r[0];
    }
    if |m| <= |s| {
      assert (s + r)[..|m|] == s[..|m|];
    }
  }

  lemma {:induction false} MarkersSplit(m: string, s: string, r: string)
    requires PlainMarker(m) && Breaks(r)
    ensures Markers(m, s + r) == Markers(m, s) + Markers(m, r)
    decreases |s|
  {
    if s == "" {
      assert s + r == r;
    } else {
      StartsBefore(m, s, r);
      assert (s + r)[1..] == s[1..] + r;
      MarkersSplit(m, s[1..], r);
    }
  }

  // ---------------------------------------------------------------- escaping

  lemma {:induction false} StartsEscaped(p: string, s: string)
    requires PlainText(p)
    ensures StartsWith(Escape(s), p) <==> StartsWith(s, p)
  {
    if p != "" && s != "" {
      var e := Escape(s);
      if PlainChar(s[0]) {
        assert e == [s[0]] + Escape(s[1..]);
        StartsEscaped(p[1..], s[1..]);
        StartsTail(p, e);
        StartsTail(p, s);
        assert e[1..] == Escape(s[1..]);
      } else {
        FirstEscaped(s);
        StartsTail(p, e);
        StartsTail(p, s);
        if ShortEscape(s[0]).None? && 32 <= s[0] as int {
          assert e[0] == s[0];
        }
      }
    }
  }

  lemma StartsTail(p: string, s: string)
    requires p != "" && s != ""
    ensures StartsWith(s, p) <==> s[0] == p[0] && StartsWith(s[1..], p[1..])
  {
    if |p| <= |s| {
      assert s[..|p|] == [s[0]] + s[1..][..|p| - 1];
      assert p == [p[0]] + p[1..];
    }
  }

  // An escape starts with a backslash.
  lemma FirstEscaped(s: string)
    requires s != ""
    ensures Escape(s) != "" && Escape(s)[0] == EscapeChar(s[0])[0]
    ensures ShortEscape(s[0]).Some? || (s[0] as int) < 32 ==> EscapeChar(s[0])[0] == '\\'
  {
  }

  lemma {:induction false} NoOpener(m: string, s: string, r: string)
    requires GoodMarker(m) && '<' !in s
    ensures Markers(m, s + r) == Markers(m, r)
  {
    if s == "" {
      assert s + r == r;
    } else {
      NoOpener(m, s[1..], r);
      SkipChar(m, s[0], s[1..] + r);
      assert [s[0]] + (s[1..] + r) == s + r;
    }
  }

  lemma EscapeHasNoOpener(c: char)
    requires c != '<'
    ensures '<' !in EscapeChar(c)
  {
  }

  /** Escaping neither hides nor creates a marker. */
  lemma {:induction false} MarkersEscaped(m: string, s: string)
    requires PlainMarker(m)
    ensures Markers(m, Escape(s)) == Markers(m, s)
    decreases |s|
  {
    hide EscapeChar, ShortEscape;
    if s != "" {
      MarkersEscaped(m, s[1..]);
      var tail := Escape(s[1..]);
      if s[0] == '<' {
        PlainOpener(m);
        StartsEscaped(m, s);
        assert Escape(s)[1..] == tail;
      } else {
        EscapeHasNoOpener(s[0]);
        NoOpener(m, EscapeChar(s[0]), tail);
        SkipChar(m, s[0], s[1..]);
        assert [s[0]] + s[1..] == s;
      }
    }
  }

  lemma PlainOpener(m: string)
    requires PlainMarker(m)
    ensures EscapeChar('<') == "<"
  {
  }

  // ---------------------------------------------------------------- records

  function ValueMarkers(m: string, v: Value): nat {
    if v.TextValue? then Markers(m, v.text) else 0
  }

  function FieldMarkers(m: string, fields: seq<Field>): nat {
    if fields == [] then 0
    else Markers(m, fields[0].key) + ValueMarkers(m, fields[0].value) + FieldMarkers(m, fields[1..])
  }

  lemma NoOpenerAtAll(m: string, s: string)
    requires GoodMarker(m) && '<' !in s
    ensures Markers(m, s) == 0
  {
    NoOpener(m, s, "");
    assert s + "" == s;
  }

  lemma QuotedMarkers(m: string, text: string, rest: string)
    requires PlainMarker(m)
    ensures Markers(m, "\"" + Escape(text) + "\"" + rest) == Markers(m, text) + Markers(m, rest)
  {
    var tail := ['"'] + rest;
    assert "\"" + Escape(text) + "\"" + rest == ['"'] + (Escape(text) + tail);
    SkipChar(m, '"', Escape(text) + tail);
    MarkersSplit(m, Escape(text), tail);
    MarkersEscaped(m, text);
    SkipChar(m, '"', rest);
  }

  lemma ValueMarkersPrinted(m: string, v: Value, rest: string)
    requires PlainMarker(m)
    ensures Markers(m, PrintValue(v) + rest) == ValueMarkers(m, v) + Markers(m, rest)
  {
    match v
    case TextValue(text) => QuotedMarkers(m, text, rest);
    case CountValue(count) => NoOpener(m, Decimal(count), rest);
  }

  lemma FieldMarkersPrinted(m: string, f: Field, rest: string)
    requires PlainMarker(m)
    ensures Markers(m, PrintField(f) + rest) == Markers(m, f.key) + ValueMarkers(m, f.value) + Markers(m, rest)
  {
    hide Escape, PrintValue, Markers;
    var tail := ":" + PrintValue(f.value) + rest;
    assert PrintField(f) + rest == "\"" + Escape(f.key) + "\"" + tail;
    QuotedMarkers(m, f.key, tail);
    assert tail == [':'] + (PrintValue(f.value) + rest);
    SkipChar(m, ':', PrintValue(f.value) + rest);
    ValueMarkersPrinted(m, f.value, rest);
  }

  lemma {:induction false} FieldsMarkersPrinted(m: string, fields: seq<Field>)
    requires PlainMarker(m) && fields != []
    ensures Markers(m, PrintFields(fields)) == FieldMarkers(m, fields)
  {
    hide PrintField, Markers;
    if |fields| == 1 {
      FieldMarkersPrinted(m, fields[0], "}");
      NoOpenerAtAll(m, "}");
      assert FieldMarkers(m, fields[1..]) == 0;
    } else {
      var tail := "," + PrintFields(fields[1..]);
      FieldMarkersPrinted(m, fields[0], tail);
      FieldsMarkersPrinted(m, fields[1..]);
      assert tail == [','] + PrintFields(fields[1..]);
      SkipChar(m, ',', PrintFields(fields[1..]));
      assert PrintFields(fields) == PrintField(fields[0]) + tail;
    }
  }

  // No text of the directive contains the marker.
  predicate MarkerFree(e: OwnerDirective) {
    && Markers(MARKER, e.id) == 0 && Markers(MARKER, e.issueId) == 0 && Markers(MARKER, e.verbatim) == 0
    && (e.direct.Some? ==>
          && Markers(MARKER, e.direct.value.sourceSessionId) == 0
          && Markers(MARKER, e.direct.value.sourceMessageId) == 0
          && Markers(MARKER, e.direct.value.acknowledgementId) == 0)
  }

  predicate KeysPlain(fields: seq<Field>) {
    forall i :: 0 <= i < |fields| ==> '<' !in fields[i].key
  }

  predicate TextsFree(fields: seq<Field>) {
    forall i :: 0 <= i < |fields| ==> ValueMarkers(MARKER, fields[i].value) == 0
  }

  lemma {:induction false} FieldMarkersZero(fields: seq<Field>)
    requires KeysPlain(fields)
    ensures FieldMarkers(MARKER, fields) == 0 <==> TextsFree(fields)
  {
    if fields != [] {
      MarkerIsGood();
      NoOpenerAtAll(MARKER, fields[0].key);
      FieldMarkersZero(fields[1..]);
      assert forall i :: 0 <= i < |fields[1..]| ==> fields[1..][i] == fields[i + 1];
      if TextsFree(fields[1..]) && ValueMarkers(MARKER, fields[0].value) == 0 {
        forall i | 0 <= i < |fields| ensures ValueMarkers(MARKER, fields[i].value) == 0 {
          assert i > 0 ==> fields[i] == fields[1..][i - 1];
        }
      }
    }
  }

  lemma BaseTexts(e: OwnerDirective)
    ensures KeysPlain(BaseFields(e))
    ensures TextsFree(BaseFields(e))
       <==> Markers(MARKER, e.id) == 0 && Markers(MARKER, e.issueId) == 0 && Markers(MARKER, e.verbatim) == 0
  {
    hide Markers;
    var fields := BaseFields(e);
    assert fields[0].value == TextValue(e.id) && fields[1].value == TextValue(e.issueId) && fields[4].value == TextValue(e.verbatim);
  }

  lemma ThreeFields(a: Field, b: Field, c: Field)
    requires '<' !in a.key && '<' !in b.key && '<' !in c.key
    ensures KeysPlain([a, b, c])
    ensures TextsFree([a, b, c])
       <==> ValueMarkers(MARKER, a.value) == 0 && ValueMarkers(MARKER, b.value) == 0 && ValueMarkers(MARKER, c.value) == 0
  {
    hide ValueMarkers;
    var fields := [a, b, c];
    assert fields[0] == a && fields[1] == b && fields[2] == c;
  }

  lemma DirectKeys(d: Evidence)
    ensures forall i :: 0 <= i < 3 ==> '<' !in DirectFields(d)[i].key
  {
  }

  lemma DirectTexts(d: Evidence)
    ensures KeysPlain(DirectFields(d))
    ensures TextsFree(DirectFields(d))
       <==> Markers(MARKER, d.sourceSessionId) == 0 && Markers(MARKER, d.sourceMessageId) == 0
            && Markers(MARKER, d.acknowledgementId) == 0
  {
    hide Markers, KeysPlain, TextsFree;
    DirectKeys(d);
    var fields := DirectFields(d);
    assert fields[0].value.text == d.sourceSessionId && fields[1].value.text == d.sourceMessageId
        && fields[2].value.text == d.acknowledgementId;
    hide DirectFields;
    assert fields == [fields[0], fields[1], fields[2]];
    ThreeFields(fields[0], fields[1], fields[2]);
  }

  lemma TextsConcat(a: seq<Field>, b: seq<Field>)
    ensures KeysPlain(a) && KeysPlain(b) ==> KeysPlain(a + b)
    ensures TextsFree(a + b) <==> TextsFree(a) && TextsFree(b)
  {
    hide ValueMarkers;
    assert forall i :: 0 <= i < |a| ==> (a + b)[i] == a[i];
    assert forall i :: 0 <= i < |b| ==> (a + b)[|a| + i] == b[i];
  }

  lemma DirectiveFields(e: OwnerDirective)
    ensures KeysPlain(FieldsOf(e))
    ensures TextsFree(FieldsOf(e)) <==> MarkerFree(e)
  {
    hide Markers, KeysPlain, TextsFree, BaseFields, DirectFields;
    BaseTexts(e);
    if e.direct.Some? {
      DirectTexts(e.direct.value);
      TextsConcat(BaseFields(e), DirectFields(e.direct.value));
    } else {
      assert BaseFields(e) + [] == BaseFields(e);
    }
  }

  lemma PrintedFree(e: OwnerDirective)
    ensures Markers(MARKER, Printed(e)) == 0 <==> MarkerFree(e)
  {
    hide Markers, FieldsOf, MarkerFree;
    MarkerIsPlain();
    var fields := FieldsOf(e);
    FieldsMarkersPrinted(MARKER, fields);
    assert PrintObject(fields) == ['{'] + PrintFields(fields);
    SkipChar(MARKER, '{', PrintFields(fields));
    DirectiveFields(e);
    FieldMarkersZero(fields);
  }

  /** A directive can be stored and found again exactly when its own texts, and the
      acknowledgement line made of its two IDs, are free of the marker, and the ledger would
      accept it. */
  lemma StorableMeans(e: OwnerDirective)
    ensures Storable(e) <==> Appendable(e) && e.direct.Some? && Markers(MARKER, AckLine(e)) == 0 && MarkerFree(e)
  {
    hide Markers, Appendable, AckLine, Printed, MarkerFree;
    PrintedFree(e);
  }

  // ---------------------------------------------------------------- acknowledgement lines

  // After a blank the marker does not go on the way an acknowledgement ID begins.
  predicate NoAckInside(m: string) {
    forall i :: 0 <= i < |m| && m[i] == ' ' ==> i + 1 < |m| && m[i + 1] != 'a'
  }

  lemma MarkerHasNoAck()
    ensures NoAckInside(MARKER)
  {
  }

  lemma StartsBeforeAck(m: string, s: string, r: string)
    requires NoAckInside(m) && s != "" && 2 <= |r| && r[0] == ' ' && r[1] == 'a'
    ensures StartsWith(s + r, m) <==> StartsWith(s, m)
  {
    if |s| < |m| <= |s + r| {
      assert (s + r)[..|m|][|s|] == ' ';
      assert |s| + 1 < |m| ==> (s + r)[..|m|][|s| + 1] == 'a';
    }
    if |m| <= |s| {
      assert (s + r)[..|m|] == s[..|m|];
    }
  }

  lemma {:induction false} MarkersBeforeAck(m: string, s: string, r: string)
    requires NoAckInside(m) && 2 <= |r| && r[0] == ' ' && r[1] == 'a'
    ensures Markers(m, s + r) == Markers(m, s) + Markers(m, r)
    decreases |s|
  {
    if s == "" {
      assert s + r == r;
    } else {
      StartsBeforeAck(m, s, r);
      assert (s + r)[1..] == s[1..] + r;
      MarkersBeforeAck(m, s[1..], r);
    }
  }

  /** The acknowledgement line has as many markers as the directive's ID. */
  lemma AckLineMarkers(e: OwnerDirective)
    requires Digested(e)
    ensures Markers(MARKER, AckLine(e)) == Markers(MARKER, e.id)
  {
    hide Markers;
    MarkerIsGood();
    MarkerHasNoAck();
    var r := " " + e.direct.value.acknowledgementId;
    assert e.direct.value.acknowledgementId[..4][0] == 'a';
    assert AckLine(e) == "ACK " + (e.id + r);
    NoOpener(MARKER, "ACK ", e.id + r);
    MarkersBeforeAck(MARKER, e.id, r);
    assert '<' !in r by { DigestHasNoOpener(e); }
    NoOpenerAtAll(MARKER, r);
  }

  lemma DigestHasNoOpener(e: OwnerDirective)
    requires Digested(e)
    ensures '<' !in " " + e.direct.value.acknowledgementId
  {
    var id := e.direct.value.acknowledgementId;
    forall i | 0 <= i < |id| ensures id[i] != '<' {
      if i < 4 {
        assert id[i] == id[..4][i] == "ack-"[i];
      }
    }
  }

  /** A directive acknowledged under a digest can be stored exactly when the ledger would
      accept it and its own texts are free of the marker. */
  lemma DigestedStorable(e: OwnerDirective)
    requires Digested(e)
    ensures Storable(e) <==> Appendable(e) && MarkerFree(e)
    ensures Storable(e) <==> Appendable(e) && Markers(MARKER, Printed(e)) == 0
  {
    hide Markers, Printed, Appendable, AckLine;
    PrintedFree(e);
    AckLineMarkers(e);
  }
}
