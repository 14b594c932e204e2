/** Record blocks inside free-form notes: a scan for marked blocks that must account for every
    occurrence of the marker.
 */
module DeskNotes {
  import opened Wrappers
  import opened DirectiveLedger

  // What the scan relies on: the marker starts with a character that recurs nowhere in it,
  // and fits on one line.
  predicate GoodMarker(m: string) {
    && m != "" && m[0] == '<'
    && (forall i :: 0 < i < |m| ==> m[i] != '<' && m[i] != '\n')
    && !IsSpace(m[|m| - 1])
  }

  predicate StartsWith(s: string, p: string) {
    |p| <= |s| && s[..|p|] == p
  }

  const CLOSING := "\n-->"

  // The first place where a block can close.
  function FindClosing(s: string): (j: Option<nat>)
    ensures j.Some? ==> j.value + 4 <= |s| && s[j.value..j.value + 4] == CLOSING
  {
    if |s| < 4 then None
    else if s[..4] == CLOSING then Some(0)
    else
      var j := FindClosing(s[1..]);
      if j.Some? then
        assert s[1..][j.value..j.value + 4] == s[j.value + 1..j.value + 5];
        Some(j.value + 1)
      else None
  }

  // A block opens here, and this is where its text starts.
  predicate Opens(m: string, s: string) {
    StartsWith(s, m + "\n") && FindClosing(s[|m| + 1..]).Some?
  }

  function BlockEnd(m: string, s: string): (k: nat)
    requires Opens(m, s)
    ensures |m| + 5 <= k <= |s|
  {
    |m| + 1 + FindClosing(s[|m| + 1..]).value + 4
  }

  function BlockText(m: string, s: string): string
    requires Opens(m, s)
  {
    s[|m| + 1..BlockEnd(m, s) - 4]
  }

  // The texts of all blocks, scanned from the left without overlap.
  function Blocks(m: string, s: string): seq<string>
    decreases |s|
  {
    if s == "" then []
    else if Opens(m, s) then [BlockText(m, s)] + Blocks(m, s[BlockEnd(m, s)..])
    else Blocks(m, s[1..])
  }

  // How often the marker occurs at all.
  function Markers(m: string, s: string): nat
    decreases |s|
  {
    if s == "" then 0
    else (if StartsWith(s, m) then 1 else 0) + Markers(m, s[1..])
  }

  // Every marker opens a block, and none hides inside one.
  predicate Balanced(m: string, s: string) {
    Markers(m, s) == |Blocks(m, s)|
  }

  // ---------------------------------------------------------------- texts side by side

  // A text that cannot complete something begun in the text before it.
  predicate LineStart(r: string) {
    r == "" || r[0] == '\n'
  }

  lemma StartsWithin(s: string, r: string, m: string)
    requires GoodMarker(m) && LineStart(r) && s != ""
    ensures StartsWith(s + r, m) <==> StartsWith(s, m)
  {
    if |s| < |m| <= |s + r| {
      assert (s + r)[..|m|][|s|] == r[0];
    }
    if |m| <= |s| {
      assert (s + r)[..|m|] == s[..|m|];
    }
  }

  lemma {:induction false} MarkersConcat(m: string, s: string, r: string)
    requires GoodMarker(m) && LineStart(r)
    ensures Markers(m, s + r) == Markers(m, s) + Markers(m, r)
    decreases |s|
  {
    if s == "" {
      assert s + r == r;
    } else {
      StartsWithin(s, r, m);
      assert (s + r)[1..] == s[1..] + r;
      MarkersConcat(m, s[1..], r);
    }
  }

  lemma {:induction false} MarkersOfRest(m: string, s: string, k: nat)
    requires k <= |s|
    ensures Markers(m, s[k..]) <= Markers(m, s)
    decreases k
  {
    if k > 0 {
      MarkersOfRest(m, s, k - 1);
      assert s[k - 1..][1..] == s[k..];
    } else {
      assert s[0..] == s;
    }
  }

  // An open block accounts for at least its own marker.
  lemma BlockCounts(m: string, s: string)
    requires GoodMarker(m) && Opens(m, s)
    ensures StartsWith(s, m) && Markers(m, s[BlockEnd(m, s)..]) + 1 <= Markers(m, s)
  {
    assert s[..|m|] == (m + "\n")[..|m|] == m;
    MarkersOfRest(m, s[1..], BlockEnd(m, s) - 1);
    assert s[1..][BlockEnd(m, s) - 1..] == s[BlockEnd(m, s)..];
  }

  /** There are never more blocks than markers. */
  lemma {:induction false} BlocksWithinMarkers(m: string, s: string)
    requires GoodMarker(m)
    ensures |Blocks(m, s)| <= Markers(m, s)
    decreases |s|
  {
    if s != "" {
      if Opens(m, s) {
        BlockCounts(m, s);
        BlocksWithinMarkers(m, s[BlockEnd(m, s)..]);
      } else {
        BlocksWithinMarkers(m, s[1..]);
      }
    }
  }

  // How often the marker ends its line: only there can a block open.
  function Openers(m: string, s: string): nat {
    Markers(m + "\n", s)
  }

  /** There are never more blocks than places where one can open. */
  lemma {:induction false} BlocksWithinOpeners(m: string, s: string)
    ensures |Blocks(m, s)| <= Openers(m, s)
    decreases |s|
  {
    if s != "" {
      if Opens(m, s) {
        MarkersOfRest(m + "\n", s[1..], BlockEnd(m, s) - 1);
        assert s[1..][BlockEnd(m, s) - 1..] == s[BlockEnd(m, s)..];
        BlocksWithinOpeners(m, s[BlockEnd(m, s)..]);
      } else {
        BlocksWithinOpeners(m, s[1..]);
      }
    }
  }

  lemma OpenerIsMarker(m: string, s: string)
    requires StartsWith(s, m + "\n")
    ensures StartsWith(s, m)
  {
    assert s[..|m|] == (m + "\n")[..|m|] == m;
  }

  lemma {:induction false} OpenersWithinMarkers(m: string, s: string)
    ensures Openers(m, s) <= Markers(m, s)
  {
    if s != "" {
      if StartsWith(s, m + "\n") {
        OpenerIsMarker(m, s);
      }
      OpenersWithinMarkers(m, s[1..]);
    }
  }

  lemma {:induction false} OpenersConcat(m: string, s: string, r: string)
    requires GoodMarker(m) && LineStart(r)
    ensures Openers(m, s + r) <= Markers(m, s) + Openers(m, r)
    decreases |s|
  {
    if s == "" {
      assert s + r == r;
    } else {
      if StartsWith(s + r, m + "\n") {
        OpenerIsMarker(m, s + r);
        StartsWithin(s, r, m);
      }
      assert (s + r)[1..] == s[1..] + r;
      OpenersConcat(m, s[1..], r);
    }
  }

  lemma BalancedRest(m: string, s: string)
    requires GoodMarker(m) && Balanced(m, s) && s != ""
    ensures if Opens(m, s) then Balanced(m, s[BlockEnd(m, s)..]) else Balanced(m, s[1..]) && !StartsWith(s, m)
  {
    if Opens(m, s) {
      BlockCounts(m, s);
      BlocksWithinMarkers(m, s[BlockEnd(m, s)..]);
    } else {
      BlocksWithinMarkers(m, s[1..]);
    }
  }

  lemma {:induction false} ClosingStays(s: string, r: string)
    requires FindClosing(s).Some?
    ensures FindClosing(s + r) == FindClosing(s)
    decreases |s|
  {
    assert (s + r)[..4] == s[..4];
    if s[..4] != CLOSING {
      assert (s + r)[1..] == s[1..] + r;
      ClosingStays(s[1..], r);
    }
  }

  lemma OpensStays(m: string, s: string, r: string)
    requires Opens(m, s)
    ensures Opens(m, s + r) && BlockEnd(m, s + r) == BlockEnd(m, s) && BlockText(m, s + r) == BlockText(m, s)
    ensures (s + r)[BlockEnd(m, s)..] == s[BlockEnd(m, s)..] + r
  {
    hide FindClosing;
    assert (s + r)[..|m| + 1] == s[..|m| + 1];
    assert (s + r)[|m| + 1..] == s[|m| + 1..] + r;
    ClosingStays(s[|m| + 1..], r);
    var k := BlockEnd(m, s);
    assert (s + r)[|m| + 1..k - 4] == s[|m| + 1..k - 4];
  }

  lemma OpensNeedsMarker(m: string, s: string)
    requires Opens(m, s)
    ensures StartsWith(s, m)
  {
    assert s[..|m|] == (m + "\n")[..|m|] == m;
  }

  /** Blocks of balanced notes are found one by one, whatever follows on a new line. */
  lemma {:induction false} BlocksConcat(m: string, s: string, r: string)
    requires GoodMarker(m) && Balanced(m, s) && LineStart(r)
    ensures Blocks(m, s + r) == Blocks(m, s) + Blocks(m, r)
    decreases |s|
  {
    if s == "" {
      assert s + r == r;
    } else {
      BalancedRest(m, s);
      if Opens(m, s) {
        OpensStays(m, s, r);
        BlocksConcat(m, s[BlockEnd(m, s)..], r);
      } else {
        StartsWithin(s, r, m);
        if Opens(m, s + r) {
          OpensNeedsMarker(m, s + r);
        }
        assert (s + r)[1..] == s[1..] + r;
        BlocksConcat(m, s[1..], r);
      }
    }
  }

  // ---------------------------------------------------------------- what does not matter

  lemma SkipChar(m: string, c: char, s: string)
    requires GoodMarker(m) && c != '<'
    ensures Blocks(m, [c] + s) == Blocks(m, s) && Markers(m, [c] + s) == Markers(m, s)
  {
    var t := [c] + s;
    assert t[1..] == s;
    if |m| <= |t| {
      assert t[..|m|][0] == c;
    }
    if Opens(m, t) {
      OpensNeedsMarker(m, t);
    }
  }

  lemma {:induction false} ClosingBeforeSpace(s: string, c: char)
    requires IsSpace(c)
    ensures FindClosing(s + [c]) == FindClosing(s)
  {
    if |s| >= 4 {
      assert (s + [c])[..4] == s[..4];
      assert (s + [c])[1..] == s[1..] + [c];
      ClosingBeforeSpace(s[1..], c);
    } else if |s| == 3 {
      assert (s + [c])[3] == c && CLOSING[3] == '>';
      assert (s + [c])[..4] == s + [c];
      assert (s + [c])[1..] == s[1..] + [c];
    }
  }

  lemma SpaceAfter(m: string, s: string, c: char)
    requires GoodMarker(m) && IsSpace(c) && s != ""
    ensures StartsWith(s + [c], m) <==> StartsWith(s, m)
    ensures Opens(m, s + [c]) <==> Opens(m, s)
  {
    if |m| == |s| + 1 {
      assert (s + [c])[..|m|][|s|] == c;
    }
    if |m| <= |s| {
      assert (s + [c])[..|m|] == s[..|m|];
    }
    if |m| + 1 <= |s| {
      assert (s + [c])[..|m| + 1] == s[..|m| + 1];
      assert (s + [c])[|m| + 1..] == s[|m| + 1..] + [c];
      ClosingBeforeSpace(s[|m| + 1..], c);
    } else if |m| == |s| {
      assert (s + [c])[|m| + 1..] == "";
    }
  }

  lemma {:induction false} TrailingSpace(m: string, s: string, c: char)
    requires GoodMarker(m) && IsSpace(c)
    ensures Blocks(m, s + [c]) == Blocks(m, s) && Markers(m, s + [c]) == Markers(m, s)
    decreases |s|
  {
    if s == "" {
      SkipChar(m, c, "");
      assert s + [c] == [c] + "";
    } else {
      SpaceAfter(m, s, c);
      assert (s + [c])[1..] == s[1..] + [c];
      TrailingSpace(m, s[1..], c);
      if Opens(m, s) {
        OpensStays(m, s, [c]);
        TrailingSpace(m, s[BlockEnd(m, s)..], c);
      }
    }
  }

  function TrimEnd(s: string): string {
    if s != "" && IsSpace(s[|s| - 1]) then TrimEnd(s[..|s| - 1]) else s
  }

  function Trim(s: string): string {
    if s != "" && IsSpace(s[0]) then Trim(s[1..]) else TrimEnd(s)
  }

  lemma {:induction false} TrimEndHarmless(m: string, s: string)
    requires GoodMarker(m)
    ensures Blocks(m, TrimEnd(s)) == Blocks(m, s) && Markers(m, TrimEnd(s)) == Markers(m, s)
  {
    if s != "" && IsSpace(s[|s| - 1]) {
      TrimEndHarmless(m, s[..|s| - 1]);
      TrailingSpace(m, s[..|s| - 1], s[|s| - 1]);
      assert s[..|s| - 1] + [s[|s| - 1]] == s;
    }
  }

  /** Trimming notes loses no block and no marker. */
  lemma {:induction false} TrimHarmless(m: string, s: string)
    requires GoodMarker(m)
    ensures Blocks(m, Trim(s)) == Blocks(m, s) && Markers(m, Trim(s)) == Markers(m, s)
  {
    if s != "" && IsSpace(s[0]) {
      TrimHarmless(m, s[1..]);
      SkipChar(m, s[0], s[1..]);
      assert [s[0]] + s[1..] == s;
    } else {
      TrimEndHarmless(m, s);
    }
  }

  // ---------------------------------------------------------------- one block

  function Block(m: string, text: string): string {
    m + "\n" + text + CLOSING
  }

  lemma {:induction false} ClosingAfterLine(text: string, r: string)
    requires '\n' !in text
    ensures FindClosing(text + CLOSING + r) == Some(|text|)
  {
    var s := text + CLOSING + r;
    if text == "" {
      assert s[..4] == CLOSING;
    } else {
      assert s[0] == text[0];
      assert s[..4][0] != CLOSING[0];
      assert s[1..] == text[1..] + CLOSING + r;
      ClosingAfterLine(text[1..], r);
    }
  }

  /** A printed block is one block with exactly its text, plus as many stray markers as the
      text itself contains. */
  lemma OneBlock(m: string, text: string)
    requires GoodMarker(m) && '\n' !in text
    ensures Blocks(m, Block(m, text)) == [text] && Markers(m, Block(m, text)) == 1 + Markers(m, text)
  {
    var s := Block(m, text);
    ClosingAfterLine(text, "");
    assert s[..|m| + 1] == m + "\n";
    assert s[|m| + 1..] == text + CLOSING + "";
    assert BlockText(m, s) == text;
    assert s[BlockEnd(m, s)..] == "";
    MarkersOfBlock(m, text);
  }

  lemma {:induction false} NoMarkerInside(m: string, i: nat, r: string)
    requires GoodMarker(m) && 0 < i <= |m|
    ensures Markers(m, m[i..] + r) == Markers(m, r)
    decreases |m| - i
  {
    if i < |m| {
      NoMarkerInside(m, i + 1, r);
      assert m[i..] + r == [m[i]] + (m[i + 1..] + r);
      SkipChar(m, m[i], m[i + 1..] + r);
    } else {
      assert m[i..] + r == r;
    }
  }

  lemma MarkersOfBlock(m: string, text: string)
    requires GoodMarker(m)
    ensures Markers(m, Block(m, text)) == 1 + Markers(m, text)
  {
    var r := "\n" + text + CLOSING;
    assert Block(m, text) == m + r;
    assert StartsWith(m + r, m);
    assert (m + r)[1..] == m[1..] + r;
    NoMarkerInside(m, 1, r);
    assert r == ['\n'] + (text + CLOSING);
    SkipChar(m, '\n', text + CLOSING);
    MarkersConcat(m, text, CLOSING);
    NoMarkerInClosing(m);
  }

  // No block opens inside a line that does not end like the marker.
  lemma {:induction false} NoOpenerInLine(m: string, text: string)
    requires GoodMarker(m) && '\n' !in text && (text != "" ==> text[|text| - 1] != m[|m| - 1])
    ensures Openers(m, text + CLOSING) == 0
  {
    if text == "" {
      assert text + CLOSING == CLOSING;
      NoMarkerInClosing(m);
      OpenersWithinMarkers(m, CLOSING);
    } else {
      var s := text + CLOSING;
      if |m| < |s| {
        assert s[..|m| + 1][|m|] == s[|m|] && s[..|m| + 1][|m| - 1] == s[|m| - 1];
        assert (m + "\n")[|m|] == '\n' && (m + "\n")[|m| - 1] == m[|m| - 1];
      }
      assert s[1..] == text[1..] + CLOSING;
      NoOpenerInLine(m, text[1..]);
    }
  }

  lemma {:induction false} NoOpenerInside(m: string, i: nat, r: string)
    requires GoodMarker(m) && 0 < i <= |m|
    ensures Openers(m, m[i..] + r) == Openers(m, r)
    decreases |m| - i
  {
    var s := m[i..] + r;
    if i < |m| {
      NoOpenerInside(m, i + 1, r);
      assert s[0] == m[i] && s[1..] == m[i + 1..] + r;
      NotOpening(m, s);
    } else {
      assert s == r;
    }
  }

  lemma NotOpening(m: string, s: string)
    requires GoodMarker(m) && s != "" && s[0] != '<'
    ensures Openers(m, s) == Openers(m, s[1..])
  {
    if |m| < |s| {
      assert s[..|m| + 1][0] == s[0] && (m + "\n")[0] == m[0];
    }
  }

  /** In the block of a text that does not end like the marker nothing but the block opens. */
  lemma OneOpener(m: string, text: string)
    requires GoodMarker(m) && '\n' !in text && (text != "" ==> text[|text| - 1] != m[|m| - 1])
    ensures Openers(m, Block(m, text)) <= 1
  {
    var s, r := Block(m, text), "\n" + text + CLOSING;
    assert s[1..] == m[1..] + r;
    NoOpenerInside(m, 1, r);
    assert r[1..] == text + CLOSING;
    NotOpening(m, r);
    NoOpenerInLine(m, text);
  }

  lemma NoMarkerInClosing(m: string)
    requires GoodMarker(m)
    ensures Markers(m, CLOSING) == 0
  {
    assert CLOSING == ['\n'] + "-->";
    SkipChar(m, '\n', "-->");
    assert "-->" == ['-'] + "->";
    SkipChar(m, '-', "->");
    assert "->" == ['-'] + ">";
    SkipChar(m, '-', ">");
    assert ">" == ['>'] + "";
    SkipChar(m, '>', "");
  }
}
