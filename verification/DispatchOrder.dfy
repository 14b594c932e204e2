/** The order in which the scheduler looks at issues: priority, then age, then identifier,
    then ID for dispatch; ID alone for reconciliation.  Texts are compared by code point.
 */
module DispatchOrder {
  import opened Domain
  import opened Wrappers
  import opened Tracker

  function TextAtMost(a: string, b: string): bool {
    if a == "" then true
    else if b == "" then false
    else if a[0] != b[0] then a[0] < b[0]
    else TextAtMost(a[1..], b[1..])
  }

  lemma {:induction false} TextTotal(a: string, b: string)
    ensures TextAtMost(a, b) || TextAtMost(b, a)
    ensures TextAtMost(a, b) && TextAtMost(b, a) ==> a == b
  {
    if a != "" && b != "" && a[0] == b[0] {
      TextTotal(a[1..], b[1..]);
      assert a == [a[0]] + a[1..] && b == [b[0]] + b[1..];
    }
  }

  lemma {:induction false} TextTransitive(a: string, b: string, c: string)
    requires TextAtMost(a, b) && TextAtMost(b, c)
    ensures TextAtMost(a, c)
  {
    if a != "" && a[0] == b[0] == c[0] {
      TextTransitive(a[1..], b[1..], c[1..]);
    }
  }

  /** Texts are ordered like words in a dictionary: by the first character that differs, and a
      beginning before what continues it. */
  lemma {:induction false} TextOrder(a: string, b: string)
    ensures TextAtMost(a, b) <==> a <= b || exists i :: 0 <= i < |a| && i < |b| && a[..i] == b[..i] && a[i] < b[i]
  {
    if a != "" && b != "" && a[0] == b[0] {
      var x, y := a[1..], b[1..];
      TextOrder(x, y);
      assert a == [a[0]] + x && b == [b[0]] + y;
      assert a <= b <==> x <= y;
      if i :| 0 <= i < |x| && i < |y| && x[..i] == y[..i] && x[i] < y[i] {
        assert a[..i + 1] == [a[0]] + x[..i] && b[..i + 1] == [b[0]] + y[..i];
        assert a[i + 1] < b[i + 1];
      }
      if i :| 0 <= i < |a| && i < |b| && a[..i] == b[..i] && a[i] < b[i] {
        assert x[..i - 1] == a[..i][1..] && y[..i - 1] == b[..i][1..];
        assert x[i - 1] < y[i - 1];
      }
    } else if a != "" && b != "" {
      assert a[..0] == b[..0];
      forall i | 0 < i < |a| && i < |b| ensures a[..i] != b[..i] {
        assert a[..i][0] != b[..i][0];
      }
    }
  }

  const UNRANKED := 0x1F_FFFF_FFFF_FFFF

  function PriorityKey(p: Option<int>): int {
    if p.Some? && 1 <= p.value <= 4 then p.value else UNRANKED
  }

  function CreatedKey(c: Option<int>): int {
    if c.Some? then c.value else UNRANKED
  }

  datatype Order = ForDispatch | ByIssueId

  predicate AtMost(order: Order, a: Entry, b: Entry) {
    var x, y := a.issue, b.issue;
    match order
    case ByIssueId => TextAtMost(x.id, y.id)
    case ForDispatch =>
      if PriorityKey(x.priority) != PriorityKey(y.priority) then PriorityKey(x.priority) < PriorityKey(y.priority)
      else if CreatedKey(x.createdAtMs) != CreatedKey(y.createdAtMs) then CreatedKey(x.createdAtMs) < CreatedKey(y.createdAtMs)
      else if x.identifier != y.identifier then TextAtMost(x.identifier, y.identifier)
      else TextAtMost(x.id, y.id)
  }

  lemma AtMostTotal(order: Order, a: Entry, b: Entry)
    ensures AtMost(order, a, b) || AtMost(order, b, a)
  {
    TextTotal(a.issue.id, b.issue.id);
    TextTotal(a.issue.identifier, b.issue.identifier);
  }

  lemma AtMostTransitive(order: Order, a: Entry, b: Entry, c: Entry)
    requires AtMost(order, a, b) && AtMost(order, b, c)
    ensures AtMost(order, a, c)
  {
    if TextAtMost(a.issue.id, b.issue.id) && TextAtMost(b.issue.id, c.issue.id) {
      TextTransitive(a.issue.id, b.issue.id, c.issue.id);
    }
    if TextAtMost(a.issue.identifier, b.issue.identifier) && TextAtMost(b.issue.identifier, c.issue.identifier) {
      TextTransitive(a.issue.identifier, b.issue.identifier, c.issue.identifier);
      TextTotal(a.issue.identifier, b.issue.identifier);
    }
  }

  predicate Sorted(order: Order, s: seq<Entry>) {
    forall i, j :: 0 <= i < j < |s| ==> AtMost(order, s[i], s[j])
  }

  // Stable insertion.
  function Insert(order: Order, e: Entry, s: seq<Entry>): (r: seq<Entry>)
    ensures multiset(r) == multiset(s) + multiset{e}
  {
    if s == [] then [e]
    else if AtMost(order, s[0], e) then
      assert s == [s[0]] + s[1..];
      [s[0]] + Insert(order, e, s[1..])
    else
      [e] + s
  }

  function Sort(order: Order, s: seq<Entry>): (r: seq<Entry>)
    ensures multiset(r) == multiset(s)
    ensures forall e :: e in r <==> e in s
  {
    if s == [] then []
    else
      assert s == s[..|s| - 1] + [s[|s| - 1]];
      var r := Insert(order, s[|s| - 1], Sort(order, s[..|s| - 1]));
      assert forall e :: e in r <==> e in multiset(r);
      assert forall e :: e in s <==> e in multiset(s);
      r
  }

  lemma {:induction false} InsertSorted(order: Order, e: Entry, s: seq<Entry>)
    requires Sorted(order, s)
    ensures Sorted(order, Insert(order, e, s))
  {
    var r := Insert(order, e, s);
    if s != [] {
      if AtMost(order, s[0], e) {
        InsertSorted(order, e, s[1..]);
        forall x | x in Insert(order, e, s[1..]) ensures AtMost(order, s[0], x) {
          assert x in multiset(s[1..]) + multiset{e};
        }
      } else {
        AtMostTotal(order, s[0], e);
        forall j | 0 <= j < |s| ensures AtMost(order, e, s[j]) {
          if j > 0 {
            AtMostTransitive(order, e, s[0], s[j]);
          }
        }
      }
    }
  }

  lemma {:induction false} SortSorted(order: Order, s: seq<Entry>)
    ensures Sorted(order, Sort(order, s))
  {
    if s != [] {
      SortSorted(order, s[..|s| - 1]);
      InsertSorted(order, s[|s| - 1], Sort(order, s[..|s| - 1]));
    }
  }
}
