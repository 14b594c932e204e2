/** What a coordinator gets from a claim and from a hand-over. */
module InboxGuarantees {
  import opened Wrappers
  import opened Text
  import opened InboxLog
  import opened Inbox

  // ---------------------------------------------------------------- a fresh claim

  // The items a coordinator could claim among the first n files, in directory order.
  function EligibleKeys(d: Desk, caller: Caller, n: nat): (keys: seq<Key>)
    requires n <= |d.listing|
    ensures forall k :: k in keys <==> k in d.listing[..n] && Eligible(d, caller, k)
  {
    if n == 0 then []
    else
      assert d.listing[..n] == d.listing[..n - 1] + [d.listing[n - 1]];
      EligibleKeys(d, caller, n - 1) + if Eligible(d, caller, d.listing[n - 1]) then [d.listing[n - 1]] else []
  }

  function First(keys: seq<Key>, limit: nat): seq<Key> {
    if |keys| <= limit then keys else keys[..limit]
  }

  // A sorted directory lists no file twice, and later files sort after earlier ones.
  lemma LaterIsGreater(listing: seq<Key>, n: nat, keys: seq<Key>)
    requires Ascending(listing) && n < |listing| && Ascending(keys) && forall k :: k in keys ==> k in listing[..n]
    ensures listing[n] !in keys && Ascending(keys + [listing[n]])
    ensures forall k :: k in keys + [listing[n]] ==> k in listing[..n + 1]
  {
    assert listing[..n + 1] == listing[..n] + [listing[n]];
    forall i | 0 <= i < |keys| ensures keys[i] < listing[n] {
      assert keys[i] in listing[..n];
    }
  }

  lemma {:induction false} FreshDigestIsFirst(d: Desk, caller: Caller, limit: nat, n: nat)
    requires n <= |d.listing| && Ascending(d.listing)
    ensures Digest(d, caller, [], limit, n) == First(EligibleKeys(d, caller, n), limit)
    ensures Ascending(Digest(d, caller, [], limit, n))
    ensures forall k :: k in Digest(d, caller, [], limit, n) ==> k in d.listing[..n]
    decreases n
  {
    if n > 0 {
      FreshDigestIsFirst(d, caller, limit, n - 1);
      LaterIsGreater(d.listing, n - 1, Digest(d, caller, [], limit, n - 1));
      hide Ascending, Eligible;
      assert d.listing[..n] == d.listing[..n - 1] + [d.listing[n - 1]];
    }
  }

  // A digest that is already in order sorts to itself.
  lemma {:induction false} SortedAlready(s: seq<Key>)
    requires Ascending(s)
    ensures SortKeys(s) == s
  {
    if s != [] {
      var front, last := s[..|s| - 1], s[|s| - 1];
      SortedAlready(front);
      ListedLast(front, last);
    }
  }

  lemma {:induction false} ListedLast(s: seq<Key>, key: Key)
    requires Ascending(s) && forall i :: 0 <= i < |s| ==> s[i] < key
    ensures Listed(s, key) == s + [key]
  {
    if s != [] {
      assert s == [s[0]] + s[1..];
      ListedLast(s[1..], key);
    }
  }

  lemma {:induction false} FreshBindsDigest(d: Desk, caller: Caller, g: Grant, limit: nat, n: nat)
    requires n <= |d.listing| && Ascending(d.listing) && g.held == []
    ensures var ws, keys := BindWrites(d, caller, g, limit, n), Digest(d, caller, [], limit, n);
      |ws| == |keys| && forall i :: 0 <= i < |ws| ==> OnItem(ws[i]) && ws[i].key == keys[i]
    decreases n
  {
    if n > 0 {
      FreshBindsDigest(d, caller, g, limit, n - 1);
      FreshDigestIsFirst(d, caller, limit, n - 1);
      assert d.listing[n - 1] !in d.listing[..n - 1];
    }
  }

  /** A fresh claim takes exactly the first `limit` claimable items of its generation in
      directory order - all of them when they fit - and binds each one to the new token, at
      its current revision and at the status revision the command saw.  Nothing else changes. */
  lemma FreshClaimTakesFirst(d: Desk, caller: Caller, ttl: int, limit: nat)
    requires SoundDesk(d, limit) && !Reusable(d.claim, caller)
    ensures var ws := ClaimWrites(d, caller, ttl, limit);
      var taken := First(EligibleKeys(d, caller, |d.listing|), limit);
      var g := GrantFor(d.claim, caller, ttl);
      var e := Run(d, ws, |ws|);
      && e.claim == Some(ClaimRecord(caller.session, caller.generation, Some(g.token), Some(g.expiresAt), g.claimSeq, taken))
      && e.listing == d.listing && e.status == d.status && e.read == d.read && e.items.Keys == d.items.Keys
      && forall k :: k in d.items ==>
           e.items[k] == if k in taken
                         then Rewritten(d.items[k], Bind(k, g.token, caller.nowMs, g.expiresAt, StatusRevisionFor(Seen(d), caller.generation)))
                         else d.items[k]
  {
    hide SoundDesk, BindWrites, Digest, EligibleKeys, Ascending, Eligible, Run, Rewritten, ClaimWrites;
    var g := GrantFor(d.claim, caller, ttl);
    SoundParts(d, limit);
    FreshDigestIsFirst(d, caller, limit, |d.listing|);
    SortedAlready(Digest(d, caller, [], limit, |d.listing|));
    ClaimRun(d, caller, ttl, limit);
    FreshBindsEach(d, caller, g, limit);
  }

  // The whole claim is the bindings and then the claim file.
  lemma ClaimRun(d: Desk, caller: Caller, ttl: int, limit: nat)
    ensures var ws := ClaimWrites(d, caller, ttl, limit);
      var g := GrantFor(d.claim, caller, ttl);
      var binds := BindWrites(d, caller, g, limit, |d.listing|);
      Run(d, ws, |ws|) == Run(d, binds, |binds|).(claim := Some(
        ClaimRecord(caller.session, caller.generation, Some(g.token), Some(g.expiresAt), g.claimSeq,
                    SortKeys(Digest(d, caller, g.held, limit, |d.listing|)))))
  {
    hide BindWrites, Digest, GrantFor, SortKeys;
    var g := GrantFor(d.claim, caller, ttl);
    var binds := BindWrites(d, caller, g, limit, |d.listing|);
    var record := Record(ClaimRecord(caller.session, caller.generation, Some(g.token), Some(g.expiresAt), g.claimSeq,
                                     SortKeys(Digest(d, caller, g.held, limit, |d.listing|))));
    RunAppend(d, binds, [record], |binds|);
  }

  lemma SoundParts(d: Desk, limit: nat)
    requires SoundDesk(d, limit)
    ensures Ascending(d.listing) && forall k :: k in d.listing <==> k in d.items
  {
  }

  lemma FreshBindsEach(d: Desk, caller: Caller, g: Grant, limit: nat)
    requires SoundDesk(d, limit) && g.held == []
    ensures var ws := BindWrites(d, caller, g, limit, |d.listing|);
      var keys := Digest(d, caller, [], limit, |d.listing|);
      var e := Run(d, ws, |ws|);
      && SameFrame(d, e)
      && forall k :: k in d.items ==>
           e.items[k] == if k in keys
                         then Rewritten(d.items[k], Bind(k, g.token, caller.nowMs, g.expiresAt, StatusRevisionFor(Seen(d), caller.generation)))
                         else d.items[k]
  {
    hide Digest, Eligible, Rewritten;
    var n := |d.listing|;
    var ws, keys := BindWrites(d, caller, g, limit, n), Digest(d, caller, [], limit, n);
    var e := Run(d, ws, |ws|);
    BindOneEach(d, caller, g, limit, n);
    FreshBindsDigest(d, caller, g, limit, n);
    OthersUntouched(d, ws, |ws|, 0);
    forall k | k in d.items
      ensures e.items[k] == if k in keys
        then Rewritten(d.items[k], Bind(k, g.token, caller.nowMs, g.expiresAt, StatusRevisionFor(Seen(d), caller.generation)))
        else d.items[k]
    {
      if k in keys {
        var i :| 0 <= i < |keys| && keys[i] == k;
        BindWriteOrigin(d, caller, g, limit, n, i);
        EffectOf(d, ws, |ws|, i);
      } else {
        assert forall i :: 0 <= i < |ws| ==> keys[i] in keys;
        OthersUntouched(d, ws, |ws|, k);
      }
    }
  }

  // ---------------------------------------------------------------- a full pass

  // What an uninterrupted pass makes of one item.
  function Passed(item: Item, key: Key, pass: Pass): Item {
    match Choice(item, key, pass)
    case None => item
    case Some(w) => if OnItem(w) && !w.Submit? then Rewritten(item, w) else item
  }

  // An uninterrupted pass rewrites exactly the qualifying items.
  lemma PassEffect(d: Desk, pass: Pass, limit: nat)
    requires SoundDesk(d, limit)
    ensures var ws := PassWrites(d.items, d.listing, pass, |d.listing|);
      var e := Run(d, ws, |ws|);
      && SameFrame(d, e)
      && forall k :: k in d.items ==> e.items[k] == Passed(d.items[k], k, pass)
  {
    hide Choice, Rewritten;
    var n := |d.listing|;
    var ws := PassWrites(d.items, d.listing, pass, n);
    var e := Run(d, ws, |ws|);
    PassOneEach(d.items, d.listing, pass, n);
    OthersUntouched(d, ws, |ws|, 0);
    assert d.listing[..n] == d.listing;
    forall k | k in d.items ensures e.items[k] == Passed(d.items[k], k, pass) {
      if Choice(d.items[k], k, pass).Some? {
        ChoiceNamesKey(d.items[k], k, pass);
        var i := PassIsComplete(d.items, d.listing, pass, n, k);
        EffectOf(d, ws, |ws|, i);
      } else {
        forall i | 0 <= i < |ws| ensures ws[i].key != k {
          PassWriteOrigin(d.items, d.listing, pass, n, i);
        }
        OthersUntouched(d, ws, |ws|, k);
      }
    }
  }

  lemma ChoiceNamesKey(item: Item, key: Key, pass: Pass)
    requires Choice(item, key, pass).Some?
    ensures var w := Choice(item, key, pass).value; OnItem(w) && !w.Submit? && w.key == key
  {
  }

  // ---------------------------------------------------------------- hand-over

  // What the successor's desk looks like after an uninterrupted adoption.
  function Adopted(d: Desk, caller: Caller, predecessor: string): Desk {
    var ws := AdoptWrites(d, AdoptPass(caller.session, caller.generation, predecessor));
    Run(d, ws, |ws|)
  }

  // The item is the same fact as before: only its addressing and claim may differ.
  predicate SameFact(item: Item, after: Item) {
    && after.revision == item.revision && after.fingerprint == item.fingerprint && after.waking == item.waking
    && (after.state == Acknowledged <==> item.state == Acknowledged)
    && after.acknowledgedStatusRevision == item.acknowledgedStatusRevision
  }

  /** Hand-over keeps events.  After the successor adopts, every event keeps its key,
      revision and payload; what was acknowledged stays acknowledged; every other event that
      had been addressed to the predecessor under another generation is addressed to the
      successor and claimable by it at once; and all other items are untouched. */
  lemma AdoptionKeepsEvents(d: Desk, caller: Caller, predecessor: string, limit: nat, key: Key)
    requires SoundDesk(d, limit) && key in d.items
    ensures var e := Adopted(d, caller, predecessor);
      var item := d.items[key];
      && SameFrame(d, e) && SameFact(item, e.items[key])
      && (if item.session == predecessor && item.generation != caller.generation
          then && e.items[key].session == caller.session && e.items[key].generation == caller.generation
               && e.items[key].adoptedFrom == Some((predecessor, item.generation)) && !e.items[key].orphaned
               && (item.state != Acknowledged ==> Eligible(e, caller, key))
          else e.items[key] == item)
  {
    hide SoundDesk;
    PassEffect(d, AdoptPass(caller.session, caller.generation, predecessor), limit);
    assert Sound(d.items[key]) by { SoundItem(d, limit, key); }
  }

  lemma SoundItem(d: Desk, limit: nat, key: Key)
    requires SoundDesk(d, limit) && key in d.items
    ensures Sound(d.items[key])
  {
  }

  /** Adopting again changes nothing: it writes no file at all. */
  lemma AdoptionIsIdempotent(d: Desk, caller: Caller, predecessor: string, limit: nat)
    requires SoundDesk(d, limit) && predecessor != caller.session
    ensures AdoptWrites(Adopted(d, caller, predecessor), AdoptPass(caller.session, caller.generation, predecessor)) == []
  {
    hide SoundDesk;
    var e := Adopted(d, caller, predecessor);
    var pass := AdoptPass(caller.session, caller.generation, predecessor);
    PassEffect(d, pass, limit);
    forall k | k in e.items ensures Choice(e.items[k], k, pass).None? {
      AdoptionKeepsEvents(d, caller, predecessor, limit, k);
    }
    NothingChosen(e.items, e.listing, pass, |e.listing|);
  }

  lemma {:induction false} NothingChosen(items: map<Key, Item>, keys: seq<Key>, pass: Pass, n: nat)
    requires n <= |keys| && forall k :: k in items ==> Choice(items[k], k, pass).None?
    ensures PassWrites(items, keys, pass, n) == []
  {
    if n > 0 {
      NothingChosen(items, keys, pass, n - 1);
    }
  }

  /** A hand-over that dies half way is completed by the next adoption: wherever the first
      one stopped, adopting again ends with the very desk an uninterrupted adoption makes. */
  lemma AdoptionResumes(d: Desk, caller: Caller, predecessor: string, limit: nat, k: nat)
    requires SoundDesk(d, limit) && predecessor != caller.session
    requires k <= |AdoptWrites(d, AdoptPass(caller.session, caller.generation, predecessor))|
    ensures var died := Run(d, AdoptWrites(d, AdoptPass(caller.session, caller.generation, predecessor)), k);
      Adopted(died, caller, predecessor) == Adopted(d, caller, predecessor)
  {
    hide SoundDesk, Choice, Passed, Permitted, Run, PassWrites, AllPermitted;
    var pass := AdoptPass(caller.session, caller.generation, predecessor);
    var ws := AdoptWrites(d, pass);
    var died := Run(d, ws, k);
    SoundParts(d, limit);
    PassPermittedHere(d, pass, limit);
    PermittedSound(d, ws, k, limit);
    PassEffect(d, pass, limit);
    PassEffect(died, pass, limit);
    var once, again := Adopted(d, caller, predecessor), Adopted(died, caller, predecessor);
    PassOneEach(d.items, d.listing, pass, |d.listing|);
    OthersUntouched(d, ws, k, 0);
    forall key | key in d.items ensures again.items[key] == once.items[key] {
      PartialAdoption(d, ws, k, key, pass);
    }
  }

  lemma PassPermittedHere(d: Desk, pass: Pass, limit: nat)
    requires SoundDesk(d, limit) && pass.AdoptPass?
    ensures AllPermitted(d, AdoptWrites(d, pass), limit)
  {
    PassPermitted(d, d.listing, pass, limit);
  }

  // Half way through, each item is either as it was or already adopted - and then the
  // pass has no more business with it.
  lemma PartialAdoption(d: Desk, ws: seq<Write>, k: nat, key: Key, pass: Pass)
    requires pass.AdoptPass? && pass.predecessor != pass.session && ws == AdoptWrites(d, pass) && k <= |ws|
    requires OneEach(ws) && key in d.items && SameFrame(d, Run(d, ws, k))
    ensures var item, now := d.items[key], Run(d, ws, k).items[key];
      Passed(now, key, pass) == Passed(item, key, pass)
  {
    if i :| 0 <= i < k && ws[i].key == key {
      PassWriteOrigin(d.items, d.listing, pass, |d.listing|, i);
      EffectOf(d, ws, k, i);
    } else {
      OthersUntouched(d, ws, k, key);
    }
  }

  // ---------------------------------------------------------------- event identity

  const UNIT_SEPARATOR: char := 31 as char

  datatype Event = Event(project: string, generation: Generation, sender: string, workUnit: string, attempt: string, kind: string)

  // Identifiers are limited to letters, digits and a few marks, so none holds a separator.
  predicate PlainEvent(e: Event) {
    && UNIT_SEPARATOR !in e.project && UNIT_SEPARATOR !in e.sender && UNIT_SEPARATOR !in e.workUnit
    && UNIT_SEPARATOR !in e.attempt && UNIT_SEPARATOR !in e.kind
  }

  // The text whose digest names the item file.
  function EventText(e: Event): string {
    var sep := [UNIT_SEPARATOR];
    e.project + sep + (Decimal(e.generation) + sep + (e.sender + sep + (e.workUnit + sep + (e.attempt + sep + e.kind))))
  }

  /** Reports share a file exactly when they agree on project, generation, sender, work
      unit, attempt and kind (with the digest taken as injective). */
  lemma EventTextInjective(a: Event, b: Event)
    requires PlainEvent(a) && PlainEvent(b) && EventText(a) == EventText(b)
    ensures a == b
  {
    var sep := [UNIT_SEPARATOR];
    var a4, b4 := a.attempt + sep + a.kind, b.attempt + sep + b.kind;
    var a3, b3 := a.workUnit + sep + a4, b.workUnit + sep + b4;
    var a2, b2 := a.sender + sep + a3, b.sender + sep + b3;
    var a1, b1 := Decimal(a.generation) + sep + a2, Decimal(b.generation) + sep + b2;
    FirstSeparatorUnique(a.project, a1, b.project, b1, UNIT_SEPARATOR);
    FirstSeparatorUnique(Decimal(a.generation), a2, Decimal(b.generation), b2, UNIT_SEPARATOR);
    FirstSeparatorUnique(a.sender, a3, b.sender, b3, UNIT_SEPARATOR);
    FirstSeparatorUnique(a.workUnit, a4, b.workUnit, b4, UNIT_SEPARATOR);
    FirstSeparatorUnique(a.attempt, a.kind, b.attempt, b.kind, UNIT_SEPARATOR);
    DecimalInjective(a.generation, b.generation);
  }
}
