/** What every inbox command, run to its end, leaves in the files: stated item by item, and
    with nothing else changed.
 */
module InboxEffects {
  import opened Wrappers
  import opened InboxLog
  import opened Inbox
  import opened InboxGuarantees
  import opened InboxRuns

  // The desk after an uninterrupted command that was not refused.
  function Leaves(d: Desk, caller: Caller, command: Command, limit: nat): Desk
    requires Plan(d, caller, command, limit).Some?
  {
    After(d, Plan(d, caller, command, limit).value)
  }

  // No claim is on the item.
  predicate Unbound(item: Item) {
    && item.claimToken.None? && item.claimedByGeneration.None? && item.claimExpiresAt.None?
    && item.claimedRevision.None? && item.claimedStatusRevision.None?
  }

  // What an item says apart from its state and claim.
  predicate SameMessage(item: Item, after: Item) {
    && after.session == item.session && after.generation == item.generation
    && after.fingerprint == item.fingerprint && after.waking == item.waking && after.revision == item.revision
    && after.diagnosticsRevision == item.diagnosticsRevision && after.orphaned == item.orphaned
    && after.adoptedFrom == item.adoptedFrom
  }

  ghost predicate OthersSame(d: Desk, e: Desk, key: Key) {
    && e.claim == d.claim && e.status == d.status
    && forall k :: k != key ==> (k in e.items <==> k in d.items) && (k in d.items ==> e.items[k] == d.items[k])
  }

  // ---------------------------------------------------------------- submit

  // The report repeats what is on file and names no revision.
  predicate Repeats(d: Desk, report: Report) {
    report.key in d.items && d.items[report.key].fingerprint == report.fingerprint && report.revision.None?
  }

  // The report names a revision that is not above the one on file.
  predicate Outdated(d: Desk, report: Report) {
    report.key in d.items && report.revision.Some? && report.revision.value <= d.items[report.key].revision
  }

  /** A report is refused exactly when the project has no authoritative coordinator, its own
      checks fail, or it names a revision that is not above the one on file. */
  lemma SubmitRefusedExactly(d: Desk, caller: Caller, report: Report, admitted: bool, limit: nat)
    ensures Plan(d, caller, SubmitCmd(report, admitted), limit).None?
       <==> caller.registry.None? || caller.registry.value.onHold || !admitted || Outdated(d, report)
  {
  }

  /** No newer fact is swallowed.  A report that is not a mere repetition replaces what is on
      file under its event, whatever state the item was in: with its own fingerprint and a
      higher revision, pending, with no claim and no acknowledgement, so that it can be claimed
      at once.  A repetition counts as a diagnostic and changes nothing else; a first report
      creates the item, addressed to the coordinator. */
  lemma SubmitLeaves(d: Desk, caller: Caller, report: Report, admitted: bool, limit: nat)
    requires Plan(d, caller, SubmitCmd(report, admitted), limit).Some?
    ensures var e := Leaves(d, caller, SubmitCmd(report, admitted), limit);
      && OthersSame(d, e, report.key) && report.key in e.items
      && var item := e.items[report.key];
         if report.key !in d.items then
           && item.fingerprint == report.fingerprint && item.waking == report.waking
           && item.revision == (if report.revision.Some? then report.revision.value else 1)
           && item.session == caller.registry.value.session && item.generation == caller.registry.value.generation
           && Fresh(item) && item.diagnosticsRevision == 0 && !item.orphaned && item.adoptedFrom.None?
         else if Repeats(d, report) then
           item == d.items[report.key].(diagnosticsRevision := d.items[report.key].diagnosticsRevision + 1)
         else
           && item.fingerprint == report.fingerprint && item.waking == report.waking
           && d.items[report.key].revision < item.revision
           && item.revision == (if report.revision.Some? then report.revision.value else d.items[report.key].revision + 1)
           && item.session == d.items[report.key].session && item.generation == d.items[report.key].generation
           && Fresh(item) && item.diagnosticsRevision == d.items[report.key].diagnosticsRevision
  {
    var w := Plan(d, caller, SubmitCmd(report, admitted), limit).value[0];
    RunOne(d, w);
  }

  // Not dealt with, not claimed, and to be had at any time.
  ghost predicate Fresh(item: Item) {
    && item.state == Pending && Unbound(item) && item.acknowledgedStatusRevision.None?
    && forall nowMs :: Available(item, nowMs)
  }

  // ---------------------------------------------------------------- passes over a list of keys

  // An uninterrupted pass rewrites exactly the qualifying items among its keys.
  lemma PassLeaves(d: Desk, keys: seq<Key>, pass: Pass, k: Key)
    requires Ascending(keys) && k in d.items
    ensures var ws := PassWrites(d.items, keys, pass, |keys|);
      && SameFrame(d, After(d, ws))
      && After(d, ws).items[k] == if k in keys then Passed(d.items[k], k, pass) else d.items[k]
  {
    hide Choice, Rewritten;
    var n := |keys|;
    var ws := PassWrites(d.items, keys, pass, n);
    PassOneEach(d.items, keys, pass, n);
    OthersUntouched(d, ws, |ws|, k);
    assert keys[..n] == keys;
    if k in keys && Choice(d.items[k], k, pass).Some? {
      ChoiceNamesKey(d.items[k], k, pass);
      var i := PassIsComplete(d.items, keys, pass, n, k);
      EffectOf(d, ws, |ws|, i);
    } else {
      forall i | 0 <= i < |ws| ensures ws[i].key != k {
        PassWriteOrigin(d.items, keys, pass, n, i);
      }
    }
  }

  // The pass over the claimed keys and then the claim file.
  lemma WalkLeaves(d: Desk, pass: Pass, k: Key)
    requires d.claim.Some? && Ascending(d.claim.value.items) && k in d.items
    ensures var e := After(d, WalkAndSave(d, pass));
      && e.items.Keys == d.items.Keys && e.listing == d.listing && e.status == d.status
      && e.claim == Some(SavedAfter(d, pass))
      && e.items[k] == if k in d.claim.value.items then Passed(d.items[k], k, pass) else d.items[k]
  {
    hide Choice, Rewritten, PassWrites, SavedAfter, Passed;
    var keys := d.claim.value.items;
    var ws := PassWrites(d.items, keys, pass, |keys|);
    PassLeaves(d, keys, pass, k);
    RunAppend(d, ws, [Record(SavedAfter(d, pass))], |ws| + 1);
    RunAppend(d, ws, [Record(SavedAfter(d, pass))], |ws|);
  }

  lemma SoundClaimKeys(d: Desk, limit: nat)
    requires SoundDesk(d, limit) && d.claim.Some?
    ensures Ascending(d.claim.value.items)
  {
  }

  // ---------------------------------------------------------------- ack

  // The claim holds the item under the token, at its present revision, and the status cited
  // is newer than the one the claim had seen.
  predicate Answers(item: Item, token: Token, statusRevision: int) {
    && item.claimToken == Some(token) && item.revision != 0
    && OrElse(item.claimedStatusRevision, 0) < statusRevision
  }

  lemma {:induction false} RemainingIs(items: map<Key, Item>, keys: seq<Key>, pass: Pass, n: nat)
    requires n <= |keys| && pass.AckPass?
    ensures forall k :: k in Remaining(items, keys, pass, n) <==>
      k in keys[..n] && !(Requested(pass.requested, k) && (k in items ==> Choice(items[k], k, pass).Some?))
    decreases n
  {
    hide Choice;
    if n > 0 {
      RemainingIs(items, keys, pass, n - 1);
      assert keys[..n] == keys[..n - 1] + [keys[n - 1]];
    }
  }

  /** An ack that is let through closes exactly the requested items of the claim that it
      answers, on record with the status revision cited; leaves every other item as it is; and
      keeps in the claim what it did not close, which ends when nothing is left. */
  lemma AckLeaves(d: Desk, caller: Caller, token: Token, r: int, requested: Option<set<Key>>, limit: nat, k: Key)
    requires SoundDesk(d, limit) && k in d.items && ClaimMatches(d, caller, token)
    requires Plan(d, caller, AckCmd(token, Some(r), requested), limit).Some?
    ensures var e := Leaves(d, caller, AckCmd(token, Some(r), requested), limit);
      && e.status == d.status && e.items.Keys == d.items.Keys && e.claim.Some?
      && (if k in d.claim.value.items && Requested(requested, k) && Answers(d.items[k], token, r) then
            && e.items[k].state == Acknowledged && e.items[k].acknowledgedStatusRevision == Some(r)
            && Unbound(e.items[k]) && SameMessage(d.items[k], e.items[k])
          else e.items[k] == d.items[k])
      && (forall j :: j in e.claim.value.items <==>
            (j in d.claim.value.items && !(Requested(requested, j) && (j in d.items ==> Answers(d.items[j], token, r)))))
      && (if e.claim.value.items == [] then e.claim.value.token.None? && e.claim.value.expiresAt.None?
          else e.claim.value.token == Some(token) && e.claim.value.expiresAt == d.claim.value.expiresAt)
  {
    hide PassWrites, Permitted;
    var f, pass := AfterReading(d), AckPass(token, r, requested);
    SoundClaimKeys(d, limit);
    forall j | j in d.items ensures Choice(d.items[j], j, pass).Some? <==> Requested(requested, j) && Answers(d.items[j], token, r) {
      AckChoice(d, limit, j, pass);
    }
    assert d.claim.value.items[..|d.claim.value.items|] == d.claim.value.items;
    RemainingIs(d.items, d.claim.value.items, pass, |d.claim.value.items|);
    WalkLeaves(f, pass, k);
    ReadThenRun(d, WalkAndSave(f, pass));
  }

  lemma AckChoice(d: Desk, limit: nat, k: Key, pass: Pass)
    requires SoundDesk(d, limit) && k in d.items && pass.AckPass?
    ensures Choice(d.items[k], k, pass).Some? <==> Requested(pass.requested, k) && Answers(d.items[k], pass.token, pass.statusRevision)
  {
    assert Sound(d.items[k]);
  }

  lemma ReadThenRun(d: Desk, ws: seq<Write>)
    ensures After(d, [ReadStatus] + ws) == After(AfterReading(d), ws)
  {
    assert Run(d, [ReadStatus], 0) == d;
    RunAppend(d, [ReadStatus], ws, |ws| + 1);
  }

  // ---------------------------------------------------------------- release and reconcile

  /** A release gives back exactly the claimed items that carry its token, and ends the claim. */
  lemma ReleaseLeaves(d: Desk, caller: Caller, token: Token, limit: nat, k: Key)
    requires SoundDesk(d, limit) && k in d.items && d.claim.Some? && d.claim.value.token == Some(token)
    requires Plan(d, caller, ReleaseCmd(token), limit).Some?
    ensures var e := Leaves(d, caller, ReleaseCmd(token), limit);
      && e.status == d.status && e.items.Keys == d.items.Keys
      && (if k in d.claim.value.items && d.items[k].claimToken == Some(token) then
            e.items[k].state == Pending && Unbound(e.items[k]) && SameMessage(d.items[k], e.items[k])
          else e.items[k] == d.items[k])
      && e.claim.Some? && Ended(d.claim.value, e.claim.value)
  {
    hide PassWrites, Permitted;
    SoundClaimKeys(d, limit);
    WalkLeaves(d, ReleasePass(token), k);
  }

  // The claim holds nothing any more; its coordinator and number stay on record.
  predicate Ended(claim: ClaimRecord, after: ClaimRecord) {
    && after.token.None? && after.expiresAt.None? && after.items == []
    && after.session == claim.session && after.generation == claim.generation && after.claimSeq == claim.claimSeq
  }

  // Reconciliation takes this item back: the claim that holds it has run out.
  predicate TakenBack(d: Desk, nowMs: int, k: Key)
    requires k in d.items
  {
    && d.claim.Some? && d.claim.value.token.Some? && OrElse(d.claim.value.expiresAt, 0) <= nowMs
    && k in d.claim.value.items && d.items[k].claimToken == d.claim.value.token && d.items[k].state == Claimed
  }

  lemma ExpireLeaves(d: Desk, nowMs: int, limit: nat, k: Key)
    requires SoundDesk(d, limit) && k in d.items
    ensures var e := After(d, ExpireWrites(d, nowMs));
      && e.status == d.status && e.items.Keys == d.items.Keys && e.listing == d.listing
      && (if TakenBack(d, nowMs, k) then
            && e.items[k].state == Pending && e.items[k].claimToken.None? && e.items[k].claimExpiresAt.None?
            && e.items[k].claimedRevision.None? && e.items[k].claimedStatusRevision.None? && SameMessage(d.items[k], e.items[k])
            && e.items[k].acknowledgedStatusRevision == d.items[k].acknowledgedStatusRevision
            && e.items[k].claimedByGeneration == d.items[k].claimedByGeneration
          else e.items[k] == d.items[k])
      && (if Lapsed(d.claim, nowMs) then e.claim.Some? && Ended(d.claim.value, e.claim.value) else e.claim == d.claim)
  {
    hide PassWrites, Permitted;
    if Lapsed(d.claim, nowMs) {
      SoundClaimKeys(d, limit);
      WalkLeaves(d, ExpirePass(d.claim.value.token.value), k);
    } else {
      NothingPermitted(d, limit);
    }
  }

  /** Reconciliation takes back what a claim that has run out still holds, and afterwards an
      item is flagged exactly when it is addressed to another generation than the
      authoritative one.  Nothing else changes. */
  lemma ReconcileLeaves(d: Desk, caller: Caller, limit: nat, k: Key)
    requires SoundDesk(d, limit) && k in d.items
    ensures Plan(d, caller, ReconcileCmd, limit).Some?
    ensures var e := Leaves(d, caller, ReconcileCmd, limit);
      && e.status == d.status && e.items.Keys == d.items.Keys
      && (e.items[k].orphaned <==> caller.registry.None? || caller.registry.value.onHold
                                   || caller.registry.value.generation != d.items[k].generation)
      && (if TakenBack(d, caller.nowMs, k) then
            && e.items[k].state == Pending && e.items[k].claimToken.None?
            && e.items[k].claimedByGeneration == d.items[k].claimedByGeneration
            && SameMessage(d.items[k], e.items[k].(orphaned := d.items[k].orphaned))
          else e.items[k].(orphaned := d.items[k].orphaned) == d.items[k])
      && (if d.claim.Some? && d.claim.value.token.Some? && OrElse(d.claim.value.expiresAt, 0) <= caller.nowMs
          then e.claim.Some? && Ended(d.claim.value, e.claim.value) else e.claim == d.claim)
  {
    hide PassWrites, ExpireWrites, Permitted, Ascending, AllPermitted, Run, SoundDesk, Passed, SameMessage, TakenBack, Ended;
    var expiry := ExpireWrites(d, caller.nowMs);
    ExpiryPermitted(d, caller.nowMs, limit);
    PermittedSound(d, expiry, |expiry|, limit);
    ExpireLeaves(d, caller.nowMs, limit, k);
    var m := After(d, expiry);
    SoundParts(m, limit);
    var pass := FlagPass(caller.CurrentGeneration());
    PassLeaves(m, m.listing, pass, k);
    FlaggedExactly(m.items[k], k, caller.CurrentGeneration());
    SameButFlag(d.items[k], m.items[k], Passed(m.items[k], k, pass));
    BackButFlag(d, caller.nowMs, k);
    assert m.items[k].generation == d.items[k].generation;
    NotCurrent(caller, d.items[k].generation);
    var flags := FlagWrites(m, caller.CurrentGeneration());
    RunAppend(d, expiry, flags, |expiry + flags|);
    NothingPermitted(m, limit);
  }

  lemma BackButFlag(d: Desk, nowMs: int, k: Key)
    requires k in d.items
    ensures TakenBack(d, nowMs, k) ==> Lapsed(d.claim, nowMs)
  {
  }

  lemma NotCurrent(caller: Caller, generation: Generation)
    ensures caller.CurrentGeneration() != Some(generation)
       <==> caller.registry.None? || caller.registry.value.onHold || caller.registry.value.generation != generation
  {
  }

  lemma FlaggedExactly(item: Item, k: Key, current: Option<Generation>)
    ensures Passed(item, k, FlagPass(current)) == item.(orphaned := current != Some(item.generation))
  {
  }

  lemma SameButFlag(item: Item, m: Item, after: Item)
    requires after == m.(orphaned := after.orphaned)
    ensures SameMessage(item, m) ==> SameMessage(item, after.(orphaned := item.orphaned))
    ensures m == item ==> after.(orphaned := item.orphaned) == item
    ensures SameMessage(item, m) ==> m.generation == item.generation
  {
  }

  // ---------------------------------------------------------------- claim

  // The claim on file is this coordinator's own and has not run out.
  predicate OwnLiveClaim(d: Desk, caller: Caller) {
    && d.claim.Some? && d.claim.value.token.Some? && caller.nowMs < OrElse(d.claim.value.expiresAt, 0)
    && d.claim.value.session == caller.session && d.claim.value.generation == caller.generation
  }

  // Bound by the claim on file, at its present revision and the status revision the claim saw.
  predicate BoundAnew(item: Item, after: Item, claim: ClaimRecord, seen: int) {
    && after.state == Claimed && after.claimToken == claim.token && after.claimExpiresAt == claim.expiresAt
    && after.claimedByGeneration == Some(claim.generation)
    && after.claimedRevision == Some(item.revision) && after.claimedStatusRevision == Some(seen)
    && SameMessage(item, after) && after.acknowledgedStatusRevision == item.acknowledgedStatusRevision
  }

  // The status revision that counts for a coordinator: zero when the status is not its own.
  function SeenRevision(d: Desk, caller: Caller): int {
    if d.status.Some? && d.status.value.generation == caller.generation then d.status.value.revision else 0
  }

  // The digest only grows, by eligible keys, and leaves one out only when it is full.
  lemma {:induction false} DigestGrows(d: Desk, caller: Caller, held: seq<Key>, limit: nat, n: nat)
    requires n <= |d.listing|
    ensures var keys := Digest(d, caller, held, limit, n);
      && held <= keys
      && (forall k :: k in keys ==> k in held || (k in d.listing[..n] && Eligible(d, caller, k)))
      && (|keys| < limit ==> forall k :: k in d.listing[..n] && Eligible(d, caller, k) ==> k in keys)
    decreases n
  {
    hide Eligible;
    if n > 0 {
      DigestGrows(d, caller, held, limit, n - 1);
      assert d.listing[..n] == d.listing[..n - 1] + [d.listing[n - 1]];
    }
  }

  // Every eligible key is bound unless the digest is full, and what is added is bound.
  lemma {:induction false} BindsReach(d: Desk, caller: Caller, g: Grant, limit: nat, n: nat, k: Key) returns (i: nat)
    requires n <= |d.listing| && k in d.listing[..n] && Eligible(d, caller, k)
    requires |Digest(d, caller, g.held, limit, n)| < limit || (k in Digest(d, caller, g.held, limit, n) && k !in g.held)
    ensures i < |BindWrites(d, caller, g, limit, n)|
    ensures BindWrites(d, caller, g, limit, n)[i]
         == Bind(k, g.token, caller.nowMs, g.expiresAt, StatusRevisionFor(Seen(d), caller.generation))
    decreases n
  {
    hide Eligible;
    assert d.listing[..n] == d.listing[..n - 1] + [d.listing[n - 1]];
    var before := Digest(d, caller, g.held, limit, n - 1);
    if k in d.listing[..n - 1] {
      i := BindsReach(d, caller, g, limit, n - 1, k);
    } else {
      DigestGrows(d, caller, g.held, limit, n - 1);
      i := |BindWrites(d, caller, g, limit, n - 1)|;
    }
  }

  lemma ClaimedItem(d: Desk, caller: Caller, g: Grant, limit: nat, k: Key)
    requires SoundDesk(d, limit) && k in d.items && g.token.generation == caller.generation
    ensures var ws := BindWrites(d, caller, g, limit, |d.listing|);
      var keys := Digest(d, caller, g.held, limit, |d.listing|);
      var item := After(d, ws).items;
      && SameFrame(d, After(d, ws))
      && (item[k] == d.items[k]
          || (k in keys && item[k] == Rewritten(d.items[k], Bind(k, g.token, caller.nowMs, g.expiresAt, StatusRevisionFor(Seen(d), caller.generation)))
              && Eligible(d, caller, k)))
      && (Eligible(d, caller, k) && (|keys| < limit || (k in keys && k !in g.held)) ==>
            item[k] == Rewritten(d.items[k], Bind(k, g.token, caller.nowMs, g.expiresAt, StatusRevisionFor(Seen(d), caller.generation))))
  {
    hide Digest, Rewritten, Eligible, Ascending;
    var n := |d.listing|;
    var ws := BindWrites(d, caller, g, limit, n);
    SoundParts(d, limit);
    BindOneEach(d, caller, g, limit, n);
    OthersUntouched(d, ws, |ws|, k);
    assert d.listing[..n] == d.listing;
    if Eligible(d, caller, k) && (|Digest(d, caller, g.held, limit, n)| < limit || (k in Digest(d, caller, g.held, limit, n) && k !in g.held)) {
      var i := BindsReach(d, caller, g, limit, n, k);
      BoundIsHeld(d, caller, g, limit, n, i);
      EffectOf(d, ws, |ws|, i);
    } else if i :| 0 <= i < |ws| && ws[i].key == k {
      BindWriteOrigin(d, caller, g, limit, n, i);
      BoundIsHeld(d, caller, g, limit, n, i);
      EffectOf(d, ws, |ws|, i);
    }
  }

  // Whatever is bound is in the digest.
  lemma {:induction false} BoundIsHeld(d: Desk, caller: Caller, g: Grant, limit: nat, n: nat, i: nat)
    requires n <= |d.listing| && i < |BindWrites(d, caller, g, limit, n)|
    ensures BindWrites(d, caller, g, limit, n)[i].Bind?
    ensures BindWrites(d, caller, g, limit, n)[i].key in Digest(d, caller, g.held, limit, n)
    decreases n
  {
    hide Eligible;
    if i < |BindWrites(d, caller, g, limit, n - 1)| {
      BoundIsHeld(d, caller, g, limit, n - 1, i);
    }
  }

  // What the claim on file becomes: the coordinator's own live one goes on; otherwise a new
  // one begins, with the next number and the full time to live.
  predicate Continued(d: Desk, caller: Caller, ttl: int, claim: ClaimRecord) {
    && claim.session == caller.session && claim.generation == caller.generation
    && (if OwnLiveClaim(d, caller) then
          && claim.token == d.claim.value.token && claim.expiresAt == d.claim.value.expiresAt
          && claim.claimSeq == d.claim.value.claimSeq && (forall k :: k in d.claim.value.items ==> k in claim.items)
        else
          var number := (if d.claim.Some? then d.claim.value.claimSeq else 0) + 1;
          && claim.token == Some(Token(caller.generation, caller.nowMs, number)) && claim.claimSeq == number
          && claim.expiresAt == Some(caller.nowMs + ttl * 1000))
  }

  // The item can be claimed by this coordinator now: its own, and either pending, or held by
  // a claim that has run out or was made of another revision.
  predicate Claimable(item: Item, caller: Caller) {
    && item.generation == caller.generation
    && (item.state == Pending
        || (item.state == Claimed
            && (OrElse(item.claimExpiresAt, 0) <= caller.nowMs || item.revision != OrElse(item.claimedRevision, -1))))
  }

  /** A claim goes on with the coordinator's own live one, or begins a new one; it binds items
      that can be claimed and nothing else; it binds every one of them unless the digest is
      full; and what it adds to the digest is bound to it, at the item's present revision. */
  lemma ClaimLeaves(d: Desk, caller: Caller, ttl: int, limit: nat, k: Key)
    requires SoundDesk(d, limit) && k in d.items && Plan(d, caller, ClaimCmd(ttl), limit).Some?
    ensures var e := Leaves(d, caller, ClaimCmd(ttl), limit);
      && e.status == d.status && e.items.Keys == d.items.Keys && e.claim.Some?
      && Continued(d, caller, ttl, e.claim.value)
      && Ascending(e.claim.value.items) && |e.claim.value.items| <= limit
      && (e.items[k] == d.items[k]
          || (Claimable(d.items[k], caller) && k in e.claim.value.items
              && BoundAnew(d.items[k], e.items[k], e.claim.value, SeenRevision(d, caller))))
      && (Claimable(d.items[k], caller)
          && (|e.claim.value.items| < limit
              || (k in e.claim.value.items && !(OwnLiveClaim(d, caller) && k in d.claim.value.items)))
          ==> BoundAnew(d.items[k], e.items[k], e.claim.value, SeenRevision(d, caller)))
  {
    hide BindWrites, Digest, GrantFor, Run, SoundDesk, SortKeys, Ascending, ClaimWrites, BoundAnew, Continued, Claimable;
    var f := AfterReading(d);
    var g := GrantFor(f.claim, caller, ttl);
    var keys := Digest(f, caller, g.held, limit, |f.listing|);
    ReadingSound(d, limit);
    GrantSound(f, caller, ttl, limit);
    DigestBounded(f, caller, g.held, limit, |f.listing|);
    DigestGrows(f, caller, g.held, limit, |f.listing|);
    SortKeysAscending(keys);
    ClaimedItem(f, caller, g, limit, k);
    ClaimRun(f, caller, ttl, limit);
    ReadThenRun(d, ClaimWrites(f, caller, ttl, limit));
    GrantContinues(d, caller, ttl, SortKeys(keys));
    ClaimableIsEligible(d, caller, k);
    BindIsAnew(d.items[k], k, g, caller, d);
  }

  lemma GrantContinues(d: Desk, caller: Caller, ttl: int, keys: seq<Key>)
    requires forall k :: k in GrantFor(d.claim, caller, ttl).held ==> k in keys
    ensures var g := GrantFor(d.claim, caller, ttl);
      && Continued(d, caller, ttl, ClaimRecord(caller.session, caller.generation, Some(g.token), Some(g.expiresAt), g.claimSeq, keys))
      && g.held == (if OwnLiveClaim(d, caller) then d.claim.value.items else [])
  {
  }

  lemma ClaimableIsEligible(d: Desk, caller: Caller, k: Key)
    requires k in d.items
    ensures Claimable(d.items[k], caller) <==> Eligible(AfterReading(d), caller, k)
  {
  }

  lemma BindIsAnew(item: Item, k: Key, g: Grant, caller: Caller, d: Desk)
    requires g.token.generation == caller.generation
    ensures forall items, seq_ :: BoundAnew(item,
      Rewritten(item, Bind(k, g.token, caller.nowMs, g.expiresAt, StatusRevisionFor(Seen(AfterReading(d)), caller.generation))),
      ClaimRecord(caller.session, caller.generation, Some(g.token), Some(g.expiresAt), seq_, items), SeenRevision(d, caller))
  {
  }

  // ---------------------------------------------------------------- publish

  /** Publishing puts the next revision on file, under the coordinator's generation, and
      changes nothing else; the coordinator may do so while its project is on hold. */
  lemma PublishLeaves(d: Desk, caller: Caller, declared: bool, limit: nat)
    ensures Plan(d, caller, PublishCmd(declared), limit).Some?
       <==> declared && caller.live && caller.registry.Some?
            && caller.registry.value.session == caller.session && caller.registry.value.generation == caller.generation
    ensures Plan(d, caller, PublishCmd(declared), limit).Some? ==>
      Leaves(d, caller, PublishCmd(declared), limit)
      == d.(status := Some(Status(caller.generation, 1 + if d.status.Some? then d.status.value.revision else 0)))
  {
    if Plan(d, caller, PublishCmd(declared), limit).Some? {
      RunOne(d, Plan(d, caller, PublishCmd(declared), limit).value[0]);
    }
  }

  // ---------------------------------------------------------------- refusals

  // The registry names the caller as the authoritative coordinator, and it is live.
  predicate IsCoordinator(caller: Caller) {
    && caller.live && caller.registry.Some? && !caller.registry.value.onHold
    && caller.registry.value.session == caller.session && caller.registry.value.generation == caller.generation
  }

  // No other session came before the coordinator, as far as the registry knows.
  predicate NobodyBefore(caller: Caller) {
    caller.registry.Some? ==>
      var before := caller.registry.value.predecessor;
      before == None || before == Some("") || before == Some(caller.session)
  }

  /** When the consuming commands refuse: never for the coordinator itself, except an ack whose
      status is not the one on file, and an adoption without another session to adopt from. */
  lemma RefusedExactly(d: Desk, caller: Caller, ttl: int, token: Token, r: Option<int>, requested: Option<set<Key>>, limit: nat)
    ensures Plan(d, caller, ClaimCmd(ttl), limit).None? <==> !IsCoordinator(caller)
    ensures Plan(d, caller, ReleaseCmd(token), limit).None? <==> !IsCoordinator(caller)
    ensures Plan(d, caller, AckCmd(token, r, requested), limit).None?
       <==> !IsCoordinator(caller)
            || (d.claim.Some? && d.claim.value.token == Some(token) && d.claim.value.generation == caller.generation
                && (r.None? || d.status != Some(Status(caller.generation, r.value))))
    ensures Plan(d, caller, AdoptCmd, limit).None?
       <==> !IsCoordinator(caller) || NobodyBefore(caller)
  {
    hide ClaimWrites, WalkAndSave, AdoptWrites;
  }
}
