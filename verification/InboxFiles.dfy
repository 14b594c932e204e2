/** The inbox commands as the loops that make their writes.  A process may die after any
    number of steps; every write replaces one whole file, and reading the status file is a
    step of its own.
 */
module InboxFiles {
  import opened Wrappers
  import opened InboxLog
  import opened Inbox

  // What an invocation leaves behind and how it ended.
  ghost predicate Did(d: Desk, e: Desk, inv: Invocation, limit: nat, outcome: Outcome) {
    var plan := Plan(d, inv.caller, inv.command, limit);
    && e == Run(d, Made(d, inv, limit), |Made(d, inv, limit)|)
    && (outcome == Refused <==> plan.None?)
    && (outcome == Died <==> plan.Some? && |plan.value| > inv.survives)
  }

  // The writes so far are the beginning of what the whole pass would write.
  lemma {:induction false} PassGrows(items: map<Key, Item>, keys: seq<Key>, pass: Pass, m: nat, n: nat)
    requires m <= n <= |keys|
    ensures PassWrites(items, keys, pass, m) <= PassWrites(items, keys, pass, n)
    decreases n
  {
    if m < n {
      PassGrows(items, keys, pass, m, n - 1);
    }
  }

  lemma {:induction false} BindsGrow(d: Desk, caller: Caller, g: Grant, limit: nat, m: nat, n: nat)
    requires m <= n <= |d.listing|
    ensures BindWrites(d, caller, g, limit, m) <= BindWrites(d, caller, g, limit, n)
    decreases n
  {
    if m < n {
      BindsGrow(d, caller, g, limit, m, n - 1);
    }
  }

  // A full digest stops the walk.
  lemma {:induction false} FullDigestStops(d: Desk, caller: Caller, g: Grant, limit: nat, m: nat, n: nat)
    requires m <= n <= |d.listing| && limit <= |Digest(d, caller, g.held, limit, m)|
    ensures Digest(d, caller, g.held, limit, n) == Digest(d, caller, g.held, limit, m)
    ensures BindWrites(d, caller, g, limit, n) == BindWrites(d, caller, g, limit, m)
    decreases n
  {
    if m < n {
      FullDigestStops(d, caller, g, limit, m, n - 1);
    }
  }

  lemma {:induction false} RunOfPrefix(d: Desk, ws: seq<Write>, longer: seq<Write>)
    requires ws <= longer
    ensures Run(d, longer, |ws|) == Run(d, ws, |ws|)
  {
    RunPrefix(d, longer, |ws|, |ws|);
    assert longer[..|ws|] == ws;
  }

  lemma RunOneMore(d: Desk, ws: seq<Write>, w: Write)
    ensures Run(d, ws + [w], |ws| + 1) == Apply(Run(d, ws, |ws|), w)
  {
    RunAppend(d, ws, [w], |ws|);
  }

  // The file a pass is about to look at has not been written by it.
  lemma NextUntouched(d: Desk, keys: seq<Key>, pass: Pass, n: nat)
    requires Ascending(keys) && n < |keys|
    ensures var ws := PassWrites(d.items, keys, pass, n); var e := Run(d, ws, |ws|);
      SameFrame(d, e) && (keys[n] in d.items ==> e.items[keys[n]] == d.items[keys[n]])
  {
    var ws := PassWrites(d.items, keys, pass, n);
    PassOneEach(d.items, keys, pass, n);
    forall i | 0 <= i < |ws| ensures ws[i].key != keys[n] {
      PassWriteOrigin(d.items, keys, pass, n, i);
    }
    OthersUntouched(d, ws, |ws|, keys[n]);
  }

  lemma NextUnbound(d: Desk, caller: Caller, g: Grant, limit: nat, n: nat)
    requires Ascending(d.listing) && n < |d.listing|
    ensures var ws := BindWrites(d, caller, g, limit, n); var e := Run(d, ws, |ws|);
      SameFrame(d, e) && (d.listing[n] in d.items ==> e.items[d.listing[n]] == d.items[d.listing[n]])
  {
    var ws := BindWrites(d, caller, g, limit, n);
    BindOneEach(d, caller, g, limit, n);
    forall i | 0 <= i < |ws| ensures ws[i].key != d.listing[n] {
      BindWriteOrigin(d, caller, g, limit, n, i);
    }
    OthersUntouched(d, ws, |ws|, d.listing[n]);
  }

  // The status is read before anything is written.
  lemma ReadThen(d: Desk, ws: seq<Write>, n: nat)
    requires n <= |ws|
    ensures Run(d, [ReadStatus] + ws, n + 1) == Run(AfterReading(d), ws, n)
  {
    assert Run(d, [ReadStatus], 0) == d;
    RunAppend(d, [ReadStatus], ws, n + 1);
  }

  class InboxFiles {
    const limit: nat
    var items: map<Key, Item>
    var listing: seq<Key>
    var claim: Option<ClaimRecord>
    var status: Option<Status>
    ghost var read: Reading

    ghost function View(): Desk
      reads this
    {
      Desk(items, listing, claim, status, read)
    }

    ghost predicate Valid()
      reads this
    {
      SoundDesk(View(), limit)
    }

    constructor (limit: nat)
      ensures this.limit == limit && Valid() && View() == EMPTY
    {
      this.limit := limit;
      items, listing, claim, status, read := map[], [], None, None, Unread;
    }

    // One loop over item files: rewrite those that qualify, and for an acknowledgement
    // collect the keys that stay in the claim.
    method Walk(keys: seq<Key>, pass: Pass, survives: nat) returns (written: nat, died: bool, remaining: seq<Key>)
      requires Ascending(keys)
      modifies this
      ensures var ws := PassWrites(old(items), keys, pass, |keys|);
        && (died <==> survives < |ws|)
        && written == (if died then survives else |ws|)
        && View() == Run(old(View()), ws, written)
      ensures pass.AckPass? && !died ==> remaining == Remaining(old(items), keys, pass, |keys|)
    {
      hide Choice, Rewritten, Ascending, Apply, Requested;
      ghost var d := View();
      written, died, remaining := 0, false, [];
      for i: nat := 0 to |keys|
        invariant written == |PassWrites(d.items, keys, pass, i)| <= survives && !died
        invariant View() == Run(d, PassWrites(d.items, keys, pass, i), written)
        invariant pass.AckPass? ==> remaining == Remaining(d.items, keys, pass, i)
      {
        PassGrows(d.items, keys, pass, i, |keys|);
        PassGrows(d.items, keys, pass, i + 1, |keys|);
        NextUntouched(d, keys, pass, i);
        var key := keys[i];
        var present := key in items;
        var choice := if present then Choice(items[key], key, pass) else None;
        if choice.Some? {
          if written == survives {
            RunOfPrefix(d, PassWrites(d.items, keys, pass, i), PassWrites(d.items, keys, pass, |keys|));
            died := true;
            return;
          }
          RunOneMore(d, PassWrites(d.items, keys, pass, i), choice.value);
          Store(key, pass, choice.value);
          written := written + 1;
        }
        if pass.AckPass? && !(Requested(pass.requested, key) && (present ==> choice.Some?)) {
          remaining := remaining + [key];
        }
      }
    }

    method Store(key: Key, pass: Pass, ghost w: Write)
      requires key in items && Choice(items[key], key, pass) == Some(w)
      modifies this`items
      ensures View() == Apply(old(View()), w)
    {
      var item := items[key];
      match pass
      case AckPass(token, statusRevision, _) =>
        items := items[key := Unclaimed(item, Acknowledged).(acknowledgedStatusRevision := Some(statusRevision))];
      case ReleasePass(_) =>
        items := items[key := Unclaimed(item, Pending)];
      case AdoptPass(session, generation, predecessor) =>
        var updated := item.(session := session, generation := generation,
                             adoptedFrom := Some((predecessor, item.generation)), orphaned := false);
        items := items[key := Unclaimed(updated, if item.state == Claimed then Pending else item.state)];
      case ExpirePass(_) =>
        items := items[key := item.(state := Pending, claimToken := None, claimExpiresAt := None,
                                    claimedRevision := None, claimedStatusRevision := None)];
      case FlagPass(current) =>
        items := items[key := item.(orphaned := current != Some(item.generation))];
    }

    // The pass over the claimed keys and then, if the process is still alive, the claim file.
    method WalkThenSave(pass: Pass, survives: nat) returns (outcome: Outcome, left: nat)
      requires Valid() && claim.Some?
      modifies this
      ensures var ws := WalkAndSave(old(View()), pass);
        && (outcome == Died <==> survives < |ws|) && outcome in {Died, Applied}
        && left == (if outcome == Died then 0 else survives - |ws|)
        && View() == Run(old(View()), ws, if outcome == Died then survives else |ws|)
    {
      hide Choice, Rewritten, Ascending;
      ghost var d := View();
      ghost var saved := SavedAfter(d, pass);
      var keys := claim.value.items;
      ghost var pws := PassWrites(items, keys, pass, |keys|);
      var written, died, remaining := Walk(keys, pass, survives);
      RunAppend(d, pws, [Record(saved)], written);
      if died || written == survives {
        return Died, 0;
      }
      RunOneMore(d, pws, Record(saved));
      PassKeepsClaim(d, keys, pass);
      if pass.AckPass? {
        var record := claim.value.(items := remaining);
        if remaining == [] {
          record := record.(token := None, expiresAt := None);
        }
        claim := Some(record);
      } else {
        claim := Some(Cleared(claim.value));
      }
      outcome, left := Applied, survives - written - 1;
    }

    /** Bind a bounded digest to one token, reusing a live claim of the same coordinator. */
    method ClaimDigest(caller: Caller, ttl: int, survives: nat) returns (outcome: Outcome)
      requires Valid()
      modifies this
      ensures Valid()
      ensures Did(old(View()), View(), Invocation(caller, ClaimCmd(ttl), survives), limit, outcome)
    {
      hide SoundDesk, Run, Did, BindWrites, Digest, GrantFor, SortKeys;
      ghost var d := View();
      ghost var inv := Invocation(caller, ClaimCmd(ttl), survives);
      if !caller.Authoritative() {
        RefusedDid(d, inv, limit);
        return Refused;
      }
      if survives == 0 {
        DiedReading(d, inv, limit);
        return Died;
      }
      read := Saw(status);
      ghost var e := View();
      ReadingSound(d, limit);
      var g := GrantFor(claim, caller, ttl);
      var statusRevision := StatusRevisionFor(status, caller.generation);
      GrantSound(e, caller, ttl, limit);
      var written, keys := BindFresh(caller, g, statusRevision, survives - 1);
      ghost var binds := BindWrites(e, caller, g, limit, |e.listing|);
      ghost var record := ClaimRecord(caller.session, caller.generation, Some(g.token), Some(g.expiresAt), g.claimSeq,
                                      SortKeys(Digest(e, caller, g.held, limit, |e.listing|)));
      RunOneMore(e, binds, Record(record));
      RunAppend(e, binds, [Record(record)], written);
      ReadThen(d, binds + [Record(record)], written);
      if written == survives - 1 {
        PlanDid(d, View(), inv, limit, Died);
        return Died;
      }
      ReadThen(d, binds + [Record(record)], written + 1);
      claim := Some(ClaimRecord(caller.session, caller.generation, Some(g.token), Some(g.expiresAt), g.claimSeq, SortKeys(keys)));
      outcome := Applied;
      PlanDid(d, View(), inv, limit, Applied);
    }

    method BindItem(key: Key, caller: Caller, g: Grant, statusRevision: int)
      requires key in items && g.token.generation == caller.generation
      modifies this`items
      ensures View() == Apply(old(View()), Bind(key, g.token, caller.nowMs, g.expiresAt, statusRevision))
    {
      var item := items[key];
      items := items[key := item.(state := Claimed, claimToken := Some(g.token), claimedByGeneration := Some(caller.generation),
                                  claimExpiresAt := Some(g.expiresAt), claimedRevision := Some(item.revision),
                                  claimedStatusRevision := Some(statusRevision))];
    }

    // One file of the directory; `bound` is whether its item was rewritten.
    method BindNext(caller: Caller, g: Grant, statusRevision: int, key: Key, mayWrite: bool) returns (bound: bool, died: bool)
      requires g.token.generation == caller.generation
      modifies this`items
      ensures bound <==> Eligible(old(View()), caller, key) && mayWrite
      ensures died <==> Eligible(old(View()), caller, key) && !mayWrite
      ensures View() == if bound
        then Apply(old(View()), Bind(key, g.token, caller.nowMs, g.expiresAt, statusRevision))
        else old(View())
    {
      bound, died := false, false;
      if key !in items || items[key].generation != caller.generation {
        return;
      }
      if !Available(items[key], caller.nowMs) {
        return;
      }
      if !mayWrite {
        return false, true;
      }
      BindItem(key, caller, g, statusRevision);
      bound := true;
    }

    // The loop over the directory; stops at the digest limit or when the process dies.
    method BindFresh(caller: Caller, g: Grant, statusRevision: int, survives: nat) returns (written: nat, keys: seq<Key>)
      requires Valid() && statusRevision == StatusRevisionFor(Seen(View()), caller.generation)
      requires g.token.generation == caller.generation
      modifies this`items
      ensures BoundUpTo(old(View()), View(), caller, g, limit, survives, written, keys)
    {
      ghost var d := View();
      SoundParts(d, limit);
      hide SoundDesk, Eligible, Ascending, Apply, Run, BindWrites, Digest, Reached, WithKey, BoundUpTo;
      written, keys := 0, g.held;
      ReachedStart(d, caller, g, limit);
      for i: nat := 0 to |listing|
        invariant written <= survives
        invariant Reached(d, View(), caller, g, limit, i, written, keys)
      {
        if |keys| >= limit {
          ReachedFull(d, View(), caller, g, limit, i, survives, written, keys);
          return;
        }
        var key := listing[i];
        ReachedNext(d, View(), caller, g, limit, i, written, keys);
        var bound, died := BindNext(caller, g, statusRevision, key, written < survives);
        if died {
          DiedBinding(d, View(), caller, g, limit, i, written, keys);
          return;
        }
        if bound {
          written := written + 1;
          keys := WithKey(keys, key);
        }
      }
      ReachedEnd(d, View(), caller, g, limit, survives, written, keys);
    }

    /** Acknowledge the requested items of a claim, citing a published status revision. */
    method Acknowledge(caller: Caller, token: Token, statusRevision: Option<int>, requested: Option<set<Key>>, survives: nat)
      returns (outcome: Outcome)
      requires Valid()
      modifies this
      ensures Valid()
      ensures Did(old(View()), View(), Invocation(caller, AckCmd(token, statusRevision, requested), survives), limit, outcome)
    {
      hide SoundDesk, Run, Did, WalkAndSave;
      ghost var d := View();
      ghost var inv := Invocation(caller, AckCmd(token, statusRevision, requested), survives);
      if !caller.Authoritative() {
        RefusedDid(d, inv, limit);
        return Refused;
      }
      if claim.None? || claim.value.token != Some(token) || claim.value.generation != caller.generation {
        NothingDid(d, inv, limit);
        return Idempotent;
      }
      if statusRevision.None? || status != Some(Status(caller.generation, statusRevision.value)) {
        RefusedDid(d, inv, limit);
        return Refused;
      }
      if survives == 0 {
        DiedReading(d, inv, limit);
        return Died;
      }
      read := Saw(status);
      ghost var e, pass := View(), AckPass(token, statusRevision.value, requested);
      ReadingSound(d, limit);
      var left;
      outcome, left := WalkThenSave(AckPass(token, statusRevision.value, requested), survives - 1);
      ReadThen(d, WalkAndSave(e, pass), if outcome == Died then survives - 1 else |WalkAndSave(e, pass)|);
      PlanDid(d, View(), inv, limit, outcome);
    }

    /** Give the items of a claim back. */
    method ReleaseClaim(caller: Caller, token: Token, survives: nat) returns (outcome: Outcome)
      requires Valid()
      modifies this
      ensures Valid()
      ensures Did(old(View()), View(), Invocation(caller, ReleaseCmd(token), survives), limit, outcome)
    {
      hide SoundDesk, Run, Did, WalkAndSave;
      ghost var d := View();
      ghost var inv := Invocation(caller, ReleaseCmd(token), survives);
      if !caller.Authoritative() {
        RefusedDid(d, inv, limit);
        return Refused;
      }
      if claim.None? || claim.value.token != Some(token) {
        NothingDid(d, inv, limit);
        return Idempotent;
      }
      var left;
      outcome, left := WalkThenSave(ReleasePass(token), survives);
      PlanDid(d, View(), inv, limit, outcome);
    }

    /** Re-address the predecessor's items to the current coordinator. */
    method AdoptItems(caller: Caller, survives: nat) returns (outcome: Outcome)
      requires Valid()
      modifies this
      ensures Valid()
      ensures Did(old(View()), View(), Invocation(caller, AdoptCmd, survives), limit, outcome)
    {
      ghost var d := View();
      SoundParts(d, limit);
      hide SoundDesk, Run, Did, PassWrites, Ascending;
      ghost var inv := Invocation(caller, AdoptCmd, survives);
      if !caller.Authoritative() {
        RefusedDid(d, inv, limit);
        return Refused;
      }
      var predecessor := caller.registry.value.predecessor;
      if predecessor.None? || predecessor.value == "" || predecessor.value == caller.session {
        RefusedDid(d, inv, limit);
        return Refused;
      }
      var written, died, remaining := Walk(listing, AdoptPass(caller.session, caller.generation, predecessor.value), survives);
      outcome := if died then Died else Applied;
      PlanDid(d, View(), inv, limit, outcome);
    }

    /** Record one report under its event key. */
    method SubmitReport(caller: Caller, report: Report, admitted: bool, survives: nat) returns (outcome: Outcome)
      requires Valid()
      modifies this
      ensures Valid()
      ensures Did(old(View()), View(), Invocation(caller, SubmitCmd(report, admitted), survives), limit, outcome)
    {
      hide SoundDesk, Did;
      ghost var d := View();
      ghost var inv := Invocation(caller, SubmitCmd(report, admitted), survives);
      if caller.Current().None? || !admitted {
        RefusedDid(d, inv, limit);
        return Refused;
      }
      var owner := caller.Current().value;
      var revision := if report.revision.Some? then report.revision.value else 1;
      var item := Item(owner.session, owner.generation, report.fingerprint, report.waking, revision, Pending,
                       None, None, None, None, None, None, 0, false, None);
      if report.key in items {
        var existing := items[report.key];
        if existing.fingerprint == report.fingerprint && report.revision.None? {
          item := existing.(diagnosticsRevision := existing.diagnosticsRevision + 1);
        } else {
          revision := if report.revision.Some? then report.revision.value else existing.revision + 1;
          if revision <= existing.revision {
            RefusedDid(d, inv, limit);
            return Refused;
          }
          item := Unclaimed(existing, Pending).(fingerprint := report.fingerprint, waking := report.waking,
                                                revision := revision, acknowledgedStatusRevision := None);
        }
      }
      if survives == 0 {
        PlanDid(d, View(), inv, limit, Died);
        return Died;
      }
      if report.key !in items {
        listing := Listed(listing, report.key);
      }
      items := items[report.key := item];
      outcome := Applied;
      RunOne(d, SubmitWrites(d, owner, report).value[0]);
      PlanDid(d, View(), inv, limit, Applied);
    }

    /** Publish a status, also on hold: the revision counter goes up by one, whoever publishes. */
    method PublishStatus(caller: Caller, declared: bool, survives: nat) returns (outcome: Outcome)
      requires Valid()
      modifies this
      ensures Valid()
      ensures Did(old(View()), View(), Invocation(caller, PublishCmd(declared), survives), limit, outcome)
    {
      hide SoundDesk, Did;
      ghost var d := View();
      ghost var inv := Invocation(caller, PublishCmd(declared), survives);
      if !caller.MayPublish() || !declared {
        RefusedDid(d, inv, limit);
        return Refused;
      }
      var prior := if status.Some? then status.value.revision else 0;
      if survives == 0 {
        PlanDid(d, View(), inv, limit, Died);
        return Died;
      }
      status := Some(Status(caller.generation, prior + 1));
      outcome := Applied;
      RunOne(d, Publish(Status(caller.generation, prior + 1)));
      PlanDid(d, View(), inv, limit, Applied);
    }

    /** Expire a lapsed claim and flag items addressed to another generation. */
    method Reconcile(caller: Caller, survives: nat) returns (outcome: Outcome)
      requires Valid()
      modifies this
      ensures Valid()
      ensures Did(old(View()), View(), Invocation(caller, ReconcileCmd, survives), limit, outcome)
    {
      ghost var d := View();
      ghost var inv := Invocation(caller, ReconcileCmd, survives);
      var current := caller.CurrentGeneration();
      ghost var expiry := ExpireWrites(d, caller.nowMs);
      var left := survives;
      ExpiryPermitted(d, caller.nowMs, limit);
      PermittedSound(d, expiry, |expiry|, limit);
      hide SoundDesk, Run, Did, PassWrites, WalkAndSave, Ascending;
      RunNothing(d);
      if claim.Some? && claim.value.token.Some? && OrElse(claim.value.expiresAt, 0) <= caller.nowMs {
        outcome, left := WalkThenSave(ExpirePass(claim.value.token.value), survives);
        if outcome == Died {
          DiedExpiring(d, View(), inv, limit);
          return Died;
        }
      }
      ghost var middle := View();
      SoundParts(middle, limit);
      var written, died, remaining := Walk(listing, FlagPass(current), left);
      outcome := if died then Died else Applied;
      FlagsDid(d, middle, View(), inv, limit, written, outcome);
    }
  }

  // Where the loop stands after n files.
  ghost predicate Reached(d: Desk, e: Desk, caller: Caller, g: Grant, limit: nat, n: nat, written: nat, keys: seq<Key>) {
    && n <= |d.listing|
    && written == |BindWrites(d, caller, g, limit, n)|
    && e == Run(d, BindWrites(d, caller, g, limit, n), written)
    && keys == Digest(d, caller, g.held, limit, n)
  }

  // The bindings made by a process that lives to make `survives` writes.
  ghost predicate BoundUpTo(d: Desk, e: Desk, caller: Caller, g: Grant, limit: nat, survives: nat, written: nat, keys: seq<Key>) {
    var ws := BindWrites(d, caller, g, limit, |d.listing|);
    && written == (if survives < |ws| then survives else |ws|)
    && e == Run(d, ws, written)
    && (written == |ws| ==> keys == Digest(d, caller, g.held, limit, |d.listing|))
  }

  lemma ReachedStart(d: Desk, caller: Caller, g: Grant, limit: nat)
    ensures Reached(d, d, caller, g, limit, 0, 0, g.held)
  {
  }

  lemma ReachedEnd(d: Desk, e: Desk, caller: Caller, g: Grant, limit: nat, survives: nat, written: nat, keys: seq<Key>)
    requires Reached(d, e, caller, g, limit, |d.listing|, written, keys) && written <= survives
    ensures BoundUpTo(d, e, caller, g, limit, survives, written, keys)
  {
  }

  lemma ReachedFull(d: Desk, e: Desk, caller: Caller, g: Grant, limit: nat, n: nat, survives: nat, written: nat, keys: seq<Key>)
    requires Reached(d, e, caller, g, limit, n, written, keys) && limit <= |keys| && written <= survives
    ensures BoundUpTo(d, e, caller, g, limit, survives, written, keys)
  {
    FullDigestStops(d, caller, g, limit, n, |d.listing|);
  }

  lemma ReachedNext(d: Desk, e: Desk, caller: Caller, g: Grant, limit: nat, n: nat, written: nat, keys: seq<Key>)
    requires Ascending(d.listing) && n < |d.listing| && |keys| < limit
    requires Reached(d, e, caller, g, limit, n, written, keys)
    ensures var key := d.listing[n];
      var w := Bind(key, g.token, caller.nowMs, g.expiresAt, StatusRevisionFor(Seen(d), caller.generation));
      if Eligible(e, caller, key)
      then Reached(d, Apply(e, w), caller, g, limit, n + 1, written + 1, WithKey(keys, key))
      else Reached(d, e, caller, g, limit, n + 1, written, keys)
  {
    hide BindWrites, Digest, Ascending, Run, Apply, Eligible;
    NextUnbound(d, caller, g, limit, n);
    BindStep(d, caller, g, limit, n);
    EligibleSame(d, e, caller, d.listing[n]);
    RunOneMore(d, BindWrites(d, caller, g, limit, n),
               Bind(d.listing[n], g.token, caller.nowMs, g.expiresAt, StatusRevisionFor(Seen(d), caller.generation)));
  }

  // Dying where a write was due leaves more to be written.
  lemma DiedBinding(d: Desk, e: Desk, caller: Caller, g: Grant, limit: nat, n: nat, written: nat, keys: seq<Key>)
    requires Ascending(d.listing) && n < |d.listing| && |keys| < limit && Reached(d, e, caller, g, limit, n, written, keys)
    requires Eligible(e, caller, d.listing[n])
    ensures BoundUpTo(d, e, caller, g, limit, written, written, keys)
  {
    hide BindWrites, Digest, Ascending, Run, Apply, Eligible;
    NextUnbound(d, caller, g, limit, n);
    BindStep(d, caller, g, limit, n);
    EligibleSame(d, e, caller, d.listing[n]);
    BindsGrow(d, caller, g, limit, n, |d.listing|);
    BindsGrow(d, caller, g, limit, n + 1, |d.listing|);
    RunOfPrefix(d, BindWrites(d, caller, g, limit, n), BindWrites(d, caller, g, limit, |d.listing|));
  }

  lemma SoundParts(d: Desk, limit: nat)
    requires SoundDesk(d, limit)
    ensures Ascending(d.listing) && forall k :: k in d.listing <==> k in d.items
  {
  }

  lemma EligibleSame(d: Desk, e: Desk, caller: Caller, key: Key)
    requires SameFrame(d, e) && (key in d.items ==> e.items[key] == d.items[key])
    ensures Eligible(e, caller, key) <==> Eligible(d, caller, key)
  {
  }

  lemma PassKeepsClaim(d: Desk, keys: seq<Key>, pass: Pass)
    requires Ascending(keys)
    ensures var ws := PassWrites(d.items, keys, pass, |keys|); SameFrame(d, Run(d, ws, |ws|))
  {
    var ws := PassWrites(d.items, keys, pass, |keys|);
    PassOneEach(d.items, keys, pass, |keys|);
    OthersUntouched(d, ws, |ws|, 0);
  }

  lemma BindStep(d: Desk, caller: Caller, g: Grant, limit: nat, n: nat)
    requires n < |d.listing| && |Digest(d, caller, g.held, limit, n)| < limit
    ensures var key, keys := d.listing[n], Digest(d, caller, g.held, limit, n);
      if Eligible(d, caller, key)
      then && BindWrites(d, caller, g, limit, n + 1)
              == BindWrites(d, caller, g, limit, n)
                 + [Bind(key, g.token, caller.nowMs, g.expiresAt, StatusRevisionFor(Seen(d), caller.generation))]
           && Digest(d, caller, g.held, limit, n + 1) == WithKey(keys, key)
      else && BindWrites(d, caller, g, limit, n + 1) == BindWrites(d, caller, g, limit, n)
           && Digest(d, caller, g.held, limit, n + 1) == keys
  {
  }

  lemma RunNothing(d: Desk)
    ensures Run(d, [], 0) == d
  {
  }

  lemma RefusedDid(d: Desk, inv: Invocation, limit: nat)
    requires Plan(d, inv.caller, inv.command, limit).None?
    ensures Did(d, d, inv, limit, Refused)
  {
  }

  // Having made the first k writes of a plan, where k is all of them or what it lived for.
  lemma PlanDid(d: Desk, e: Desk, inv: Invocation, limit: nat, outcome: Outcome)
    requires SoundDesk(d, limit) && Plan(d, inv.caller, inv.command, limit).Some?
    requires var ws := Plan(d, inv.caller, inv.command, limit).value;
      && e == Run(d, ws, if |ws| <= inv.survives then |ws| else inv.survives)
      && outcome != Refused && (outcome == Died <==> inv.survives < |ws|)
    ensures Did(d, e, inv, limit, outcome) && SoundDesk(e, limit)
  {
    hide Plan, SoundDesk, Permitted;
    var ws := Plan(d, inv.caller, inv.command, limit).value;
    MadePermitted(d, inv, limit);
    PermittedSound(d, Made(d, inv, limit), |Made(d, inv, limit)|, limit);
    if |ws| > inv.survives {
      RunPrefix(d, ws, inv.survives, inv.survives);
    }
  }

  lemma RunOne(d: Desk, w: Write)
    ensures Run(d, [w], 1) == Apply(d, w)
  {
    assert Run(d, [w], 0) == d;
  }

  lemma NothingDid(d: Desk, inv: Invocation, limit: nat)
    requires Plan(d, inv.caller, inv.command, limit) == Some([])
    ensures Did(d, d, inv, limit, Idempotent)
  {
  }

  // Dying before the status was read leaves nothing.
  lemma DiedReading(d: Desk, inv: Invocation, limit: nat)
    requires inv.survives == 0
    requires var plan := Plan(d, inv.caller, inv.command, limit); plan.Some? && plan.value != []
    ensures Did(d, d, inv, limit, Died)
  {
  }

  lemma DiedExpiring(d: Desk, e: Desk, inv: Invocation, limit: nat)
    requires SoundDesk(d, limit) && inv.command == ReconcileCmd
    requires var expiry := ExpireWrites(d, inv.caller.nowMs); inv.survives < |expiry| && e == Run(d, expiry, inv.survives)
    ensures Did(d, e, inv, limit, Died) && SoundDesk(e, limit)
  {
    hide SoundDesk, ExpireWrites, FlagWrites, Did;
    var expiry := ExpireWrites(d, inv.caller.nowMs);
    var flags := FlagWrites(Run(d, expiry, |expiry|), inv.caller.CurrentGeneration());
    RunAppend(d, expiry, flags, inv.survives);
    PlanDid(d, e, inv, limit, Died);
  }

  lemma RunTail(d: Desk, ws: seq<Write>, vs: seq<Write>, n: nat)
    requires n <= |vs|
    ensures Run(d, ws + vs, |ws| + n) == Run(Run(d, ws, |ws|), vs, n)
  {
    hide Apply;
    RunAppend(d, ws, vs, |ws| + n);
  }

  lemma FlagsDid(d: Desk, middle: Desk, e: Desk, inv: Invocation, limit: nat, written: nat, outcome: Outcome)
    requires SoundDesk(d, limit) && inv.command == ReconcileCmd && outcome in {Died, Applied}
    requires var expiry := ExpireWrites(d, inv.caller.nowMs);
      var flags := FlagWrites(middle, inv.caller.CurrentGeneration());
      && |expiry| <= inv.survives && middle == Run(d, expiry, |expiry|)
      && (outcome == Died <==> inv.survives - |expiry| < |flags|)
      && written == (if outcome == Died then inv.survives - |expiry| else |flags|)
      && e == Run(middle, flags, written)
    ensures Did(d, e, inv, limit, outcome) && SoundDesk(e, limit)
  {
    hide SoundDesk, ExpireWrites, FlagWrites, Did, Run;
    var expiry := ExpireWrites(d, inv.caller.nowMs);
    var flags := FlagWrites(middle, inv.caller.CurrentGeneration());
    RunTail(d, expiry, flags, written);
    PlanDid(d, e, inv, limit, outcome);
  }
}
