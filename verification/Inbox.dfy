/** The inbox commands: submit, claim, ack, adopt, release and reconcile, each as the list of
    writes it makes and as the loop that makes them and may die between any two.
 */
module Inbox {
  import opened Wrappers
  import opened InboxLog

  // The registry row of the project, when it is authoritative or on hold.
  datatype Owner = Owner(session: string, generation: Generation, predecessor: Option<string>, onHold: bool)

  datatype Outcome = Refused | Died | Idempotent | Applied

  // Who is calling, when, and what the registry and the session store say.
  datatype Caller = Caller(session: string, generation: Generation, nowMs: nat, registry: Option<Owner>, live: bool)
  {
    // A coordinator may still publish its status while its project is on hold.
    predicate MayPublish() {
      registry.Some? && registry.value.session == session && registry.value.generation == generation && live
    }

    // Every other command counts the row only while it is authoritative.
    function Current(): Option<Owner> {
      if registry.Some? && !registry.value.onHold then registry else None
    }

    function CurrentGeneration(): Option<Generation> {
      if Current().Some? then Some(Current().value.generation) else None
    }

    // The checks every consuming command starts with.
    predicate Authoritative() {
      MayPublish() && !registry.value.onHold
    }
  }

  // ---------------------------------------------------------------- claim

  // What the claim will write: a live claim of the same coordinator is reused.
  datatype Grant = Grant(token: Token, expiresAt: int, claimSeq: int, held: seq<Key>)

  predicate Reusable(claim: Option<ClaimRecord>, caller: Caller) {
    && claim.Some? && claim.value.token.Some? && OrElse(claim.value.expiresAt, 0) > caller.nowMs
    && claim.value.generation == caller.generation && claim.value.session == caller.session
  }

  function GrantFor(claim: Option<ClaimRecord>, caller: Caller, ttl: int): Grant {
    if Reusable(claim, caller) then
      Grant(claim.value.token.value, claim.value.expiresAt.value, claim.value.claimSeq, claim.value.items)
    else
      var next := (if claim.Some? then claim.value.claimSeq else 0) + 1;
      Grant(Token(caller.generation, caller.nowMs, next), caller.nowMs + ttl * 1000, next, [])
  }

  predicate Eligible(d: Desk, caller: Caller, key: Key) {
    key in d.items && d.items[key].generation == caller.generation && Available(d.items[key], caller.nowMs)
  }

  // The digest after looking at the first n files of the directory.
  function Digest(d: Desk, caller: Caller, held: seq<Key>, limit: nat, n: nat): seq<Key>
    requires n <= |d.listing|
  {
    if n == 0 then held
    else
      var keys, key := Digest(d, caller, held, limit, n - 1), d.listing[n - 1];
      if |keys| < limit && Eligible(d, caller, key) then WithKey(keys, key) else keys
  }

  // A rebound item is already in the digest.
  function WithKey(keys: seq<Key>, key: Key): seq<Key> {
    if key in keys then keys else keys + [key]
  }

  // The desk once the command has read the status file, and what it saw there.
  function AfterReading(d: Desk): Desk {
    d.(read := Saw(d.status))
  }

  function Seen(d: Desk): Option<Status> {
    if d.read.Saw? then d.read.status else None
  }

  function BindWrites(d: Desk, caller: Caller, g: Grant, limit: nat, n: nat): seq<Write>
    requires n <= |d.listing|
  {
    if n == 0 then []
    else
      var writes, key := BindWrites(d, caller, g, limit, n - 1), d.listing[n - 1];
      if |Digest(d, caller, g.held, limit, n - 1)| < limit && Eligible(d, caller, key)
      then writes + [Bind(key, g.token, caller.nowMs, g.expiresAt, StatusRevisionFor(Seen(d), caller.generation))]
      else writes
  }

  function SortKeys(s: seq<Key>): (r: seq<Key>)
    ensures |r| == |s| && forall k :: k in r <==> k in s
  {
    if s == [] then []
    else
      assert s == s[..|s| - 1] + [s[|s| - 1]];
      Listed(SortKeys(s[..|s| - 1]), s[|s| - 1])
  }

  function ClaimWrites(d: Desk, caller: Caller, ttl: int, limit: nat): seq<Write> {
    var g := GrantFor(d.claim, caller, ttl);
    BindWrites(d, caller, g, limit, |d.listing|)
    + [Record(ClaimRecord(caller.session, caller.generation, Some(g.token), Some(g.expiresAt), g.claimSeq,
                          SortKeys(Digest(d, caller, g.held, limit, |d.listing|))))]
  }

  // ---------------------------------------------------------------- the other passes

  // Every other command walks a list of keys and rewrites the items that qualify.
  datatype Pass =
    | AckPass(token: Token, statusRevision: int, requested: Option<set<Key>>)
    | ReleasePass(releasedToken: Token)
    | AdoptPass(session: string, generation: Generation, predecessor: string)
    | ExpirePass(expiredToken: Token)
    | FlagPass(current: Option<Generation>)

  predicate Requested(requested: Option<set<Key>>, key: Key) {
    requested.None? || key in requested.value
  }

  predicate Acknowledgeable(item: Item, token: Token, statusRevision: int) {
    && item.claimToken == Some(token)
    && item.revision == OrElse(item.claimedRevision, -1)
    && OrElse(item.claimedStatusRevision, 0) < statusRevision
  }

  function Choice(item: Item, key: Key, pass: Pass): Option<Write> {
    match pass
    case AckPass(token, statusRevision, requested) =>
      if Requested(requested, key) && Acknowledgeable(item, token, statusRevision)
      then Some(Acknowledge(key, token, statusRevision)) else None
    case ReleasePass(token) => if item.claimToken == Some(token) then Some(Release(key)) else None
    case AdoptPass(session, generation, predecessor) =>
      if item.session == predecessor && item.generation != generation then Some(Adopt(key, session, generation)) else None
    case ExpirePass(token) =>
      if item.claimToken == Some(token) && item.state == Claimed then Some(Expire(key)) else None
    case FlagPass(current) =>
      var orphaned := current != Some(item.generation);
      if orphaned != item.orphaned then Some(Flag(key, orphaned)) else None
  }

  function PassWrites(items: map<Key, Item>, keys: seq<Key>, pass: Pass, n: nat): seq<Write>
    requires n <= |keys|
  {
    if n == 0 then []
    else
      var writes, key := PassWrites(items, keys, pass, n - 1), keys[n - 1];
      var choice := if key in items then Choice(items[key], key, pass) else None;
      if choice.Some? then writes + [choice.value] else writes
  }

  // What an acknowledgement leaves in the claim file: the keys it did not consume.
  function Remaining(items: map<Key, Item>, keys: seq<Key>, pass: Pass, n: nat): seq<Key>
    requires n <= |keys| && pass.AckPass?
  {
    if n == 0 then []
    else
      var rest, key := Remaining(items, keys, pass, n - 1), keys[n - 1];
      if Requested(pass.requested, key) && (key in items ==> Choice(items[key], key, pass).Some?)
      then rest else rest + [key]
  }

  predicate ClaimMatches(d: Desk, caller: Caller, token: Token) {
    d.claim.Some? && d.claim.value.token == Some(token) && d.claim.value.generation == caller.generation
  }

  predicate StatusMatches(d: Desk, caller: Caller, statusRevision: int) {
    d.status == Some(Status(caller.generation, statusRevision))
  }

  function Cleared(claim: ClaimRecord): ClaimRecord {
    claim.(token := None, expiresAt := None, items := [])
  }

  // The claim file after a pass over its keys.
  function SavedAfter(d: Desk, pass: Pass): ClaimRecord
    requires d.claim.Some?
  {
    var claim := d.claim.value;
    if pass.AckPass? then
      var rest := Remaining(d.items, claim.items, pass, |claim.items|);
      claim.(items := rest, token := if rest == [] then None else claim.token,
             expiresAt := if rest == [] then None else claim.expiresAt)
    else Cleared(claim)
  }

  // A pass over the claimed keys, then the claim file.
  function WalkAndSave(d: Desk, pass: Pass): seq<Write>
    requires d.claim.Some?
  {
    PassWrites(d.items, d.claim.value.items, pass, |d.claim.value.items|) + [Record(SavedAfter(d, pass))]
  }

  function AdoptWrites(d: Desk, pass: Pass): seq<Write> {
    PassWrites(d.items, d.listing, pass, |d.listing|)
  }

  predicate Lapsed(claim: Option<ClaimRecord>, nowMs: int) {
    claim.Some? && claim.value.token.Some? && OrElse(claim.value.expiresAt, 0) <= nowMs
  }

  function ExpireWrites(d: Desk, nowMs: int): seq<Write> {
    if !Lapsed(d.claim, nowMs) then []
    else WalkAndSave(d, ExpirePass(d.claim.value.token.value))
  }

  function FlagWrites(d: Desk, current: Option<Generation>): seq<Write> {
    PassWrites(d.items, d.listing, FlagPass(current), |d.listing|)
  }

  function ReconcileWrites(d: Desk, nowMs: int, current: Option<Generation>): seq<Write> {
    var expiry := ExpireWrites(d, nowMs);
    expiry + FlagWrites(Run(d, expiry, |expiry|), current)
  }

  // A report: an identical one only touches diagnostics, an older one is refused.
  datatype Report = Report(key: Key, fingerprint: string, waking: bool, revision: Option<int>)

  function SubmitWrites(d: Desk, owner: Owner, r: Report): Option<seq<Write>> {
    if r.key in d.items then
      var existing := d.items[r.key];
      if existing.fingerprint == r.fingerprint && r.revision.None? then Some([Touch(r.key)])
      else
        var revision := if r.revision.Some? then r.revision.value else existing.revision + 1;
        if revision <= existing.revision then None
        else Some([Submit(r.key, owner.session, owner.generation, r.fingerprint, r.waking, revision)])
    else
      Some([Submit(r.key, owner.session, owner.generation, r.fingerprint, r.waking,
                   if r.revision.Some? then r.revision.value else 1)])
  }

  // ---------------------------------------------------------------- commands

  // `admitted` stands for the sender, lease and session checks of submit, and for the checks
  // of the declared status when one is published.
  datatype Command =
    | SubmitCmd(report: Report, admitted: bool)
    | ClaimCmd(ttl: int)
    | AckCmd(token: Token, statusRevision: Option<int>, requested: Option<set<Key>>)
    | AdoptCmd
    | ReleaseCmd(released: Token)
    | ReconcileCmd
    | PublishCmd(declared: bool)

  function AckPlan(d: Desk, caller: Caller, token: Token, statusRevision: Option<int>, requested: Option<set<Key>>):
      Option<seq<Write>>
  {
    if !caller.Authoritative() then None
    else if !ClaimMatches(d, caller, token) then Some([])
    else if statusRevision.None? || !StatusMatches(d, caller, statusRevision.value) then None
    else Some([ReadStatus] + WalkAndSave(AfterReading(d), AckPass(token, statusRevision.value, requested)))
  }

  function AdoptPlan(d: Desk, caller: Caller): Option<seq<Write>> {
    if !caller.Authoritative() then None
    else
      var predecessor := caller.registry.value.predecessor;
      if predecessor.None? || predecessor.value == "" || predecessor.value == caller.session then None
      else Some(AdoptWrites(d, AdoptPass(caller.session, caller.generation, predecessor.value)))
  }

  /** The writes of one command, in order; None when it refuses. */
  function Plan(d: Desk, caller: Caller, command: Command, limit: nat): Option<seq<Write>> {
    match command
    case SubmitCmd(report, admitted) =>
      if caller.Current().None? || !admitted then None else SubmitWrites(d, caller.Current().value, report)
    case ClaimCmd(ttl) =>
      if caller.Authoritative() then Some([ReadStatus] + ClaimWrites(AfterReading(d), caller, ttl, limit)) else None
    case AckCmd(token, statusRevision, requested) => AckPlan(d, caller, token, statusRevision, requested)
    case AdoptCmd => AdoptPlan(d, caller)
    case ReleaseCmd(token) =>
      if !caller.Authoritative() then None
      else if d.claim.None? || d.claim.value.token != Some(token) then Some([])
      else Some(WalkAndSave(d, ReleasePass(token)))
    case ReconcileCmd => Some(ReconcileWrites(d, caller.nowMs, caller.CurrentGeneration()))
    case PublishCmd(declared) =>
      if caller.MayPublish() && declared then
        Some([Publish(Status(caller.generation, if d.status.Some? then d.status.value.revision + 1 else 1))])
      else None
  }

  // ---------------------------------------------------------------- writes that do not meet

  // No two writes touch the same item, and none touches anything but items that exist.
  predicate OneEach(ws: seq<Write>) {
    && (forall i :: 0 <= i < |ws| ==> OnItem(ws[i]) && !ws[i].Submit?)
    && (forall i, j :: 0 <= i < j < |ws| ==> ws[i].key != ws[j].key)
  }

  predicate SameFrame(d: Desk, e: Desk) {
    e.items.Keys == d.items.Keys && e.listing == d.listing && e.claim == d.claim && e.status == d.status && e.read == d.read
  }

  lemma {:induction false} OthersUntouched(d: Desk, ws: seq<Write>, n: nat, key: Key)
    requires OneEach(ws) && n <= |ws|
    ensures SameFrame(d, Run(d, ws, n))
    ensures key in d.items && (forall i :: 0 <= i < n ==> ws[i].key != key) ==> Run(d, ws, n).items[key] == d.items[key]
    decreases n
  {
    if n > 0 {
      OthersUntouched(d, ws, n - 1, key);
    }
  }

  // A permission depends only on the item, its frame and the limit.
  lemma OneEachPermitted(d: Desk, ws: seq<Write>, limit: nat)
    requires OneEach(ws) && forall i :: 0 <= i < |ws| ==> Permitted(d, ws[i], limit)
    ensures AllPermitted(d, ws, limit)
  {
    forall i | 0 <= i < |ws| ensures Permitted(Run(d, ws, i), ws[i], limit) {
      OthersUntouched(d, ws, i, ws[i].key);
      assert Permitted(d, ws[i], limit);
    }
  }

  // What became of one item.
  lemma {:induction false} EffectOf(d: Desk, ws: seq<Write>, n: nat, i: nat)
    requires OneEach(ws) && i < n <= |ws| && ws[i].key in d.items
    ensures SameFrame(d, Run(d, ws, n)) && Run(d, ws, n).items[ws[i].key] == Rewritten(d.items[ws[i].key], ws[i])
    decreases n
  {
    OthersUntouched(d, ws, n - 1, ws[i].key);
    OthersUntouched(d, ws, n, ws[i].key);
    if i < n - 1 {
      EffectOf(d, ws, n - 1, i);
    }
  }

  lemma {:induction false} RunAppend(d: Desk, ws: seq<Write>, vs: seq<Write>, n: nat)
    requires n <= |ws| + |vs|
    ensures Run(d, ws + vs, n) == if n <= |ws| then Run(d, ws, n) else Run(Run(d, ws, |ws|), vs, n - |ws|)
    decreases n
  {
    hide Apply;
    if n > 0 {
      RunAppend(d, ws, vs, n - 1);
    }
  }

  lemma PermittedAppend(d: Desk, ws: seq<Write>, vs: seq<Write>, limit: nat)
    requires AllPermitted(d, ws, limit) && AllPermitted(Run(d, ws, |ws|), vs, limit)
    ensures AllPermitted(d, ws + vs, limit)
  {
    hide Permitted, Apply;
    forall i | 0 <= i < |ws + vs| ensures Permitted(Run(d, ws + vs, i), (ws + vs)[i], limit) {
      RunAppend(d, ws, vs, i);
      if i < |ws| {
        assert Permitted(Run(d, ws, i), ws[i], limit);
      } else {
        assert Permitted(Run(Run(d, ws, |ws|), vs, i - |ws|), vs[i - |ws|], limit);
      }
    }
  }

  lemma {:induction false} PermittedSound(d: Desk, ws: seq<Write>, n: nat, limit: nat)
    requires SoundDesk(d, limit) && AllPermitted(d, ws, limit) && n <= |ws|
    ensures SoundDesk(Run(d, ws, n), limit)
    decreases n
  {
    if n > 0 {
      PermittedSound(d, ws, n - 1, limit);
      ApplySound(Run(d, ws, n - 1), ws[n - 1], limit);
    }
  }

  // ---------------------------------------------------------------- passes are permitted

  // Where each write of a pass comes from.
  lemma {:induction false} PassWriteOrigin(items: map<Key, Item>, keys: seq<Key>, pass: Pass, n: nat, i: nat)
    requires n <= |keys| && i < |PassWrites(items, keys, pass, n)|
    ensures var w := PassWrites(items, keys, pass, n)[i];
      OnItem(w) && !w.Submit? && w.key in keys[..n] && w.key in items && Choice(items[w.key], w.key, pass) == Some(w)
    decreases n
  {
    assert keys[..n] == keys[..n - 1] + [keys[n - 1]];
    if i < |PassWrites(items, keys, pass, n - 1)| {
      PassWriteOrigin(items, keys, pass, n - 1, i);
    }
  }

  // Every qualifying key among the first n gets its write.
  lemma {:induction false} PassIsComplete(items: map<Key, Item>, keys: seq<Key>, pass: Pass, n: nat, key: Key) returns (i: nat)
    requires n <= |keys| && key in keys[..n] && key in items && Choice(items[key], key, pass).Some?
    ensures i < |PassWrites(items, keys, pass, n)| && PassWrites(items, keys, pass, n)[i] == Choice(items[key], key, pass).value
    decreases n
  {
    if key == keys[n - 1] {
      i := |PassWrites(items, keys, pass, n - 1)|;
    } else {
      assert keys[..n] == keys[..n - 1] + [keys[n - 1]];
      i := PassIsComplete(items, keys, pass, n - 1, key);
    }
  }

  lemma {:induction false} PassOneEach(items: map<Key, Item>, keys: seq<Key>, pass: Pass, n: nat)
    requires n <= |keys| && Ascending(keys)
    ensures OneEach(PassWrites(items, keys, pass, n))
    decreases n
  {
    if n > 0 {
      PassOneEach(items, keys, pass, n - 1);
      var before := PassWrites(items, keys, pass, n - 1);
      forall i | 0 <= i < |before| ensures before[i].key != keys[n - 1] {
        PassWriteOrigin(items, keys, pass, n - 1, i);
      }
      if |PassWrites(items, keys, pass, n)| > |before| {
        PassWriteOrigin(items, keys, pass, n, |before|);
      }
    }
  }

  lemma PassPermitted(d: Desk, keys: seq<Key>, pass: Pass, limit: nat)
    requires SoundDesk(d, limit) && Ascending(keys)
    requires pass.AckPass? ==> d.read == Saw(Some(Status(pass.token.generation, pass.statusRevision)))
    ensures AllPermitted(d, PassWrites(d.items, keys, pass, |keys|), limit)
    ensures SameFrame(d, Run(d, PassWrites(d.items, keys, pass, |keys|), |PassWrites(d.items, keys, pass, |keys|)|))
  {
    var ws := PassWrites(d.items, keys, pass, |keys|);
    PassOneEach(d.items, keys, pass, |keys|);
    forall i | 0 <= i < |ws| ensures Permitted(d, ws[i], limit) {
      PassWriteOrigin(d.items, keys, pass, |keys|, i);
    }
    OneEachPermitted(d, ws, limit);
    OthersUntouched(d, ws, |ws|, 0);
  }

  // ---------------------------------------------------------------- claims are permitted

  lemma {:induction false} BindWriteOrigin(d: Desk, caller: Caller, g: Grant, limit: nat, n: nat, i: nat)
    requires n <= |d.listing| && i < |BindWrites(d, caller, g, limit, n)|
    ensures var w := BindWrites(d, caller, g, limit, n)[i];
      w.Bind? && w.key in d.listing[..n] && Eligible(d, caller, w.key)
      && w == Bind(w.key, g.token, caller.nowMs, g.expiresAt, StatusRevisionFor(Seen(d), caller.generation))
    decreases n
  {
    assert d.listing[..n] == d.listing[..n - 1] + [d.listing[n - 1]];
    if i < |BindWrites(d, caller, g, limit, n - 1)| {
      BindWriteOrigin(d, caller, g, limit, n - 1, i);
    }
  }

  lemma {:induction false} BindOneEach(d: Desk, caller: Caller, g: Grant, limit: nat, n: nat)
    requires n <= |d.listing| && Ascending(d.listing)
    ensures OneEach(BindWrites(d, caller, g, limit, n))
    decreases n
  {
    if n > 0 {
      BindOneEach(d, caller, g, limit, n - 1);
      var before := BindWrites(d, caller, g, limit, n - 1);
      forall i | 0 <= i < |before| ensures before[i].key != d.listing[n - 1] {
        BindWriteOrigin(d, caller, g, limit, n - 1, i);
      }
    }
  }

  lemma {:induction false} DigestBounded(d: Desk, caller: Caller, held: seq<Key>, limit: nat, n: nat)
    requires n <= |d.listing| && |held| <= limit && NoRepeats(held)
    ensures |Digest(d, caller, held, limit, n)| <= limit && NoRepeats(Digest(d, caller, held, limit, n))
    decreases n
  {
    if n > 0 {
      DigestBounded(d, caller, held, limit, n - 1);
    }
  }

  lemma {:induction false} SortKeysAscending(s: seq<Key>)
    requires NoRepeats(s)
    ensures Ascending(SortKeys(s))
  {
    if s != [] {
      SortKeysAscending(s[..|s| - 1]);
      ListedAscending(SortKeys(s[..|s| - 1]), s[|s| - 1]);
    }
  }

  lemma GrantSound(d: Desk, caller: Caller, ttl: int, limit: nat)
    requires SoundDesk(d, limit)
    ensures var g := GrantFor(d.claim, caller, ttl);
      g.token.generation == caller.generation && |g.held| <= limit && NoRepeats(g.held)
  {
  }

  lemma BindsPermitted(d: Desk, caller: Caller, g: Grant, limit: nat)
    requires SoundDesk(d, limit) && d.read.Saw? && g.token.generation == caller.generation
    ensures AllPermitted(d, BindWrites(d, caller, g, limit, |d.listing|), limit)
  {
    var ws := BindWrites(d, caller, g, limit, |d.listing|);
    BindOneEach(d, caller, g, limit, |d.listing|);
    forall i | 0 <= i < |ws| ensures Permitted(d, ws[i], limit) {
      BindWriteOrigin(d, caller, g, limit, |d.listing|, i);
    }
    OneEachPermitted(d, ws, limit);
  }

  lemma RecordPermitted(d: Desk, claim: ClaimRecord, limit: nat)
    requires SoundClaim(claim, limit)
    ensures AllPermitted(d, [Record(claim)], limit)
  {
  }

  lemma ClaimPermitted(d: Desk, caller: Caller, ttl: int, limit: nat)
    requires SoundDesk(d, limit) && d.read.Saw?
    ensures AllPermitted(d, ClaimWrites(d, caller, ttl, limit), limit)
  {
    hide AllPermitted, SoundDesk, BindWrites, Digest, GrantFor, Ascending;
    var g := GrantFor(d.claim, caller, ttl);
    GrantSound(d, caller, ttl, limit);
    var ws := BindWrites(d, caller, g, limit, |d.listing|);
    BindsPermitted(d, caller, g, limit);
    DigestBounded(d, caller, g.held, limit, |d.listing|);
    var keys := Digest(d, caller, g.held, limit, |d.listing|);
    SortKeysAscending(keys);
    var claim := ClaimRecord(caller.session, caller.generation, Some(g.token), Some(g.expiresAt), g.claimSeq, SortKeys(keys));
    RecordPermitted(Run(d, ws, |ws|), claim, limit);
    PermittedAppend(d, ws, [Record(claim)], limit);
  }

  // ---------------------------------------------------------------- every command is permitted

  lemma {:induction false} RemainingSound(items: map<Key, Item>, keys: seq<Key>, pass: Pass, n: nat)
    requires n <= |keys| && pass.AckPass? && Ascending(keys)
    ensures var rest := Remaining(items, keys, pass, n);
      Ascending(rest) && |rest| <= n && forall k :: k in rest ==> k in keys[..n]
    decreases n
  {
    if n > 0 {
      RemainingSound(items, keys, pass, n - 1);
      assert keys[..n] == keys[..n - 1] + [keys[n - 1]];
      var before := Remaining(items, keys, pass, n - 1);
      forall i | 0 <= i < |before| ensures before[i] < keys[n - 1] {
        assert before[i] in keys[..n - 1];
      }
    }
  }

  lemma SavedSound(d: Desk, pass: Pass, limit: nat)
    requires SoundDesk(d, limit) && d.claim.Some?
    ensures SoundClaim(SavedAfter(d, pass), limit) && Ascending(d.claim.value.items)
  {
    if pass.AckPass? {
      RemainingSound(d.items, d.claim.value.items, pass, |d.claim.value.items|);
    }
  }

  lemma WalkPermitted(d: Desk, pass: Pass, limit: nat)
    requires SoundDesk(d, limit) && d.claim.Some?
    requires pass.AckPass? ==> d.read == Saw(Some(Status(pass.token.generation, pass.statusRevision)))
    ensures AllPermitted(d, WalkAndSave(d, pass), limit)
  {
    hide AllPermitted, SoundDesk, PassWrites, Ascending, SameFrame, SavedAfter;
    var keys := d.claim.value.items;
    SavedSound(d, pass, limit);
    PassPermitted(d, keys, pass, limit);
    var ws := PassWrites(d.items, keys, pass, |keys|);
    RecordPermitted(Run(d, ws, |ws|), SavedAfter(d, pass), limit);
    PermittedAppend(d, ws, [Record(SavedAfter(d, pass))], limit);
  }

  lemma ExpiryPermitted(d: Desk, nowMs: int, limit: nat)
    requires SoundDesk(d, limit)
    ensures AllPermitted(d, ExpireWrites(d, nowMs), limit)
  {
    hide WalkAndSave, SoundDesk, Permitted;
    if Lapsed(d.claim, nowMs) {
      WalkPermitted(d, ExpirePass(d.claim.value.token.value), limit);
    }
  }

  lemma ReconcilePermitted(d: Desk, nowMs: int, current: Option<Generation>, limit: nat)
    requires SoundDesk(d, limit)
    ensures AllPermitted(d, ReconcileWrites(d, nowMs, current), limit)
  {
    hide AllPermitted, PassWrites, ExpireWrites, Ascending;
    var expiry := ExpireWrites(d, nowMs);
    ExpiryPermitted(d, nowMs, limit);
    PermittedSound(d, expiry, |expiry|, limit);
    var e := Run(d, expiry, |expiry|);
    PassPermitted(e, e.listing, FlagPass(current), limit);
    PermittedAppend(d, expiry, FlagWrites(e, current), limit);
  }

  lemma OnePermitted(d: Desk, w: Write, limit: nat)
    requires Permitted(d, w, limit)
    ensures AllPermitted(d, [w], limit)
  {
  }

  lemma SubmitPermitted(d: Desk, owner: Owner, r: Report, limit: nat)
    requires SubmitWrites(d, owner, r).Some?
    ensures AllPermitted(d, SubmitWrites(d, owner, r).value, limit)
  {
    hide AllPermitted;
    OnePermitted(d, SubmitWrites(d, owner, r).value[0], limit);
  }

  // A command that consults the status file reads it first.
  lemma ReadFirst(d: Desk, ws: seq<Write>, limit: nat)
    requires AllPermitted(AfterReading(d), ws, limit)
    ensures AllPermitted(d, [ReadStatus] + ws, limit)
  {
    hide AllPermitted;
    OnePermitted(d, ReadStatus, limit);
    assert Run(d, [ReadStatus], 1) == AfterReading(d) by {
      assert Run(d, [ReadStatus], 0) == d;
    }
    PermittedAppend(d, [ReadStatus], ws, limit);
  }

  lemma ReadingSound(d: Desk, limit: nat)
    requires SoundDesk(d, limit)
    ensures SoundDesk(AfterReading(d), limit)
  {
  }

  lemma TokenedPermitted(d: Desk, caller: Caller, command: Command, limit: nat)
    requires SoundDesk(d, limit) && (command.AckCmd? || command.ReleaseCmd?) && Plan(d, caller, command, limit).Some?
    ensures AllPermitted(d, Plan(d, caller, command, limit).value, limit)
  {
    hide Permitted, WalkAndSave, Apply, Run, Ascending;
    match command
    case AckCmd(token, statusRevision, requested) =>
      if ClaimMatches(d, caller, token) {
        var pass := AckPass(token, statusRevision.value, requested);
        ReadingSound(d, limit);
        WalkPermitted(AfterReading(d), pass, limit);
        ReadFirst(d, WalkAndSave(AfterReading(d), pass), limit);
      }
    case ReleaseCmd(token) =>
      if d.claim.Some? && d.claim.value.token == Some(token) {
        WalkPermitted(d, ReleasePass(token), limit);
      }
  }

  /** Every write of every command, made in order, is permitted at the moment it is made -
      so a crash anywhere inside a command leaves a permitted history. */
  lemma PlanPermitted(d: Desk, caller: Caller, command: Command, limit: nat)
    requires SoundDesk(d, limit) && Plan(d, caller, command, limit).Some?
    ensures AllPermitted(d, Plan(d, caller, command, limit).value, limit)
  {
    hide AllPermitted, PassWrites, ClaimWrites, AckPlan, WalkAndSave, ReconcileWrites, SubmitWrites, Ascending;
    match command
    case SubmitCmd(report, admitted) => SubmitPermitted(d, caller.Current().value, report, limit);
    case ClaimCmd(ttl) =>
      ReadingSound(d, limit);
      ClaimPermitted(AfterReading(d), caller, ttl, limit);
      ReadFirst(d, ClaimWrites(AfterReading(d), caller, ttl, limit), limit);
    case AckCmd(_, _, _) => TokenedPermitted(d, caller, command, limit);
    case AdoptCmd =>
      PassPermitted(d, d.listing, AdoptPass(caller.session, caller.generation, caller.registry.value.predecessor.value), limit);
    case ReleaseCmd(_) => TokenedPermitted(d, caller, command, limit);
    case ReconcileCmd => ReconcilePermitted(d, caller.nowMs, caller.CurrentGeneration(), limit);
    case PublishCmd(_) => OnePermitted(d, Plan(d, caller, command, limit).value[0], limit);
  }

  // ---------------------------------------------------------------- crashes

  // One invocation: who called what, and how many writes it lived to make.
  datatype Invocation = Invocation(caller: Caller, command: Command, survives: nat)

  function Made(d: Desk, inv: Invocation, limit: nat): seq<Write> {
    var plan := Plan(d, inv.caller, inv.command, limit);
    if plan.None? then []
    else if |plan.value| <= inv.survives then plan.value
    else plan.value[..inv.survives]
  }

  lemma {:induction false} RunPrefix(d: Desk, ws: seq<Write>, k: nat, n: nat)
    requires n <= k <= |ws|
    ensures Run(d, ws[..k], n) == Run(d, ws, n)
    decreases n
  {
    if n > 0 {
      RunPrefix(d, ws, k, n - 1);
    }
  }

  lemma PrefixPermitted(d: Desk, ws: seq<Write>, k: nat, limit: nat)
    requires AllPermitted(d, ws, limit) && k <= |ws|
    ensures AllPermitted(d, ws[..k], limit)
  {
    hide Permitted;
    forall i | 0 <= i < k ensures Permitted(Run(d, ws[..k], i), ws[..k][i], limit) {
      RunPrefix(d, ws, k, i);
      assert Permitted(Run(d, ws, i), ws[i], limit);
    }
  }

  lemma MadePermitted(d: Desk, inv: Invocation, limit: nat)
    requires SoundDesk(d, limit)
    ensures AllPermitted(d, Made(d, inv, limit), limit)
  {
    hide Plan;
    var plan := Plan(d, inv.caller, inv.command, limit);
    if plan.Some? {
      PlanPermitted(d, inv.caller, inv.command, limit);
      if |plan.value| > inv.survives {
        PrefixPermitted(d, plan.value, inv.survives, limit);
      }
    }
  }
}
