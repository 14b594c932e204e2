/** The coordinator inbox as a log of file writes.  Every command is a short list of writes
    to item files, the claim file and the status file; a crash leaves a prefix of the list.
    Here is what each write does, when it is permitted, and what follows for every log of
    permitted writes, whoever made them.
 */
module InboxLog {
  import opened Wrappers

  // An item file is named by the digest of its event identity; the directory lists the
  // digests in ascending order.
  type Key = nat

  // The coordinator registry numbers generations from 1.
  type Generation = n: int | 1 <= n witness 1

  datatype Token = Token(generation: Generation, atMs: int, number: int)

  datatype ItemState = Pending | Claimed | Acknowledged

  datatype Item = Item(
    session: string,
    generation: Generation,
    fingerprint: string,
    waking: bool,
    revision: int,
    state: ItemState,
    claimToken: Option<Token>,
    claimedByGeneration: Option<Generation>,
    claimExpiresAt: Option<int>,
    claimedRevision: Option<int>,
    claimedStatusRevision: Option<int>,
    acknowledgedStatusRevision: Option<int>,
    diagnosticsRevision: nat,
    orphaned: bool,
    adoptedFrom: Option<(string, Generation)>)

  datatype ClaimRecord = ClaimRecord(
    session: string,
    generation: Generation,
    token: Option<Token>,
    expiresAt: Option<int>,
    claimSeq: int,
    items: seq<Key>)

  datatype Status = Status(generation: Generation, revision: int)

  // What a command has seen of the status file.
  datatype Reading = Unread | Saw(status: Option<Status>)

  // `status` is the status file; `read` is what the command that holds the inbox lock saw
  // of it.  Publication runs under a lock of its own, so the two may differ.
  datatype Desk = Desk(
    items: map<Key, Item>, listing: seq<Key>, claim: Option<ClaimRecord>, status: Option<Status>, read: Reading)

  const EMPTY := Desk(map[], [], None, None, Unread)

  // A missing number and zero both fall back to the default.
  function OrElse(n: Option<int>, default: int): int {
    if n.None? || n.value == 0 then default else n.value
  }

  predicate Available(item: Item, nowMs: int) {
    || item.state == Pending
    || (item.state == Claimed && (OrElse(item.claimExpiresAt, 0) <= nowMs || item.revision != OrElse(item.claimedRevision, -1)))
  }

  // ---------------------------------------------------------------- writes

  datatype Write =
    | Submit(key: Key, session: string, generation: Generation, fingerprint: string, waking: bool, revision: int)
    | Touch(key: Key)
    | Bind(key: Key, token: Token, atMs: int, expiresAt: int, statusRevision: int)
    | Acknowledge(key: Key, token: Token, statusRevision: int)
    | Release(key: Key)
    | Expire(key: Key)
    | Adopt(key: Key, session: string, generation: Generation)
    | Flag(key: Key, orphaned: bool)
    | Record(claim: ClaimRecord)
    | Publish(status: Status)
    | ReadStatus

  function Unclaimed(item: Item, state: ItemState): Item {
    item.(state := state, claimToken := None, claimedByGeneration := None, claimExpiresAt := None,
          claimedRevision := None, claimedStatusRevision := None)
  }

  // The new contents of the item file that a write replaces.
  function Rewritten(item: Item, w: Write): Item
    requires OnItem(w) && !w.Submit?
  {
    match w
    case Touch(_) => item.(diagnosticsRevision := item.diagnosticsRevision + 1)
    case Bind(_, token, _, expiresAt, statusRevision) =>
      item.(state := Claimed, claimToken := Some(token), claimedByGeneration := Some(token.generation),
            claimExpiresAt := Some(expiresAt), claimedRevision := Some(item.revision),
            claimedStatusRevision := Some(statusRevision))
    case Acknowledge(_, _, statusRevision) =>
      Unclaimed(item, Acknowledged).(acknowledgedStatusRevision := Some(statusRevision))
    case Release(_) => Unclaimed(item, Pending)
    // Expiry leaves the generation that had claimed the item in place.
    case Expire(_) => Unclaimed(item, Pending).(claimedByGeneration := item.claimedByGeneration)
    case Adopt(_, session, generation) =>
      Unclaimed(item, if item.state == Claimed then Pending else item.state)
        .(session := session, generation := generation, adoptedFrom := Some((item.session, item.generation)),
          orphaned := false)
    case Flag(_, orphaned) => item.(orphaned := orphaned)
  }

  // A first report creates the item; a newer one replaces its payload and detaches it from
  // any claim or acknowledgement, but keeps its addressing.
  function Submitted(items: map<Key, Item>, w: Write): Item
    requires w.Submit?
  {
    if w.key in items then
      Unclaimed(items[w.key], Pending).(fingerprint := w.fingerprint, waking := w.waking, revision := w.revision,
                                        acknowledgedStatusRevision := None)
    else
      Item(w.session, w.generation, w.fingerprint, w.waking, w.revision, Pending, None, None, None, None, None, None, 0,
           false, None)
  }

  predicate OnItem(w: Write) {
    !w.Record? && !w.Publish? && !w.ReadStatus?
  }

  function Apply(d: Desk, w: Write): Desk {
    match w
    case Record(claim) => d.(claim := Some(claim))
    case Publish(status) => d.(status := Some(status))
    case ReadStatus => d.(read := Saw(d.status))
    case Submit(key, _, _, _, _, _) =>
      d.(items := d.items[key := Submitted(d.items, w)], listing := if key in d.items then d.listing else Listed(d.listing, key))
    case _ =>
      if w.key in d.items then d.(items := d.items[w.key := Rewritten(d.items[w.key], w)]) else d
  }

  // Insert a new file name where it sorts.
  function Listed(listing: seq<Key>, key: Key): (r: seq<Key>)
    ensures |r| == |listing| + 1 && forall k :: k in r <==> k in listing || k == key
  {
    if listing == [] then [key]
    else if key <= listing[0] then [key] + listing
    else
      assert listing == [listing[0]] + listing[1..];
      [listing[0]] + Listed(listing[1..], key)
  }

  // The status revision a claim records: zero when the status is another generation's.
  function StatusRevisionFor(status: Option<Status>, generation: Generation): int {
    if status.Some? && status.value.generation == generation then status.value.revision else 0
  }

  // ---------------------------------------------------------------- permitted writes

  predicate Ascending(s: seq<Key>) {
    forall i, j :: 0 <= i < j < |s| ==> s[i] < s[j]
  }

  // A digest names no item twice and is bounded; its token carries its generation.
  predicate SoundClaim(claim: ClaimRecord, limit: nat) {
    && Ascending(claim.items) && |claim.items| <= limit
    && (claim.token.Some? ==> claim.token.value.generation == claim.generation)
  }

  predicate Permitted(d: Desk, w: Write, limit: nat) {
    match w
    case Submit(key, _, _, _, _, revision) => key in d.items ==> d.items[key].revision < revision
    case Bind(key, token, atMs, _, statusRevision) =>
      && key in d.items && d.items[key].generation == token.generation && Available(d.items[key], atMs)
      && d.read.Saw? && statusRevision == StatusRevisionFor(d.read.status, token.generation)
    case Acknowledge(key, token, statusRevision) =>
      && key in d.items && d.items[key].claimToken == Some(token)
      && d.items[key].revision == OrElse(d.items[key].claimedRevision, -1)
      && OrElse(d.items[key].claimedStatusRevision, 0) < statusRevision
      && d.read == Saw(Some(Status(token.generation, statusRevision)))
    case Record(claim) => SoundClaim(claim, limit)
    case Publish(status) => status.revision == if d.status.Some? then d.status.value.revision + 1 else 1
    case ReadStatus => true
    case Release(key) => key in d.items && d.items[key].claimToken.Some?
    case Expire(key) => key in d.items && d.items[key].claimToken.Some?
    case _ => w.key in d.items
  }

  // The desk after the first n writes of a list.
  function Run(d: Desk, log: seq<Write>, n: nat): Desk
    requires n <= |log|
  {
    if n == 0 then d else Apply(Run(d, log, n - 1), log[n - 1])
  }

  predicate AllPermitted(d: Desk, log: seq<Write>, limit: nat) {
    forall i :: 0 <= i < |log| ==> Permitted(Run(d, log, i), log[i], limit)
  }

  // A whole history starts with empty directories.
  function Replay(log: seq<Write>, n: nat): Desk
    requires n <= |log|
  {
    Run(EMPTY, log, n)
  }

  predicate Lawful(log: seq<Write>, limit: nat) {
    forall i :: 0 <= i < |log| ==> Permitted(Replay(log, i), log[i], limit)
  }

  // ---------------------------------------------------------------- one item

  /** What is always true of an item file: a claim snapshot is complete and names the
      generation the item is addressed to and the revision it was taken of, and an unclaimed
      item carries none. */
  predicate Sound(item: Item) {
    if item.state == Claimed then
      && item.claimToken.Some? && item.claimToken.value.generation == item.generation
      && item.claimedByGeneration == Some(item.claimToken.value.generation)
      && item.claimExpiresAt.Some? && item.claimedRevision == Some(item.revision) && item.claimedStatusRevision.Some?
    else
      item.claimToken.None? && item.claimExpiresAt.None? && item.claimedRevision.None? && item.claimedStatusRevision.None?
  }

  ghost predicate SoundDesk(d: Desk, limit: nat) {
    && (forall k :: k in d.items ==> Sound(d.items[k]))
    && Ascending(d.listing) && (forall k :: k in d.listing <==> k in d.items)
    && (d.claim.Some? ==> SoundClaim(d.claim.value, limit))
    && (d.status.Some? ==> 1 <= d.status.value.revision)
  }

  lemma FirstIsLeast(s: seq<Key>, k: Key)
    requires s != [] && Ascending(s)
    ensures k in s[1..] ==> s[0] < k
  {
  }

  lemma {:induction false} ListedAscending(listing: seq<Key>, key: Key)
    requires Ascending(listing) && key !in listing
    ensures Ascending(Listed(listing, key))
  {
    if listing != [] && key > listing[0] {
      var rest := listing[1..];
      ListedAscending(rest, key);
      var tail := Listed(rest, key);
      forall j | 0 <= j < |tail| ensures listing[0] < tail[j] {
        assert tail[j] in rest || tail[j] == key;
        FirstIsLeast(listing, tail[j]);
      }
      assert Listed(listing, key) == [listing[0]] + tail;
    } else if listing != [] {
      assert key != listing[0];
    }
  }

  lemma RewrittenSound(item: Item, w: Write)
    requires Sound(item) && OnItem(w) && !w.Submit? && (w.Bind? ==> w.token.generation == item.generation)
    ensures Sound(Rewritten(item, w))
  {
  }

  lemma ApplySound(d: Desk, w: Write, limit: nat)
    requires SoundDesk(d, limit) && Permitted(d, w, limit)
    ensures SoundDesk(Apply(d, w), limit)
  {
    if w.Submit? {
      if w.key !in d.items {
        ListedAscending(d.listing, w.key);
      }
    } else if OnItem(w) {
      RewrittenSound(d.items[w.key], w);
    }
  }

  lemma {:induction false} ReplaySound(log: seq<Write>, n: nat, limit: nat)
    requires Lawful(log, limit) && n <= |log|
    ensures SoundDesk(Replay(log, n), limit)
    decreases n
  {
    if n > 0 {
      ReplaySound(log, n - 1, limit);
      ApplySound(Replay(log, n - 1), log[n - 1], limit);
    }
  }

  /** Nothing is stranded: whatever writes and crashes came before, an item that has not been
      acknowledged can be claimed - at once, or, if it is bound by a claim, from the moment
      that claim runs out and not earlier (only revision 0 is never held back). */
  lemma NothingStranded(log: seq<Write>, n: nat, limit: nat, key: Key, nowMs: int)
    requires Lawful(log, limit) && n <= |log| && key in Replay(log, n).items
    ensures var item := Replay(log, n).items[key];
      && (item.state == Pending ==> Available(item, nowMs))
      && (item.state == Claimed ==> item.claimExpiresAt.Some?)
      && (item.state == Claimed ==>
            (Available(item, nowMs) <==> item.claimExpiresAt.value <= nowMs || item.revision == 0))
      && (item.state == Acknowledged ==> !Available(item, nowMs))
  {
    ReplaySound(log, n, limit);
  }

  // ---------------------------------------------------------------- no fact is acknowledged unseen

  // A write that leaves an item's payload and claim alone.
  predicate Harmless(w: Write, key: Key) {
    OnItem(w) && w.key == key ==> w.Touch? || w.Flag?
  }

  // The item was last bound by write b, and only harmless writes to it came after.
  predicate BoundBy(log: seq<Write>, n: nat, key: Key, b: nat)
    requires n <= |log|
  {
    && b < n && log[b].Bind? && log[b].key == key
    && (forall m :: b < m < n ==> Harmless(log[m], key))
    && key in Replay(log, n).items
    && var item := Replay(log, n).items[key];
       && item.claimToken == Some(log[b].token)
       && item.claimedStatusRevision == Some(log[b].statusRevision)
       && key in Replay(log, b).items
       && item.revision == Replay(log, b).items[key].revision
       && item.fingerprint == Replay(log, b).items[key].fingerprint
  }

  lemma BoundByStep(log: seq<Write>, n: nat, key: Key, b: nat)
    requires 0 < n <= |log| && BoundBy(log, n - 1, key, b) && Harmless(log[n - 1], key)
    ensures BoundBy(log, n, key, b)
  {
  }

  lemma JustBound(log: seq<Write>, n: nat, limit: nat)
    requires 0 < n <= |log| && log[n - 1].Bind? && Permitted(Replay(log, n - 1), log[n - 1], limit)
    ensures BoundBy(log, n, log[n - 1].key, n - 1)
  {
  }

  // Of the writes that are not harmless only a binding leaves the item claimed.
  lemma OnlyBindingClaims(log: seq<Write>, n: nat, key: Key)
    requires 0 < n <= |log| && !Harmless(log[n - 1], key)
    requires key in Replay(log, n).items && Replay(log, n).items[key].claimToken.Some?
    ensures log[n - 1].Bind? && log[n - 1].key == key
  {
  }

  lemma {:induction false} ClaimHasBinding(log: seq<Write>, n: nat, limit: nat, key: Key) returns (b: nat)
    requires Lawful(log, limit) && n <= |log|
    requires key in Replay(log, n).items && Replay(log, n).items[key].claimToken.Some?
    ensures BoundBy(log, n, key, b)
    decreases n
  {
    hide Apply, BoundBy;
    var w := log[n - 1];
    assert Permitted(Replay(log, n - 1), w, limit);
    hide Permitted;
    if Harmless(w, key) {
      HarmlessLeaves(log, n, key);
      b := ClaimHasBinding(log, n - 1, limit, key);
      BoundByStep(log, n, key, b);
    } else {
      OnlyBindingClaims(log, n, key);
      JustBound(log, n, limit);
      b := n - 1;
    }
  }

  lemma HarmlessLeaves(log: seq<Write>, n: nat, key: Key)
    requires 0 < n <= |log| && Harmless(log[n - 1], key) && key in Replay(log, n).items
    ensures key in Replay(log, n - 1).items
    ensures Replay(log, n - 1).items[key].claimToken == Replay(log, n).items[key].claimToken
  {
  }

  // The publication the current status came from.
  lemma {:induction false} StatusHasPublication(log: seq<Write>, n: nat) returns (p: nat)
    requires n <= |log| && Replay(log, n).status.Some?
    ensures p < n && log[p] == Publish(Replay(log, n).status.value)
    ensures forall m :: p < m <= n ==> Replay(log, m).status == Replay(log, n).status
    decreases n
  {
    if log[n - 1].Publish? {
      p := n - 1;
    } else {
      p := StatusHasPublication(log, n - 1);
    }
  }

  // The last time before step n that the status was read.
  predicate LastRead(log: seq<Write>, n: nat, r: nat)
    requires n <= |log|
  {
    r < n && log[r].ReadStatus? && forall m :: r < m < n ==> !log[m].ReadStatus?
  }

  lemma {:induction false} ReadHasPosition(log: seq<Write>, n: nat) returns (r: nat)
    requires n <= |log| && Replay(log, n).read.Saw?
    ensures LastRead(log, n, r) && Replay(log, n).read == Saw(Replay(log, r).status)
    decreases n
  {
    if log[n - 1].ReadStatus? {
      r := n - 1;
    } else {
      r := ReadHasPosition(log, n - 1);
    }
  }

  lemma StatusStep(d: Desk, w: Write, limit: nat)
    requires Permitted(d, w, limit) && d.status.Some?
    ensures Apply(d, w).status.Some? && d.status.value.revision <= Apply(d, w).status.value.revision
  {
  }

  // Revisions of the status file only grow, whoever publishes.
  lemma {:induction false} StatusGrows(log: seq<Write>, m: nat, n: nat, limit: nat)
    requires Lawful(log, limit) && m <= n <= |log| && Replay(log, m).status.Some?
    ensures Replay(log, n).status.Some?
    ensures Replay(log, m).status.value.revision <= Replay(log, n).status.value.revision
    decreases n
  {
    hide Apply, Permitted;
    if m < n {
      StatusGrows(log, m, n - 1, limit);
      assert Permitted(Replay(log, n - 1), log[n - 1], limit);
      StatusStep(Replay(log, n - 1), log[n - 1], limit);
    }
  }

  // The publication at p is newer than whatever stood at an earlier moment.
  lemma PublicationIsNew(log: seq<Write>, m: nat, p: nat, limit: nat)
    requires Lawful(log, limit) && m <= p < |log| && log[p].Publish?
    ensures Replay(log, m).status != Some(log[p].status)
  {
    if Replay(log, m).status.Some? {
      StatusGrows(log, m, p, limit);
      assert Permitted(Replay(log, p), log[p], limit);
    }
  }

  /** No fact is acknowledged unseen.  Behind every acknowledgement there is a binding of
      exactly that revision and payload under the same token and generation, after which
      nothing but bookkeeping touched the item, and the publication of the very status the
      acknowledgement cites, strictly later than the moment r at which the claim read the
      status.  It came before the binding itself exactly when that status already stood in
      the file when the item was bound. */
  lemma NoFactAcknowledgedUnseen(log: seq<Write>, n: nat, limit: nat) returns (r: nat, b: nat, p: nat)
    requires Lawful(log, limit) && n < |log| && log[n].Acknowledge?
    ensures r < b < n && r < p < n && LastRead(log, b, r)
    ensures log[b].Bind? && log[b].key == log[n].key && log[b].token == log[n].token
    ensures log[p] == Publish(Status(log[n].token.generation, log[n].statusRevision))
    ensures p < b <==> Replay(log, b).status == Some(Status(log[n].token.generation, log[n].statusRevision))
    ensures forall m :: b < m < n ==> Harmless(log[m], log[n].key)
    ensures var key := log[n].key;
      && key in Replay(log, b).items && key in Replay(log, n).items
      && Replay(log, n).items[key].revision == Replay(log, b).items[key].revision
      && Replay(log, n).items[key].fingerprint == Replay(log, b).items[key].fingerprint
  {
    hide Apply, Run, Replay;
    var key := log[n].key;
    assert Permitted(Replay(log, n), log[n], limit);
    b := ClaimHasBinding(log, n, limit, key);
    assert Permitted(Replay(log, b), log[b], limit);
    r := ReadHasPosition(log, b);
    var s := ReadHasPosition(log, n);
    assert r <= s;
    p := StatusHasPublication(log, s);
    if b <= p {
      PublicationIsNew(log, b, p, limit);
    }
  }

  // No status of that generation is published between step r and step b.
  predicate QuietBetween(log: seq<Write>, r: nat, b: nat, generation: Generation)
    requires b <= |log|
  {
    forall m :: r < m < b && log[m].Publish? ==> log[m].status.generation != generation
  }

  /** The cited status was published strictly after the binding unless a status of that
      generation was published while that very claim was being made. */
  lemma QuietClaimMeansLater(log: seq<Write>, n: nat, limit: nat) returns (r: nat, b: nat, p: nat)
    requires Lawful(log, limit) && n < |log| && log[n].Acknowledge?
    ensures r < b < n && LastRead(log, b, r) && log[b].Bind? && log[b].key == log[n].key && log[b].token == log[n].token
    ensures r < p < n && log[p] == Publish(Status(log[n].token.generation, log[n].statusRevision))
    ensures QuietBetween(log, r, b, log[n].token.generation) ==> b < p
  {
    hide Apply, Run, Replay, Permitted, Lawful, LastRead, Harmless;
    r, b, p := NoFactAcknowledgedUnseen(log, n, limit);
  }

  // ---------------------------------------------------------------- revision zero

  /** What acknowledging a claimed item takes: the token it was bound to, a revision other
      than zero, and a status of that generation newer than the one its claim had seen. */
  lemma AcknowledgeableExactly(d: Desk, key: Key, token: Token, statusRevision: int, limit: nat)
    requires SoundDesk(d, limit) && key in d.items && d.items[key].state == Claimed
    ensures var item := d.items[key];
      Permitted(d, Acknowledge(key, token, statusRevision), limit)
      <==> item.claimToken == Some(token) && item.revision != 0
           && d.read == Saw(Some(Status(token.generation, statusRevision))) && item.claimedStatusRevision.value < statusRevision
  {
  }

  /** An item submitted with revision 0 can never be acknowledged, in any history. */
  lemma ZeroRevisionNeverAcknowledged(log: seq<Write>, n: nat, limit: nat)
    requires Lawful(log, limit) && n < |log| && log[n].Acknowledge?
    ensures log[n].key in Replay(log, n).items && Replay(log, n).items[log[n].key].revision != 0
  {
    ReplaySound(log, n, limit);
    assert Permitted(Replay(log, n), log[n], limit);
    assert Sound(Replay(log, n).items[log[n].key]);
  }

  lemma WriteKeepsAcknowledged(d: Desk, w: Write, limit: nat, key: Key)
    requires SoundDesk(d, limit) && Permitted(d, w, limit) && (w.Submit? ==> w.key != key)
    requires key in d.items && d.items[key].state == Acknowledged
    ensures var e := Apply(d, w);
      && key in e.items && e.items[key].state == Acknowledged
      && e.items[key].revision == d.items[key].revision && e.items[key].fingerprint == d.items[key].fingerprint
  {
    assert Sound(d.items[key]);
  }

  /** An acknowledgement is final until a newer report of the same event arrives. */
  lemma {:induction false} AcknowledgedStays(log: seq<Write>, m: nat, n: nat, limit: nat, key: Key)
    requires Lawful(log, limit) && m <= n <= |log|
    requires key in Replay(log, m).items && Replay(log, m).items[key].state == Acknowledged
    requires forall i :: m <= i < n && log[i].Submit? ==> log[i].key != key
    ensures key in Replay(log, n).items && Replay(log, n).items[key].state == Acknowledged
    ensures Replay(log, n).items[key].revision == Replay(log, m).items[key].revision
    ensures Replay(log, n).items[key].fingerprint == Replay(log, m).items[key].fingerprint
    decreases n
  {
    hide Apply, Permitted, SoundDesk;
    if m < n {
      AcknowledgedStays(log, m, n - 1, limit, key);
      ReplaySound(log, n - 1, limit);
      WriteKeepsAcknowledged(Replay(log, n - 1), log[n - 1], limit, key);
    }
  }
}
