/** The project-wide lease that schedulers elect through a second comment log.  Nothing is
    assumed about who appends what: the guarantees hold for every log.
 */
module SharedFence {
  import opened Domain
  import opened Wrappers

  datatype Operation = Acquire | Extend | Release

  datatype FenceEvent = FenceEvent(operation: Operation, issueId: string, fence: Id, atMs: int, expiresAtMs: int)
  {
    predicate WellShaped() {
      issueId != "" && 0 <= atMs <= expiresAtMs
    }

    predicate SameHolder(other: FenceEvent) {
      issueId == other.issueId && fence == other.fence
    }
  }

  datatype FenceState = FenceState(lease: Option<FenceEvent>, accepted: set<nat>) | Malformed

  // The lease after one more well-shaped comment, and whether the comment counts.
  function Step(lease: Option<FenceEvent>, e: FenceEvent): (Option<FenceEvent>, bool) {
    match e.operation
    case Acquire =>
      if lease.Some? && e.atMs < lease.value.expiresAtMs then (lease, false) else (Some(e), true)
    case Extend =>
      if lease.Some? && lease.value.SameHolder(e) then (Some(e), true) else (lease, false)
    case Release =>
      if lease.Some? && lease.value.SameHolder(e) then (None, true) else (lease, false)
  }

  // The lease after the first n comments.
  function Lease(log: seq<FenceEvent>, n: nat): Option<FenceEvent>
    requires n <= |log|
  {
    if n == 0 then None else Step(Lease(log, n - 1), log[n - 1]).0
  }

  predicate Accepted(log: seq<FenceEvent>, i: nat)
    requires i < |log|
  {
    Step(Lease(log, i), log[i]).1
  }

  predicate WellShapedLog(log: seq<FenceEvent>) {
    forall i :: 0 <= i < |log| ==> log[i].WellShaped()
  }

  function Folded(log: seq<FenceEvent>): FenceState {
    if WellShapedLog(log) then FenceState(Lease(log, |log|), set i: nat | i < |log| && Accepted(log, i)) else Malformed
  }

  /** The loop of the source: one pass that keeps the current lease and the set of comments
      that counted, and gives up on the first malformed comment. */
  method ReduceSharedFence(log: seq<FenceEvent>) returns (r: FenceState)
    ensures r == Folded(log)
  {
    var lease: Option<FenceEvent> := None;
    var accepted: set<nat> := {};
    for i: nat := 0 to |log|
      invariant WellShapedLog(log[..i])
      invariant lease == Lease(log, i)
      invariant accepted == set k: nat | k < i && Accepted(log, k)
    {
      var event := log[i];
      if !event.WellShaped() {
        return Malformed;
      }
      if event.operation == Acquire {
        if !(lease.Some? && event.atMs < lease.value.expiresAtMs) {
          lease := Some(event);
          accepted := accepted + {i};
        }
      } else if lease.Some? && lease.value.issueId == event.issueId && lease.value.fence == event.fence {
        accepted := accepted + {i};
        lease := if event.operation == Release then None else Some(event);
      }
    }
    assert log[..|log|] == log;
    r := FenceState(lease, accepted);
  }

  /** One malformed comment, wherever it stands, makes the whole log unreadable; otherwise
      what is read is the lease after the last comment. */
  lemma MalformedExactly(log: seq<FenceEvent>)
    ensures Folded(log).Malformed?
       <==> exists i :: 0 <= i < |log| && (log[i].issueId == "" || log[i].atMs < 0 || log[i].expiresAtMs < log[i].atMs)
    ensures Folded(log).FenceState? ==> Folded(log).lease == Lease(log, |log|)
  {
    if exists i :: 0 <= i < |log| && (log[i].issueId == "" || log[i].atMs < 0 || log[i].expiresAtMs < log[i].atMs) {
      assert !WellShapedLog(log);
    }
  }

  /** A comment that counts becomes the lease, or ends it; one that does not changes nothing. */
  lemma CountedOrIgnored(log: seq<FenceEvent>, i: nat)
    requires i < |log|
    ensures Lease(log, i + 1)
         == if !Accepted(log, i) then Lease(log, i) else if log[i].operation == Release then None else Some(log[i])
    ensures Lease(log, i).None? ==> (Accepted(log, i) <==> log[i].operation == Acquire)
  {
  }

  // ---------------------------------------------------------------- which comments count

  // Comment k is the last one before position n that counted.
  predicate LastCounted(log: seq<FenceEvent>, n: nat, k: nat)
    requires n <= |log|
  {
    k < n && Accepted(log, k) && forall m :: k < m < n ==> !Accepted(log, m)
  }

  // Nothing before position n counted.
  predicate NothingCounted(log: seq<FenceEvent>, n: nat)
    requires n <= |log|
  {
    forall m :: 0 <= m < n ==> !Accepted(log, m)
  }

  // Nobody holds the fence at that time: it was never taken, given back, or ran out.
  ghost predicate Free(log: seq<FenceEvent>, n: nat, atMs: int)
    requires n <= |log|
  {
    NothingCounted(log, n)
    || exists k: nat :: LastCounted(log, n, k) && (log[k].operation == Release || log[k].expiresAtMs <= atMs)
  }

  // The last comment that counted is this holder's and gives nothing back.
  ghost predicate HeldBy(log: seq<FenceEvent>, n: nat, e: FenceEvent)
    requires n <= |log|
  {
    exists k: nat :: LastCounted(log, n, k) && log[k].operation != Release
                     && log[k].issueId == e.issueId && log[k].fence == e.fence
  }

  // The lease is the last comment that counted, unless that gave it back.
  lemma {:induction false} LastOne(log: seq<FenceEvent>, n: nat) returns (last: Option<nat>)
    requires n <= |log|
    ensures last.None? ==> NothingCounted(log, n) && Lease(log, n).None?
    ensures last.Some? ==> LastCounted(log, n, last.value)
    ensures last.Some? ==> Lease(log, n) == if log[last.value].operation == Release then None else Some(log[last.value])
    decreases n
  {
    hide Accepted, Step;
    if n == 0 {
      last := None;
    } else {
      CountedOrIgnored(log, n - 1);
      if Accepted(log, n - 1) {
        last := Some(n - 1);
      } else {
        last := LastOne(log, n - 1);
      }
    }
  }

  /** Exactly which comments count, in terms of the comments that counted before: an
      acquisition when nobody holds the fence at its date, an extension or release when the
      fence is its own holder's. */
  lemma CountsExactly(log: seq<FenceEvent>, i: nat)
    requires i < |log|
    ensures log[i].operation == Acquire ==> (Accepted(log, i) <==> Free(log, i, log[i].atMs))
    ensures log[i].operation != Acquire ==> (Accepted(log, i) <==> HeldBy(log, i, log[i]))
  {
    hide Accepted, Lease, Step;
    var last := LastOne(log, i);
    AcceptedByLease(log, i);
    if last.Some? {
      OnlyOneLast(log, i, last.value);
    }
  }

  lemma OnlyOneLast(log: seq<FenceEvent>, n: nat, k: nat)
    requires n <= |log| && LastCounted(log, n, k)
    ensures !NothingCounted(log, n) && forall j: nat :: LastCounted(log, n, j) ==> j == k
  {
    hide Accepted;
  }

  lemma AcceptedByLease(log: seq<FenceEvent>, i: nat)
    requires i < |log|
    ensures var lease := Lease(log, i);
      Accepted(log, i) <==> if log[i].operation == Acquire then lease.None? || lease.value.expiresAtMs <= log[i].atMs
                            else lease.Some? && lease.value.SameHolder(log[i])
  {
  }

  // Earlier comments count or not whatever comes later.
  lemma {:induction false} CountsInPrefix(log: seq<FenceEvent>, more: seq<FenceEvent>, n: nat)
    requires n <= |log|
    ensures Lease(log + more, n) == Lease(log, n)
    ensures forall m :: 0 <= m < n ==> (Accepted(log + more, m) <==> Accepted(log, m))
    decreases n
  {
    if n > 0 {
      CountsInPrefix(log, more, n - 1);
    }
  }

  lemma SameBefore(log: seq<FenceEvent>, e: FenceEvent, atMs: int)
    ensures Free(log + [e], |log|, atMs) <==> Free(log, |log|, atMs)
    ensures HeldBy(log + [e], |log|, e) <==> HeldBy(log, |log|, e)
  {
    hide Accepted;
    CountsInPrefix(log, [e], |log|);
    assert NothingCounted(log + [e], |log|) <==> NothingCounted(log, |log|);
    forall k: nat ensures LastCounted(log + [e], |log|, k) <==> LastCounted(log, |log|, k) {
    }
  }

  // A comment that nobody answers before the readback.
  lemma LoneComment(log: seq<FenceEvent>, e: FenceEvent)
    ensures var longer := log + [e];
      && (e.operation == Acquire ==> (Accepted(longer, |log|) <==> Free(log, |log|, e.atMs)))
      && (e.operation != Acquire ==> (Accepted(longer, |log|) <==> HeldBy(log, |log|, e)))
      && (Accepted(longer, |log|) && e.operation != Release ==> Lease(longer, |longer|) == Some(e))
  {
    hide Accepted, Lease, Free, HeldBy;
    var longer := log + [e];
    CountsExactly(longer, |log|);
    SameBefore(log, e, e.atMs);
    CountedOrIgnored(longer, |log|);
  }

  // ---------------------------------------------------------------- adapter calls

  /** The comment log as the adapter sees it: it appends, other schedulers may append before
      it reads back, and the readback decides. */
  class FenceComments {
    var comments: seq<FenceEvent>

    constructor ()
      ensures comments == []
    {
      comments := [];
    }

    method AcquireSharedFence(issueId: string, fence: Id, nowMs: int, expiresAtMs: int, others: seq<FenceEvent>)
      returns (held: bool)
      modifies this
      ensures comments == old(comments) + [FenceEvent(Acquire, issueId, fence, nowMs, expiresAtMs)] + others
      ensures held <==> WellShapedLog(comments) && Accepted(comments, |old(comments)|)
                        && Lease(comments, |comments|).Some? && Lease(comments, |comments|).value.issueId == issueId
                        && Lease(comments, |comments|).value.fence == fence
      ensures others == [] && WellShapedLog(comments) ==> (held <==> Free(old(comments), |old(comments)|, nowMs))
    {
      var id: nat := |comments|;
      LoneComment(comments, FenceEvent(Acquire, issueId, fence, nowMs, expiresAtMs));
      comments := comments + [FenceEvent(Acquire, issueId, fence, nowMs, expiresAtMs)];
      assert others == [] ==> comments + others == comments;
      comments := comments + others;
      var state := ReduceSharedFence(comments);
      held := state.FenceState? && id in state.accepted && state.lease.Some?
              && state.lease.value.issueId == issueId && state.lease.value.fence == fence;
    }

    method HeartbeatSharedFence(issueId: string, fence: Id, nowMs: int, expiresAtMs: int, others: seq<FenceEvent>)
      returns (held: bool)
      modifies this
      ensures comments == old(comments) + [FenceEvent(Extend, issueId, fence, nowMs, expiresAtMs)] + others
      ensures held <==> WellShapedLog(comments) && Accepted(comments, |old(comments)|)
                        && Lease(comments, |comments|).Some? && Lease(comments, |comments|).value.fence == fence
      ensures others == [] && WellShapedLog(comments) ==>
        (held <==> HeldBy(old(comments), |old(comments)|, FenceEvent(Extend, issueId, fence, nowMs, expiresAtMs)))
    {
      var id: nat := |comments|;
      LoneComment(comments, FenceEvent(Extend, issueId, fence, nowMs, expiresAtMs));
      comments := comments + [FenceEvent(Extend, issueId, fence, nowMs, expiresAtMs)];
      assert others == [] ==> comments + others == comments;
      comments := comments + others;
      var state := ReduceSharedFence(comments);
      held := state.FenceState? && id in state.accepted && state.lease.Some? && state.lease.value.fence == fence;
    }

    method ReleaseSharedFence(issueId: string, fence: Id, nowMs: int, expiresAtMs: int)
      modifies this
      ensures comments == old(comments) + [FenceEvent(Release, issueId, fence, nowMs,
                                                      if expiresAtMs < nowMs then nowMs else expiresAtMs)]
    {
      var until := if expiresAtMs < nowMs then nowMs else expiresAtMs;
      comments := comments + [FenceEvent(Release, issueId, fence, nowMs, until)];
    }
  }

  // ---------------------------------------------------------------- safety

  /** A lease changes hands, moves or ends in one of two ways only: its holder extends or
      releases it, or somebody acquires at or after its expiry. */
  lemma OnlyHolderOrExpiry(log: seq<FenceEvent>, n: nat)
    requires n < |log| && Lease(log, n).Some? && Lease(log, n + 1) != Lease(log, n)
    ensures var holder := Lease(log, n).value;
      || (log[n].operation == Acquire && holder.expiresAtMs <= log[n].atMs)
      || (log[n].operation != Acquire && log[n].SameHolder(holder))
  {
  }

  // The last comment in [i, j) that counted, given that comment i did.
  function LastAccepted(log: seq<FenceEvent>, i: nat, j: nat): (k: nat)
    requires i < j <= |log| && Accepted(log, i)
    ensures i <= k < j && Accepted(log, k)
    ensures forall m :: k < m < j ==> !Accepted(log, m)
  {
    if Accepted(log, j - 1) then j - 1 else LastAccepted(log, i, j - 1)
  }

  // Comment k releases the tenure that comment i opened.
  predicate ReleasedBy(log: seq<FenceEvent>, i: nat, k: nat)
    requires i < |log| && k < |log|
  {
    Accepted(log, k) && log[k].operation == Release && log[k].SameHolder(log[i])
  }

  // Nothing but the opener's own extensions counted strictly between i and n.
  predicate TenureOpen(log: seq<FenceEvent>, i: nat, n: nat)
    requires i < n <= |log|
  {
    && Accepted(log, i) && log[i].operation == Acquire
    && forall m :: i < m < n && Accepted(log, m) ==> log[m].operation == Extend && log[m].SameHolder(log[i])
  }

  // While a tenure is open, the lease is the opener's last counted comment.
  lemma {:induction false} OpenTenureHoldsLease(log: seq<FenceEvent>, i: nat, n: nat)
    requires i < n <= |log| && TenureOpen(log, i, n)
    ensures Lease(log, n) == Some(log[LastAccepted(log, i, n)])
    decreases n
  {
    CountedOrIgnored(log, n - 1);
    if i + 1 < n {
      OpenTenureHoldsLease(log, i, n - 1);
    }
  }

  /** Two consecutive acquisitions never overlap: every comment that counts between them is
      the first holder's own, and either that holder released, or the second acquisition is
      dated at or past the expiry the first holder last announced. */
  lemma {:induction false} ConsecutiveTenures(log: seq<FenceEvent>, i: nat, j: nat)
    requires i < j < |log|
    requires Accepted(log, i) && log[i].operation == Acquire
    requires Accepted(log, j) && log[j].operation == Acquire
    requires forall m :: i < m < j && Accepted(log, m) ==> log[m].operation != Acquire
    ensures forall m :: i < m < j && Accepted(log, m) ==> log[m].SameHolder(log[i])
    ensures (exists k :: i < k < j && ReleasedBy(log, i, k))
            || log[LastAccepted(log, i, j)].expiresAtMs <= log[j].atMs
  {
    if TenureOpen(log, i, j) {
      OpenTenureHoldsLease(log, i, j);
    } else {
      var k := ReleaseBetween(log, i, j);
    }
  }

  // The first comment that counts and is not the opener's extension can only be its release.
  lemma BreakIsRelease(log: seq<FenceEvent>, i: nat, k: nat)
    requires i < k < |log| && TenureOpen(log, i, k) && Accepted(log, k) && log[k].operation != Acquire
    requires !(log[k].operation == Extend && log[k].SameHolder(log[i]))
    requires Lease(log, k) == Some(log[LastAccepted(log, i, k)])
    ensures ReleasedBy(log, i, k) && Lease(log, k + 1).None?
  {
    CountedOrIgnored(log, k);
  }

  lemma ReleaseBetween(log: seq<FenceEvent>, i: nat, j: nat) returns (k: nat)
    requires i < j <= |log| && Accepted(log, i) && log[i].operation == Acquire && !TenureOpen(log, i, j)
    requires forall m :: i < m < j && Accepted(log, m) ==> log[m].operation != Acquire
    ensures i < k < j && ReleasedBy(log, i, k)
    ensures forall m :: i < m < j && Accepted(log, m) ==> log[m].SameHolder(log[i])
  {
    hide Lease, Accepted, Step;
    k := FirstBreak(log, i, j);
    OpenTenureHoldsLease(log, i, k);
    BreakIsRelease(log, i, k);
    NothingCountsAfter(log, k, j);
  }

  // The first counted comment after i that is not the opener's own extension.
  lemma {:induction false} FirstBreak(log: seq<FenceEvent>, i: nat, n: nat) returns (k: nat)
    requires i < n <= |log| && Accepted(log, i) && log[i].operation == Acquire && !TenureOpen(log, i, n)
    ensures i < k < n && TenureOpen(log, i, k) && Accepted(log, k)
    ensures !(log[k].operation == Extend && log[k].SameHolder(log[i]))
    decreases n
  {
    if TenureOpen(log, i, n - 1) {
      k := n - 1;
    } else {
      k := FirstBreak(log, i, n - 1);
    }
  }

  // Without a lease only an acquisition counts.
  lemma {:induction false} NothingCountsAfter(log: seq<FenceEvent>, k: nat, j: nat)
    requires k < j <= |log| && Lease(log, k + 1).None?
    requires forall m :: k < m < j && Accepted(log, m) ==> log[m].operation != Acquire
    ensures forall m :: k < m < j ==> !Accepted(log, m)
    ensures Lease(log, j).None?
    decreases j
  {
    if k + 1 < j {
      NothingCountsAfter(log, k, j - 1);
      CountedOrIgnored(log, j - 1);
    }
  }

  // The tenure opened at i is over by comment k: released, or outlived by a new acquisition.
  predicate EndedAt(log: seq<FenceEvent>, i: nat, k: nat)
    requires i < k < |log| && Accepted(log, i)
  {
    || ReleasedBy(log, i, k)
    || (Accepted(log, k) && log[k].operation == Acquire
        && log[LastAccepted(log, i, k)].expiresAtMs <= log[k].atMs
        && forall m :: i < m < k && Accepted(log, m) ==> log[m].SameHolder(log[i]))
  }

  /** Between any two acquisitions, however far apart, the first tenure has ended. */
  lemma TenuresDisjoint(log: seq<FenceEvent>, i: nat, j: nat)
    requires i < j < |log|
    requires Accepted(log, i) && log[i].operation == Acquire
    requires Accepted(log, j) && log[j].operation == Acquire
    ensures exists k :: i < k <= j && EndedAt(log, i, k)
  {
    var next := NextAcquire(log, i, j);
    ConsecutiveTenures(log, i, next);
    if k :| i < k < next && ReleasedBy(log, i, k) {
      assert EndedAt(log, i, k);
    } else {
      assert EndedAt(log, i, next);
    }
  }

  lemma {:induction false} NextAcquire(log: seq<FenceEvent>, i: nat, j: nat) returns (next: nat)
    requires i < j < |log| && Accepted(log, j) && log[j].operation == Acquire
    ensures i < next <= j && Accepted(log, next) && log[next].operation == Acquire
    ensures forall m :: i < m < next && Accepted(log, m) ==> log[m].operation != Acquire
    decreases j
  {
    if m: nat :| i < m < j && Accepted(log, m) && log[m].operation == Acquire {
      next := NextAcquire(log, i, m);
    } else {
      next := j;
    }
  }

  /** Two schedulers that were both told they hold the fence did not hold it at the same
      time: by the later readback the earlier tenure had been released or had run out. */
  lemma ElectedOneAtATime(log: seq<FenceEvent>, i: nat, j: nat, n: nat)
    requires i < j < n <= |log|
    requires Accepted(log, i) && log[i].operation == Acquire && Accepted(log, j) && log[j].operation == Acquire
    requires Lease(log, n).Some? && Lease(log, n).value.SameHolder(log[j])
    ensures !log[i].SameHolder(log[j]) ==> !Lease(log, n).value.SameHolder(log[i])
    ensures exists k :: i < k < n && EndedAt(log, i, k)
  {
    TenuresDisjoint(log, i, j);
  }
}
