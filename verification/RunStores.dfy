/** The workspace and session adapters: two indexes over the same records, one by identity
    and one by attempt, behind an idempotent `ensure`.
 */
module RunStores {
  import opened Domain
  import opened Wrappers
  import opened Identity

  // A workspace (own ID and path) or a session (own ID and the ID of its workspace),
  // bound to one attempt of one issue.
  datatype Binding = Binding(id: Id, companion: Id, issueId: string, attempt: Attempt)

  datatype Store = Store(byId: map<Id, Binding>, byAttempt: map<string, Binding>)

  datatype Ensured = Ensured(store: Store) | Refused

  function LabelOf(b: Binding): string {
    AttemptLabel(b.issueId, b.attempt)
  }

  function Ensure(s: Store, b: Binding): Ensured {
    if LabelOf(b) in s.byAttempt then
      var existing := s.byAttempt[LabelOf(b)];
      if existing.id != b.id || existing.companion != b.companion
      then Refused else Ensured(s)
    else if b.id in s.byId then Refused
    else Ensured(Store(s.byId[b.id := b], s.byAttempt[LabelOf(b) := b]))
  }

  // The two indexes are mutual inverses.
  predicate Inverse(s: Store) {
    && (forall k :: k in s.byAttempt ==>
          var b := s.byAttempt[k]; k == LabelOf(b) && b.id in s.byId && s.byId[b.id] == b)
    && (forall i :: i in s.byId ==>
          var b := s.byId[i]; i == b.id && LabelOf(b) in s.byAttempt && s.byAttempt[LabelOf(b)] == b)
  }

  // Every record of `s` is still there, unchanged, in `t`.
  predicate Extends(s: Store, t: Store) {
    && (forall i :: i in s.byId ==> i in t.byId && t.byId[i] == s.byId[i])
    && (forall k :: k in s.byAttempt ==> k in t.byAttempt && t.byAttempt[k] == s.byAttempt[k])
  }

  /** `ensure` keeps the indexes inverse, never changes an existing record, and succeeds
      exactly when the attempt already has this identity, or has none and the identity is
      unused. */
  lemma EnsureIsIdempotent(s: Store, b: Binding)
    requires Inverse(s)
    ensures var r := Ensure(s, b);
      (r.Ensured? <==> (b.id in s.byId <==> LabelOf(b) in s.byAttempt) && (b.id in s.byId ==> s.byId[b.id] == b))
    ensures var r := Ensure(s, b);
      r.Ensured? ==> && Inverse(r.store) && Extends(s, r.store) && Ensure(r.store, b) == r
                     && r.store.byId.Keys == s.byId.Keys + {b.id} && r.store.byId[b.id] == b
  {
    if LabelOf(b) in s.byAttempt {
      var existing := s.byAttempt[LabelOf(b)];
      AttemptLabelInjective(existing.issueId, existing.attempt, b.issueId, b.attempt);
    }
    forall i | i in s.byId && LabelOf(s.byId[i]) == LabelOf(b) ensures LabelOf(b) in s.byAttempt {
    }
  }

  /** One attempt of one issue has at most one record. */
  lemma OneRecordPerAttempt(s: Store, i: Id, j: Id)
    requires Inverse(s) && i in s.byId && j in s.byId
    requires s.byId[i].issueId == s.byId[j].issueId && s.byId[i].attempt == s.byId[j].attempt
    ensures i == j
  {
    assert s.byAttempt[LabelOf(s.byId[i])] == s.byId[i];
  }

  function WorkspaceOf(run: RunIdentity): Binding {
    Binding(run.workspaceId, run.workspacePath, run.issueId, run.attempt)
  }

  function SessionOf(run: RunIdentity): Binding {
    Binding(run.sessionId, run.workspaceId, run.issueId, run.attempt)
  }

  class FakeWorkspaceAdapter {
    var byId: map<Id, Binding>
    var byAttempt: map<string, Binding>

    ghost function View(): Store
      reads this
    {
      Store(byId, byAttempt)
    }

    constructor ()
      ensures View() == Store(map[], map[])
    {
      byId, byAttempt := map[], map[];
    }

    method EnsureWorkspace(run: RunIdentity) returns (ok: bool)
      modifies this
      ensures var r := Ensure(old(View()), WorkspaceOf(run));
        ok == r.Ensured? && View() == if r.Ensured? then r.store else old(View())
    {
      var key := AttemptLabel(run.issueId, run.attempt);
      if key in byAttempt {
        var existing := byAttempt[key];
        return existing.id == run.workspaceId && existing.companion == run.workspacePath;
      }
      if run.workspaceId in byId {
        return false;
      }
      var workspace := Binding(run.workspaceId, run.workspacePath, run.issueId, run.attempt);
      byId := byId[workspace.id := workspace];
      byAttempt := byAttempt[key := workspace];
      ok := true;
    }
  }

  datatype SessionStatus =
    | SessionRunning | SessionSucceeded | SessionFailed
    | EndedWithoutResponse | TurnDeadline | ContextDeadline | CancelDeadline

  // Both indexes of the source share one mutable session object; its status is kept once.
  class FakeCraftAdapter {
    var byId: map<Id, Binding>
    var byAttempt: map<string, Binding>
    var status: map<Id, SessionStatus>

    ghost function View(): Store
      reads this
    {
      Store(byId, byAttempt)
    }

    ghost predicate Valid()
      reads this
    {
      status.Keys == byId.Keys
    }

    constructor ()
      ensures Valid() && View() == Store(map[], map[]) && status == map[]
    {
      byId, byAttempt, status := map[], map[], map[];
    }

    method EnsureSession(run: RunIdentity) returns (ok: bool)
      requires Valid()
      modifies this
      ensures Valid()
      ensures var r := Ensure(old(View()), SessionOf(run));
        ok == r.Ensured? && View() == if r.Ensured? then r.store else old(View())
      ensures status == StatusAfter(old(status), old(View()), View(), run.sessionId)
    {
      var key := AttemptLabel(run.issueId, run.attempt);
      if key in byAttempt {
        var existing := byAttempt[key];
        return existing.id == run.sessionId && existing.companion == run.workspaceId;
      }
      if run.sessionId in byId {
        return false;
      }
      var session := Binding(run.sessionId, run.workspaceId, run.issueId, run.attempt);
      byId := byId[session.id := session];
      byAttempt := byAttempt[key := session];
      status := status[session.id := SessionRunning];
      ok := true;
    }

    method GetSession(sessionId: Id) returns (s: Option<SessionStatus>)
      requires Valid()
      ensures s == StatusOf(status, sessionId)
    {
      s := if sessionId in byId then Some(status[sessionId]) else None;
    }

    method SetStatus(sessionId: Id, value: SessionStatus) returns (ok: bool)
      requires Valid()
      modifies this`status
      ensures Valid() && ok == (sessionId in byId)
      ensures status == if sessionId in byId then old(status)[sessionId := value] else old(status)
    {
      ok := sessionId in byId;
      if ok {
        status := status[sessionId := value];
      }
    }
  }

  function StatusOf(status: map<Id, SessionStatus>, sessionId: Id): Option<SessionStatus> {
    if sessionId in status then Some(status[sessionId]) else None
  }

  // A session is born running.
  function StatusAfter(status: map<Id, SessionStatus>, before: Store, after: Store, sessionId: Id):
      map<Id, SessionStatus>
  {
    if before == after then status else status[sessionId := SessionRunning]
  }
}
