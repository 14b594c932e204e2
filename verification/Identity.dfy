/** Deterministic run identity: what one attempt of one issue is called, everywhere.
    SHA-256 is modelled as an injective function, so equal digests mean equal seeds.
 */
module Identity {
  import opened Domain
  import opened Wrappers
  import opened Text

  datatype RunIdentity = RunIdentity(
    issueId: string,
    issueIdentifier: string,
    attempt: Attempt,
    sessionId: Id,
    workspaceId: Id,
    workspaceKey: Id,
    workspacePath: Id)

  function Seed(issueId: string, identifier: string, attempt: Attempt): string {
    issueId + "\n" + identifier + "\n" + Decimal(attempt)
  }

  function FenceSeed(issueId: string, attempt: Attempt, version: int, baseSha: string): string {
    issueId + "\n" + Decimal(attempt) + "\n" + Integer(version) + "\n" + baseSha
  }

  // A blank identifier yields no workspace key, and a key that starts with two dots would
  // resolve outside the configured root; both make the source throw.
  predicate Nameable(identifier: string) {
    identifier != "" && !(2 <= |identifier| && identifier[0] == '.' && identifier[1] == '.')
  }

  function ForAttempt(root: string, issueId: string, identifier: string, attempt: Attempt): Option<RunIdentity> {
    if !Nameable(identifier) then None
    else
      var seed := Seed(issueId, identifier, attempt);
      var key := AttemptKey(identifier, attempt, seed);
      Some(RunIdentity(issueId, identifier, attempt, SessionId(seed), WorkspaceId(seed), key, PathUnder(root, key)))
  }

  function ClaimFor(root: string, issueId: string, identifier: string, attempt: Attempt, version: int,
                    baseSha: string, modelProfile: string, nowMs: int, ttlMs: int): Option<Claim>
  {
    match ForAttempt(root, issueId, identifier, attempt)
    case None => None
    case Some(run) =>
      Some(Claim(issueId, identifier, attempt, ClaimFence(FenceSeed(issueId, attempt, version, baseSha)),
                 run.sessionId, run.workspaceId, run.workspaceKey, run.workspacePath, baseSha, modelProfile,
                 nowMs, nowMs, nowMs + ttlMs))
  }

  function IdentityOf(c: Claim): RunIdentity {
    RunIdentity(c.issueId, c.issueIdentifier, c.attempt, c.sessionId, c.workspaceId, c.workspaceKey, c.workspacePath)
  }

  // The key under which the adapters index one attempt.
  function AttemptLabel(issueId: string, attempt: Attempt): string {
    issueId + ":" + Decimal(attempt)
  }

  /** An attempt has no identity exactly when its identifier is blank or would lead out of the
      configured root. */
  lemma NamelessExactly(root: string, issueId: string, identifier: string, attempt: Attempt)
    ensures ForAttempt(root, issueId, identifier, attempt).None? <==> identifier == "" || ".." <= identifier
  {
    assert ".." <= identifier <==> 2 <= |identifier| && identifier[0] == '.' && identifier[1] == '.';
  }

  /** A fence stands for one reading of one issue: for base commits without a line break, two
      fences are equal exactly when issue, attempt, tracker version and base commit all agree. */
  lemma FencesDiffer(i: string, a: Attempt, v: int, sha: string, j: string, b: Attempt, w: int, other: string)
    requires '\n' !in sha && '\n' !in other
    ensures ClaimFence(FenceSeed(i, a, v, sha)) == ClaimFence(FenceSeed(j, b, w, other)) <==> i == j && a == b && v == w && sha == other
  {
    if FenceSeed(i, a, v, sha) == FenceSeed(j, b, w, other) {
      var x, y := i + "\n" + Decimal(a), j + "\n" + Decimal(b);
      assert (x + "\n" + Integer(v)) + ['\n'] + sha == FenceSeed(i, a, v, sha);
      assert (y + "\n" + Integer(w)) + ['\n'] + other == FenceSeed(j, b, w, other);
      LastSeparatorUnique(x + "\n" + Integer(v), sha, y + "\n" + Integer(w), other, '\n');
      assert x + ['\n'] + Integer(v) == x + "\n" + Integer(v) && y + ['\n'] + Integer(w) == y + "\n" + Integer(w);
      LastSeparatorUnique(x, Integer(v), y, Integer(w), '\n');
      assert i + ['\n'] + Decimal(a) == x && j + ['\n'] + Decimal(b) == y;
      LastSeparatorUnique(i, Decimal(a), j, Decimal(b), '\n');
      DecimalInjective(a, b);
      IntegerInjective(v, w);
    }
  }

  /** With a line break in a base commit, two issues can be given one fence. */
  lemma FenceLineBreaksCollide()
    ensures ClaimFence(FenceSeed("a", 1, 1, "1\nx")) == ClaimFence(FenceSeed("a\n1", 1, 1, "x"))
  {
    assert Decimal(1) == "1" && Integer(1) == "1";
    assert FenceSeed("a", 1, 1, "1\nx") == "a\n1\n1\n1\nx" == FenceSeed("a\n1", 1, 1, "x");
  }

  /** The adapters' index key names exactly one attempt of one issue, whatever characters
      the issue ID contains. */
  lemma AttemptLabelInjective(i: string, a: Attempt, j: string, b: Attempt)
    requires AttemptLabel(i, a) == AttemptLabel(j, b)
    ensures i == j && a == b
  {
    assert i + [':'] + Decimal(a) == AttemptLabel(i, a);
    assert j + [':'] + Decimal(b) == AttemptLabel(j, b);
    LastSeparatorUnique(i, Decimal(a), j, Decimal(b), ':');
    DecimalInjective(a, b);
  }

  /** Two attempts share a session (or a workspace) ID exactly when they have the same
      attempt number and the same issue-and-identifier text. */
  lemma SharedIdentity(root: string, i: string, m: string, a: Attempt, j: string, n: string, b: Attempt)
    requires Nameable(m) && Nameable(n)
    ensures var x, y := ForAttempt(root, i, m, a).value, ForAttempt(root, j, n, b).value;
      && (x.sessionId == y.sessionId <==> a == b && i + "\n" + m == j + "\n" + n)
      && (x.workspaceId == y.workspaceId <==> x.sessionId == y.sessionId)
  {
    if Seed(i, m, a) == Seed(j, n, b) {
      assert (i + "\n" + m) + ['\n'] + Decimal(a) == Seed(i, m, a);
      assert (j + "\n" + n) + ['\n'] + Decimal(b) == Seed(j, n, b);
      LastSeparatorUnique(i + "\n" + m, Decimal(a), j + "\n" + n, Decimal(b), '\n');
      DecimalInjective(a, b);
    }
  }

  /** For issues whose IDs carry no line break, every (issue, identifier, attempt) has its
      own session and workspace ID. */
  lemma IdentityInjective(root: string, i: string, m: string, a: Attempt, j: string, n: string, b: Attempt)
    requires Nameable(m) && Nameable(n) && '\n' !in i && '\n' !in j
    ensures var x, y := ForAttempt(root, i, m, a).value, ForAttempt(root, j, n, b).value;
      x.sessionId == y.sessionId || x.workspaceId == y.workspaceId ==> i == j && m == n && a == b
  {
    SharedIdentity(root, i, m, a, j, n, b);
    if i + "\n" + m == j + "\n" + n {
      assert i + ['\n'] + m == i + "\n" + m && j + ['\n'] + n == j + "\n" + n;
      FirstSeparatorUnique(i, m, j, n, '\n');
    }
  }

  /** Without that restriction two different issues can be given one identity. */
  lemma LineBreaksCollide(root: string)
    ensures var x, y := ForAttempt(root, "a\nb", "c", 1).value, ForAttempt(root, "a", "b\nc", 1).value;
      x.issueId != y.issueId && x.sessionId == y.sessionId
  {
    assert "a\nb" + "\n" + "c" == "a" + "\n" + "b\nc";
    SharedIdentity(root, "a\nb", "c", 1, "a", "b\nc", 1);
  }
}
