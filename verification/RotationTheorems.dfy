/** The promises of the rotation tool, over any number of runs, each cut off anywhere. */
module RotationTheorems {
  import opened Wrappers
  import opened Text
  import opened Keys
  import opened SecretsVault
  import opened Rotation
  import opened RotationRuns
  import EnvFile
  import EnvLines
  import AuditChain

  // ---------- Nobody is locked out ----------

  lemma FinalizedKeepsSetting(e: Epoch, at: string, k: Key)
    requires Plain(e.rotation) && k in {DbHost, DbUser, DbName, DbPort}
    ensures Setting(Finalized(e.vault, e.rotation, at), NewEnv(e), k) == Setting(e.vault, e.start.env, k)
  {
    hide EnvFile.Rendered, NewEnv, EnvFile.EnvValue, LoadPending, Finalized, Unrelated, Plain;
    ConnectionSettings(k);
    FinalizedFacts(e.vault, e.rotation, at);
    NewEnvKeepsSetting(e, k);
  }

  lemma ConnectionSettings(k: Key)
    requires k in {DbHost, DbUser, DbName, DbPort}
    ensures Unrelated(k) && !Rotated(k) && !EnvLines.Obsolete(k)
  {
  }

  lemma FinalizedPromotes(e: Epoch, at: string, k: Key)
    requires Plain(e.rotation) && Rotated(k)
    ensures Setting(Finalized(e.vault, e.rotation, at), NewEnv(e), k) == Ok(Replacement(e.rotation, k))
  {
    hide EnvFile.Rendered, EnvFile.EnvValue, LoadPending, Finalized;
    FinalizedFacts(e.vault, e.rotation, at);
    StripFacts(Replacement(e.rotation, k));
  }

  lemma FinalizedSettings(e: Epoch, at: string)
    requires Plain(e.rotation)
    ensures LoadSettings(Finalized(e.vault, e.rotation, at), NewEnv(e)) == LoadSettings(e.vault, e.start.env)
    ensures CurrentSecrets(Finalized(e.vault, e.rotation, at), NewEnv(e)) ==
      Ok(Current(e.rotation.appPassword, e.rotation.rootPassword, e.rotation.jwtSecret))
  {
    hide EnvFile.Rendered, NewEnv, Setting, Finalized, IsUserName, IsPort, Plain;
    FinalizedKeepsSetting(e, at, DbHost);
    FinalizedKeepsSetting(e, at, DbUser);
    FinalizedKeepsSetting(e, at, DbName);
    FinalizedKeepsSetting(e, at, DbPort);
    FinalizedPromotes(e, at, DbPassword);
    FinalizedPromotes(e, at, RootPassword);
    FinalizedPromotes(e, at, JwtSecret);
  }

  /** After completion the promoted secrets open both accounts, and nothing is pending. */
  lemma FinishedIsSafe(e: Epoch, w: World, at: string)
    requires GoodEpoch(e) && Finished(e, w, at)
    ensures Safe(w) && LoadPending(w.vault) == Ok(None)
  {
    hide EnvFile.Rendered, NewEnv, LoadSettings, CurrentSecrets, LoadPending, Authenticates, Finalized, LogGrows, Plain;
    EpochUser(e);
    FinalizedSettings(e, at);
    FinalizedFacts(e.vault, e.rotation, at);
    SecretsNotEmpty(e.rotation);
    var current := CurrentSecrets(e.vault, e.start.env).value;
    var same := e.start.(logins := w.logins);
    StagedOpens(e.start, same, e.user, [e.rotation.appPassword, current.appPassword], e.rotation.appPassword);
    StagedOpens(e.start, same, ROOT, [e.rotation.rootPassword, current.rootPassword], e.rotation.rootPassword);
    SameTables(same, w);
  }

  lemma SecretsNotEmpty(r: RotationSecrets)
    requires Plain(r)
    ensures r.appPassword != "" && r.rootPassword != "" && r.jwtSecret != ""
  {
  }

  /** One run keeps the server safe, wherever it is cut off and whatever it draws. */
  lemma OneRunIsSafe(w: World, a: Attempt)
    requires Safe(w) && DrawsHex(w, a.generated)
    ensures Safe(RunAttempt(w, a).0)
  {
    hide EnvFile.Rendered, InProgress, Finished, GoodEpoch, Safe, Plain, PlanFor, RunAttempt, DrawsHex, GoesAhead,
         LoadPending;
    OneRun(w, a);
    if GoesAhead(w, a.generated) {
      AcceptedIsPlain(w, a.generated);
      PlanIsGood(w, a.generated);
      var p := PlanFor(w, a.generated).value;
      var (w', done) := RunAttempt(w, a);
      if done {
        FinishedIsSafe(EpochOf(w, p), w', a.completedAt);
      } else if w' != w {
        InProgressIsSafe(EpochOf(w, p), w');
      }
    }
  }

  /** What every run draws is hexadecimal; nothing is assumed about repeated values or lengths. */
  ghost predicate AllDrawn(attempts: seq<Attempt>) {
    forall i :: 0 <= i < |attempts| ==> Hexadecimal(attempts[i].generated)
  }

  /**
   * Over any number of runs, crashes and later rotations, the settings stay readable, the vault
   * is never half prepared, and the passwords the next run tries open both accounts.
   */
  lemma {:induction false} NeverLockedOut(w: World, attempts: seq<Attempt>)
    requires Safe(w) && AllDrawn(attempts)
    ensures Safe(RunAll(w, attempts))
  {
    hide Safe, Hexadecimal, RunAttempt;
    if attempts != [] {
      NeverLockedOut(w, attempts[..|attempts| - 1]);
      OneRunIsSafe(RunAll(w, attempts[..|attempts| - 1]), attempts[|attempts| - 1]);
    }
  }

  /**
   * A run that is not cut off completes exactly when its secrets are staged or accepted and the
   * audit chain is at its head.
   */
  lemma UninterruptedRunCompletes(w: World, a: Attempt)
    requires Safe(w) && DrawsHex(w, a.generated)
    ensures PlanFor(w, a.generated).Ok? <==> GoesAhead(w, a.generated)
    ensures PlanFor(w, a.generated).Err? ==> RunAttempt(w, a) == (w, false)
    ensures PlanFor(w, a.generated).Ok? && a.stop >= |Script(w, PlanFor(w, a.generated).value, a)| ==>
      (RunAttempt(w, a).1 <==> AuditChain.Ready(w.log))
  {
    hide Safe, DrawsHex, RunAttempt, PlanFor, Finished, InProgress, Script, AuditChain.Ready, GoesAhead;
    OneRun(w, a);
  }

  /** A staged rotation is the one that the next run carries out, whatever it could draw. */
  lemma StagedRotationIsResumed(w: World, r: RotationSecrets, a: Attempt)
    requires Safe(w) && LoadPending(w.vault) == Ok(Some(r))
    ensures PlanFor(w, a.generated).Ok? && PlanFor(w, a.generated).value.preparation == Preparation(w.vault, r, true)
    ensures var (w', done) := RunAttempt(w, a);
      if done then
        && LoadPending(w'.vault) == Ok(None) && Raw(w'.vault, RootPassword) == r.rootPassword
        && HasPassword(w'.logins, ROOT, r.rootPassword)
        && Raw(w'.vault, LastRotationId) == r.rotationId && Raw(w'.vault, LastRotationAt) == a.completedAt
      else
        LoadPending(w'.vault) == Ok(Some(r))
  {
    hide EnvFile.Rendered, LoadSettings, CurrentSecrets, LoadPending, Authenticates, Finalized, Plain, Safe, Perform,
         RunAttempt, LogGrows, Mixed, AllStaged, GoodEpoch, Hexadecimal, ValidSecrets;
    OneRun(w, a);
    PlanIsGood(w, a.generated);
    PlanLoads(w, a.generated, PlanFor(w, a.generated).value);
    FinalizedFacts(w.vault, r, a.completedAt);
    EpochUser(EpochOf(w, PlanFor(w, a.generated).value));
  }

  // ---------- Interrupted runs resume one rotation ----------

  /** The rotation that stages the given secrets in a world where nothing is pending. */
  function StartedBy(w: World, r: RotationSecrets): Epoch
    requires LoadSettings(w.vault, w.env).Ok?
  {
    Epoch(w, Staged(w.vault, r), r, LoadSettings(w.vault, w.env).value.user)
  }

  ghost predicate Idle(w: World) {
    Safe(w) && LoadPending(w.vault) == Ok(None)
  }

  lemma MixedTwice(a: seq<Login>, b: seq<Login>, c: seq<Login>, user: string, r: RotationSecrets)
    requires Mixed(a, b, user, r) && Mixed(b, c, user, r) && user != ROOT
    ensures Mixed(a, c, user, r)
    ensures AllStaged(b, user, r) ==> AllStaged(c, user, r)
    ensures RotatedLogins(b, user, r) == RotatedLogins(a, user, r)
  {
  }

  lemma LogGrowsTwice(a: AuditChain.Log, b: AuditChain.Log, c: AuditChain.Log, id: string)
    requires LogGrows(a, b, id) && LogGrows(b, c, id)
    ensures LogGrows(a, c, id)
  {
    hide AuditChain.Ready;
    forall i | |a.rows| <= i < |c.rows|
      ensures c.rows[i].payload.action == AuditChain.Phase1CredentialRotation
      ensures c.rows[i].payload.newValues.Rotation? && c.rows[i].payload.newValues.rotationId == id
    {
      if i < |b.rows| {
        assert c.rows[i] == b.rows[i];
      }
    }
  }

  /** What a resumed run does counts from the start of the rotation. */
  lemma Compose(e: Epoch, w: World, w': World, at: string)
    requires GoodEpoch(e) && InProgress(e, w)
    ensures InProgress(Epoch(w, e.vault, e.rotation, e.user), w') ==> InProgress(e, w')
    ensures Finished(Epoch(w, e.vault, e.rotation, e.user), w', at) ==> Finished(e, w', at)
  {
    hide EnvFile.Rendered, LoadPending, LoadSettings, CurrentSecrets, Reachable, Plain, Finalized, LogGrows, Mixed,
         AllStaged, RotatedLogins;
    EpochUser(e);
    RewriteKeepsProgress(e, w);
    var e' := Epoch(w, e.vault, e.rotation, e.user);
    assert NewEnv(e') == NewEnv(e);
    if LogGrows(w.log, w'.log, e.rotation.rotationId) {
      LogGrowsTwice(e.start.log, w.log, w'.log, e.rotation.rotationId);
      GrownRows(e.start.log, w.log, w'.log, e.rotation.rotationId);
    }
    if Mixed(w.logins, w'.logins, e.user, e.rotation) {
      MixedTwice(e.start.logins, w.logins, w'.logins, e.user, e.rotation);
    }
    MixedSelf(w.logins, e.user, e.rotation);
    MixedTwice(e.start.logins, w.logins, w.logins, e.user, e.rotation);
  }

  lemma GrownRows(a: AuditChain.Log, b: AuditChain.Log, c: AuditChain.Log, id: string)
    requires LogGrows(a, b, id) && LogGrows(b, c, id)
    ensures |a.rows| <= |b.rows| <= |c.rows|
  {
  }

  lemma MixedSelf(logins: seq<Login>, user: string, r: RotationSecrets)
    ensures Mixed(logins, logins, user, r)
  {
  }

  /** A run during a rotation resumes it, whatever fresh secrets it could have drawn. */
  lemma ResumedRun(e: Epoch, w: World, a: Attempt)
    requires GoodEpoch(e) && InProgress(e, w)
    ensures var (w', done) := RunAttempt(w, a);
      if done then Finished(e, w', a.completedAt) else InProgress(e, w')
  {
    hide EnvFile.Rendered, Finished, GoodEpoch, Safe, Plain, PlanFor, RunAttempt, InProgress, LoadPending, Hexadecimal,
         ValidSecrets;
    InProgressIsSafe(e, w);
    StagedIsLoaded(e, w);
    OneRun(w, a);
    PlanInProgress(e, w, a.generated);
    Compose(e, w, RunAttempt(w, a).0, a.completedAt);
  }

  lemma StagedIsLoaded(e: Epoch, w: World)
    requires GoodEpoch(e) && InProgress(e, w)
    ensures LoadPending(w.vault) == Ok(Some(e.rotation))
  {
    hide EnvFile.Rendered, LoadPending, LoadSettings, CurrentSecrets, Reachable, Plain, LogGrows, Mixed, AllStaged;
  }

  /**
   * A run from an idle server starts a rotation with its own secrets, if they are accepted, or
   * leaves no trace.
   */
  lemma FirstRun(w: World, a: Attempt)
    requires Idle(w) && Hexadecimal(a.generated)
    ensures LoadSettings(w.vault, w.env).Ok?
    ensures ValidSecrets(a.generated) ==> GoodEpoch(StartedBy(w, a.generated))
    ensures var (w', done) := RunAttempt(w, a);
      if done then ValidSecrets(a.generated) && Finished(StartedBy(w, a.generated), w', a.completedAt)
      else w' == w || (ValidSecrets(a.generated) && InProgress(StartedBy(w, a.generated), w'))
  {
    hide EnvFile.Rendered, Finished, GoodEpoch, Plain, PlanFor, RunAttempt, InProgress, LoadSettings, LoadPending,
         CurrentSecrets, Staged, Authenticates, ValidSecrets, Hexadecimal;
    OneRun(w, a);
    if ValidSecrets(a.generated) {
      AcceptedIsPlain(w, a.generated);
      PlanIsGood(w, a.generated);
      PlanLoads(w, a.generated, PlanFor(w, a.generated).value);
    }
  }

  /** Whether the i-th run of a sequence completes. */
  predicate Completes(w: World, attempts: seq<Attempt>, i: nat)
    requires i < |attempts|
  {
    RunAttempt(RunAll(w, attempts[..i]), attempts[i]).1
  }

  ghost predicate NoneCompletes(w: World, attempts: seq<Attempt>) {
    forall i :: 0 <= i < |attempts| ==> !Completes(w, attempts, i)
  }

  /** Some run of the sequence drew accepted secrets and staged the rotation that is in progress. */
  ghost predicate StartedBySome(w: World, attempts: seq<Attempt>, now: World)
    requires LoadSettings(w.vault, w.env).Ok?
  {
    exists i :: 0 <= i < |attempts| && ValidSecrets(attempts[i].generated)
      && InProgress(StartedBy(w, attempts[i].generated), now)
  }

  /**
   * Until a run completes, the server is either untouched or in the middle of the one rotation
   * that some run staged; all later runs resume that one.
   */
  lemma {:induction false} InterruptedRuns(w: World, attempts: seq<Attempt>)
    requires Idle(w) && AllDrawn(attempts) && NoneCompletes(w, attempts)
    ensures LoadSettings(w.vault, w.env).Ok?
    ensures RunAll(w, attempts) == w || StartedBySome(w, attempts, RunAll(w, attempts))
  {
    hide EnvFile.Rendered, Safe, Hexadecimal, ValidSecrets, InProgress, LoadSettings, RunAttempt, GoodEpoch,
         StartedBy;
    IdleSettings(w);
    if attempts != [] {
      var n := |attempts| - 1;
      var init, last := attempts[..n], attempts[n];
      forall i | 0 <= i < n ensures !Completes(w, init, i) {
        assert init[..i] == attempts[..i];
        assert !Completes(w, attempts, i);
      }
      InterruptedRuns(w, init);
      var before := RunAll(w, init);
      assert !Completes(w, attempts, n);
      if before == w {
        FirstRun(w, last);
        assert attempts[n] == last;
      } else {
        var i :| 0 <= i < n && ValidSecrets(init[i].generated)
          && InProgress(StartedBy(w, init[i].generated), before);
        FirstRun(w, init[i]);
        ResumedRun(StartedBy(w, init[i].generated), before, last);
        assert attempts[i] == init[i];
      }
    }
  }

  lemma IdleSettings(w: World)
    requires Idle(w)
    ensures LoadSettings(w.vault, w.env).Ok?
  {
  }

  /** A single run that completes with the given secrets at the given time. */
  predicate CleanRun(w: World, clean: Attempt, generated: RotationSecrets, at: string) {
    clean.generated == generated && clean.completedAt == at && RunAttempt(w, clean).1
  }

  /**
   * The first completed run finishes the rotation staged by one of the runs: every account, the
   * .env file, the vault and the sessions are what one uninterrupted run with those secrets
   * leaves; only the audit log may hold additional events of the same rotation.
   */
  lemma FirstCompletion(w: World, attempts: seq<Attempt>) returns (i: nat)
    requires Idle(w) && AllDrawn(attempts) && attempts != []
    requires NoneCompletes(w, attempts[..|attempts| - 1]) && Completes(w, attempts, |attempts| - 1)
    ensures i < |attempts| && LoadSettings(w.vault, w.env).Ok? && ValidSecrets(attempts[i].generated)
    ensures Finished(StartedBy(w, attempts[i].generated), RunAll(w, attempts), attempts[|attempts| - 1].completedAt)
    ensures Raw(RunAll(w, attempts).vault, LastRotationId) == attempts[i].generated.rotationId
    ensures Raw(RunAll(w, attempts).vault, LastRotationAt) == attempts[|attempts| - 1].completedAt
    ensures forall clean: Attempt ::
      CleanRun(w, clean, attempts[i].generated, attempts[|attempts| - 1].completedAt) ==>
      RunAll(w, attempts) == RunAttempt(w, clean).0.(log := RunAll(w, attempts).log)
  {
    hide EnvFile.Rendered, Safe, Hexadecimal, ValidSecrets, InProgress, LoadSettings, RunAttempt, GoodEpoch,
         StartedBy, Finished;
    var n := |attempts| - 1;
    var init, last := attempts[..n], attempts[n];
    IdleSettings(w);
    InterruptedRuns(w, init);
    var before := RunAll(w, init);
    if before == w {
      i := n;
      FirstRun(w, last);
    } else {
      i :| 0 <= i < n && ValidSecrets(init[i].generated) && InProgress(StartedBy(w, init[i].generated), before);
      FirstRun(w, init[i]);
      ResumedRun(StartedBy(w, init[i].generated), before, last);
    }
    var e := StartedBy(w, attempts[i].generated);
    FinishedNamesRotation(w, attempts[i].generated, RunAll(w, attempts), last.completedAt);
    forall clean: Attempt | CleanRun(w, clean, attempts[i].generated, last.completedAt)
      ensures RunAll(w, attempts) == RunAttempt(w, clean).0.(log := RunAll(w, attempts).log)
    {
      FirstRun(w, clean);
      FinishedAgree(e, RunAll(w, attempts), RunAttempt(w, clean).0, last.completedAt);
    }
  }

  lemma FinishedNamesRotation(w: World, r: RotationSecrets, now: World, at: string)
    requires LoadSettings(w.vault, w.env).Ok? && Finished(StartedBy(w, r), now, at)
    ensures Raw(now.vault, LastRotationId) == r.rotationId && Raw(now.vault, LastRotationAt) == at
  {
    hide LoadSettings, Staged, EnvFile.Rendered, LoadPending, Finalized, LogGrows;
    FinalizedFacts(Staged(w.vault, r), r, at);
  }

  lemma FinishedAgree(e: Epoch, a: World, b: World, at: string)
    requires Finished(e, a, at) && Finished(e, b, at)
    ensures a == b.(log := a.log)
  {
  }

  // ---------- What a completed run has done ----------

  /** No step touches the log, the sessions or the file. */
  ghost predicate BeforeTheEnd(steps: seq<Step>) {
    forall i :: 0 <= i < |steps| ==> !steps[i].RevokeAndAudit? && !steps[i].WriteEnv?
  }

  lemma {:induction false} BeforeTheEndKeeps(w: World, steps: seq<Step>, stop: nat)
    requires BeforeTheEnd(steps)
    ensures var w' := Perform(w, steps, stop).0;
      w'.log == w.log && w'.sessions == w.sessions && w'.env == w.env
    decreases |steps|
  {
    hide Authenticates, HostsOf, Altered;
    if steps != [] && stop > 0 && Do(w, steps[0]).Some? {
      BeforeTheEndKeeps(Do(w, steps[0]).value, steps[1..], stop - 1);
    }
  }

  lemma FinishDone(w: World, p: Plan, env: string, a: Attempt, stop: nat)
    requires Perform(w, FinishSteps(p, env, a), stop).1
    ensures var w', r := Perform(w, FinishSteps(p, env, a), stop).0, p.preparation.rotation;
      && w'.vault == Finalized(p.preparation.vault, r, a.completedAt) && w'.env == EnvFile.Rendered(env, r)
      && w'.sessions == {} && w'.logins == w.logins
      && |w'.log.rows| == |w.log.rows| + 1 && w.log.rows <= w'.log.rows
      && w'.log.rows[|w.log.rows|].payload == RotationEvent(r.rotationId, |w.sessions|, a.eventUuid, a.eventTime)
  {
    hide Authenticates, EnvFile.Rendered, Finalized;
    var r := p.preparation.rotation;
    var checks := ValidateSteps(p);
    var revoke := RevokeAndAudit(r.rotationId, a.eventUuid, a.eventTime);
    var writes := WriteSteps(p, env, a.completedAt);
    PerformConcat(w, checks, [revoke] + writes, stop);
    ChecksChangeNothing(w, checks, stop);
    PerformFirst(w, revoke, writes, stop - 2);
    var next := Do(w, revoke).value;
    assert writes == [writes[0]] + ([writes[1]] + []);
    PerformFirst(next, writes[0], [writes[1]] + [], stop - 3);
    PerformFirst(next.(env := EnvFile.Rendered(env, r)), writes[1], [], stop - 4);
  }

  /** The staged secrets, or the drawn ones. */
  function CarriedOut(w: World, a: Attempt): RotationSecrets {
    match LoadPending(w.vault)
    case Ok(Some(r)) => r
    case _ => a.generated
  }

  /**
   * From any server, a completed run has put its secrets, its rotation's id and its time into the
   * vault, rewritten the file, and ended every session in one event that counts them.
   */
  lemma CompletedRun(w: World, a: Attempt)
    requires RunAttempt(w, a).1
    ensures var w', r := RunAttempt(w, a).0, CarriedOut(w, a);
      && Raw(w'.vault, DbPassword) == r.appPassword && Raw(w'.vault, RootPassword) == r.rootPassword
      && Raw(w'.vault, JwtSecret) == r.jwtSecret && LoadPending(w'.vault) == Ok(None)
      && Raw(w'.vault, LastRotationId) == r.rotationId && Raw(w'.vault, LastRotationAt) == a.completedAt
      && w'.env == EnvFile.Rendered(w.env, r) && w'.sessions == {}
      && |w'.log.rows| == |w.log.rows| + 1 && w.log.rows <= w'.log.rows
      && var event := w'.log.rows[|w.log.rows|].payload;
         && event.newValues == AuditChain.Rotation(r.rotationId, |w.sessions|)
         && event.uuid == a.eventUuid && event.time == a.eventTime && event.origin == AuditChain.LIVE
         && event.action == AuditChain.Phase1CredentialRotation && event.table == AuditChain.SystemSecurity
  {
    hide EnvFile.Rendered, Finalized, LoadSettings, CurrentSecrets, LoadPending, FinishSteps, Perform, ValidSecrets,
         Staged, HostsOf;
    var p := PlanFor(w, a.generated).value;
    var start := PreflightSteps(p) + StageSteps(p) + [Connect(ROOT, RootCandidates(p))] + AlterAllSteps(p, w.logins);
    PerformConcat(w, start, FinishSteps(p, w.env, a), a.stop);
    BeforeTheEndKeeps(w, start, a.stop);
    FinishDone(Perform(w, start, a.stop).0, p, w.env, a, a.stop - |start|);
    FinalizedFacts(p.preparation.vault, p.preparation.rotation, a.completedAt);
  }

  /** The revoked sessions that rotation events record. */
  function RevokedIn(rows: seq<AuditChain.Row>): nat {
    if rows == [] then 0
    else
      var values := rows[|rows| - 1].payload.newValues;
      RevokedIn(rows[..|rows| - 1]) + if values.Rotation? then values.sessionsRevoked else 0
  }

  lemma {:induction false} PerformCountsSessions(w: World, steps: seq<Step>, stop: nat)
    ensures var w' := Perform(w, steps, stop).0;
      RevokedIn(w'.log.rows) + |w'.sessions| == RevokedIn(w.log.rows) + |w.sessions|
    decreases |steps|
  {
    hide Authenticates, HostsOf, Altered;
    if steps != [] && stop > 0 && Do(w, steps[0]).Some? {
      var next := Do(w, steps[0]).value;
      if steps[0].RevokeAndAudit? {
        assert next.log.rows[..|w.log.rows|] == w.log.rows;
      }
      PerformCountsSessions(next, steps[1..], stop - 1);
    }
  }

  /** Over any runs, cut off anywhere, every session is still alive or counted in one rotation event. */
  lemma {:induction false} SessionsAreCounted(w: World, attempts: seq<Attempt>)
    ensures var now := RunAll(w, attempts);
      RevokedIn(now.log.rows) + |now.sessions| == RevokedIn(w.log.rows) + |w.sessions|
  {
    hide PlanFor, Script, Perform, RevokedIn;
    if attempts != [] {
      var before, last := RunAll(w, attempts[..|attempts| - 1]), attempts[|attempts| - 1];
      SessionsAreCounted(w, attempts[..|attempts| - 1]);
      if PlanFor(before, last.generated).Ok? {
        PerformCountsSessions(before, Script(before, PlanFor(before, last.generated).value, last), last.stop);
      }
    }
  }

  // ---------- The audit chain ----------

  function Revocations(steps: seq<Step>): nat {
    if steps == [] then 0 else (if steps[0].RevokeAndAudit? then 1 else 0) + Revocations(steps[1..])
  }

  ghost predicate Unused(log: AuditChain.Log, uuid: nat) {
    forall i :: 0 <= i < |log.rows| ==> log.rows[i].payload.uuid != uuid
  }

  lemma {:induction false} PerformKeepsChain(w: World, steps: seq<Step>, stop: nat, uuid: nat)
    requires AuditChain.Verified(w.log)
    requires forall i :: 0 <= i < |steps| && steps[i].RevokeAndAudit? ==> steps[i].uuid == uuid
    requires Revocations(steps) == 0 || (Revocations(steps) == 1 && Unused(w.log, uuid))
    ensures AuditChain.Verified(Perform(w, steps, stop).0.log)
    decreases |steps|
  {
    hide AuditChain.Verified, Authenticates, HostsOf;
    if steps != [] && stop > 0 && Do(w, steps[0]).Some? {
      var next := Do(w, steps[0]).value;
      if steps[0].RevokeAndAudit? {
        var event := RotationEvent(steps[0].rotationId, |w.sessions|, uuid, steps[0].time);
        AuditChain.AppendKeepsVerified(w.log, event);
      }
      forall i | 0 <= i < |steps[1..]| && steps[1..][i].RevokeAndAudit? ensures steps[1..][i].uuid == uuid {
        assert steps[1..][i] == steps[i + 1];
      }
      PerformKeepsChain(next, steps[1..], stop - 1, uuid);
    }
  }

  lemma {:induction false} RevocationsConcat(a: seq<Step>, b: seq<Step>)
    ensures Revocations(a + b) == Revocations(a) + Revocations(b)
  {
    if a == [] {
      assert a + b == b;
    } else {
      RevocationsConcat(a[1..], b);
      assert (a + b)[1..] == a[1..] + b;
    }
  }

  lemma {:induction false} NoRevocations(steps: seq<Step>)
    requires forall i :: 0 <= i < |steps| ==> !steps[i].RevokeAndAudit?
    ensures Revocations(steps) == 0
  {
    if steps != [] {
      NoRevocations(steps[1..]);
    }
  }

  /** A run, wherever it is cut off, leaves a verified audit chain verified. */
  lemma ChainStaysVerified(w: World, a: Attempt)
    requires AuditChain.Verified(w.log) && Unused(w.log, a.eventUuid)
    ensures AuditChain.Verified(RunAttempt(w, a).0.log)
  {
    hide AuditChain.Verified, PlanFor, EnvFile.Rendered, Unused, Perform, Finalized;
    if PlanFor(w, a.generated).Ok? {
      var p := PlanFor(w, a.generated).value;
      var steps := Script(w, p, a);
      var finish := FinishSteps(p, w.env, a);
      var start := PreflightSteps(p) + StageSteps(p) + [Connect(ROOT, RootCandidates(p))] + AlterAllSteps(p, w.logins);
      assert steps == start + finish;
      RevocationsConcat(start, finish);
      NoRevocations(start);
      assert finish == finish[..2] + [finish[2]] + finish[3..];
      RevocationsConcat(finish[..2] + [finish[2]], finish[3..]);
      RevocationsConcat(finish[..2], [finish[2]]);
      NoRevocations(finish[..2]);
      NoRevocations(finish[3..]);
      NoRevocations([finish[2]][1..]);
      PerformKeepsChain(w, steps, a.stop, a.eventUuid);
    }
  }

  // ---------- The audit chain over any runs ----------

  /** The rows stay, and new ones record the event. */
  ghost predicate Adds(before: AuditChain.Log, after: AuditChain.Log, uuid: nat) {
    && before.rows <= after.rows
    && (forall i :: |before.rows| <= i < |after.rows| ==> after.rows[i].payload.uuid == uuid)
    && (AuditChain.Ready(after) <==> AuditChain.Ready(before))
  }

  lemma {:induction false} PerformAdds(w: World, steps: seq<Step>, stop: nat, uuid: nat)
    requires forall i :: 0 <= i < |steps| && steps[i].RevokeAndAudit? ==> steps[i].uuid == uuid
    ensures Adds(w.log, Perform(w, steps, stop).0.log, uuid)
    decreases |steps|
  {
    hide Authenticates, HostsOf, AuditChain.Ready;
    if steps != [] && stop > 0 && Do(w, steps[0]).Some? {
      var next := Do(w, steps[0]).value;
      if steps[0].RevokeAndAudit? {
        AuditChain.AppendLinksToHead(w.log, RotationEvent(steps[0].rotationId, |w.sessions|, uuid, steps[0].time));
      }
      forall i | 0 <= i < |steps[1..]| && steps[1..][i].RevokeAndAudit? ensures steps[1..][i].uuid == uuid {
        assert steps[1..][i] == steps[i + 1];
      }
      PerformAdds(next, steps[1..], stop - 1, uuid);
    }
  }

  lemma RunAdds(w: World, a: Attempt)
    ensures Adds(w.log, RunAttempt(w, a).0.log, a.eventUuid)
  {
    hide PlanFor, Script, Perform, AuditChain.Ready;
    if PlanFor(w, a.generated).Ok? {
      var p := PlanFor(w, a.generated).value;
      ScriptEvent(w, p, a);
      PerformAdds(w, Script(w, p, a), a.stop, a.eventUuid);
    }
  }

  lemma ScriptEvent(w: World, p: Plan, a: Attempt)
    ensures forall i :: 0 <= i < |Script(w, p, a)| && Script(w, p, a)[i].RevokeAndAudit? ==>
      Script(w, p, a)[i].uuid == a.eventUuid
  {
    hide EnvFile.Rendered, Finalized, HostsOf;
  }

  /** Any runs leave the log at its head exactly when it was there before them. */
  lemma {:induction false} HeadStays(w: World, attempts: seq<Attempt>)
    ensures AuditChain.Ready(RunAll(w, attempts).log) <==> AuditChain.Ready(w.log)
  {
    hide RunAttempt, AuditChain.Ready;
    if attempts != [] {
      var init := attempts[..|attempts| - 1];
      HeadStays(w, init);
      RunAdds(RunAll(w, init), attempts[|attempts| - 1]);
    }
  }

  /**
   * After any runs, cut off anywhere, a run that is not cut off and whose secrets are staged or
   * accepted completes exactly when the audit log was at its head before the first of them.
   */
  lemma LaterRunCompletes(w: World, attempts: seq<Attempt>, a: Attempt)
    requires Safe(w) && AllDrawn(attempts) && Hexadecimal(a.generated)
    ensures var before := RunAll(w, attempts);
      && (PlanFor(before, a.generated).Ok? <==> GoesAhead(before, a.generated))
      && (PlanFor(before, a.generated).Ok? && a.stop >= |Script(before, PlanFor(before, a.generated).value, a)| ==>
            (RunAttempt(before, a).1 <==> AuditChain.Ready(w.log)))
  {
    hide Safe, RunAttempt, PlanFor, Script, AuditChain.Ready, GoesAhead, Hexadecimal;
    NeverLockedOut(w, attempts);
    HeadStays(w, attempts);
    UninterruptedRunCompletes(RunAll(w, attempts), a);
  }

  ghost predicate DistinctEventIds(attempts: seq<Attempt>) {
    forall i, j :: 0 <= i < j < |attempts| ==> attempts[i].eventUuid != attempts[j].eventUuid
  }

  /** A verified audit chain stays verified through any runs that draw new event identifiers. */
  lemma {:induction false} ChainStaysVerifiedThroughout(w: World, attempts: seq<Attempt>)
    requires AuditChain.Verified(w.log) && DistinctEventIds(attempts)
    requires forall i :: 0 <= i < |attempts| ==> Unused(w.log, attempts[i].eventUuid)
    ensures AuditChain.Verified(RunAll(w, attempts).log)
    ensures forall uuid | Unused(w.log, uuid) && forall i :: 0 <= i < |attempts| ==> attempts[i].eventUuid != uuid ::
      Unused(RunAll(w, attempts).log, uuid)
  {
    hide RunAttempt, AuditChain.Ready, AuditChain.Verified;
    if attempts != [] {
      var init, last := attempts[..|attempts| - 1], attempts[|attempts| - 1];
      ChainStaysVerifiedThroughout(w, init);
      var before := RunAll(w, init);
      forall i | 0 <= i < |init| ensures init[i].eventUuid != last.eventUuid {
        assert attempts[i] == init[i];
      }
      ChainStaysVerified(before, last);
      RunAdds(before, last);
      forall uuid | Unused(w.log, uuid) && forall i :: 0 <= i < |attempts| ==> attempts[i].eventUuid != uuid
        ensures Unused(RunAll(w, attempts).log, uuid)
      {
        assert attempts[|attempts| - 1].eventUuid != uuid;
        forall i | 0 <= i < |init| ensures init[i].eventUuid != uuid {
          assert attempts[i] == init[i];
        }
        UnusedStays(before.log, RunAll(w, attempts).log, last.eventUuid, uuid);
      }
    }
  }

  lemma UnusedStays(before: AuditChain.Log, after: AuditChain.Log, added: nat, uuid: nat)
    requires Adds(before, after, added) && Unused(before, uuid) && uuid != added
    ensures Unused(after, uuid)
  {
    hide AuditChain.Ready;
    forall i | 0 <= i < |after.rows| ensures after.rows[i].payload.uuid != uuid {
      if i < |before.rows| {
        assert after.rows[i] == before.rows[i];
      }
    }
  }

  // ---------- There is such a server ----------

  function ExampleVault(): Vault {
    map[DbHost := "h", DbUser := "u", DbName := "d", DbPort := "1",
        DbPassword := "a", RootPassword := "b", JwtSecret := "c"]
  }

  /** A server with one application and one root account, and an empty audit log at its head. */
  function ExampleWorld(): World {
    var head := AuditChain.Head(None, AuditChain.Genesis, AuditChain.CHAIN_VERSION, 0, None, None);
    World(ExampleVault(), "", [Login("u", "%", "a"), Login(ROOT, "localhost", "b")],
          AuditChain.Log([], Some(head), 1), {}, "%", "localhost")
  }

  function Repeated(c: char, n: nat): (s: string)
    ensures |s| == n && forall i :: 0 <= i < n ==> s[i] == c
  {
    seq(n, i => c)
  }

  function ExampleSecrets(): RotationSecrets {
    RotationSecrets(Repeated('0', 32), Repeated('1', 64), Repeated('2', 64), Repeated('3', 128))
  }

  lemma OneCharacter(v: Vault, env: string, k: Key, c: char)
    requires Raw(v, k) == [c] && !IsSpace(c)
    ensures Setting(v, env, k) == Ok([c])
  {
    hide EnvFile.EnvValue, Strip, Raw;
    StripFacts([c]);
  }

  lemma ExampleStored()
    ensures var v := ExampleVault();
      && Raw(v, DbHost) == ['h'] && Raw(v, DbUser) == ['u'] && Raw(v, DbName) == ['d'] && Raw(v, DbPort) == ['1']
      && Raw(v, DbPassword) == ['a'] && Raw(v, RootPassword) == ['b'] && Raw(v, JwtSecret) == ['c']
      && Raw(v, RotationState) == "" && !PartlyStaged(v)
  {
    hide Strip;
    StripFacts("");
    assert Strip("") == "";
  }

  lemma ExampleNames()
    ensures IsUserName("u") && IsPort("1")
  {
    assert Lower("u")[0] == 'u';
    assert "1"[..0] == "";
    assert Value("1") == Value("") * 10 + 1;
  }

  lemma ExampleSettings()
    ensures LoadSettings(ExampleVault(), "") == Ok(Settings("h", "u", "d", "1"))
    ensures CurrentSecrets(ExampleVault(), "") == Ok(Current("a", "b", "c"))
    ensures LoadPending(ExampleVault()) == Ok(None)
  {
    hide Setting, Raw, Strip, PartlyStaged, IsUserName, IsPort, ExampleVault;
    var v := ExampleVault();
    ExampleStored();
    ExampleNames();
    OneCharacter(v, "", DbHost, 'h');
    OneCharacter(v, "", DbUser, 'u');
    OneCharacter(v, "", DbName, 'd');
    OneCharacter(v, "", DbPort, '1');
    OneCharacter(v, "", DbPassword, 'a');
    OneCharacter(v, "", RootPassword, 'b');
    OneCharacter(v, "", JwtSecret, 'c');
    StripFacts("");
  }

  lemma ExampleIsIdle()
    ensures Idle(ExampleWorld()) && AuditChain.Verified(ExampleWorld().log)
  {
    hide LoadSettings, CurrentSecrets, LoadPending, Plain;
    var w := ExampleWorld();
    ExampleSettings();
    assert w.logins[0] == Login("u", w.appHost, "a") && w.logins[1] == Login(ROOT, w.rootHost, "b");
    assert ["a"][0] == "a" && ["b"][0] == "b";
    assert Authenticates(w, "u", ["a"]) && Authenticates(w, ROOT, ["b"]);
  }

  lemma ExampleSecretsAccepted()
    ensures Hexadecimal(ExampleSecrets()) && ValidSecrets(ExampleSecrets())
  {
    var r := ExampleSecrets();
    assert r.appPassword[0] == '1' && r.rootPassword[0] == '2';
  }

  /** The promises above are about servers that exist, and a rotation can complete. */
  lemma RotationCanComplete() returns (w: World, a: Attempt)
    ensures Idle(w) && AuditChain.Verified(w.log) && Hexadecimal(a.generated) && RunAttempt(w, a).1
  {
    hide Safe, LoadSettings, LoadPending, CurrentSecrets, RunAttempt, PlanFor, AuditChain.SoundRows, Hexadecimal,
         ValidSecrets, ExampleSecrets, ExampleWorld, Script;
    w := ExampleWorld();
    ExampleIsIdle();
    ExampleSecretsAccepted();
    a := Attempt(ExampleSecrets(), 0, 0, "", 0);
    UninterruptedRunCompletes(w, a);
    a := a.(stop := |Script(w, PlanFor(w, a.generated).value, a)|);
    ScriptLength(w, PlanFor(w, a.generated).value, a, a.(stop := 0));
    UninterruptedRunCompletes(w, a);
  }

  lemma ScriptLength(w: World, p: Plan, a: Attempt, b: Attempt)
    ensures |Script(w, p, a)| == |Script(w, p, b)|
  {
  }
}
