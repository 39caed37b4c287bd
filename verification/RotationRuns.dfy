/** What every sequence of interrupted and resumed rotation runs keeps and where it ends. */
module RotationRuns {
  import opened Wrappers
  import opened Text
  import opened Keys
  import opened SecretsVault
  import opened Rotation
  import EnvFile
  import EnvLines
  import AuditChain

  // ---------- Account tables ----------

  /** Each password is the original one or the staged one of its account. */
  ghost predicate Mixed(original: seq<Login>, now: seq<Login>, user: string, r: RotationSecrets) {
    && |now| == |original|
    && forall i :: 0 <= i < |now| ==>
         && now[i].user == original[i].user && now[i].host == original[i].host
         && (now[i].password == original[i].password
             || (now[i].user == user && now[i].password == r.appPassword)
             || (now[i].user == ROOT && now[i].password == r.rootPassword))
  }

  ghost predicate HasPassword(logins: seq<Login>, user: string, password: string) {
    forall i :: 0 <= i < |logins| && logins[i].user == user ==> logins[i].password == password
  }

  ghost predicate AllStaged(logins: seq<Login>, user: string, r: RotationSecrets) {
    HasPassword(logins, user, r.appPassword) && HasPassword(logins, ROOT, r.rootPassword)
  }

  function Rotated1(login: Login, user: string, r: RotationSecrets): Login {
    if login.user == user then login.(password := r.appPassword)
    else if login.user == ROOT then login.(password := r.rootPassword)
    else login
  }

  /** The account table with every application and root password replaced. */
  function RotatedLogins(logins: seq<Login>, user: string, r: RotationSecrets): (out: seq<Login>)
    ensures |out| == |logins| && forall i :: 0 <= i < |out| ==> out[i] == Rotated1(logins[i], user, r)
  {
    seq(|logins|, i requires 0 <= i < |logins| => Rotated1(logins[i], user, r))
  }

  lemma FullyRotated(original: seq<Login>, now: seq<Login>, user: string, r: RotationSecrets)
    requires Mixed(original, now, user, r) && AllStaged(now, user, r) && user != ROOT
    ensures now == RotatedLogins(original, user, r)
  {
  }

  /** Some rows of one account may have got the password; nothing else moved. */
  ghost predicate Advanced(before: seq<Login>, after: seq<Login>, user: string, password: string) {
    && |after| == |before|
    && forall i :: 0 <= i < |after| ==>
         after[i] == before[i] || (before[i].user == user && after[i] == before[i].(password := password))
  }

  lemma {:induction false} HostsComplete(logins: seq<Login>, user: string, i: nat)
    requires i < |logins| && logins[i].user == user
    ensures logins[i].host in HostsOf(logins, user)
  {
    if i < |logins| - 1 {
      HostsComplete(logins[..|logins| - 1], user, i);
    }
  }

  /** The rows of an account. */
  function RowsOf(logins: seq<Login>, user: string): set<int> {
    set i | 0 <= i < |logins| && logins[i].user == user
  }

  lemma RowsGrow(logins: seq<Login>, user: string)
    requires logins != []
    ensures var n := |logins| - 1;
      && RowsOf(logins, user) == RowsOf(logins[..n], user) + (if logins[n].user == user then {n} else {})
      && n !in RowsOf(logins[..n], user)
  {
  }

  lemma {:induction false} OneHostForEachRow(logins: seq<Login>, user: string)
    ensures |HostsOf(logins, user)| == |RowsOf(logins, user)|
  {
    if logins != [] {
      hide RowsOf;
      OneHostForEachRow(logins[..|logins| - 1], user);
      RowsGrow(logins, user);
    }
  }

  lemma {:induction false} HostHasRow(logins: seq<Login>, user: string, host: string) returns (i: nat)
    requires host in HostsOf(logins, user)
    ensures i < |logins| && logins[i].user == user && logins[i].host == host
  {
    var n := |logins| - 1;
    if host in HostsOf(logins[..n], user) {
      i := HostHasRow(logins[..n], user, host);
    } else {
      i := n;
    }
  }

  /** The hosts of an account are those of its rows, one for each. */
  lemma HostsExactly(logins: seq<Login>, user: string)
    ensures forall host :: host in HostsOf(logins, user) <==>
      exists i :: 0 <= i < |logins| && logins[i].user == user && logins[i].host == host
    ensures |HostsOf(logins, user)| == |RowsOf(logins, user)|
  {
    hide HostsOf, RowsOf;
    OneHostForEachRow(logins, user);
    forall host | host in HostsOf(logins, user)
      ensures exists i :: 0 <= i < |logins| && logins[i].user == user && logins[i].host == host
    {
      var i := HostHasRow(logins, user, host);
    }
    forall i: nat | i < |logins| && logins[i].user == user ensures logins[i].host in HostsOf(logins, user) {
      HostsComplete(logins, user, i);
    }
  }

  // ---------- Segments of a script ----------

  ghost predicate OnlyChecks(steps: seq<Step>) {
    forall i :: 0 <= i < |steps| ==> steps[i].Connect? || steps[i].RequireAccounts?
  }

  lemma {:induction false} ChecksChangeNothing(w: World, steps: seq<Step>, stop: nat)
    requires OnlyChecks(steps)
    ensures Perform(w, steps, stop).0 == w
    ensures Perform(w, steps, stop).1 <==>
      stop >= |steps| && forall i :: 0 <= i < |steps| ==> Do(w, steps[i]).Some?
    decreases |steps|
  {
    if steps != [] && stop > 0 && Do(w, steps[0]).Some? {
      ChecksChangeNothing(w, steps[1..], stop - 1);
      assert forall i :: 1 <= i < |steps| ==> steps[i] == steps[1..][i - 1];
      if forall i :: 0 <= i < |steps[1..]| ==> Do(w, steps[1..][i]).Some? {
        forall i | 0 <= i < |steps| ensures Do(w, steps[i]).Some? {
          assert i > 0 ==> steps[i] == steps[1..][i - 1];
        }
      }
    }
  }

  lemma {:induction false} AlterSegment(w: World, user: string, hosts: seq<string>, password: string, stop: nat)
    ensures var (w', done) := Perform(w, AlterSteps(user, hosts, password), stop);
      && w' == w.(logins := w'.logins)
      && Advanced(w.logins, w'.logins, user, password)
      && (done <==> stop >= |hosts|)
      && (done ==> forall i :: 0 <= i < |w'.logins| && w'.logins[i].user == user && w'.logins[i].host in hosts ==>
            w'.logins[i].password == password)
    decreases |hosts|
  {
    var steps := AlterSteps(user, hosts, password);
    if hosts != [] && stop > 0 {
      var next := Do(w, steps[0]).value;
      assert steps[1..] == AlterSteps(user, hosts[1..], password);
      AlterSegment(next, user, hosts[1..], password, stop - 1);
      var (w', done) := Perform(next, steps[1..], stop - 1);
      assert Perform(w, steps, stop) == (w', done);
      forall i | 0 <= i < |w'.logins| && w'.logins[i].user == user && w'.logins[i].host in hosts && done
        ensures w'.logins[i].password == password
      {
        if w'.logins[i].host != hosts[0] {
          assert w'.logins[i].host in hosts[1..];
        }
      }
    }
  }

  /** Altering both accounts: every prefix mixes old and staged passwords, and the end has only staged ones. */
  lemma AlterAll(w: World, p: Plan, stop: nat)
    requires p.user != ROOT
    ensures var r, (w', done) := p.preparation.rotation, Perform(w, AlterAllSteps(p, w.logins), stop);
      && w' == w.(logins := w'.logins)
      && Mixed(w.logins, w'.logins, p.user, r)
      && (AllStaged(w.logins, p.user, r) ==> AllStaged(w'.logins, p.user, r))
      && (done ==> AllStaged(w'.logins, p.user, r))
      && (done <==> stop >= |AlterAllSteps(p, w.logins)|)
  {
    hide HostsOf;
    var r := p.preparation.rotation;
    var apps, roots := HostsOf(w.logins, p.user), HostsOf(w.logins, ROOT);
    var a, b := AlterSteps(p.user, apps, r.appPassword), AlterSteps(ROOT, roots, r.rootPassword);
    PerformConcat(w, a, b, stop);
    AlterSegment(w, p.user, apps, r.appPassword, stop);
    var (w1, done1) := Perform(w, a, stop);
    if done1 {
      AlterSegment(w1, ROOT, roots, r.rootPassword, stop - |a|);
      var (w2, done2) := Perform(w1, b, stop - |a|);
      if done2 {
        forall i | 0 <= i < |w2.logins| && w2.logins[i].user == p.user
          ensures w2.logins[i].password == r.appPassword
        {
          HostsComplete(w.logins, p.user, i);
          assert w2.logins[i] == w1.logins[i];
        }
        forall i | 0 <= i < |w2.logins| && w2.logins[i].user == ROOT
          ensures w2.logins[i].password == r.rootPassword
        {
          HostsComplete(w.logins, ROOT, i);
        }
      }
    }
  }

  // ---------- One rotation, from its staging to its completion ----------

  /**
   * A rotation in progress: the world it started from, the staged vault, the staged secrets and
   * the application user.
   */
  datatype Epoch = Epoch(start: World, vault: Vault, rotation: RotationSecrets, user: string)

  /** The audit log only grows, by events of this rotation, and stays exactly as ready as it was. */
  ghost predicate LogGrows(before: AuditChain.Log, after: AuditChain.Log, rotationId: string) {
    && before.rows <= after.rows
    && (AuditChain.Ready(before) <==> AuditChain.Ready(after))
    && forall i :: |before.rows| <= i < |after.rows| ==>
         && after.rows[i].payload.action == AuditChain.Phase1CredentialRotation
         && after.rows[i].payload.newValues.Rotation?
         && after.rows[i].payload.newValues.rotationId == rotationId
  }

  /** The candidate passwords of a run that resumes the rotation. */
  ghost predicate Reachable(w: World, user: string, r: RotationSecrets, current: Current) {
    && Authenticates(w, ROOT, [r.rootPassword, current.rootPassword])
    && Authenticates(w, user, [r.appPassword, current.appPassword])
  }

  ghost predicate GoodEpoch(e: Epoch) {
    && Plain(e.rotation) && LoadPending(e.vault) == Ok(Some(e.rotation))
    && LoadSettings(e.vault, e.start.env).Ok? && LoadSettings(e.vault, e.start.env).value.user == e.user
    && CurrentSecrets(e.vault, e.start.env).Ok?
    && Reachable(e.start, e.user, e.rotation, CurrentSecrets(e.vault, e.start.env).value)
  }

  function NewEnv(e: Epoch): string {
    EnvFile.Rendered(e.start.env, e.rotation)
  }

  /** Staged and not finished. */
  ghost predicate InProgress(e: Epoch, w: World) {
    && w.vault == e.vault
    && w.appHost == e.start.appHost && w.rootHost == e.start.rootHost
    && Mixed(e.start.logins, w.logins, e.user, e.rotation)
    && LogGrows(e.start.log, w.log, e.rotation.rotationId)
    && w.sessions <= e.start.sessions
    && (w.env == e.start.env
        || (w.env == NewEnv(e) && AllStaged(w.logins, e.user, e.rotation) && w.sessions == {}))
  }

  /** Finished: accounts, file, vault and sessions are exactly those of the staged rotation. */
  ghost predicate Finished(e: Epoch, w: World, at: string) {
    && w == e.start.(vault := Finalized(e.vault, e.rotation, at), env := NewEnv(e),
                     logins := RotatedLogins(e.start.logins, e.user, e.rotation),
                     log := w.log, sessions := {})
    && LogGrows(e.start.log, w.log, e.rotation.rotationId)
    && |w.log.rows| > |e.start.log.rows|
  }

  // ---------- Reading the settings during a rotation ----------

  lemma NewEnvKeepsSetting(e: Epoch, k: Key)
    requires Plain(e.rotation) && !Rotated(k) && !EnvLines.Obsolete(k)
    ensures Setting(e.vault, NewEnv(e), k) == Setting(e.vault, e.start.env, k)
  {
    hide EnvFile.Rendered, EnvFile.EnvValue;
    EnvFile.RenderedValues(e.start.env, e.rotation, k);
  }

  lemma NewEnvSecret(e: Epoch, k: Key)
    requires Plain(e.rotation) && Rotated(k) && Setting(e.vault, e.start.env, k).Ok?
    ensures Setting(e.vault, NewEnv(e), k) ==
      if Raw(e.vault, k) != "" then Setting(e.vault, e.start.env, k) else Ok(Replacement(e.rotation, k))
  {
    hide EnvFile.Rendered, EnvFile.EnvValue;
    EnvFile.RenderedValues(e.start.env, e.rotation, k);
    StripFacts(Replacement(e.rotation, k));
  }

  lemma NewEnvKeepsSettings(e: Epoch)
    requires Plain(e.rotation)
    ensures LoadSettings(e.vault, NewEnv(e)) == LoadSettings(e.vault, e.start.env)
  {
    hide EnvFile.Rendered, Setting, IsUserName, IsPort, Plain;
    NewEnvKeepsSetting(e, DbHost);
    NewEnvKeepsSetting(e, DbUser);
    NewEnvKeepsSetting(e, DbName);
    NewEnvKeepsSetting(e, DbPort);
  }

  lemma NewEnvKeepsSecrets(e: Epoch)
    requires Plain(e.rotation) && CurrentSecrets(e.vault, e.start.env).Ok?
    ensures CurrentSecrets(e.vault, NewEnv(e)).Ok?
  {
    hide EnvFile.Rendered, Setting, Plain;
    NewEnvSecret(e, DbPassword);
    NewEnvSecret(e, RootPassword);
    NewEnvSecret(e, JwtSecret);
  }

  lemma EpochUser(e: Epoch)
    requires GoodEpoch(e)
    ensures IsUserName(e.user) && e.user != ROOT
  {
    hide Setting;
    RootIsNotAUserName(e.user);
  }

  /** During a rotation every run resumes it, with the same secrets. */
  lemma PlanInProgress(e: Epoch, w: World, generated: RotationSecrets)
    requires GoodEpoch(e) && InProgress(e, w)
    ensures PlanFor(w, generated).Ok?
    ensures var p := PlanFor(w, generated).value;
      && p.user == e.user && p.preparation == Preparation(e.vault, e.rotation, true)
      && CurrentSecrets(w.vault, w.env) == Ok(p.current)
  {
    hide LoadSettings, CurrentSecrets, LoadPending, EnvFile.Rendered, Mixed;
    NewEnvKeepsSettings(e);
    NewEnvKeepsSecrets(e);
  }

  lemma StillAuthenticates(e: Epoch, w: World, user: string, staged: string, before: string, now: string)
    requires InProgress(e, w) && e.user != ROOT && staged != ""
    requires (user == ROOT && staged == e.rotation.rootPassword) || (user == e.user && staged == e.rotation.appPassword)
    requires Authenticates(e.start, user, [staged, before])
    requires w.env == e.start.env ==> now == before
    ensures Authenticates(w, user, [staged, now])
  {
    hide EnvFile.Rendered;
    var c :| 0 <= c < 2 && [staged, before][c] != "" && Opens(e.start, user, [staged, before][c]);
    var password := [staged, before][c];
    var host := if user == ROOT then w.rootHost else w.appHost;
    var i :| 0 <= i < |e.start.logins| && e.start.logins[i] == Login(user, host, password);
    if w.logins[i] == Login(user, host, staged) {
      assert Opens(w, user, staged);
      assert [staged, now][0] == staged;
    } else {
      assert w.logins[i] == Login(user, host, password);
      assert w.env == e.start.env;
      assert Opens(w, user, password);
      assert [staged, now][c] == password;
    }
  }

  /** During a rotation the candidate passwords of every run still open both accounts. */
  lemma ReachableInProgress(e: Epoch, w: World)
    requires GoodEpoch(e) && InProgress(e, w)
    requires CurrentSecrets(w.vault, w.env).Ok?
    ensures Reachable(w, e.user, e.rotation, CurrentSecrets(w.vault, w.env).value)
  {
    hide LoadSettings, CurrentSecrets, LoadPending, EnvFile.Rendered, Authenticates;
    EpochUser(e);
    var before, now := CurrentSecrets(e.vault, e.start.env).value, CurrentSecrets(w.vault, w.env).value;
    StillAuthenticates(e, w, ROOT, e.rotation.rootPassword, before.rootPassword, now.rootPassword);
    StillAuthenticates(e, w, e.user, e.rotation.appPassword, before.appPassword, now.appPassword);
  }

  // ---------- One run ----------

  lemma AltersKeepProgress(e: Epoch, w: World, w': World)
    requires InProgress(e, w) && Mixed(w.logins, w'.logins, e.user, e.rotation)
    requires w' == w.(logins := w'.logins)
    requires AllStaged(w.logins, e.user, e.rotation) ==> AllStaged(w'.logins, e.user, e.rotation)
    ensures InProgress(e, w')
  {
    hide EnvFile.Rendered, LogGrows, AllStaged;
  }

  lemma RevokeKeepsProgress(e: Epoch, w: World, uuid: nat, time: int)
    requires InProgress(e, w)
    ensures var next := Do(w, RevokeAndAudit(e.rotation.rotationId, uuid, time));
      && (next.Some? <==> AuditChain.Ready(w.log))
      && (next.Some? ==>
            && InProgress(e, next.value) && next.value.sessions == {}
            && next.value == w.(log := next.value.log, sessions := {})
            && |next.value.log.rows| > |e.start.log.rows|)
  {
    hide EnvFile.Rendered, Mixed, AllStaged;
    var event := RotationEvent(e.rotation.rotationId, |w.sessions|, uuid, time);
    AuditChain.AppendLinksToHead(w.log, event);
    if AuditChain.Ready(w.log) {
      var after := AuditChain.Append(w.log, event).value;
      assert after.rows == w.log.rows + [after.rows[|w.log.rows|]];
    }
  }

  lemma RewriteKeepsProgress(e: Epoch, w: World)
    requires GoodEpoch(e) && InProgress(e, w)
    ensures EnvFile.Rendered(w.env, e.rotation) == NewEnv(e)
  {
    hide EnvFile.Rendered, Mixed, AllStaged, LogGrows;
    EnvFile.RenderIsIdempotent(e.start.env, e.rotation);
  }

  lemma PerformFirst(w: World, step: Step, rest: seq<Step>, stop: nat)
    ensures Perform(w, [step] + rest, stop) ==
      if stop == 0 || Do(w, step).None? then (w, false) else Perform(Do(w, step).value, rest, stop - 1)
  {
    assert ([step] + rest)[1..] == rest;
  }

  lemma PerformNothing(w: World, stop: nat)
    ensures Perform(w, [], stop) == (w, true)
  {
  }

  /** Writing the file and then the vault, after the revocation. */
  lemma WriteSegment(e: Epoch, w: World, at: string, stop: nat)
    requires GoodEpoch(e) && InProgress(e, w) && AllStaged(w.logins, e.user, e.rotation)
    requires w.sessions == {} && |w.log.rows| > |e.start.log.rows|
    ensures var (w', done) := Perform(w, [WriteEnv(NewEnv(e)), WriteVault(Finalized(e.vault, e.rotation, at))], stop);
      && (if done then Finished(e, w', at) else InProgress(e, w'))
      && (done <==> stop >= 2)
  {
    hide EnvFile.Rendered, NewEnv, Mixed, AllStaged, LogGrows, GoodEpoch, Finalized, Finished;
    var vault := Finalized(e.vault, e.rotation, at);
    var first, second := WriteEnv(NewEnv(e)), WriteVault(vault);
    assert [first, second] == [first] + [second];
    PerformFirst(w, first, [second], stop);
    if stop > 0 {
      var w2 := w.(env := NewEnv(e));
      assert [second] == [second] + [];
      PerformFirst(w2, second, [], stop - 1);
      if stop > 1 {
        EpochFinishes(e, w2, at);
      }
    }
  }

  /** The end of a run, after both accounts have been altered. */
  lemma FinishSegment(e: Epoch, w: World, p: Plan, env: string, a: Attempt, stop: nat)
    requires GoodEpoch(e) && InProgress(e, w) && AllStaged(w.logins, e.user, e.rotation)
    requires p.user == e.user && p.preparation.vault == e.vault && p.preparation.rotation == e.rotation
    requires EnvFile.Rendered(env, e.rotation) == NewEnv(e)
    requires Authenticates(w, e.user, [e.rotation.appPassword]) && Authenticates(w, ROOT, [e.rotation.rootPassword])
    ensures var (w', done) := Perform(w, FinishSteps(p, env, a), stop);
      && (if done then Finished(e, w', a.completedAt) else InProgress(e, w'))
      && (done <==> stop >= 5 && AuditChain.Ready(w.log))
  {
    hide EnvFile.Rendered, NewEnv, InProgress, AllStaged, LogGrows, GoodEpoch, Authenticates, Finalized, Finished;
    var r := e.rotation;
    var checks := [Connect(p.user, [r.appPassword]), Connect(ROOT, [r.rootPassword])];
    var revoke := RevokeAndAudit(r.rotationId, a.eventUuid, a.eventTime);
    var writes := [WriteEnv(NewEnv(e)), WriteVault(Finalized(e.vault, r, a.completedAt))];
    assert FinishSteps(p, env, a) == checks + ([revoke] + writes);
    PerformConcat(w, checks, [revoke] + writes, stop);
    ChecksChangeNothing(w, checks, stop);
    if stop >= 2 {
      PerformFirst(w, revoke, writes, stop - 2);
      RevokeKeepsProgress(e, w, a.eventUuid, a.eventTime);
      if stop > 2 && AuditChain.Ready(w.log) {
        WriteSegment(e, Do(w, revoke).value, a.completedAt, stop - 3);
      }
    }
  }

  lemma EpochFinishes(e: Epoch, w: World, at: string)
    requires GoodEpoch(e) && InProgress(e, w) && AllStaged(w.logins, e.user, e.rotation)
    requires w.env == NewEnv(e) && w.sessions == {} && |w.log.rows| > |e.start.log.rows|
    ensures Finished(e, w.(vault := Finalized(e.vault, e.rotation, at)), at)
  {
    hide EnvFile.Rendered, LogGrows, Finalized;
    EpochUser(e);
    FullyRotated(e.start.logins, w.logins, e.user, e.rotation);
  }

  lemma StagedOpens(w: World, w': World, user: string, candidates: seq<string>, staged: string)
    requires Authenticates(w, user, candidates) && staged != ""
    requires w' == w.(logins := w'.logins) && |w'.logins| == |w.logins|
    requires forall i :: 0 <= i < |w.logins| ==>
      w'.logins[i].user == w.logins[i].user && w'.logins[i].host == w.logins[i].host
    requires HasPassword(w'.logins, user, staged)
    ensures Authenticates(w', user, [staged])
  {
    var c :| 0 <= c < |candidates| && candidates[c] != "" && Opens(w, user, candidates[c]);
    var host := if user == ROOT then w.rootHost else w.appHost;
    var i :| 0 <= i < |w.logins| && w.logins[i] == Login(user, host, candidates[c]);
    assert w'.logins[i] == Login(user, host, staged);
    assert [staged][0] == staged;
  }

  function BodySteps(p: Plan, logins: seq<Login>, env: string, a: Attempt): seq<Step> {
    [Connect(ROOT, RootCandidates(p))] + AlterAllSteps(p, logins) + FinishSteps(p, env, a)
  }

  /** Everything after staging, from any state of the rotation. */
  lemma BodySegment(e: Epoch, w: World, p: Plan, a: Attempt, stop: nat)
    requires GoodEpoch(e) && InProgress(e, w)
    requires p.user == e.user && p.preparation.vault == e.vault && p.preparation.rotation == e.rotation
    requires Reachable(w, e.user, e.rotation, p.current)
    ensures var (w', done) := Perform(w, BodySteps(p, w.logins, w.env, a), stop);
      && (if done then Finished(e, w', a.completedAt) else InProgress(e, w'))
      && (done <==> AuditChain.Ready(w.log) && stop >= |BodySteps(p, w.logins, w.env, a)|)
  {
    hide EnvFile.Rendered, NewEnv, InProgress, LogGrows, GoodEpoch, Authenticates, Finalized, Finished,
         AlterAllSteps, FinishSteps, Mixed, AllStaged, AuditChain.Ready;
    var check := [Connect(ROOT, RootCandidates(p))];
    var alters := AlterAllSteps(p, w.logins);
    var finish := FinishSteps(p, w.env, a);
    EpochUser(e);
    assert BodySteps(p, w.logins, w.env, a) == check + (alters + finish);
    PerformFirst(w, check[0], alters + finish, stop);
    RewriteKeepsProgress(e, w);
    FinishHasFiveSteps(p, w.env, a);
    if stop > 0 {
      PerformConcat(w, alters, finish, stop - 1);
      AlterAll(w, p, stop - 1);
      var (w1, done1) := Perform(w, alters, stop - 1);
      AltersKeepProgress(e, w, w1);
      if done1 {
        StagedAccountsOpen(e, w, w1, p.current);
        FinishSegment(e, w1, p, w.env, a, stop - 1 - |alters|);
      }
    }
  }

  lemma FinishHasFiveSteps(p: Plan, env: string, a: Attempt)
    ensures |FinishSteps(p, env, a)| == 5
  {
  }

  lemma StagedAccountsOpen(e: Epoch, w: World, w1: World, current: Current)
    requires GoodEpoch(e) && Reachable(w, e.user, e.rotation, current)
    requires w1 == w.(logins := w1.logins)
    requires Mixed(w.logins, w1.logins, e.user, e.rotation) && AllStaged(w1.logins, e.user, e.rotation)
    ensures Authenticates(w1, e.user, [e.rotation.appPassword])
    ensures Authenticates(w1, ROOT, [e.rotation.rootPassword])
  {
    hide Authenticates, LoadPending, LoadSettings, CurrentSecrets;
    StagedOpens(w, w1, e.user, [e.rotation.appPassword, current.appPassword], e.rotation.appPassword);
    StagedOpens(w, w1, ROOT, [e.rotation.rootPassword, current.rootPassword], e.rotation.rootPassword);
  }

  // ---------- Safety ----------

  /**
   * Nobody is locked out: the settings can be read, the vault is not half prepared, and the
   * passwords the next run would try open the root and the application account.
   */
  ghost predicate Safe(w: World) {
    && LoadSettings(w.vault, w.env).Ok? && CurrentSecrets(w.vault, w.env).Ok? && LoadPending(w.vault).Ok?
    && var user, current := LoadSettings(w.vault, w.env).value.user, CurrentSecrets(w.vault, w.env).value;
       match LoadPending(w.vault).value
       case None =>
         Authenticates(w, ROOT, [current.rootPassword]) && Authenticates(w, user, [current.appPassword])
       case Some(r) => Plain(r) && Reachable(w, user, r, current)
  }

  /** A run draws secrets only when none are staged, and then draws hexadecimal ones. */
  predicate DrawsHex(w: World, generated: RotationSecrets) {
    LoadPending(w.vault) == Ok(None) ==> Hexadecimal(generated)
  }

  /** A rotation is staged, or the drawn secrets are accepted. */
  predicate GoesAhead(w: World, generated: RotationSecrets) {
    LoadPending(w.vault).Ok? && (LoadPending(w.vault).value.Some? || ValidSecrets(generated))
  }

  /** The rotation that a run from this state starts or resumes. */
  function EpochOf(w: World, p: Plan): Epoch {
    Epoch(w, p.preparation.vault, p.preparation.rotation, p.user)
  }

  lemma StagingKeepsSetting(v: Vault, r: RotationSecrets, env: string, k: Key)
    requires k !in ROTATION_METADATA
    ensures Setting(Staged(v, r), env, k) == Setting(v, env, k)
  {
    hide EnvFile.EnvValue;
    assert Raw(Staged(v, r), k) == Raw(v, k);
  }

  lemma StagingKeepsSettings(v: Vault, r: RotationSecrets, env: string)
    ensures LoadSettings(Staged(v, r), env) == LoadSettings(v, env)
    ensures CurrentSecrets(Staged(v, r), env) == CurrentSecrets(v, env)
  {
    hide Setting, Staged, IsUserName, IsPort;
    StagingKeepsSetting(v, r, env, DbHost);
    StagingKeepsSetting(v, r, env, DbUser);
    StagingKeepsSetting(v, r, env, DbName);
    StagingKeepsSetting(v, r, env, DbPort);
    StagingKeepsSetting(v, r, env, DbPassword);
    StagingKeepsSetting(v, r, env, RootPassword);
    StagingKeepsSetting(v, r, env, JwtSecret);
  }

  lemma MoreCandidates(w: World, user: string, staged: string, current: string)
    requires Authenticates(w, user, [current])
    ensures Authenticates(w, user, [staged, current])
  {
    assert Opens(w, user, current);
    assert [staged, current][1] == current;
  }

  lemma LogGrowsReflexive(log: AuditChain.Log, id: string)
    ensures LogGrows(log, log, id)
  {
  }

  /** From a safe state the plan is made, and it describes a good rotation. */
  lemma PlanIsGood(w: World, generated: RotationSecrets)
    requires Safe(w) && (LoadPending(w.vault) == Ok(None) ==> Plain(generated))
    ensures PlanFor(w, generated).Ok?
    ensures var p := PlanFor(w, generated).value;
      && GoodEpoch(EpochOf(w, p)) && InProgress(EpochOf(w, p), w.(vault := p.preparation.vault))
      && Reachable(w.(vault := p.preparation.vault), p.user, p.preparation.rotation, p.current)
      && (p.preparation.resumed ==> p.preparation.vault == w.vault)
      && CurrentSecrets(w.vault, w.env) == Ok(p.current)
      && (p.preparation.resumed <==> LoadPending(w.vault).value.Some?)
      && (!p.preparation.resumed ==>
            p.preparation.vault == Staged(w.vault, generated) && p.preparation.rotation == generated)
      && (p.preparation.resumed ==> LoadPending(w.vault) == Ok(Some(p.preparation.rotation)))
  {
    hide LoadSettings, CurrentSecrets, LoadPending, Authenticates, EnvFile.Rendered, Staged, Plain;
    if LoadPending(w.vault) == Ok(None) {
      PlainIsValid(generated);
    }
    var p := PlanFor(w, generated).value;
    LogGrowsReflexive(w.log, p.preparation.rotation.rotationId);
    if !p.preparation.resumed {
      StagingKeepsSettings(w.vault, generated, w.env);
      StagedLoads(w.vault, generated);
      MoreCandidates(w, ROOT, generated.rootPassword, p.current.rootPassword);
      MoreCandidates(w, p.user, generated.appPassword, p.current.appPassword);
    }
    SameTables(w, w.(vault := p.preparation.vault));
  }

  lemma PlainIsValid(r: RotationSecrets)
    requires Plain(r)
    ensures ValidSecrets(r)
  {
  }

  lemma SameTables(w: World, w': World)
    requires w.logins == w'.logins && w.appHost == w'.appHost && w.rootHost == w'.rootHost
    ensures forall user, candidates :: Authenticates(w, user, candidates) <==> Authenticates(w', user, candidates)
  {
  }

  /** The preflight changes nothing, and from a safe state it passes. */
  lemma PreflightPasses(w: World, p: Plan, stop: nat)
    requires Safe(w)
    requires p.user == LoadSettings(w.vault, w.env).value.user
    requires CurrentSecrets(w.vault, w.env) == Ok(p.current)
    requires LoadPending(w.vault) == Ok(if p.preparation.resumed then Some(p.preparation.rotation) else None)
    ensures Perform(w, PreflightSteps(p), stop).0 == w
    ensures Perform(w, PreflightSteps(p), stop).1 <==> stop >= 4
  {
    hide LoadSettings, CurrentSecrets, LoadPending, EnvFile.Rendered, Plain, Authenticates;
    var steps := PreflightSteps(p);
    ChecksChangeNothing(w, steps, stop);
    AccountExists(w, ROOT, steps[0].candidates);
    AccountExists(w, p.user, steps[3].candidates);
  }

  lemma AccountExists(w: World, user: string, candidates: seq<string>)
    requires Authenticates(w, user, candidates)
    ensures HostsOf(w.logins, user) != []
  {
    var c :| 0 <= c < |candidates| && candidates[c] != "" && Opens(w, user, candidates[c]);
    var host := if user == ROOT then w.rootHost else w.appHost;
    var i :| 0 <= i < |w.logins| && w.logins[i] == Login(user, host, candidates[c]);
    HostsComplete(w.logins, user, i);
  }

  /** From staging on. */
  lemma AfterPreflight(w: World, p: Plan, a: Attempt, stop: nat)
    requires var e, w1 := EpochOf(w, p), w.(vault := p.preparation.vault);
      && GoodEpoch(e) && InProgress(e, w1)
      && Reachable(w1, p.user, p.preparation.rotation, p.current)
      && (p.preparation.resumed ==> p.preparation.vault == w.vault)
    ensures var steps := StageSteps(p) + BodySteps(p, w.logins, w.env, a);
      var e, (w', done) := EpochOf(w, p), Perform(w, steps, stop);
      && (if done then Finished(e, w', a.completedAt) else w' == w || InProgress(e, w'))
      && (done <==> AuditChain.Ready(w.log) && stop >= |steps|)
  {
    hide InProgress, Finished, GoodEpoch, BodySteps, Reachable, AuditChain.Ready;
    var e, w1 := EpochOf(w, p), w.(vault := p.preparation.vault);
    var body := BodySteps(p, w.logins, w.env, a);
    if p.preparation.resumed {
      assert [] + body == body && w1 == w;
      BodySegment(e, w, p, a, stop);
    } else {
      PerformFirst(w, WriteVault(p.preparation.vault), body, stop);
      if stop > 0 {
        BodySegment(e, w1, p, a, stop - 1);
      }
    }
  }

  lemma PlannedRun(w: World, a: Attempt)
    requires Safe(w) && (LoadPending(w.vault) == Ok(None) ==> Plain(a.generated))
    ensures PlanFor(w, a.generated).Ok?
    ensures var p, (w', done) := PlanFor(w, a.generated).value, RunAttempt(w, a);
      && (if done then Finished(EpochOf(w, p), w', a.completedAt)
          else w' == w || InProgress(EpochOf(w, p), w'))
      && (done <==> AuditChain.Ready(w.log) && a.stop >= |Script(w, p, a)|)
  {
    hide InProgress, Finished, GoodEpoch, PreflightSteps, BodySteps, Authenticates, Reachable, EpochOf, Script,
         StageSteps, AuditChain.Ready, Plain, Perform, Staged, Safe, PlanFor, LoadPending;
    PlanIsGood(w, a.generated);
    var p := PlanFor(w, a.generated).value;
    PlanLoads(w, a.generated, p);
    var rest := StageSteps(p) + BodySteps(p, w.logins, w.env, a);
    ScriptParts(w, p, a);
    PerformConcat(w, PreflightSteps(p), rest, a.stop);
    PreflightPasses(w, p, a.stop);
    PreflightHasFourSteps(p);
    if a.stop >= 4 {
      AfterPreflight(w, p, a, a.stop - 4);
    }
  }

  /** Drawn secrets that are refused leave the world alone. */
  lemma RefusedRun(w: World, a: Attempt)
    requires Safe(w) && !GoesAhead(w, a.generated)
    ensures PlanFor(w, a.generated).Err? && RunAttempt(w, a) == (w, false)
  {
    hide LoadSettings, CurrentSecrets, LoadPending, Authenticates, ValidSecrets, Plain, Perform;
  }

  lemma AcceptedIsPlain(w: World, generated: RotationSecrets)
    requires DrawsHex(w, generated) && GoesAhead(w, generated)
    ensures LoadPending(w.vault) == Ok(None) ==> Plain(generated)
  {
    hide LoadPending, ValidSecrets, Hexadecimal;
    if LoadPending(w.vault) == Ok(None) {
      GeneratedIsPlain(generated);
    }
  }

  /**
   * One run from a safe state, cut off anywhere: it goes ahead with the staged or the drawn
   * secrets, or refuses the drawn ones and changes nothing.
   */
  lemma OneRun(w: World, a: Attempt)
    requires Safe(w) && DrawsHex(w, a.generated)
    ensures PlanFor(w, a.generated).Ok? <==> GoesAhead(w, a.generated)
    ensures !GoesAhead(w, a.generated) ==> RunAttempt(w, a) == (w, false)
    ensures GoesAhead(w, a.generated) ==>
      var p, (w', done) := PlanFor(w, a.generated).value, RunAttempt(w, a);
      && (if done then Finished(EpochOf(w, p), w', a.completedAt)
          else w' == w || InProgress(EpochOf(w, p), w'))
      && (done <==> AuditChain.Ready(w.log) && a.stop >= |Script(w, p, a)|)
  {
    hide Safe, GoesAhead, DrawsHex, LoadPending, PlanFor, RunAttempt, Plain, InProgress, Finished, Script, EpochOf;
    if GoesAhead(w, a.generated) {
      AcceptedIsPlain(w, a.generated);
      PlannedRun(w, a);
    } else {
      RefusedRun(w, a);
    }
  }

  lemma PlanLoads(w: World, generated: RotationSecrets, p: Plan)
    requires Safe(w) && (LoadPending(w.vault) == Ok(None) ==> Plain(generated)) && PlanFor(w, generated) == Ok(p)
    ensures LoadSettings(w.vault, w.env).Ok? && LoadSettings(w.vault, w.env).value.user == p.user
    ensures LoadPending(w.vault) == Ok(if p.preparation.resumed then Some(p.preparation.rotation) else None)
  {
    hide LoadSettings, CurrentSecrets, LoadPending, Authenticates, Plain, Reachable;
    PlanIsGood(w, generated);
  }

  lemma PreflightHasFourSteps(p: Plan)
    ensures |PreflightSteps(p)| == 4
  {
  }

  lemma ScriptParts(w: World, p: Plan, a: Attempt)
    ensures Script(w, p, a) == PreflightSteps(p) + (StageSteps(p) + BodySteps(p, w.logins, w.env, a))
  {
    hide PreflightSteps, StageSteps, AlterAllSteps, FinishSteps;
  }

  /** A rotation in progress is safe. */
  lemma InProgressIsSafe(e: Epoch, w: World)
    requires GoodEpoch(e) && InProgress(e, w)
    ensures Safe(w)
  {
    hide Authenticates, LoadSettings, CurrentSecrets, LoadPending, EnvFile.Rendered, Mixed, AllStaged, LogGrows, Plain;
    NewEnvSettingsUnlessSame(e, w);
    ReachableInProgress(e, w);
  }

  lemma NewEnvSettingsUnlessSame(e: Epoch, w: World)
    requires GoodEpoch(e) && InProgress(e, w)
    ensures LoadSettings(w.vault, w.env) == LoadSettings(e.vault, e.start.env)
    ensures CurrentSecrets(w.vault, w.env).Ok?
  {
    hide Authenticates, LoadSettings, CurrentSecrets, LoadPending, EnvFile.Rendered, Mixed, AllStaged, LogGrows, Plain;
    NewEnvKeepsSettings(e);
    NewEnvKeepsSecrets(e);
  }
}
