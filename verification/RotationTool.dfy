/** The rotation tool itself, changing the server step by step. */
module RotationTool {
  import opened Wrappers
  import opened Keys
  import opened SecretsVault
  import opened Rotation
  import RotationRuns
  import RotationTheorems
  import EnvFile
  import AuditChain

  datatype RotationResult = RotationResult(
    rotationId: string, completedAt: string, appAccounts: nat, rootAccounts: nat, sessionsRevoked: nat, resumed: bool)

  class Server {
    var vault: Vault
    var env: string
    var logins: seq<Login>
    var log: AuditChain.Log
    var sessions: set<int>
    const appHost: string
    const rootHost: string

    constructor (w: World)
      ensures Here() == w
    {
      vault, env, logins, log, sessions := w.vault, w.env, w.logins, w.log, w.sessions;
      appHost, rootHost := w.appHost, w.rootHost;
    }

    /** What a crash at this moment would leave. */
    function Here(): World
      reads this
    {
      World(vault, env, logins, log, sessions, appHost, rootHost)
    }

    /** Tries the passwords in order, skipping empty and repeated ones. */
    method ConnectWithCandidates(user: string, passwords: seq<string>) returns (connected: bool)
      ensures connected <==> Authenticates(Here(), user, passwords)
    {
      var attempted: set<string> := {};
      for i := 0 to |passwords|
        invariant forall j :: 0 <= j < i ==> passwords[j] == "" || passwords[j] in attempted
        invariant forall p :: p in attempted ==> !Opens(Here(), user, p)
      {
        var password := passwords[i];
        if password != "" && password !in attempted {
          attempted := attempted + {password};
          if Opens(Here(), user, password) {
            return true;
          }
        }
      }
      connected := false;
    }

    /** The preflight reads only; left counts the steps until the run is cut off. */
    method DatabasePreflight(p: Plan, left: nat) returns (ok: bool, left': nat)
      ensures (Here(), ok) == Perform(Here(), PreflightSteps(p), left)
      ensures ok ==> left' == left - |PreflightSteps(p)|
    {
      hide Authenticates, HostsOf, Perform;
      ghost var steps := PreflightSteps(p);
      RotationRuns.ChecksChangeNothing(Here(), steps, left);
      var rootCandidates := [p.current.rootPassword];
      var appCandidates := [p.current.appPassword];
      if p.preparation.resumed {
        rootCandidates := [p.preparation.rotation.rootPassword] + rootCandidates;
        appCandidates := [p.preparation.rotation.appPassword] + appCandidates;
      }
      ok, left' := false, 0;
      if left < 4 {
        return;
      }
      var root := ConnectWithCandidates(ROOT, rootCandidates);
      assert steps[0] == Connect(ROOT, rootCandidates) && steps[3] == Connect(p.user, appCandidates);
      assert root <==> Do(Here(), steps[0]).Some?;
      if !root || HostsOf(logins, ROOT) == [] || HostsOf(logins, p.user) == [] {
        assert Do(Here(), steps[0]).None? || Do(Here(), steps[1]).None? || Do(Here(), steps[2]).None?;
        return;
      }
      var app := ConnectWithCandidates(p.user, appCandidates);
      assert app <==> Do(Here(), steps[3]).Some?;
      ok, left' := app, left - 4;
    }

    /** ALTER USER for each host; every statement takes effect at once. */
    method AlterAccountPasswords(user: string, hosts: seq<string>, password: string, left: nat)
      returns (ok: bool, left': nat)
      modifies this`logins
      ensures (Here(), ok) == Perform(old(Here()), AlterSteps(user, hosts, password), left)
      ensures ok ==> left' == left - |hosts|
    {
      left' := left;
      for i := 0 to |hosts|
        invariant i + left' == left
        invariant Perform(old(Here()), AlterSteps(user, hosts, password), left)
               == Perform(Here(), AlterSteps(user, hosts[i..], password), left')
      {
        ghost var rest := AlterSteps(user, hosts[i..], password);
        assert rest[0] == AlterUser(user, hosts[i], password);
        assert rest[1..] == AlterSteps(user, hosts[i + 1..], password);
        if left' == 0 {
          return false, 0;
        }
        logins := Altered(logins, user, hosts[i], password);
        left' := left' - 1;
      }
      ok := true;
    }

    /** One transaction: revokes every session and appends the chained audit event, or does neither. */
    method RevokeSessionsAndAudit(rotationId: string, uuid: nat, time: int) returns (revoked: Option<nat>)
      modifies this`sessions, this`log
      ensures revoked.Some? <==> Do(old(Here()), RevokeAndAudit(rotationId, uuid, time)).Some?
      ensures revoked.Some? ==>
        && Some(Here()) == Do(old(Here()), RevokeAndAudit(rotationId, uuid, time))
        && revoked.value == |old(sessions)| && sessions == {}
      ensures revoked.None? ==> Here() == old(Here())
    {
      var before := sessions;
      sessions := {};
      if log.head.None? || AuditChain.LatestId(log.rows) != log.head.value.id {
        sessions := before;
        return None;
      }
      var head := log.head.value;
      var event := RotationEvent(rotationId, |before|, uuid, time);
      var current := AuditChain.Digest(head.hash, event);
      var row := AuditChain.Row(log.nextId, event, Some(head.hash), Some(current));
      log := AuditChain.Log(log.rows + [row], Some(head.(id := Some(row.id), hash := current)), log.nextId + 1);
      revoked := Some(|before|);
    }

    /** Checks that both accounts open with the new passwords. */
    method ValidateLogins(p: Plan, left: nat) returns (ok: bool, left': nat)
      ensures (Here(), ok) == Perform(Here(), ValidateSteps(p), left)
      ensures ok ==> left' == left - 2
    {
      hide Authenticates, Perform;
      RotationRuns.ChecksChangeNothing(Here(), ValidateSteps(p), left);
      ok, left' := false, 0;
      if left >= 2 {
        var app := ConnectWithCandidates(p.user, [p.preparation.rotation.appPassword]);
        assert app <==> Do(Here(), ValidateSteps(p)[0]).Some?;
        var root := false;
        if app {
          root := ConnectWithCandidates(ROOT, [p.preparation.rotation.rootPassword]);
          assert root <==> Do(Here(), ValidateSteps(p)[1]).Some?;
        }
        ok, left' := app && root, left - 2;
      }
    }

    /** The two final writes: the .env file, then the vault. */
    method WriteResults(p: Plan, envContent: string, at: string, left: nat) returns (ok: bool)
      modifies this`env, this`vault
      ensures (Here(), ok) == Perform(old(Here()), WriteSteps(p, envContent, at), left)
    {
      hide EnvFile.Rendered, Finalized, Perform;
      var r := p.preparation.rotation;
      ghost var writeEnv := WriteEnv(EnvFile.Rendered(envContent, r));
      ghost var writeVault := WriteVault(Finalized(p.preparation.vault, r, at));
      assert WriteSteps(p, envContent, at) == [writeEnv] + ([writeVault] + []);
      RotationRuns.PerformFirst(Here(), writeEnv, [writeVault] + [], left);
      if left == 0 {
        return false;
      }
      var text := EnvFile.RenderRotatedEnv(envContent, r);
      env := text;
      RotationRuns.PerformFirst(Here(), writeVault, [], left - 1);
      if left == 1 {
        return false;
      }
      vault := Finalized(p.preparation.vault, r, at);
      RotationRuns.PerformNothing(Here(), left - 2);
      ok := true;
    }

    /** Verification of both logins, revocation, and the two final writes. */
    method Finish(p: Plan, envContent: string, a: Attempt, left: nat) returns (revoked: Option<nat>)
      modifies this
      ensures (Here(), revoked.Some?) == Perform(old(Here()), FinishSteps(p, envContent, a), left)
      ensures revoked.Some? ==> revoked.value == |old(sessions)|
    {
      hide ValidateSteps, WriteSteps, Perform;
      ghost var start := Here();
      ghost var revoke := RevokeAndAudit(p.preparation.rotation.rotationId, a.eventUuid, a.eventTime);
      ghost var writes := WriteSteps(p, envContent, a.completedAt);
      ValidateHasTwoSteps(p);
      PerformConcat(start, ValidateSteps(p), [revoke] + writes, left);
      var valid, left' := ValidateLogins(p, left);
      if !valid {
        return None;
      }
      RotationRuns.PerformFirst(start, revoke, writes, left');
      if left' == 0 {
        return None;
      }
      revoked := RevokeSessionsAndAudit(p.preparation.rotation.rotationId, a.eventUuid, a.eventTime);
      if revoked.None? {
        return None;
      }
      var written := WriteResults(p, envContent, a.completedAt, left' - 1);
      if !written {
        return None;
      }
    }

    lemma ChosenRotation(w: World, a: Attempt, p: Plan)
      requires Prepare(w.vault, a.generated) == Ok(p.preparation)
      ensures p.preparation.rotation == RotationTheorems.CarriedOut(w, a)
      ensures p.preparation.resumed <==> LoadPending(w.vault) == Ok(Some(p.preparation.rotation))
    {
      hide LoadPending, Staged, ValidSecrets;
    }

    lemma ValidateHasTwoSteps(p: Plan)
      ensures |ValidateSteps(p)| == 2
    {
    }

    /** Stages the new secrets, unless a staged rotation is being resumed. */
    method Stage(p: Plan, left: nat) returns (ok: bool, left': nat)
      modifies this`vault
      ensures (Here(), ok) == Perform(old(Here()), StageSteps(p), left)
      ensures ok ==> left' == left - |StageSteps(p)|
    {
      ok, left' := true, left;
      if !p.preparation.resumed {
        assert StageSteps(p) == [WriteVault(p.preparation.vault)] + [];
        RotationRuns.PerformFirst(Here(), WriteVault(p.preparation.vault), [], left);
        if left == 0 {
          return false, 0;
        }
        vault := p.preparation.vault;
        left' := left - 1;
      }
    }

    /** Connects as root and gives every application and root account its new password. */
    method AlterAccounts(p: Plan, left: nat) returns (ok: bool, left': nat, apps: nat, roots: nat)
      modifies this`logins
      ensures ok ==> apps == |HostsOf(old(logins), p.user)| && roots == |HostsOf(old(logins), ROOT)|
      ensures (Here(), ok) ==
        Perform(old(Here()), [Connect(ROOT, RootCandidates(p))] + AlterAllSteps(p, old(logins)), left)
      ensures ok ==> left' == left - 1 - |AlterAllSteps(p, old(logins))|
    {
      hide Authenticates;
      var r := p.preparation.rotation;
      ghost var start := Here();
      RotationRuns.PerformFirst(start, Connect(ROOT, RootCandidates(p)), AlterAllSteps(p, logins), left);
      if left == 0 {
        return false, 0, 0, 0;
      }
      var root := ConnectWithCandidates(ROOT, [r.rootPassword, p.current.rootPassword]);
      if !root {
        return false, 0, 0, 0;
      }
      var appHosts, rootHosts := HostsOf(logins, p.user), HostsOf(logins, ROOT);
      apps, roots := |appHosts|, |rootHosts|;
      PerformConcat(start, AlterSteps(p.user, appHosts, r.appPassword),
                    AlterSteps(ROOT, rootHosts, r.rootPassword), left - 1);
      ok, left' := AlterAccountPasswords(p.user, appHosts, r.appPassword, left - 1);
      if ok {
        ok, left' := AlterAccountPasswords(ROOT, rootHosts, r.rootPassword, left');
      }
    }

    /** One run, cut off after a.stop steps; a refusal is a run that does not complete. */
    method RotateCredentials(a: Attempt) returns (result: Option<RotationResult>)
      modifies this
      ensures (Here(), result.Some?) == RunAttempt(old(Here()), a)
      ensures result.Some? ==>
        var r := RotationTheorems.CarriedOut(old(Here()), a);
        && Raw(vault, DbPassword) == r.appPassword && Raw(vault, RootPassword) == r.rootPassword
        && Raw(vault, JwtSecret) == r.jwtSecret
        && Raw(vault, LastRotationId) == r.rotationId && Raw(vault, LastRotationAt) == a.completedAt
        && |log.rows| == |old(log).rows| + 1 && sessions == {}
        && log.rows[|old(log).rows|].payload.newValues == AuditChain.Rotation(r.rotationId, |old(sessions)|)
      ensures result.Some? ==>
        var r := RotationTheorems.CarriedOut(old(Here()), a);
        LoadSettings(old(vault), old(env)).Ok? &&
        var user := LoadSettings(old(vault), old(env)).value.user;
        result.value == RotationResult(
          r.rotationId, a.completedAt, |RotationRuns.RowsOf(old(logins), user)|,
          |RotationRuns.RowsOf(old(logins), ROOT)|, |old(sessions)|, LoadPending(old(vault)) == Ok(Some(r)))
    {
      hide LoadSettings, CurrentSecrets, Prepare, PreflightSteps, StageSteps, AlterAllSteps, FinishSteps, Perform;
      var settings := LoadSettings(vault, env);
      var current := CurrentSecrets(vault, env);
      var preparation := Prepare(vault, a.generated);
      if settings.Err? || current.Err? || preparation.Err? {
        return None;
      }
      var p := Plan(settings.value.user, current.value, preparation.value);
      var envContent := env;
      ghost var start := Here();
      ghost var preflight, stage, finish := PreflightSteps(p), StageSteps(p), FinishSteps(p, envContent, a);
      ghost var alters := [Connect(ROOT, RootCandidates(p))] + AlterAllSteps(p, logins);
      assert Script(start, p, a) == preflight + (stage + (alters + finish));

      PerformConcat(start, preflight, stage + (alters + finish), a.stop);
      var ok, left := DatabasePreflight(p, a.stop);
      if !ok {
        return None;
      }
      PerformConcat(start, stage, alters + finish, left);
      ok, left := Stage(p, left);
      if !ok {
        return None;
      }
      PerformConcat(Here(), alters, finish, left);
      var apps, roots;
      ok, left, apps, roots := AlterAccounts(p, left);
      if !ok {
        return None;
      }
      var revoked := Finish(p, envContent, a, left);
      if revoked.None? {
        return None;
      }
      RotationTheorems.CompletedRun(start, a);
      RotationRuns.HostsExactly(start.logins, p.user);
      RotationRuns.HostsExactly(start.logins, ROOT);
      ChosenRotation(start, a, p);
      var r := p.preparation.rotation;
      result := Some(RotationResult(r.rotationId, a.completedAt, apps, roots, revoked.value, p.preparation.resumed));
    }
  }
}
