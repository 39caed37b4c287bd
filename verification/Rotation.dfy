/**
 * The durable steps of a credential rotation. A run is cut off after any number of steps by a
 * crash, a lost connection or a closed gate, and ends by itself at a step that cannot be done.
 */
module Rotation {
  import opened Wrappers
  import opened Keys
  import opened SecretsVault
  import EnvFile
  import AuditChain

  // ---------- The server ----------

  /** A row of mysql.user; hosts are listed in the order of the table. */
  datatype Login = Login(user: string, host: string, password: string)

  /**
   * Everything that survives a crash. appHost and rootHost are the host entries the database
   * matches this machine's connections to, for the application user and for root.
   */
  datatype World = World(
    vault: Vault, env: string, logins: seq<Login>, log: AuditChain.Log, sessions: set<int>,
    appHost: string, rootHost: string)

  predicate Opens(w: World, user: string, password: string) {
    var host := if user == ROOT then w.rootHost else w.appHost;
    exists i :: 0 <= i < |w.logins| && w.logins[i] == Login(user, host, password)
  }

  /** Some candidate that is not empty opens the account. */
  predicate Authenticates(w: World, user: string, candidates: seq<string>) {
    exists i :: 0 <= i < |candidates| && candidates[i] != "" && Opens(w, user, candidates[i])
  }

  function HostsOf(logins: seq<Login>, user: string): seq<string> {
    if logins == [] then []
    else
      var last := logins[|logins| - 1];
      HostsOf(logins[..|logins| - 1], user) + if last.user == user then [last.host] else []
  }

  function Reset(login: Login, user: string, host: string, password: string): Login {
    if login.user == user && login.host == host then login.(password := password) else login
  }

  /** ALTER USER: every row of the account gets the password. */
  function Altered(logins: seq<Login>, user: string, host: string, password: string): (r: seq<Login>)
    ensures |r| == |logins|
    ensures forall i :: 0 <= i < |r| ==> r[i] == Reset(logins[i], user, host, password)
  {
    seq(|logins|, i requires 0 <= i < |logins| => Reset(logins[i], user, host, password))
  }

  // ---------- Steps ----------

  /** What a run draws afresh: secrets, event identity and times; and where it is cut off. */
  datatype Attempt = Attempt(generated: RotationSecrets, eventUuid: nat, eventTime: int, completedAt: string, stop: nat)

  datatype Step =
    | Connect(user: string, candidates: seq<string>)
    | RequireAccounts(user: string)
    | WriteVault(vault: Vault)
    | AlterUser(user: string, host: string, password: string)
    | RevokeAndAudit(rotationId: string, uuid: nat, time: int)
    | WriteEnv(text: string)

  function RotationEvent(rotationId: string, revoked: nat, uuid: nat, time: int): AuditChain.Payload {
    AuditChain.Payload(uuid, AuditChain.Phase1CredentialRotation, AuditChain.SystemSecurity, None,
                       AuditChain.NoDetails, AuditChain.Rotation(rotationId, revoked), time, AuditChain.LIVE)
  }

  /** The state after the step, or None when the step raises and changes nothing. */
  function Do(w: World, step: Step): Option<World> {
    match step
    case Connect(user, candidates) => if Authenticates(w, user, candidates) then Some(w) else None
    case RequireAccounts(user) => if HostsOf(w.logins, user) != [] then Some(w) else None
    case WriteVault(vault) => Some(w.(vault := vault))
    case AlterUser(user, host, password) => Some(w.(logins := Altered(w.logins, user, host, password)))
    case RevokeAndAudit(rotationId, uuid, time) =>
      (match AuditChain.Append(w.log, RotationEvent(rotationId, |w.sessions|, uuid, time))
       case Err(_) => None
       case Ok(log) => Some(w.(log := log, sessions := {})))
    case WriteEnv(text) => Some(w.(env := text))
  }

  /** Runs at most stop steps; the flag says that all of them were done. */
  function Perform(w: World, steps: seq<Step>, stop: nat): (World, bool)
    decreases |steps|
  {
    if steps == [] then (w, true)
    else if stop == 0 then (w, false)
    else
      match Do(w, steps[0])
      case None => (w, false)
      case Some(w') => Perform(w', steps[1..], stop - 1)
  }

  function AlterSteps(user: string, hosts: seq<string>, password: string): (steps: seq<Step>)
    ensures |steps| == |hosts|
    ensures forall i :: 0 <= i < |steps| ==> steps[i] == AlterUser(user, hosts[i], password)
  {
    seq(|hosts|, i requires 0 <= i < |hosts| => AlterUser(user, hosts[i], password))
  }

  /** What a run decides before its first durable step. */
  datatype Plan = Plan(user: string, current: Current, preparation: Preparation)

  function PlanFor(w: World, generated: RotationSecrets): Result<Plan, VaultError> {
    match LoadSettings(w.vault, w.env)
    case Err(e) => Err(e)
    case Ok(settings) =>
    match CurrentSecrets(w.vault, w.env)
    case Err(e) => Err(e)
    case Ok(current) =>
    match Prepare(w.vault, generated)
    case Err(e) => Err(e)
    case Ok(preparation) => Ok(Plan(settings.user, current, preparation))
  }

  function RootCandidates(p: Plan): seq<string> {
    [p.preparation.rotation.rootPassword, p.current.rootPassword]
  }

  function AppCandidates(p: Plan): seq<string> {
    [p.preparation.rotation.appPassword, p.current.appPassword]
  }

  /** The database preflight: before staging, only the current passwords are tried. */
  function PreflightSteps(p: Plan): seq<Step> {
    var resumed := p.preparation.resumed;
    [Connect(ROOT, if resumed then RootCandidates(p) else [p.current.rootPassword]),
     RequireAccounts(ROOT),
     RequireAccounts(p.user),
     Connect(p.user, if resumed then AppCandidates(p) else [p.current.appPassword])]
  }

  function StageSteps(p: Plan): seq<Step> {
    if p.preparation.resumed then [] else [WriteVault(p.preparation.vault)]
  }

  function AlterAllSteps(p: Plan, logins: seq<Login>): seq<Step> {
    var r := p.preparation.rotation;
    AlterSteps(p.user, HostsOf(logins, p.user), r.appPassword)
    + AlterSteps(ROOT, HostsOf(logins, ROOT), r.rootPassword)
  }

  function ValidateSteps(p: Plan): seq<Step> {
    var r := p.preparation.rotation;
    [Connect(p.user, [r.appPassword]), Connect(ROOT, [r.rootPassword])]
  }

  function WriteSteps(p: Plan, env: string, at: string): seq<Step> {
    var r := p.preparation.rotation;
    [WriteEnv(EnvFile.Rendered(env, r)), WriteVault(Finalized(p.preparation.vault, r, at))]
  }

  function FinishSteps(p: Plan, env: string, a: Attempt): seq<Step> {
    ValidateSteps(p)
    + ([RevokeAndAudit(p.preparation.rotation.rotationId, a.eventUuid, a.eventTime)]
       + WriteSteps(p, env, a.completedAt))
  }

  function Script(w: World, p: Plan, a: Attempt): seq<Step> {
    PreflightSteps(p) + StageSteps(p) + [Connect(ROOT, RootCandidates(p))]
    + AlterAllSteps(p, w.logins) + FinishSteps(p, w.env, a)
  }

  /** One run of the tool: the state it leaves, and whether it completed. */
  function RunAttempt(w: World, a: Attempt): (World, bool) {
    match PlanFor(w, a.generated)
    case Err(_) => (w, false)
    case Ok(p) => Perform(w, Script(w, p, a), a.stop)
  }

  function RunAll(w: World, attempts: seq<Attempt>): World {
    if attempts == [] then w
    else RunAttempt(RunAll(w, attempts[..|attempts| - 1]), attempts[|attempts| - 1]).0
  }

  // ---------- Running a script in parts ----------

  lemma {:induction false} PerformConcat(w: World, a: seq<Step>, b: seq<Step>, stop: nat)
    ensures Perform(w, a, stop).1 ==> |a| <= stop
    ensures Perform(w, a + b, stop) ==
      if Perform(w, a, stop).1 then Perform(Perform(w, a, stop).0, b, stop - |a|)
      else (Perform(w, a, stop).0, false)
    decreases |a|
  {
    if a == [] {
      assert a + b == b;
    } else {
      assert (a + b)[0] == a[0] && (a + b)[1..] == a[1..] + b;
      if stop > 0 && Do(w, a[0]).Some? {
        PerformConcat(Do(w, a[0]).value, a[1..], b, stop - 1);
      }
    }
  }
}
