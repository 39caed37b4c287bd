/**
 * Recovery of the lost root password through a temporary database server. Every outcome of the
 * environment is an input; the host records each state it passes through.
 */
module Recovery {
  import opened Wrappers
  import opened Keys
  import opened SecretsVault
  import opened Rotation
  import opened RotationRuns
  import EnvFile

  datatype ServiceState = STOPPED | START_PENDING | STOP_PENDING | RUNNING

  /** sc.exe start or stop: the wanted state is reached, or the command fails in some state. */
  datatype Control = Reached | Stuck(state: ServiceState)

  /** SHUTDOWN and the wait for the process: it exited, or the step failed with it dead or alive. */
  datatype Shutdown = Exited | Failed(alive: bool)

  /** A file replacement: done, failed before it, or failed after it, while protecting the new file. */
  datatype FileWrite = Written | NotWritten | Unprotected

  /**
   * How the environment answers during one run; found is the service state at the last query, and
   * foundKnown says that this query is answered.
   */
  datatype Conditions = Conditions(
    apiStopped: bool, serviceValid: bool, backupReady: bool, rootTested: bool, staging: FileWrite,
    apiStoppedAfterStaging: bool, init: FileWrite, stop: Control, portFree: bool, launched: bool, initExecuted: bool,
    rootReady: bool, serverDied: bool, initRemoved: bool, shutdown: Shutdown,
    start: Control, loginsReachable: bool, secondShutdown: Shutdown, terminated: bool,
    restart: Control, stateKnown: bool, initRemovedLater: bool, initRemovedLast: bool,
    found: ServiceState, foundKnown: bool)

  datatype Refusal =
    | NotStarted | NotRequired | NotStaged | StagedOnly | StoppedSafely | ServiceNotRestored | NotValidated

  /** The init files hold a root password each and are named by their rotation. */
  datatype Snapshot = Snapshot(
    world: World, service: ServiceState, temporaryServer: bool, initFiles: map<string, string>)

  const LOCALHOST := "localhost"

  /** The init file renames nothing and alters one account, if it exists. */
  function RootReset(w: World, password: string): World {
    w.(logins := Altered(w.logins, ROOT, LOCALHOST, password))
  }

  /** Every step of the environment works. */
  predicate Favourable(c: Conditions) {
    && c.apiStopped && c.serviceValid && c.backupReady && c.rootTested && c.staging.Written?
    && c.apiStoppedAfterStaging && c.init.Written? && c.stop.Reached? && c.portFree && c.launched && c.initExecuted
    && c.rootReady && c.initRemoved && c.shutdown.Exited? && c.start.Reached? && c.loginsReachable
    && c.found == RUNNING && c.foundKnown
  }

  /** The lost account is root@localhost, and it is the one this machine connects to. */
  predicate LocalRoot(w: World) {
    && w.rootHost == LOCALHOST
    && exists i :: 0 <= i < |w.logins| && w.logins[i].user == ROOT && w.logins[i].host == LOCALHOST
  }

  /** The reset opens root@localhost and no other account is touched. */
  lemma ResetOpensRoot(w: World, password: string, user: string, other: string)
    requires LocalRoot(w) && user != ROOT
    ensures var w' := RootReset(w, password);
      && Login(ROOT, LOCALHOST, password) in w'.logins && Opens(w', ROOT, password)
      && LOCALHOST in HostsOf(w'.logins, ROOT)
      && (Opens(w, user, other) ==> Opens(w', user, other))
  {
    hide HostsOf;
    var w' := RootReset(w, password);
    var i :| 0 <= i < |w.logins| && w.logins[i].user == ROOT && w.logins[i].host == LOCALHOST;
    assert w'.logins[i] == Login(ROOT, LOCALHOST, password);
    HostsComplete(w'.logins, ROOT, i);
    if Opens(w, user, other) {
      var j :| 0 <= j < |w.logins| && w.logins[j] == Login(user, w.appHost, other);
      assert w'.logins[j] == w.logins[j];
    }
  }

  // ---------- What every moment satisfies ----------

  /** The service and the temporary server never run together. */
  ghost predicate Exclusive(s: Snapshot) {
    s.temporaryServer ==> s.service == STOPPED
  }

  /** Something besides the vault is no longer as it was. */
  predicate Touched(start: Snapshot, s: Snapshot) {
    || s.world.logins != start.world.logins || s.initFiles != start.initFiles
    || s.service != RUNNING || s.temporaryServer
  }

  /** Before the init file is written or root changes, the vault holds the staged secret. */
  ghost predicate StagedFirst(start: Snapshot, r: RotationSecrets, s: Snapshot) {
    && (s.world == start.world || s.world == start.world.(vault := s.world.vault)
        || s.world == RootReset(start.world.(vault := s.world.vault), r.rootPassword))
    && (s.world.vault == start.world.vault || s.world.vault == Staged(start.world.vault, r))
    && (Touched(start, s) ==> LoadPending(s.world.vault) == Ok(Some(r)))
    && (s.initFiles == start.initFiles || s.initFiles == start.initFiles[r.rotationId := r.rootPassword]
        || s.initFiles == start.initFiles - {r.rotationId})
  }

  /** What holds at every moment of a run that began at start, with the secrets that it stages or resumes. */
  ghost predicate Moment(start: Snapshot, r: RotationSecrets, s: Snapshot) {
    Exclusive(s) && StagedFirst(start, r, s)
  }

  /** The secrets a run stages or resumes. */
  function RotationOf(w: World, generated: RotationSecrets): RotationSecrets {
    match Prepare(w.vault, generated)
    case Ok(p) => p.rotation
    case Err(_) => generated
  }

  predicate Restorable(w: World, user: string, current: Current, r: RotationSecrets) {
    && LocalRoot(w) && user != ROOT && Opens(w, user, current.appPassword)
    && |r.rootPassword| == 64 && IsHex(r.rootPassword)
  }

  /** The passwords that are tried on root before a recovery. */
  function RootTried(p: Plan): seq<string> {
    if p.preparation.resumed then RootCandidates(p) else [p.current.rootPassword]
  }

  /** The server is one whose only fault is the lost root password. */
  predicate Recoverable(w: World, generated: RotationSecrets) {
    && PlanFor(w, generated).Ok?
    && var p := PlanFor(w, generated).value;
    Restorable(w, p.user, p.current, p.preparation.rotation) && !Authenticates(w, ROOT, RootTried(p))
  }

  /** The gates before anything is written; the application account must open with its current password. */
  predicate Starts(w: World, c: Conditions, generated: RotationSecrets) {
    && c.apiStopped && c.serviceValid && c.backupReady && c.rootTested && PlanFor(w, generated).Ok?
    && var p := PlanFor(w, generated).value; Opens(w, p.user, p.current.appPassword)
  }

  /** The run goes on to stage its secrets: the gates hold, and no password opens root. */
  predicate Admitted(w: World, c: Conditions, generated: RotationSecrets) {
    Starts(w, c, generated) && !Authenticates(w, ROOT, RootTried(PlanFor(w, generated).value))
  }

  /** The accounts while the temporary server runs. */
  function ResetWorld(w: World, c: Conditions, r: RotationSecrets): World {
    if c.initExecuted then RootReset(w, r.rootPassword) else w
  }

  /** The init file is written and protected, and the service is told to stop. */
  predicate Stops(c: Conditions, r: RotationSecrets) {
    |r.rootPassword| == 64 && IsHex(r.rootPassword) && c.init.Written?
  }

  /** The temporary server is started. */
  predicate Launches(c: Conditions, r: RotationSecrets) {
    Stops(c, r) && c.stop.Reached? && c.portFree && c.launched
  }

  /** The temporary server accepts the staged password. */
  predicate Connects(w: World, c: Conditions, r: RotationSecrets) {
    Launches(c, r) && c.rootReady && Login(ROOT, LOCALHOST, r.rootPassword) in ResetWorld(w, c, r).logins
  }

  /** The temporary server is shut down in order, and the service is told to start. */
  predicate Returns(w: World, c: Conditions, r: RotationSecrets) {
    Connects(w, c, r) && c.initRemoved && c.shutdown.Exited?
  }

  function StateAfter(outcome: Control, reached: ServiceState): ServiceState {
    if outcome.Reached? then reached else outcome.state
  }

  /** The service when something is raised in the guarded part. */
  function ServiceLeft(w: World, c: Conditions, r: RotationSecrets): ServiceState {
    if !Stops(c, r) then RUNNING
    else if Returns(w, c, r) then StateAfter(c.start, RUNNING)
    else StateAfter(c.stop, STOPPED)
  }

  /** The temporary server when something is raised: alive unless it died or was shut down. */
  predicate ServerLeft(w: World, c: Conditions, r: RotationSecrets) {
    && Launches(c, r)
    && if !Connects(w, c, r) then !c.serverDied
       else !c.initRemoved || (c.shutdown.Failed? && c.shutdown.alive)
  }

  /** Neither the second shutdown nor the termination ends the temporary server. */
  predicate ServerSurvives(w: World, c: Conditions, r: RotationSecrets) {
    && ServerLeft(w, c, r) && !c.terminated
    && (Connects(w, c, r) ==> c.secondShutdown.Failed? && c.secondShutdown.alive)
  }

  /** The failure handler has the service running again. */
  predicate Restores(w: World, c: Conditions, r: RotationSecrets) {
    && !ServerSurvives(w, c, r) && c.stateKnown
    && (ServiceLeft(w, c, r) == RUNNING || c.restart.Reached?)
  }

  /** Nothing is raised between the init file and the last login check. */
  predicate GoesThrough(w: World, c: Conditions, user: string, current: Current, r: RotationSecrets) {
    && Returns(w, c, r) && c.start.Reached? && c.loginsReachable
    && Opens(ResetWorld(w, c, r), ROOT, r.rootPassword) && Opens(ResetWorld(w, c, r), user, current.appPassword)
  }

  /** The run enters its guarded part. */
  predicate Enters(w: World, c: Conditions, generated: RotationSecrets) {
    && Admitted(w, c, generated)
    && (PlanFor(w, generated).value.preparation.resumed || c.staging.Written?) && c.apiStoppedAfterStaging
  }

  /** The drawn secrets cannot be written. */
  predicate StagingFails(w: World, c: Conditions, generated: RotationSecrets)
    requires PlanFor(w, generated).Ok?
  {
    !PlanFor(w, generated).value.preparation.resumed && c.staging.NotWritten?
  }

  /** The run reaches the last query of the service state. */
  predicate Passes(w: World, c: Conditions, generated: RotationSecrets) {
    && Enters(w, c, generated)
    && var p := PlanFor(w, generated).value;
    GoesThrough(w, c, p.user, p.current, p.preparation.rotation)
  }

  /** The run is raised out of its guarded part. */
  predicate Fails(w: World, c: Conditions, generated: RotationSecrets) {
    Enters(w, c, generated) && !Passes(w, c, generated)
  }

  /** The accounts that the temporary server is asked about. */
  function AccountsSeen(w: World, c: Conditions, r: RotationSecrets): World {
    if c.initExecuted then w.(logins := Altered(w.logins, ROOT, "localhost", r.rootPassword)) else w
  }

  /** Every step on the way to the last query of the service, and both logins on the reset accounts. */
  predicate AllSteps(w: World, c: Conditions, p: Plan) {
    var r, seen := p.preparation.rotation, AccountsSeen(w, c, p.preparation.rotation);
    && (p.preparation.resumed || c.staging == Written) && c.apiStoppedAfterStaging
    && |r.rootPassword| == 64 && LowerHex(r.rootPassword) && c.init == Written && c.stop == Reached && c.portFree
    && c.launched && c.rootReady && Login("root", "localhost", r.rootPassword) in seen.logins
    && c.initRemoved && c.shutdown == Exited && c.start == Reached && c.loginsReachable
    && Opens(seen, "root", r.rootPassword) && Opens(seen, p.user, p.current.appPassword)
  }

  /** A run passes exactly when its gates hold, no tried password opens root, and every step works. */
  lemma PassesExactly(w: World, c: Conditions, generated: RotationSecrets)
    ensures Passes(w, c, generated) <==>
      && c.apiStopped && c.serviceValid && c.backupReady && c.rootTested && PlanFor(w, generated).Ok?
      && var p := PlanFor(w, generated).value;
         && Opens(w, p.user, p.current.appPassword) && !Authenticates(w, "root", RootTried(p)) && AllSteps(w, c, p)
  {
    hide PlanFor, Opens, Authenticates, RootTried, IsHex, LowerHex, Altered;
    if PlanFor(w, generated).Ok? {
      HexCharacters(PlanFor(w, generated).value.preparation.rotation.rootPassword);
    }
  }

  /** Stage by stage, when a run that is raised out of its guarded part has the service running again. */
  lemma RestoredByStage(w: World, c: Conditions, r: RotationSecrets)
    ensures Restores(w, c, r) <==>
      var connected := c.rootReady && Login("root", "localhost", r.rootPassword) in AccountsSeen(w, c, r).logins;
      var ended := c.terminated || c.secondShutdown == Exited || !c.secondShutdown.alive;
      c.stateKnown &&
      if |r.rootPassword| != 64 || !LowerHex(r.rootPassword) || c.init != Written then true
      else if c.stop != Reached then c.stop.state == RUNNING || c.restart == Reached
      else if !c.portFree || !c.launched then c.restart == Reached
      else if !connected then (c.serverDied || c.terminated) && c.restart == Reached
      else if !c.initRemoved then ended && c.restart == Reached
      else if c.shutdown != Exited then (!c.shutdown.alive || ended) && c.restart == Reached
      else c.start == Reached || c.start.state == RUNNING || c.restart == Reached
  {
    hide IsHex, LowerHex, Altered;
    HexCharacters(r.rootPassword);
  }

  /** The accounts do not depend on the vault. */
  lemma GoesThroughWithVault(w: World, v: Vault, c: Conditions, user: string, current: Current, r: RotationSecrets)
    ensures GoesThrough(w.(vault := v), c, user, current, r) <==> GoesThrough(w, c, user, current, r)
    ensures Restores(w.(vault := v), c, r) <==> Restores(w, c, r)
    ensures Connects(w.(vault := v), c, r) <==> Connects(w, c, r)
    ensures ServerLeft(w.(vault := v), c, r) <==> ServerLeft(w, c, r)
    ensures ServerSurvives(w.(vault := v), c, r) <==> ServerSurvives(w, c, r)
    ensures ServiceLeft(w.(vault := v), c, r) == ServiceLeft(w, c, r)
  {
  }

  /** A lost root@localhost is recovered when every step of the environment works. */
  lemma FavourableGoesThrough(w: World, c: Conditions, user: string, current: Current, r: RotationSecrets)
    requires Favourable(c) && Restorable(w, user, current, r)
    ensures GoesThrough(w, c, user, current, r)
  {
    hide Opens, Altered, HostsOf, LocalRoot, IsHex;
    ResetOpensRoot(w, r.rootPassword, user, current.appPassword);
  }

  lemma FavourablePasses(w: World, c: Conditions, generated: RotationSecrets)
    requires Favourable(c) && Recoverable(w, generated)
    ensures Passes(w, c, generated)
  {
    hide PlanFor, Opens, GoesThrough, Favourable, LocalRoot, IsHex, RootTried, Authenticates;
    var p := PlanFor(w, generated).value;
    FavourableGoesThrough(w, c, p.user, p.current, p.preparation.rotation);
    FavourableGates(c);
  }

  lemma FavourableGates(c: Conditions)
    requires Favourable(c)
    ensures c.apiStopped && c.serviceValid && c.backupReady && c.rootTested && c.staging.Written?
    ensures c.apiStoppedAfterStaging && c.found == RUNNING && c.foundKnown
  {
  }

  /** A failure that leaves the service stopped and does not report that it could not be restored. */
  predicate LeftStopped(result: Result<nat, Refusal>, service: ServiceState) {
    result.Err? && result.error != ServiceNotRestored && service != RUNNING
  }

  /** Which exit a run takes, by what it meets. */
  predicate ExitsExactly(
    w: World, service: ServiceState, c: Conditions, generated: RotationSecrets, result: Result<nat, Refusal>)
  {
    var admitted, fails := service == RUNNING && Admitted(w, c, generated), Fails(w, c, generated);
    && (result == Err(NotStarted) <==> service != RUNNING || !Starts(w, c, generated))
    && (result == Err(NotRequired) <==> service == RUNNING && Starts(w, c, generated) && !Admitted(w, c, generated))
    && (result == Err(NotStaged) <==> admitted && StagingFails(w, c, generated))
    && (result == Err(StagedOnly) <==> admitted && !StagingFails(w, c, generated) && !Enters(w, c, generated))
    && (result == Err(StoppedSafely) <==> admitted && fails && Restores(w, c, RotationOf(w, generated)))
    && (result == Err(ServiceNotRestored) <==> admitted && fails && !Restores(w, c, RotationOf(w, generated)))
    && (result == Err(NotValidated) <==>
          service == RUNNING && Passes(w, c, generated) && !(c.found == RUNNING && c.foundKnown))
    && (result.Ok? <==> service == RUNNING && Passes(w, c, generated) && c.found == RUNNING && c.foundKnown)
  }

  /** What a run that is cut off anywhere may leave: a moment of it, or nothing changed if it is not admitted. */
  ghost predicate CutOff(start: Snapshot, c: Conditions, generated: RotationSecrets, s: Snapshot) {
    if start.service == RUNNING && Admitted(start.world, c, generated) then
      Moment(start, RotationOf(start.world, generated), s)
    else
      s == start
  }

  /** Staged, and the API still stopped. */
  predicate Proceeds(p: Plan, c: Conditions) {
    (p.preparation.resumed || c.staging.Written?) && c.apiStoppedAfterStaging
  }

  predicate Through(w: World, c: Conditions, p: Plan) {
    GoesThrough(w, c, p.user, p.current, p.preparation.rotation)
  }

  /** Root is reset exactly when the temporary server runs the init file. */
  function AsReset(w: World, c: Conditions, p: Plan): World {
    if Proceeds(p, c) && Launches(c, p.preparation.rotation) && c.initExecuted then
      RootReset(w, p.preparation.rotation.rootPassword)
    else w
  }

  lemma ThroughIsReset(w: World, v: Vault, c: Conditions, p: Plan)
    requires Proceeds(p, c) && Through(w, c, p)
    ensures AsReset(w.(vault := v), c, p) == ResetWorld(w.(vault := v), c, p.preparation.rotation)
  {
    hide Opens, HostsOf, Altered, IsHex;
  }

  class Host {
    var world: World
    var service: ServiceState
    var temporaryServer: bool
    var initFiles: map<string, string>
    ghost var history: seq<Snapshot>

    constructor (w: World)
      ensures world == w && service == RUNNING && !temporaryServer && initFiles == map[] && history == []
    {
      world, service, temporaryServer, initFiles, history := w, RUNNING, false, map[], [];
    }

    ghost function Now(): Snapshot
      reads this
    {
      Snapshot(world, service, temporaryServer, initFiles)
    }

    /** Every state so far, the present one included, was a safe moment. */
    ghost predicate Safely(start: Snapshot, r: RotationSecrets)
      reads this
    {
      (forall i :: 0 <= i < |history| ==> Moment(start, r, history[i])) && Moment(start, r, Now())
    }

    ghost method Note(start: Snapshot, r: RotationSecrets)
      requires Safely(start, r)
      modifies this`history
      ensures Safely(start, r) && history == old(history) + [Now()]
    {
      history := history + [Now()];
    }

    method StopService(outcome: Control, ghost start: Snapshot, ghost r: RotationSecrets) returns (ok: bool)
      requires Safely(start, r) && !temporaryServer && LoadPending(world.vault) == Ok(Some(r))
      modifies this`service, this`history
      ensures Safely(start, r) && old(history) <= history
      ensures ok <==> outcome.Reached?
      ensures service == if outcome.Reached? then STOPPED else outcome.state
    {
      Note(start, r);
      service := if outcome.Reached? then STOPPED else outcome.state;
      ok := outcome.Reached?;
    }

    method StartService(outcome: Control, ghost start: Snapshot, ghost r: RotationSecrets) returns (ok: bool)
      requires Safely(start, r) && !temporaryServer && LoadPending(world.vault) == Ok(Some(r))
      modifies this`service, this`history
      ensures Safely(start, r) && old(history) <= history
      ensures ok <==> outcome.Reached?
      ensures service == if outcome.Reached? then RUNNING else outcome.state
    {
      Note(start, r);
      service := if outcome.Reached? then RUNNING else outcome.state;
      ok := outcome.Reached?;
    }

    /** Starts the temporary server, which may execute the init file at any time from now on. */
    method StartRecoveryServer(launched: bool, executes: bool, ghost start: Snapshot, r: RotationSecrets)
      returns (ok: bool)
      requires Safely(start, r) && service == STOPPED && !temporaryServer
      requires r.rotationId in initFiles && initFiles[r.rotationId] == r.rootPassword
      requires LoadPending(world.vault) == Ok(Some(r)) && world == start.world.(vault := world.vault)
      modifies this`temporaryServer, this`world, this`history
      ensures Safely(start, r) && old(history) <= history
      ensures ok == launched == temporaryServer
      ensures world == if launched && executes then RootReset(old(world), r.rootPassword) else old(world)
    {
      Note(start, r);
      ok := launched;
      if launched {
        temporaryServer := true;
        Note(start, r);
        if executes {
          world := RootReset(world, initFiles[r.rotationId]);
        }
      }
    }

    method RemoveInitFile(possible: bool, ghost start: Snapshot, r: RotationSecrets) returns (removed: bool)
      requires Safely(start, r) && LoadPending(world.vault) == Ok(Some(r))
      modifies this`initFiles, this`history
      ensures Safely(start, r) && old(history) <= history
      ensures removed <==> r.rotationId !in initFiles
      ensures initFiles == if possible then old(initFiles) - {r.rotationId} else old(initFiles)
    {
      Note(start, r);
      if possible {
        initFiles := initFiles - {r.rotationId};
      }
      removed := r.rotationId !in initFiles;
    }

    method ShutdownRecoveryServer(outcome: Shutdown, ghost start: Snapshot, ghost r: RotationSecrets) returns (ok: bool)
      requires Safely(start, r) && temporaryServer
      modifies this`temporaryServer, this`history
      ensures Safely(start, r) && old(history) <= history
      ensures ok <==> outcome.Exited?
      ensures temporaryServer == (outcome.Failed? && outcome.alive)
    {
      Note(start, r);
      temporaryServer := outcome.Failed? && outcome.alive;
      ok := outcome.Exited?;
    }

    method WriteInitFile(ghost start: Snapshot, r: RotationSecrets)
      requires Safely(start, r) && LoadPending(world.vault) == Ok(Some(r))
      modifies this`initFiles, this`history
      ensures Safely(start, r) && old(history) <= history
      ensures initFiles == old(initFiles)[r.rotationId := r.rootPassword]
    {
      Note(start, r);
      initFiles := initFiles[r.rotationId := r.rootPassword];
    }

    /** Polls until the staged password opens root@localhost; otherwise the process may be gone. */
    method WaitForRecoveredRoot(ready: bool, died: bool, ghost start: Snapshot, r: RotationSecrets)
      returns (connected: bool)
      requires Safely(start, r) && temporaryServer
      modifies this`temporaryServer, this`history
      ensures Safely(start, r) && old(history) <= history
      ensures connected <==> ready && Login(ROOT, LOCALHOST, r.rootPassword) in world.logins
      ensures temporaryServer == (connected || !died)
    {
      connected := ready && Login(ROOT, LOCALHOST, r.rootPassword) in world.logins;
      if !connected {
        Note(start, r);
        temporaryServer := !died;
      }
    }

    /** terminate() and the wait for it; succeeds when the process is gone. */
    method StopProcessAfterFailure(handle: bool, terminates: bool, ghost start: Snapshot, ghost r: RotationSecrets)
      returns (stopped: bool)
      requires Safely(start, r) && (temporaryServer ==> handle)
      modifies this`temporaryServer, this`history
      ensures Safely(start, r) && old(history) <= history
      ensures temporaryServer == (old(temporaryServer) && !terminates) && stopped == !temporaryServer
    {
      if handle && temporaryServer && terminates {
        Note(start, r);
        temporaryServer := false;
      }
      stopped := !temporaryServer;
    }

    /** Starts the service unless it runs; true when its state is known to be RUNNING afterwards. */
    method RestoreNormalService(stateKnown: bool, restart: Control, ghost start: Snapshot, ghost r: RotationSecrets)
      returns (restored: bool)
      requires Safely(start, r) && !temporaryServer && LoadPending(world.vault) == Ok(Some(r))
      modifies this`service, this`history
      ensures Safely(start, r) && old(history) <= history
      ensures restored <==> stateKnown && (old(service) == RUNNING || restart.Reached?)
      ensures service ==
        if stateKnown && old(service) != RUNNING then StateAfter(restart, RUNNING) else old(service)
    {
      hide Moment, LoadPending;
      if !stateKnown {
        return false;
      }
      if service != RUNNING {
        var started := StartService(restart, start, r);
        if !started {
          return false;
        }
      }
      restored := service == RUNNING;
    }

    /** From the init file to a root connection on the temporary server. */
    method ConnectTemporaryRoot(c: Conditions, r: RotationSecrets, ghost start: Snapshot)
      returns (process: bool, connection: bool)
      requires Safely(start, r) && service == RUNNING && !temporaryServer
      requires LoadPending(world.vault) == Ok(Some(r)) && world == start.world.(vault := world.vault)
      modifies this
      ensures Safely(start, r) && old(history) <= history
      ensures world.vault == old(world.vault) && (temporaryServer ==> process) && (connection ==> process)
      ensures connection <==> Connects(old(world), c, r)
      ensures service == if Stops(c, r) then StateAfter(c.stop, STOPPED) else RUNNING
      ensures world == if Launches(c, r) then ResetWorld(old(world), c, r) else old(world)
      ensures temporaryServer == (Launches(c, r) && (connection || !c.serverDied))
      ensures connection ==> r.rotationId in initFiles
      ensures initFiles - {r.rotationId} == old(initFiles) - {r.rotationId}
    {
      hide Moment, LoadPending, Altered, IsHex;
      process, connection := false, false;
      if |r.rootPassword| != 64 || !IsHex(r.rootPassword) || c.init.NotWritten? {
        return;
      }
      WriteInitFile(start, r);
      if c.init.Unprotected? {
        return;
      }
      var stopped := StopService(c.stop, start, r);
      if !stopped || !c.portFree {
        return;
      }
      process := StartRecoveryServer(c.launched, c.initExecuted, start, r);
      if process {
        connection := WaitForRecoveredRoot(c.rootReady, c.serverDied, start, r);
      }
    }

    /**
     * The guarded part of the run; done says that nothing was raised. process and connection say
     * which handles the failure handler still finds set.
     */
    method TryRecovery(c: Conditions, user: string, current: Current, r: RotationSecrets, ghost start: Snapshot)
      returns (done: bool, process: bool, connection: bool, rootHosts: nat, initRemoved: bool)
      requires Safely(start, r) && service == RUNNING && !temporaryServer
      requires LoadPending(world.vault) == Ok(Some(r)) && world == start.world.(vault := world.vault)
      modifies this
      ensures Safely(start, r) && old(history) <= history
      ensures world.vault == old(world.vault)
      ensures temporaryServer ==> process
      ensures connection ==> process
      ensures done <==> GoesThrough(old(world), c, user, current, r)
      ensures service == ServiceLeft(old(world), c, r)
      ensures !done ==> temporaryServer == ServerLeft(old(world), c, r)
      ensures temporaryServer ==> (connection <==> Connects(old(world), c, r))
      ensures world == if Launches(c, r) then ResetWorld(old(world), c, r) else old(world)
      ensures initFiles - {r.rotationId} == old(initFiles) - {r.rotationId}
      ensures done ==>
        && service == RUNNING && !temporaryServer && r.rotationId !in initFiles && initRemoved && !process
        && rootHosts == |HostsOf(world.logins, ROOT)|
    {
      hide Moment, LoadPending, Opens, ResetWorld, HostsOf, IsHex;
      done, rootHosts, initRemoved := false, 0, false;
      process, connection := ConnectTemporaryRoot(c, r, start);
      if !connection {
        return;
      }
      initRemoved := RemoveInitFile(c.initRemoved, start, r);
      if !initRemoved {
        return;
      }
      var hosts := HostsOf(world.logins, ROOT);
      rootHosts := |hosts|;
      LoginHasHost(world.logins, r.rootPassword);
      if LOCALHOST !in hosts {
        return;
      }
      var shut := ShutdownRecoveryServer(c.shutdown, start, r);
      if !shut {
        return;
      }
      connection, process := false, false;
      var started := StartService(c.start, start, r);
      if !started {
        return;
      }
      done := c.loginsReachable && Opens(world, ROOT, r.rootPassword) && Opens(world, user, current.appPassword);
    }

    /** The failure handler: stop the temporary server, then start the service only if that worked. */
    method RestoreAfterFailure(
      c: Conditions, process: bool, connection: bool, r: RotationSecrets, ghost start: Snapshot)
      returns (restored: bool)
      requires Safely(start, r) && LoadPending(world.vault) == Ok(Some(r))
      requires temporaryServer ==> process
      requires connection ==> process
      modifies this
      ensures Safely(start, r) && old(history) <= history
      ensures temporaryServer ==
        (old(temporaryServer) && !c.terminated
         && (connection ==> c.secondShutdown.Failed? && c.secondShutdown.alive))
      ensures restored <==> !temporaryServer && c.stateKnown && (old(service) == RUNNING || c.restart.Reached?)
      ensures service ==
        if !temporaryServer && c.stateKnown && old(service) != RUNNING then StateAfter(c.restart, RUNNING)
        else old(service)
      ensures initFiles ==
        if c.initRemovedLater || c.initRemovedLast then old(initFiles) - {r.rotationId} else old(initFiles)
      ensures world == old(world)
    {
      hide Moment, LoadPending;
      var handle := process;
      if connection && temporaryServer {
        var shut := ShutdownRecoveryServer(c.secondShutdown, start, r);
        handle := !shut;
      }
      var processStopped := StopProcessAfterFailure(handle, c.terminated, start, r);
      restored := false;
      if processStopped {
        restored := RestoreNormalService(c.stateKnown, c.restart, start, r);
      }
      var removed := RemoveInitFile(c.initRemovedLater, start, r);
      if !removed {
        removed := RemoveInitFile(c.initRemovedLast, start, r);
      }
    }

    /** The guarded part, with its failure handler. */
    method TryOrRestore(c: Conditions, user: string, current: Current, r: RotationSecrets, ghost start: Snapshot)
      returns (done: bool, restored: bool, rootHosts: nat)
      requires Safely(start, r) && service == RUNNING && !temporaryServer
      requires LoadPending(world.vault) == Ok(Some(r)) && world == start.world.(vault := world.vault)
      modifies this
      ensures Safely(start, r) && old(history) <= history
      ensures done <==> GoesThrough(old(world), c, user, current, r)
      ensures !done ==>
        && (restored <==> Restores(old(world), c, r)) && (restored ==> service == RUNNING)
        && temporaryServer == ServerSurvives(old(world), c, r) && (restored ==> !temporaryServer)
        && (r.rotationId in initFiles ==> !c.initRemovedLater && !c.initRemovedLast)
      ensures done ==>
        service == RUNNING && !temporaryServer && r.rotationId !in initFiles
        && rootHosts == |HostsOf(world.logins, ROOT)|
      ensures world == if Launches(c, r) then ResetWorld(old(world), c, r) else old(world)
      ensures initFiles - {r.rotationId} == old(initFiles) - {r.rotationId}
    {
      hide LoadPending, Opens, HostsOf, Altered, Moment, GoesThrough, ServiceLeft, ServerLeft, Launches, Connects,
           IsHex, ResetWorld;
      var process, connection, initRemoved;
      restored := false;
      done, process, connection, rootHosts, initRemoved := TryRecovery(c, user, current, r, start);
      if !done {
        restored := RestoreAfterFailure(c, process, connection, r, start);
      }
    }

    method StageSecrets(ghost start: Snapshot, r: RotationSecrets)
      requires Safely(start, r) && Plain(r) && Now() == start && service == RUNNING && !temporaryServer
      modifies this`world, this`history
      ensures Safely(start, r) && old(history) <= history
      ensures world == start.world.(vault := Staged(start.world.vault, r)) && LoadPending(world.vault) == Ok(Some(r))
    {
      hide LoadPending, Staged, Plain;
      StagedLoads(world.vault, r);
      Note(start, r);
      world := world.(vault := Staged(world.vault, r));
    }

    /**
     * The admitted part of a run: staging, the guarded part, and the failure handler.
     * A run that reaches the last query of the service finds it in the state c.found.
     */
    method Recover(c: Conditions, p: Plan, ghost start: Snapshot) returns (result: Result<nat, Refusal>)
      requires var r := p.preparation.rotation;
        && Safely(start, r) && Now() == start && service == RUNNING && !temporaryServer && Plain(r)
        && (p.preparation.resumed ==> LoadPending(world.vault) == Ok(Some(r)))
      modifies this
      ensures Safely(start, p.preparation.rotation) && old(history) <= history
      ensures PlannedExit(start.world, c, p, result)
      ensures result.Err? && result.error in {NotStaged, StagedOnly, StoppedSafely} ==>
        service == RUNNING && !temporaryServer
      ensures result == Err(ServiceNotRestored) ==>
        temporaryServer == ServerSurvives(start.world, c, p.preparation.rotation)
      ensures initFiles - {p.preparation.rotation.rotationId} == start.initFiles - {p.preparation.rotation.rotationId}
      ensures result.Err? && result.error in {StoppedSafely, ServiceNotRestored} ==>
        p.preparation.rotation.rotationId in initFiles ==> !c.initRemovedLater && !c.initRemovedLast
      ensures result.Ok? || result.error == NotValidated ==>
        && service == c.found && !temporaryServer && p.preparation.rotation.rotationId !in initFiles
        && LoadPending(world.vault) == Ok(Some(p.preparation.rotation))
      ensures world.vault ==
        if p.preparation.resumed || c.staging.NotWritten? then start.world.vault
        else Staged(start.world.vault, p.preparation.rotation)
      ensures world == AsReset(start.world.(vault := world.vault), c, p)
      ensures result.Ok? ==> result.value == |HostsOf(world.logins, ROOT)|
    {
      hide LoadPending, Opens, Staged, Plain, HostsOf, Altered, Moment, GoesThrough, Restores, ServerSurvives, Launches,
           Connects, IsHex;
      var r := p.preparation.rotation;
      if !p.preparation.resumed {
        if c.staging.NotWritten? {
          return Err(NotStaged);
        }
        StageSecrets(start, r);
        if c.staging.Unprotected? {
          return Err(StagedOnly);
        }
      }
      if !c.apiStoppedAfterStaging {
        return Err(StagedOnly);
      }
      GoesThroughWithVault(start.world, world.vault, c, p.user, p.current, r);
      assert world == start.world.(vault := world.vault);
      var done, restored, rootHosts := TryOrRestore(c, p.user, p.current, r, start);
      if !done {
        return Err(if restored then StoppedSafely else ServiceNotRestored);
      }
      FindService(c.found, start, r);
      if !c.foundKnown || service != RUNNING {
        return Err(NotValidated);
      }
      result := Ok(rootHosts);
    }

    /** The service may have left its state since it was last seen. */
    method FindService(found: ServiceState, ghost start: Snapshot, ghost r: RotationSecrets)
      requires Safely(start, r) && !temporaryServer && LoadPending(world.vault) == Ok(Some(r))
      modifies this`service, this`history
      ensures Safely(start, r) && old(history) <= history && service == found
    {
      Note(start, r);
      service := found;
    }

    /** The whole run, from any state in which the two servers do not run together. */
    method RecoverRoot(c: Conditions, generated: RotationSecrets) returns (result: Result<nat, Refusal>)
      requires Exclusive(Now()) && history == []
      requires DrawsHex(world, generated)
      requires LoadPending(world.vault).Ok? && LoadPending(world.vault).value.Some? ==>
        Plain(LoadPending(world.vault).value.value)
      modifies this
      ensures CutOff(old(Now()), c, generated, Now())
      ensures forall i :: 0 <= i < |history| ==> CutOff(old(Now()), c, generated, history[i])
      ensures ExitsExactly(old(world), old(service), c, generated, result)
      ensures result == Err(ServiceNotRestored) ==>
        temporaryServer == ServerSurvives(old(world), c, RotationOf(old(world), generated))
      ensures old(service) == RUNNING && Admitted(old(world), c, generated) ==>
        var p := PlanFor(old(world), generated).value;
        && world.vault == (if p.preparation.resumed || StagingFails(old(world), c, generated) then old(world.vault)
                           else Staged(old(world.vault), p.preparation.rotation))
        && world == AsReset(old(world).(vault := world.vault), c, p)
      ensures old(service) == RUNNING ==>
        (LeftStopped(result, service) <==> Passes(old(world), c, generated) && c.found != RUNNING)
      ensures result.Err? && result.error in {NotStarted, NotRequired} ==> Now() == old(Now()) && history == []
      ensures result.Err? && result.error in {NotRequired, NotStaged, StagedOnly, StoppedSafely} ==>
        service == RUNNING && !temporaryServer
      ensures result.Err? && result.error in {StoppedSafely, ServiceNotRestored} ==>
        RotationOf(old(world), generated).rotationId in initFiles ==> !c.initRemovedLater && !c.initRemovedLast
      ensures result.Ok? || result.error == NotValidated ==>
        && service == c.found && !temporaryServer && RotationOf(old(world), generated).rotationId !in initFiles
        && Safe(world) && LoadPending(world.vault) == Ok(Some(RotationOf(old(world), generated)))
        && Opens(world, ROOT, RotationOf(old(world), generated).rootPassword)
      ensures result.Ok? ==> result.value == |HostsOf(world.logins, ROOT)|
      ensures old(service) == RUNNING && Favourable(c) && Recoverable(old(world), generated) ==> result.Ok?
    {
      hide LocalRoot, IsHex, Hexadecimal, ValidSecrets, GoesThrough, Favourable, Recoverable, PlanFor, Admitted, Starts,
           LoadPending, Opens, Staged, Plain, HostsOf, Altered, Moment, ResetWorld, Safe, Restores, ServerSurvives,
           Launches, AsReset, Through, Proceeds, Enters, Passes, Fails, StagingFails, Authenticates, RotationOf,
           DrawsHex, ExitsExactly, PlannedExit;
      ghost var start := Now();
      PassesIsAdmitted(world, c, generated);
      var begun := Begin(c, generated);
      if begun.Err? {
        RefusedExits(world, service, c, generated, begun.error);
        FavourableExit(world, service, c, generated, Err(begun.error));
        return Err(begun.error);
      }
      var p := begun.value;
      StartIsMoment(start, p.preparation.rotation);
      AdmittedParts(start.world, c, generated, p);
      PreparedParts(start.world, generated, p);
      result := Recover(c, p, start);
      ExitsFollow(start.world, c, generated, p, result, service);
      FavourableExit(start.world, RUNNING, c, generated, result);
      if result.Ok? || result.error == NotValidated {
        ThroughIsReset(start.world, world.vault, c, p);
        ThroughGoes(start.world, c, p);
        RecoveredIsSafe(world, start.world, p, generated, c);
      }
    }

    /** The gates, in the order of the tool. */
    method Begin(c: Conditions, generated: RotationSecrets) returns (begun: Result<Plan, Refusal>)
      ensures begun == Err(NotStarted) <==> service != RUNNING || !Starts(world, c, generated)
      ensures begun == Err(NotRequired) <==>
        service == RUNNING && Starts(world, c, generated) && !Admitted(world, c, generated)
      ensures begun.Ok? ==>
        service == RUNNING && Admitted(world, c, generated) && PlanFor(world, generated) == Ok(begun.value)
      ensures begun.Err? ==> begun.error in {NotStarted, NotRequired}
    {
      hide LoadSettings, CurrentSecrets, Prepare, Opens, Authenticates, RootTried;
      if !c.apiStopped || !c.serviceValid || service != RUNNING {
        return Err(NotStarted);
      }
      var settings := LoadSettings(world.vault, world.env);
      var current := CurrentSecrets(world.vault, world.env);
      var preparation := Prepare(world.vault, generated);
      if settings.Err? || current.Err? || preparation.Err? || !c.backupReady
         || !Opens(world, settings.value.user, current.value.appPassword) || !c.rootTested {
        return Err(NotStarted);
      }
      var p := Plan(settings.value.user, current.value, preparation.value);
      begun := if Authenticates(world, ROOT, RootTried(p)) then Err(NotRequired) else Ok(p);
    }
  }

  lemma PassesIsAdmitted(w: World, c: Conditions, generated: RotationSecrets)
    ensures Passes(w, c, generated) ==> Enters(w, c, generated)
    ensures Fails(w, c, generated) <==> Enters(w, c, generated) && !Passes(w, c, generated)
    ensures Enters(w, c, generated) ==> Admitted(w, c, generated)
    ensures Admitted(w, c, generated) ==> PlanFor(w, generated).Ok? && Starts(w, c, generated)
  {
    hide PlanFor, Opens, Authenticates, RootTried, GoesThrough;
  }

  /** Which exit the admitted part of a run takes, by its plan. */
  predicate PlannedExit(w: World, c: Conditions, p: Plan, result: Result<nat, Refusal>) {
    var r := p.preparation.rotation;
    && (result == Err(NotStaged) <==> !p.preparation.resumed && c.staging.NotWritten?)
    && (result == Err(StagedOnly) <==> (p.preparation.resumed || !c.staging.NotWritten?) && !Proceeds(p, c))
    && (result == Err(StoppedSafely) <==> Proceeds(p, c) && !Through(w, c, p) && Restores(w, c, r))
    && (result == Err(ServiceNotRestored) <==> Proceeds(p, c) && !Through(w, c, p) && !Restores(w, c, r))
    && (result.Ok? <==> Proceeds(p, c) && Through(w, c, p) && c.found == RUNNING && c.foundKnown)
    && (result == Err(NotValidated) <==>
          Proceeds(p, c) && Through(w, c, p) && !(c.found == RUNNING && c.foundKnown))
    && (result.Err? ==> result.error in {NotStaged, StagedOnly, StoppedSafely, ServiceNotRestored, NotValidated})
  }

  lemma ExitsFollow(
    w: World, c: Conditions, generated: RotationSecrets, p: Plan, result: Result<nat, Refusal>, service: ServiceState)
    requires Admitted(w, c, generated) && PlanFor(w, generated) == Ok(p) && PlannedExit(w, c, p, result)
    requires RotationOf(w, generated) == p.preparation.rotation
    requires result.Err? && result.error in {NotStaged, StagedOnly, StoppedSafely} ==> service == RUNNING
    requires result.Ok? || result.error == NotValidated ==> service == c.found
    ensures ExitsExactly(w, RUNNING, c, generated, result)
    ensures LeftStopped(result, service) <==> Passes(w, c, generated) && c.found != RUNNING
    ensures result.Ok? || result.error == NotValidated ==> Proceeds(p, c) && Through(w, c, p)
    ensures result.Err? ==> result.error !in {NotStarted, NotRequired}
  {
    hide Admitted, Starts, PlanFor, Proceeds, Through, Restores, Passes, Fails, Enters, StagingFails, RotationOf;
    AdmittedParts(w, c, generated, p);
    PassesIsAdmitted(w, c, generated);
  }

  lemma FavourableExit(
    w: World, service: ServiceState, c: Conditions, generated: RotationSecrets, result: Result<nat, Refusal>)
    requires ExitsExactly(w, service, c, generated, result)
    ensures service == RUNNING && Favourable(c) && Recoverable(w, generated) ==> result.Ok?
  {
    hide Admitted, Starts, PlanFor, Restores, Passes, Fails, Enters, StagingFails, RotationOf, Favourable, Recoverable;
    if Favourable(c) && Recoverable(w, generated) {
      FavourableGates(c);
      FavourablePasses(w, c, generated);
    }
  }

  lemma RefusedExits(w: World, service: ServiceState, c: Conditions, generated: RotationSecrets, error: Refusal)
    requires error in {NotStarted, NotRequired}
    requires error == NotStarted <==> service != RUNNING || !Starts(w, c, generated)
    requires error == NotRequired <==> service == RUNNING && Starts(w, c, generated) && !Admitted(w, c, generated)
    ensures ExitsExactly(w, service, c, generated, Err(error))
  {
    hide Admitted, Starts, PlanFor, Restores, Passes, Fails, Enters, StagingFails, RotationOf;
    PassesIsAdmitted(w, c, generated);
  }

  /** The admitted part of a run, by its plan. */
  lemma AdmittedParts(w: World, c: Conditions, generated: RotationSecrets, p: Plan)
    requires Admitted(w, c, generated) && PlanFor(w, generated) == Ok(p)
    ensures Enters(w, c, generated) <==> Proceeds(p, c)
    ensures Passes(w, c, generated) <==> Proceeds(p, c) && Through(w, c, p)
    ensures StagingFails(w, c, generated) <==> !p.preparation.resumed && c.staging.NotWritten?
  {
    hide PlanFor, Opens, Authenticates, RootTried, GoesThrough, Starts;
  }

  lemma ThroughGoes(w: World, c: Conditions, p: Plan)
    requires Through(w, c, p)
    ensures GoesThrough(w, c, p.user, p.current, p.preparation.rotation)
  {
    hide GoesThrough;
  }

  lemma PreparedParts(w: World, generated: RotationSecrets, p: Plan)
    requires PlanFor(w, generated) == Ok(p) && DrawsHex(w, generated)
    requires LoadPending(w.vault).Ok? && LoadPending(w.vault).value.Some? ==> Plain(LoadPending(w.vault).value.value)
    ensures RotationOf(w, generated) == p.preparation.rotation && Plain(p.preparation.rotation)
    ensures p.preparation.resumed ==> LoadPending(w.vault) == Ok(Some(p.preparation.rotation))
  {
    hide LoadSettings, CurrentSecrets, LoadPending, Staged, Plain, ValidSecrets, Hexadecimal;
    if !p.preparation.resumed {
      AcceptedIsPlain(w, generated);
    }
  }

  lemma StartIsMoment(start: Snapshot, r: RotationSecrets)
    requires Exclusive(start) && start.service == RUNNING
    ensures Moment(start, r, start)
  {
  }

  lemma LoginHasHost(logins: seq<Login>, password: string)
    requires Login(ROOT, LOCALHOST, password) in logins
    ensures LOCALHOST in HostsOf(logins, ROOT)
  {
    var i :| 0 <= i < |logins| && logins[i] == Login(ROOT, LOCALHOST, password);
    HostsComplete(logins, ROOT, i);
  }

  /** A recovered server is one that the credential rotation can take over. */
  lemma RecoveredIsSafe(w: World, start: World, p: Plan, generated: RotationSecrets, c: Conditions)
    requires PlanFor(start, generated) == Ok(p) && Plain(p.preparation.rotation)
    requires w == ResetWorld(start.(vault := w.vault), c, p.preparation.rotation)
    requires w.vault == start.vault || w.vault == Staged(start.vault, p.preparation.rotation)
    requires LoadPending(w.vault) == Ok(Some(p.preparation.rotation))
    requires GoesThrough(start, c, p.user, p.current, p.preparation.rotation)
    ensures Safe(w) && Opens(w, ROOT, p.preparation.rotation.rootPassword)
  {
    hide LoadSettings, CurrentSecrets, LoadPending, Staged, Plain, GoesThrough, ResetWorld, Opens, Authenticates,
         Prepare;
    var r := p.preparation.rotation;
    StagingKeepsSettings(start.vault, r, start.env);
    CurrentIsNotEmpty(start.vault, start.env);
    RotationIsNotEmpty(r);
    ThroughOpens(start, w, c, p.user, p.current, r);
    OpenedByOne(w, ROOT, r.rootPassword, p.current.rootPassword, r.rootPassword);
    OpenedByOne(w, p.user, r.appPassword, p.current.appPassword, p.current.appPassword);
  }

  lemma ThroughOpens(start: World, w: World, c: Conditions, user: string, current: Current, r: RotationSecrets)
    requires GoesThrough(start, c, user, current, r) && w == ResetWorld(start.(vault := w.vault), c, r)
    ensures Opens(w, ROOT, r.rootPassword) && Opens(w, user, current.appPassword) && w.env == start.env
  {
    hide Altered, IsHex;
  }

  lemma OpenedByOne(w: World, user: string, staged: string, current: string, password: string)
    requires Opens(w, user, password) && password != "" && password in [staged, current]
    ensures Authenticates(w, user, [staged, current])
  {
    hide Opens;
    assert [staged, current][0] == staged && [staged, current][1] == current;
  }

  /**
   * A run that stopped at any moment after staging loses nothing: with the application account
   * still open, either root opens with a candidate password and the rotation can take over, or
   * the next recovery resumes the same secrets.
   */
  lemma StoppedRunContinues(start: Snapshot, r: RotationSecrets, s: Snapshot, generated: RotationSecrets)
    requires Moment(start, r, s) && LoadPending(s.world.vault) == Ok(Some(r)) && Plain(r)
    requires LoadSettings(start.world.vault, start.world.env).Ok?
    requires CurrentSecrets(start.world.vault, start.world.env).Ok?
    ensures LoadSettings(s.world.vault, s.world.env) == LoadSettings(start.world.vault, start.world.env)
    ensures CurrentSecrets(s.world.vault, s.world.env) == CurrentSecrets(start.world.vault, start.world.env)
    ensures Prepare(s.world.vault, generated) == Ok(Preparation(s.world.vault, r, true))
    ensures var user := LoadSettings(start.world.vault, start.world.env).value.user;
      Reachable(s.world, user, r, CurrentSecrets(start.world.vault, start.world.env).value) ==> Safe(s.world)
  {
    hide LoadSettings, CurrentSecrets, LoadPending, Authenticates, Staged, Altered, Plain;
    StagingKeepsSettings(start.world.vault, r, start.world.env);
  }

  lemma CurrentIsNotEmpty(v: Vault, env: string)
    requires CurrentSecrets(v, env).Ok?
    ensures CurrentSecrets(v, env).value.appPassword != "" && CurrentSecrets(v, env).value.rootPassword != ""
  {
    hide EnvFile.EnvValue;
  }

  lemma RotationIsNotEmpty(r: RotationSecrets)
    requires Plain(r)
    ensures r.appPassword != "" && r.rootPassword != ""
  {
  }
}
