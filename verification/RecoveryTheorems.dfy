/**
 * What root recovery and credential rotation promise together: when a recovery is refused, what its
 * exits leave, and what any sequence of both, cut off anywhere, keeps.
 */
module RecoveryTheorems {
  import opened Wrappers
  import opened Keys
  import opened SecretsVault
  import opened Rotation
  import opened RotationRuns
  import opened RotationTheorems
  import opened Recovery
  import EnvFile
  import AuditChain

  // ---------- Recovery in the middle of a rotation ----------

  /** The primary key of mysql.user. */
  ghost predicate OneRowPerAccount(logins: seq<Login>) {
    forall i, j :: 0 <= i < j < |logins| ==> logins[i].user != logins[j].user || logins[i].host != logins[j].host
  }

  /** The application password in force during a rotation. */
  lemma PasswordInForce(e: Epoch, w: World)
    requires GoodEpoch(e) && InProgress(e, w)
    ensures CurrentSecrets(w.vault, w.env).Ok?
    ensures CurrentSecrets(w.vault, w.env).value.appPassword ==
      if w.env != e.start.env && Raw(e.vault, DbPassword) == "" then e.rotation.appPassword
      else CurrentSecrets(e.vault, e.start.env).value.appPassword
  {
    hide EnvFile.Rendered, Setting, LoadPending, LoadSettings, Plain, Authenticates, Mixed, AllStaged, LogGrows;
    NewEnvKeepsSecrets(e);
    SettingsAreOk(e.vault, e.start.env);
    NewEnvSecret(e, DbPassword);
  }

  lemma SettingsAreOk(v: Vault, env: string)
    requires CurrentSecrets(v, env).Ok?
    ensures Setting(v, env, DbPassword) == Ok(CurrentSecrets(v, env).value.appPassword)
  {
    hide Setting;
  }

  /** The row that serves the application account holds its old or its staged password. */
  lemma ApplicationRow(e: Epoch, w: World) returns (k: nat)
    requires GoodEpoch(e) && InProgress(e, w) && OneRowPerAccount(e.start.logins)
    ensures k < |w.logins| && w.logins[k].user == e.user && w.logins[k].host == w.appHost
    ensures forall i :: 0 <= i < |w.logins| && w.logins[i].user == e.user && w.logins[i].host == w.appHost ==> i == k
    ensures w.logins[k].password in
      {CurrentSecrets(e.vault, e.start.env).value.appPassword, e.rotation.appPassword}
    ensures w.env != e.start.env ==> w.logins[k].password == e.rotation.appPassword
  {
    hide EnvFile.Rendered, LoadPending, LoadSettings, CurrentSecrets, Plain, LogGrows;
    EpochUser(e);
    k :| 0 <= k < |e.start.logins| && e.start.logins[k].user == e.user && e.start.logins[k].host == e.start.appHost
      && e.start.logins[k].password in
         {CurrentSecrets(e.vault, e.start.env).value.appPassword, e.rotation.appPassword};
  }

  /** The worlds differ in the passwords of root at most. */
  ghost predicate RootRowsApart(w0: World, w: World) {
    && w == w0.(logins := w.logins) && |w.logins| == |w0.logins|
    && forall i :: 0 <= i < |w.logins| ==>
         && w.logins[i].user == w0.logins[i].user && w.logins[i].host == w0.logins[i].host
         && (w.logins[i].user != ROOT ==> w.logins[i] == w0.logins[i])
  }

  lemma SameAccounts(w0: World, w: World, user: string)
    requires RootRowsApart(w0, w) && user != ROOT
    ensures forall p :: Opens(w, user, p) <==> Opens(w0, user, p)
    ensures forall h, p :: Login(user, h, p) in w.logins <==> Login(user, h, p) in w0.logins
  {
    forall p ensures Opens(w, user, p) <==> Opens(w0, user, p) {
      if i :| 0 <= i < |w.logins| && w.logins[i] == Login(user, w.appHost, p) {
        assert w0.logins[i] == w.logins[i];
      }
      if i :| 0 <= i < |w0.logins| && w0.logins[i] == Login(user, w.appHost, p) {
        assert w0.logins[i] == w.logins[i];
      }
    }
    forall h, p ensures Login(user, h, p) in w.logins <==> Login(user, h, p) in w0.logins {
      if i :| 0 <= i < |w.logins| && w.logins[i] == Login(user, h, p) {
        assert w0.logins[i] == w.logins[i];
      }
      if i :| 0 <= i < |w0.logins| && w0.logins[i] == Login(user, h, p) {
        assert w0.logins[i] == w.logins[i];
      }
    }
  }

  /**
   * The application account is not altered yet, or the .env file is rewritten and the vault keeps
   * no application password of its own, or the rotation does not change the password.
   */
  predicate ApplicationReady(e: Epoch, w: World)
    requires CurrentSecrets(e.vault, e.start.env).Ok?
  {
    || Login(e.user, w.appHost, e.rotation.appPassword) !in w.logins
    || (w.env != e.start.env && Raw(e.vault, DbPassword) == "")
    || CurrentSecrets(e.vault, e.start.env).value.appPassword == e.rotation.appPassword
  }

  lemma ApplicationOpens(e: Epoch, w: World)
    requires GoodEpoch(e) && InProgress(e, w) && OneRowPerAccount(e.start.logins)
    ensures CurrentSecrets(w.vault, w.env).Ok?
    ensures Opens(w, e.user, CurrentSecrets(w.vault, w.env).value.appPassword) <==> ApplicationReady(e, w)
  {
    hide InProgress, GoodEpoch, CurrentSecrets, OneRowPerAccount;
    PasswordInForce(e, w);
    var k := ApplicationRow(e, w);
    EpochUser(e);
    assert forall p :: Login(e.user, w.appHost, p) in w.logins <==> w.logins[k].password == p by {
      forall p | Login(e.user, w.appHost, p) in w.logins ensures w.logins[k].password == p {
        var i :| 0 <= i < |w.logins| && w.logins[i] == Login(e.user, w.appHost, p);
      }
      assert w.logins[k] == Login(e.user, w.appHost, w.logins[k].password);
    }
  }

  lemma EpochSecrets(e: Epoch)
    requires GoodEpoch(e)
    ensures CurrentSecrets(e.vault, e.start.env).Ok?
  {
    hide LoadSettings, CurrentSecrets, LoadPending, Plain, Authenticates;
  }

  lemma SamePlan(w0: World, w: World, generated: RotationSecrets)
    requires RootRowsApart(w0, w)
    ensures PlanFor(w, generated) == PlanFor(w0, generated)
  {
    hide LoadSettings, CurrentSecrets, Prepare;
  }

  lemma PlanParts(w: World, generated: RotationSecrets)
    requires PlanFor(w, generated).Ok?
    ensures CurrentSecrets(w.vault, w.env) == Ok(PlanFor(w, generated).value.current)
  {
    hide LoadSettings, CurrentSecrets, Prepare;
  }

  /**
   * When root is lost in the middle of a rotation, whatever its passwords are then, the other gates
   * let a recovery start exactly when the application account is ready for it. A run that does not
   * start changes nothing.
   */
  lemma RecoveryDuringRotation(e: Epoch, w0: World, w: World, c: Conditions, generated: RotationSecrets)
    requires GoodEpoch(e) && InProgress(e, w0) && OneRowPerAccount(e.start.logins) && RootRowsApart(w0, w)
    ensures CurrentSecrets(e.vault, e.start.env).Ok?
    ensures Starts(w, c, generated) <==>
      c.apiStopped && c.serviceValid && c.backupReady && c.rootTested && ApplicationReady(e, w)
  {
    hide InProgress, GoodEpoch, CurrentSecrets, OneRowPerAccount, PlanFor, Opens, RootRowsApart;
    EpochSecrets(e);
    EpochUser(e);
    ApplicationOpens(e, w0);
    PlanInProgress(e, w0, generated);
    SamePlan(w0, w, generated);
    PlanParts(w0, generated);
    SameAccounts(w0, w, e.user);
    SameFiles(w0, w);
  }

  lemma SameFiles(w0: World, w: World)
    requires RootRowsApart(w0, w)
    ensures w.env == w0.env && w.appHost == w0.appHost && w.vault == w0.vault
  {
  }

  // ---------- A rotation that neither tool can go on with ----------

  /** The staged rotation of the example server. */
  function ExampleEpoch(): Epoch {
    var w := ExampleWorld();
    Epoch(w, Staged(w.vault, ExampleSecrets()), ExampleSecrets(), "u")
  }

  /** The example server cut off after the ALTER of its application account. */
  function HalfRotated(): World {
    var e := ExampleEpoch();
    e.start.(vault := e.vault, logins := [Login("u", "%", e.rotation.appPassword), Login(ROOT, "localhost", "b")])
  }

  /** The same server once its root password has been changed to one that nobody knows. */
  function RootUnknown(): World {
    var w := HalfRotated();
    w.(logins := [w.logins[0], Login(ROOT, "localhost", "z")])
  }

  lemma ExampleEpochIsGood()
    ensures GoodEpoch(ExampleEpoch()) && InProgress(ExampleEpoch(), HalfRotated())
    ensures CurrentSecrets(ExampleEpoch().vault, "") == Ok(Current("a", "b", "c"))
    ensures OneRowPerAccount(ExampleEpoch().start.logins) && Raw(ExampleEpoch().vault, DbPassword) == "a"
  {
    hide LoadSettings, CurrentSecrets, LoadPending, Staged, ExampleSecrets, Plain, ValidSecrets, Hexadecimal,
         Authenticates, EnvFile.Rendered, AuditChain.Ready, AuditChain.Verified, Raw, Safe, ExampleVault;
    var e := ExampleEpoch();
    ExampleIsIdle();
    ExampleSettings();
    ExampleSecretsAccepted();
    GeneratedIsPlain(ExampleSecrets());
    PlanIsGood(ExampleWorld(), ExampleSecrets());
    PlanLoads(ExampleWorld(), ExampleSecrets(), PlanFor(ExampleWorld(), ExampleSecrets()).value);
    StagingKeepsSettings(ExampleVault(), ExampleSecrets(), "");
    ExampleStored();
    StagedKeepsDbPassword();
  }

  lemma StagedKeepsDbPassword()
    ensures Raw(Staged(ExampleVault(), ExampleSecrets()), DbPassword) == "a"
  {
    hide ExampleSecrets;
  }

  lemma RootUnknownOpensNothing(generated: RotationSecrets)
    ensures PlanFor(RootUnknown(), generated).Ok?
    ensures var p := PlanFor(RootUnknown(), generated).value;
      p.preparation.resumed && !Authenticates(RootUnknown(), ROOT, RootCandidates(p))
  {
    hide LoadSettings, CurrentSecrets, LoadPending, Prepare, Staged, GoodEpoch, InProgress, EnvFile.Rendered,
         ExampleVault, PlanFor;
    ExampleEpochIsGood();
    PlanInProgress(ExampleEpoch(), HalfRotated(), generated);
    SamePlan(HalfRotated(), RootUnknown(), generated);
    PlanParts(HalfRotated(), generated);
    CurrentOfHalf();
    assert ExampleSecrets().rootPassword[0] == '2';
  }

  lemma CurrentOfHalf()
    ensures CurrentSecrets(HalfRotated().vault, HalfRotated().env) == Ok(Current("a", "b", "c"))
  {
    hide CurrentSecrets, ExampleSecrets, GoodEpoch, InProgress;
    ExampleEpochIsGood();
  }

  lemma UnknownIsApart()
    ensures RootRowsApart(HalfRotated(), RootUnknown())
  {
    hide ExampleSecrets, ExampleVault, Staged;
  }

  lemma ApplicationIsAltered()
    ensures var e, w := ExampleEpoch(), RootUnknown();
      && Login(e.user, w.appHost, e.rotation.appPassword) in w.logins && w.env == e.start.env
      && e.rotation.appPassword != "a"
  {
    hide ExampleVault, Staged;
    assert RootUnknown().logins[0] == Login("u", "%", ExampleSecrets().appPassword);
    assert ExampleSecrets().appPassword[0] == '1';
  }

  /**
   * Root lost after the ALTER of the application account: every recovery is refused at its start,
   * and every rotation stops before its first durable step.
   */
  lemma NeitherToolGoesOn()
    ensures var e, w := ExampleEpoch(), RootUnknown();
      && GoodEpoch(e) && InProgress(e, HalfRotated()) && RootRowsApart(HalfRotated(), w)
      && (forall c, generated :: !Starts(w, c, generated))
      && (forall a: Attempt :: RunAttempt(w, a) == (w, false))
  {
    hide GoodEpoch, InProgress, RootRowsApart, CurrentSecrets, ExampleEpoch, HalfRotated, RootUnknown, Starts,
         RunAttempt, OneRowPerAccount;
    var e, w := ExampleEpoch(), RootUnknown();
    ExampleEpochIsGood();
    UnknownIsApart();
    ApplicationIsAltered();
    EpochStartsWithoutEnv();
    forall c, generated ensures !Starts(w, c, generated) {
      RecoveryDuringRotation(e, HalfRotated(), w, c, generated);
    }
    forall a: Attempt ensures RunAttempt(w, a) == (w, false) {
      RootUnknownOpensNothing(a.generated);
      ClosedRootStopsRun(w, a);
    }
  }

  lemma EpochStartsWithoutEnv()
    ensures ExampleEpoch().start.env == ""
  {
    hide ExampleSecrets, Staged, ExampleVault;
  }

  lemma ClosedRootStopsRun(w: World, a: Attempt)
    requires PlanFor(w, a.generated).Ok?
    requires !Authenticates(w, ROOT, RootTried(PlanFor(w, a.generated).value))
    ensures RunAttempt(w, a) == (w, false)
  {
    hide PlanFor, Authenticates, StageSteps, AlterAllSteps, FinishSteps, EnvFile.Rendered;
    var p := PlanFor(w, a.generated).value;
    assert Script(w, p, a)[0] == PreflightSteps(p)[0];
    assert PreflightSteps(p)[0] == Connect(ROOT, RootTried(p));
  }

  // ---------- A recovery that ends with the service stopped ----------

  function CalmConditions(found: ServiceState): Conditions {
    Conditions(true, true, true, true, Written, true, Written, Reached, true, true, true, true, false, true, Exited,
               Reached, true, Exited, true, Reached, true, true, true, found, true)
  }

  /** The example server with a root password that nobody knows. */
  function LostRoot(): World {
    var w := ExampleWorld();
    w.(logins := [w.logins[0], Login(ROOT, "localhost", "z")])
  }

  lemma LostRootIsRecoverable()
    ensures Recoverable(LostRoot(), ExampleSecrets())
  {
    hide LoadSettings, CurrentSecrets, LoadPending, Staged, ExampleVault, ValidSecrets, Hexadecimal;
    ExampleSettings();
    ExampleSecretsAccepted();
    var w := LostRoot();
    assert w.logins[0] == Login("u", "%", "a") && w.logins[1] == Login(ROOT, "localhost", "z");
    assert Opens(w, "u", "a");
    assert IsHex(ExampleSecrets().rootPassword);
  }

  /**
   * Everything works and the service is found stopped at the last query: the run passes, so it ends
   * in NotValidated, with the service stopped and no attempt to start it again.
   */
  lemma RecoveryCanEndStopped()
    ensures var w, c, generated := LostRoot(), CalmConditions(STOPPED), ExampleSecrets();
      Passes(w, c, generated) && c.found != RUNNING
  {
    hide PlanFor, GoesThrough, Admitted, Recoverable;
    LostRootIsRecoverable();
    FavourablePasses(LostRoot(), CalmConditions(RUNNING), ExampleSecrets());
    LastQueryIsLast(LostRoot(), CalmConditions(RUNNING), STOPPED, ExampleSecrets());
  }

  lemma LastQueryIsLast(w: World, c: Conditions, found: ServiceState, generated: RotationSecrets)
    ensures Passes(w, c.(found := found), generated) <==> Passes(w, c, generated)
  {
    hide PlanFor, Opens, Authenticates, RootTried, IsHex;
  }

  // ---------- Both tools, cut off anywhere ----------

  /** A rotation run, a recovery run that is cut off at some moment, or a restart of the two servers. */
  datatype Episode =
    | Rotate(attempt: Attempt)
    | Recover(conditions: Conditions, generated: RotationSecrets)
    | Restart(service: ServiceState, temporaryServer: bool)

  ghost predicate Possible(s: Snapshot, e: Episode, s': Snapshot) {
    match e
    case Rotate(a) => Hexadecimal(a.generated) && s' == s.(world := RunAttempt(s.world, a).0)
    case Recover(c, generated) => Hexadecimal(generated) && CutOff(s, c, generated, s')
    case Restart(service, temporaryServer) =>
      s' == s.(service := service, temporaryServer := temporaryServer) && Exclusive(s')
  }

  ghost predicate Trace(snapshots: seq<Snapshot>, episodes: seq<Episode>) {
    && |snapshots| == |episodes| + 1
    && forall i :: 0 <= i < |episodes| ==> Possible(snapshots[i], episodes[i], snapshots[i + 1])
  }

  /** What both tools ask of a state: the settings can be read and no staged rotation is damaged. */
  ghost predicate Readable(w: World) {
    && LoadSettings(w.vault, w.env).Ok? && CurrentSecrets(w.vault, w.env).Ok? && LoadPending(w.vault).Ok?
    && (LoadPending(w.vault).value.Some? ==> Plain(LoadPending(w.vault).value.value))
  }

  /** The passwords that a rotation tries open the application account. */
  ghost predicate ApplicationReachable(w: World)
    requires Readable(w)
  {
    var user, current := LoadSettings(w.vault, w.env).value.user, CurrentSecrets(w.vault, w.env).value;
    match LoadPending(w.vault).value
    case None => Authenticates(w, user, [current.appPassword])
    case Some(r) => Authenticates(w, user, [r.appPassword, current.appPassword])
  }

  lemma SafeIsReadable(w: World)
    requires Safe(w)
    ensures Readable(w) && ApplicationReachable(w)
  {
    hide LoadSettings, CurrentSecrets, LoadPending, Plain, Authenticates;
  }

  /** A rotation changes a readable server only when it is safe. */
  lemma UnsafeRunChangesNothing(w: World, a: Attempt)
    requires Readable(w) && !Safe(w)
    ensures RunAttempt(w, a).0 == w
  {
    hide LoadSettings, CurrentSecrets, LoadPending, Plain, Authenticates, ValidSecrets, Staged, StageSteps,
         AlterAllSteps, FinishSteps, EnvFile.Rendered, HostsOf;
    if PlanFor(w, a.generated).Ok? {
      var p := PlanFor(w, a.generated).value;
      PerformConcat(w, PreflightSteps(p),
                    StageSteps(p) + [Connect(ROOT, RootCandidates(p))] + AlterAllSteps(p, w.logins)
                      + FinishSteps(p, w.env, a), a.stop);
      assert Script(w, p, a) == PreflightSteps(p)
        + (StageSteps(p) + [Connect(ROOT, RootCandidates(p))] + AlterAllSteps(p, w.logins) + FinishSteps(p, w.env, a));
      ChecksChangeNothing(w, PreflightSteps(p), a.stop);
      var steps := PreflightSteps(p);
      assert Do(w, steps[0]).None? || Do(w, steps[3]).None?;
    }
  }

  lemma RotationStep(w: World, a: Attempt)
    requires Readable(w) && Hexadecimal(a.generated)
    ensures Readable(RunAttempt(w, a).0)
    ensures Safe(w) ==> Safe(RunAttempt(w, a).0)
    ensures ApplicationReachable(w) ==> ApplicationReachable(RunAttempt(w, a).0)
  {
    hide Readable, ApplicationReachable, Safe, RunAttempt, Hexadecimal, LoadPending;
    if Safe(w) {
      OneRunIsSafe(w, a);
      SafeIsReadable(RunAttempt(w, a).0);
    } else {
      UnsafeRunChangesNothing(w, a);
    }
  }

  /** While a password that it tries opens root, a recovery changes nothing. */
  lemma SafeIsNotAdmitted(w: World, c: Conditions, generated: RotationSecrets)
    requires Safe(w)
    ensures !Admitted(w, c, generated)
  {
    hide LoadSettings, CurrentSecrets, LoadPending, Plain, Authenticates, Opens, ValidSecrets, Staged;
  }

  lemma RotationIsPlain(w: World, generated: RotationSecrets)
    requires Readable(w) && Hexadecimal(generated) && PlanFor(w, generated).Ok?
    ensures var r := RotationOf(w, generated);
      && Plain(r) && LoadPending(w.vault) in {Ok(None), Ok(Some(r))}
  {
    hide LoadSettings, CurrentSecrets, LoadPending, Plain, ValidSecrets, Hexadecimal, Staged;
    if LoadPending(w.vault) == Ok(None) {
      GeneratedIsPlain(generated);
    }
  }

  /** A moment of a recovery is readable, and the application account is as reachable as before it. */
  lemma MomentIsReadable(start: Snapshot, r: RotationSecrets, s: Snapshot)
    requires Readable(start.world) && Plain(r) && Moment(start, r, s)
    requires LoadPending(start.world.vault) in {Ok(None), Ok(Some(r))}
    ensures Readable(s.world) && Exclusive(s)
    ensures ApplicationReachable(start.world) ==> ApplicationReachable(s.world)
  {
    hide LoadSettings, CurrentSecrets, LoadPending, Plain, Authenticates, Staged, Altered, Touched;
    StagingKeepsSettings(start.world.vault, r, start.world.env);
    StagedLoads(start.world.vault, r);
    if ApplicationReachable(start.world) {
      var user := LoadSettings(start.world.vault, start.world.env).value.user;
      SettingsUser(start.world);
      forall candidates | Authenticates(start.world, user, candidates)
        ensures Authenticates(s.world, user, candidates)
      {
        ResetKeepsApplication(start.world, s.world, r.rootPassword, user, candidates);
      }
      var current := CurrentSecrets(start.world.vault, start.world.env).value;
      if LoadPending(start.world.vault) == Ok(None) && s.world.vault != start.world.vault {
        MoreCandidates(s.world, user, r.appPassword, current.appPassword);
      }
    }
  }

  lemma SettingsUser(w: World)
    requires LoadSettings(w.vault, w.env).Ok?
    ensures LoadSettings(w.vault, w.env).value.user != ROOT
  {
    hide Setting;
    RootIsNotAUserName(LoadSettings(w.vault, w.env).value.user);
  }

  lemma ResetKeepsApplication(w: World, w': World, password: string, user: string, candidates: seq<string>)
    requires w' == w.(vault := w'.vault) || w' == RootReset(w.(vault := w'.vault), password)
    requires user != ROOT && Authenticates(w, user, candidates)
    ensures Authenticates(w', user, candidates)
  {
    var i :| 0 <= i < |candidates| && candidates[i] != "" && Opens(w, user, candidates[i]);
    var j :| 0 <= j < |w.logins| && w.logins[j] == Login(user, w.appHost, candidates[i]);
    assert w'.logins[j] == w.logins[j];
  }

  lemma RecoveryStep(s: Snapshot, c: Conditions, generated: RotationSecrets, s': Snapshot)
    requires Readable(s.world) && Exclusive(s) && Hexadecimal(generated) && CutOff(s, c, generated, s')
    ensures Readable(s'.world) && Exclusive(s')
    ensures Safe(s.world) ==> s' == s
    ensures ApplicationReachable(s.world) ==> ApplicationReachable(s'.world)
  {
    hide Readable, ApplicationReachable, Safe, Hexadecimal, LoadPending, Moment, RotationOf, Authenticates,
         Opens, PlanFor;
    if s.service == RUNNING && Admitted(s.world, c, generated) {
      RotationIsPlain(s.world, generated);
      MomentIsReadable(s, RotationOf(s.world, generated), s');
      if Safe(s.world) {
        SafeIsNotAdmitted(s.world, c, generated);
      }
    }
  }

  lemma EpisodeStep(s: Snapshot, e: Episode, s': Snapshot)
    requires Readable(s.world) && Exclusive(s) && Possible(s, e, s')
    ensures Readable(s'.world) && Exclusive(s')
    ensures Safe(s.world) ==> Safe(s'.world) && s'.initFiles == s.initFiles
    ensures ApplicationReachable(s.world) ==> ApplicationReachable(s'.world)
  {
    hide Readable, ApplicationReachable, Safe, Hexadecimal, CutOff, RunAttempt;
    match e
    case Rotate(a) => RotationStep(s.world, a);
    case Recover(c, generated) => RecoveryStep(s, c, generated, s');
    case Restart(_, _) =>
  }

  /**
   * Over any sequence of rotation and recovery runs, each cut off anywhere, and of restarts: both
   * tools can still read their settings, the two servers never run together, an application account
   * that opens keeps opening, and once root opens too, it stays so and no init file is touched.
   */
  lemma {:induction false} NeverLockedOutTogether(snapshots: seq<Snapshot>, episodes: seq<Episode>)
    requires Trace(snapshots, episodes) && Readable(snapshots[0].world) && Exclusive(snapshots[0])
    ensures var first, last := snapshots[0], snapshots[|episodes|];
      && Readable(last.world) && Exclusive(last)
      && (ApplicationReachable(first.world) ==> ApplicationReachable(last.world))
      && (Safe(first.world) ==> Safe(last.world) && last.initFiles == first.initFiles)
    decreases |episodes|
  {
    hide Readable, ApplicationReachable, Safe, Possible, Exclusive;
    if episodes != [] {
      var n := |episodes| - 1;
      NeverLockedOutTogether(snapshots[..n + 1], episodes[..n]);
      EpisodeStep(snapshots[n], episodes[n], snapshots[n + 1]);
    }
  }

  // ---------- Init files that stay ----------

  /** Only an admitted recovery of its own rotation removes an init file. */
  lemma InitFileRemoved(s: Snapshot, e: Episode, s': Snapshot, rotationId: string)
    requires Possible(s, e, s') && rotationId in s.initFiles && rotationId !in s'.initFiles
    ensures e.Recover? && s.service == RUNNING && Admitted(s.world, e.conditions, e.generated)
    ensures RotationOf(s.world, e.generated).rotationId == rotationId
  {
    hide Admitted, RotationOf, RunAttempt, Hexadecimal, LoadPending, Staged, Altered;
  }

  function LostStart(): Snapshot {
    Snapshot(LostRoot(), RUNNING, false, map[])
  }

  /** A moment of a recovery of the example server: root is reset, and the init file is still there. */
  function ResetMoment(): Snapshot {
    var r, w := ExampleSecrets(), LostRoot();
    var reset := RootReset(w.(vault := Staged(w.vault, r)), r.rootPassword);
    Snapshot(reset, STOPPED, true, map[r.rotationId := r.rootPassword])
  }

  /**
   * A recovery that is cut off between the reset and the removal leaves its init file, with the new
   * root password, on a server where root opens; no later run of either tool removes it.
   */
  lemma InitFileCanStay(snapshots: seq<Snapshot>, episodes: seq<Episode>)
    requires Trace(snapshots, episodes) && snapshots[0] == ResetMoment()
    ensures CutOff(LostStart(), CalmConditions(RUNNING), ExampleSecrets(), ResetMoment())
    ensures Safe(ResetMoment().world)
    ensures snapshots[|episodes|].initFiles == map[ExampleSecrets().rotationId := ExampleSecrets().rootPassword]
  {
    hide ExampleSecrets, LostRoot, CutOff, Safe, Readable, ApplicationReachable, Possible, CalmConditions,
         RootReset, Staged;
    ResetIsMoment();
    SafeIsReadable(ResetMoment().world);
    NeverLockedOutTogether(snapshots, episodes);
  }

  lemma ResetIsMoment()
    ensures CutOff(LostStart(), CalmConditions(RUNNING), ExampleSecrets(), ResetMoment())
    ensures Safe(ResetMoment().world)
  {
    hide ExampleSecrets, LostRoot, LoadPending, LoadSettings, CurrentSecrets, Staged, Plain, Opens,
         Authenticates, Altered, ValidSecrets, Hexadecimal, PlanFor, GoesThrough, Recoverable, RootTried;
    var w, r := LostRoot(), ExampleSecrets();
    LostRootIsRecoverable();
    FavourablePasses(w, CalmConditions(RUNNING), r);
    ExampleSecretsAccepted();
    GeneratedIsPlain(r);
    StagedLoads(w.vault, r);
    LostRootPlan();
    RecoveredIsSafe(ResetMoment().world, w, PlanFor(w, r).value, r, CalmConditions(RUNNING));
  }

  lemma LostRootPlan()
    ensures PlanFor(LostRoot(), ExampleSecrets()).Ok?
    ensures PlanFor(LostRoot(), ExampleSecrets()).value.preparation ==
      Preparation(Staged(LostRoot().vault, ExampleSecrets()), ExampleSecrets(), false)
    ensures RotationOf(LostRoot(), ExampleSecrets()) == ExampleSecrets()
  {
    hide LoadSettings, CurrentSecrets, LoadPending, Staged, ExampleVault, ValidSecrets, Hexadecimal,
         ExampleSecrets;
    ExampleSettings();
    ExampleSecretsAccepted();
  }
}
