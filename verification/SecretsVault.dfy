/** The rotation metadata kept in the protected secrets vault. */
module SecretsVault {
  import opened Wrappers
  import opened Text
  import opened Keys
  import EnvFile

  /** The vault's JSON object; a missing key and an empty value read the same. */
  type Vault = map<Key, string>

  datatype VaultError =
    | IncompleteMetadata | UnknownState | IncompleteRotation | InvalidSecrets
    | MissingSetting(key: Key) | BadUser | BadPort

  const PREPARED := "prepared"
  const PENDING_METADATA := {RotationId, PendingDbPassword, PendingRootPassword, PendingJwtSecret}
  const ROTATION_METADATA := PENDING_METADATA + {RotationState}
  const LEGACY_ALIASES := {ApiSecretKey, LegacyDbPassword, LegacyJwtSecret, LegacyApiSecretKey, SecretKey}

  function Raw(v: Vault, k: Key): string {
    if k in v then v[k] else ""
  }

  function Stored(v: Vault, k: Key): string {
    Strip(Raw(v, k))
  }

  predicate IsHexChar(c: char) {
    IsDigit(c) || 'a' <= c <= 'f'
  }

  predicate IsHex(s: string) {
    forall i :: 0 <= i < |s| ==> IsHexChar(s[i])
  }

  /** _validate_rotation_secrets */
  predicate ValidSecrets(r: RotationSecrets) {
    && |r.rotationId| == 32 && IsHex(r.rotationId)
    && |r.appPassword| >= 32 && |r.rootPassword| >= 32 && |r.jwtSecret| >= 64
    && r.appPassword != r.rootPassword && r.appPassword != r.jwtSecret && r.rootPassword != r.jwtSecret
  }

  /** Some staged value is present. */
  predicate PartlyStaged(v: Vault) {
    || Stored(v, RotationId) != "" || Stored(v, PendingDbPassword) != ""
    || Stored(v, PendingRootPassword) != "" || Stored(v, PendingJwtSecret) != ""
  }

  /** The prepared rotation, none, or a refusal of a damaged vault. */
  function LoadPending(v: Vault): Result<Option<RotationSecrets>, VaultError> {
    var state := Stored(v, RotationState);
    if state == "" then
      if PartlyStaged(v) then Err(IncompleteMetadata) else Ok(None)
    else if state != PREPARED then Err(UnknownState)
    else
      var r := RotationSecrets(Stored(v, RotationId), Stored(v, PendingDbPassword),
                               Stored(v, PendingRootPassword), Stored(v, PendingJwtSecret));
      if r.rotationId == "" || r.appPassword == "" || r.rootPassword == "" || r.jwtSecret == "" then
        Err(IncompleteRotation)
      else if !ValidSecrets(r) then Err(InvalidSecrets)
      else Ok(Some(r))
  }

  function Staged(v: Vault, r: RotationSecrets): Vault {
    v[RotationState := PREPARED][RotationId := r.rotationId][PendingDbPassword := r.appPassword]
     [PendingRootPassword := r.rootPassword][PendingJwtSecret := r.jwtSecret]
  }

  /** The vault to write, the rotation to carry out, and whether it was already staged. */
  datatype Preparation = Preparation(vault: Vault, rotation: RotationSecrets, resumed: bool)

  /** generated stands for the values token_hex and uuid4 would return. */
  function Prepare(v: Vault, generated: RotationSecrets): Result<Preparation, VaultError> {
    match LoadPending(v)
    case Err(e) => Err(e)
    case Ok(Some(r)) => Ok(Preparation(v, r, true))
    case Ok(None) =>
      if !ValidSecrets(generated) then Err(InvalidSecrets) else Ok(Preparation(Staged(v, generated), generated, false))
  }

  function Finalized(v: Vault, r: RotationSecrets, at: string): Vault {
    v[DbPassword := r.appPassword][RootPassword := r.rootPassword][JwtSecret := r.jwtSecret]
     [LastRotationId := r.rotationId][LastRotationAt := at]
    - ROTATION_METADATA - LEGACY_ALIASES
  }

  // ---------- Settings ----------

  /** vault.get(key) or environment.get(key) or "", stripped; missing is an error. */
  function Setting(v: Vault, env: string, k: Key): Result<string, VaultError> {
    var value := Strip(if Raw(v, k) != "" then Raw(v, k) else EnvFile.EnvValue(env, k));
    if value == "" then Err(MissingSetting(k)) else Ok(value)
  }

  datatype Settings = Settings(host: string, user: string, database: string, port: string)

  predicate IsUserChar(c: char) {
    EnvFile.IsNameChar(c) || c == '.' || c == '-'
  }

  const ROOT := "root"

  predicate IsUserName(user: string) {
    1 <= |user| <= 80 && (forall i :: 0 <= i < |user| ==> IsUserChar(user[i])) && Lower(user) != ROOT
  }

  predicate IsPort(port: string) {
    AllDigits(port) && 1 <= Value(port) <= 65535
  }

  function LoadSettings(v: Vault, env: string): Result<Settings, VaultError> {
    match Setting(v, env, DbHost)
    case Err(e) => Err(e)
    case Ok(host) =>
    match Setting(v, env, DbUser)
    case Err(e) => Err(e)
    case Ok(user) =>
    match Setting(v, env, DbName)
    case Err(e) => Err(e)
    case Ok(database) =>
      if !IsUserName(user) then Err(BadUser)
      else
        match Setting(v, env, DbPort)
        case Err(e) => Err(e)
        case Ok(port) => if IsPort(port) then Ok(Settings(host, user, database, port)) else Err(BadPort)
  }

  datatype Current = Current(appPassword: string, rootPassword: string, jwtSecret: string)

  function CurrentSecrets(v: Vault, env: string): Result<Current, VaultError> {
    match Setting(v, env, DbPassword)
    case Err(e) => Err(e)
    case Ok(app) =>
    match Setting(v, env, RootPassword)
    case Err(e) => Err(e)
    case Ok(root) =>
    match Setting(v, env, JwtSecret)
    case Err(e) => Err(e)
    case Ok(jwt) => Ok(Current(app, root, jwt))
  }

  lemma RootIsNotAUserName(user: string)
    requires IsUserName(user)
    ensures user != ROOT
  {
    assert Lower(ROOT) == ROOT;
  }

  // ---------- What is accepted ----------

  /** The text of a setting: the vault before the file, without outer blanks. */
  function SettingText(v: Vault, env: string, k: Key): string {
    Strip(if k in v && v[k] != "" then v[k] else EnvFile.EnvValue(env, k))
  }

  predicate NameLike(user: string) {
    && 1 <= |user| <= 80 && Lower(user) != "root"
    && forall i :: 0 <= i < |user| ==>
         'a' <= user[i] <= 'z' || 'A' <= user[i] <= 'Z' || '0' <= user[i] <= '9' || user[i] in "_.-"
  }

  lemma SettingIsText(v: Vault, env: string, k: Key)
    ensures Setting(v, env, k) ==
      if SettingText(v, env, k) == "" then Err(MissingSetting(k)) else Ok(SettingText(v, env, k))
  {
    hide Strip, EnvFile.EnvValue;
  }

  lemma BlankIsNoName()
    ensures !NameLike("")
  {
  }

  lemma UserNamesExactly(user: string)
    ensures IsUserName(user) <==> NameLike(user)
  {
    hide Lower;
    forall i | 0 <= i < |user| ensures user[i] in "_.-" <==> user[i] == '_' || user[i] == '.' || user[i] == '-' {
    }
  }

  /** The settings load exactly when none is blank, the user looks like a name, and the port is a port number. */
  lemma SettingsLoadExactly(v: Vault, env: string)
    ensures var user, port := SettingText(v, env, DbUser), SettingText(v, env, DbPort);
      && (LoadSettings(v, env).Ok? <==>
            && SettingText(v, env, DbHost) != "" && SettingText(v, env, DbName) != "" && NameLike(user)
            && port != "" && AllDigits(port) && 1 <= Value(port) <= 65535)
      && (LoadSettings(v, env).Ok? ==>
            LoadSettings(v, env).value ==
            Settings(SettingText(v, env, DbHost), user, SettingText(v, env, DbName), port))
  {
    hide SettingText, NameLike, IsUserName, AllDigits, Setting;
    SettingIsText(v, env, DbHost);
    SettingIsText(v, env, DbUser);
    SettingIsText(v, env, DbName);
    SettingIsText(v, env, DbPort);
    UserNamesExactly(SettingText(v, env, DbUser));
    BlankIsNoName();
  }

  /** The first setting that fails names the error. */
  lemma SettingsErrorExactly(v: Vault, env: string)
    requires LoadSettings(v, env).Err?
    ensures LoadSettings(v, env).error ==
      if SettingText(v, env, DbHost) == "" then MissingSetting(DbHost)
      else if SettingText(v, env, DbUser) == "" then MissingSetting(DbUser)
      else if SettingText(v, env, DbName) == "" then MissingSetting(DbName)
      else if !NameLike(SettingText(v, env, DbUser)) then BadUser
      else if SettingText(v, env, DbPort) == "" then MissingSetting(DbPort)
      else BadPort
  {
    hide SettingText, NameLike, IsUserName, IsPort, Setting;
    SettingIsText(v, env, DbHost);
    SettingIsText(v, env, DbUser);
    SettingIsText(v, env, DbName);
    SettingIsText(v, env, DbPort);
    UserNamesExactly(SettingText(v, env, DbUser));
  }

  /** What is wrong with a vault that cannot be read: leftovers, an unknown mark, or missing or bad secrets. */
  lemma PendingErrorExactly(v: Vault)
    requires LoadPending(v).Err?
    ensures var state := Stored(v, RotationState);
      var blank := Stored(v, RotationId) == "" || Stored(v, PendingDbPassword) == ""
        || Stored(v, PendingRootPassword) == "" || Stored(v, PendingJwtSecret) == "";
      LoadPending(v).error ==
      if state == "" then IncompleteMetadata else if state != "prepared" then UnknownState
      else if blank then IncompleteRotation else InvalidSecrets
  {
    hide Strip, ValidSecrets;
  }

  lemma CurrentSecretsExactly(v: Vault, env: string)
    ensures CurrentSecrets(v, env).Ok? <==>
      SettingText(v, env, DbPassword) != "" && SettingText(v, env, RootPassword) != ""
      && SettingText(v, env, JwtSecret) != ""
    ensures CurrentSecrets(v, env).Ok? ==>
      CurrentSecrets(v, env).value ==
      Current(SettingText(v, env, DbPassword), SettingText(v, env, RootPassword), SettingText(v, env, JwtSecret))
  {
    hide SettingText, Setting;
    SettingIsText(v, env, DbPassword);
    SettingIsText(v, env, RootPassword);
    SettingIsText(v, env, JwtSecret);
  }

  /** Every port number that is printed is accepted, and no other number. */
  lemma PrintedPorts(n: nat)
    ensures IsPort(Decimal(n)) <==> 1 <= n <= 65535
  {
    hide Value, Decimal;
    ValueOfDecimal(n);
  }

  predicate LowerHex(s: string) {
    forall i :: 0 <= i < |s| ==> s[i] in "0123456789abcdef"
  }

  lemma HexCharacters(s: string)
    ensures IsHex(s) <==> LowerHex(s)
  {
    forall i | 0 <= i < |s| ensures IsHexChar(s[i]) <==> s[i] in "0123456789abcdef" {
      HexCharacter(s[i]);
    }
  }

  lemma HexCharacter(c: char)
    ensures IsHexChar(c) <==> c in "0123456789abcdef"
  {
    var all := "0123456789abcdef";
    if '0' <= c <= '9' {
      assert all[c as int - '0' as int] == c;
    } else if 'a' <= c <= 'f' {
      assert all[10 + c as int - 'a' as int] == c;
    }
  }

  predicate KeysBlank(v: Vault, keys: set<Key>) {
    forall k :: k in keys && k in v ==> Strip(v[k]) == ""
  }

  /** The secrets of a rotation that may be carried out. */
  predicate GoodSecrets(r: RotationSecrets) {
    && |r.rotationId| == 32 && LowerHex(r.rotationId)
    && |r.appPassword| >= 32 && |r.rootPassword| >= 32 && |r.jwtSecret| >= 64
    && |{r.appPassword, r.rootPassword, r.jwtSecret}| == 3
  }

  lemma ThreeDistinct(a: string, b: string, c: string)
    ensures |{a, b, c}| == 3 <==> a != b && a != c && b != c
  {
    if a == b {
      assert {a, b, c} == {a, c};
      assert a != c ==> |{a, c}| == 2;
    } else if a == c || b == c {
      assert {a, b, c} == {a, b};
    } else {
      assert {a, b, c} == {a, b} + {c};
    }
  }

  lemma ValidSecretsExactly(r: RotationSecrets)
    ensures ValidSecrets(r) <==> GoodSecrets(r)
  {
    hide IsHex, LowerHex;
    HexCharacters(r.rotationId);
    ThreeDistinct(r.appPassword, r.rootPassword, r.jwtSecret);
  }

  /** What a vault holds: no rotation exactly when its five keys are blank, or one that is complete and good. */
  lemma PendingExactly(v: Vault, r: RotationSecrets)
    ensures LoadPending(v) == Ok(None) <==>
      KeysBlank(v, {RotationState, RotationId, PendingDbPassword, PendingRootPassword, PendingJwtSecret})
    ensures LoadPending(v) == Ok(Some(r)) <==>
      && Stored(v, RotationState) == "prepared" && r.rotationId == Stored(v, RotationId)
      && r.appPassword == Stored(v, PendingDbPassword) && r.rootPassword == Stored(v, PendingRootPassword)
      && r.jwtSecret == Stored(v, PendingJwtSecret) && GoodSecrets(r)
  {
    hide Strip, GoodSecrets, ValidSecrets;
    StripFacts("");
    assert Strip("") == "";
    ValidSecretsExactly(r);
    GoodIsNotBlank(r);
  }

  lemma GoodIsNotBlank(r: RotationSecrets)
    ensures GoodSecrets(r) ==>
      r.rotationId != "" && r.appPassword != "" && r.rootPassword != "" && r.jwtSecret != ""
  {
  }

  // ---------- Facts ----------

  /** Values as token_hex makes them: they survive stripping and stay on one line. */
  predicate Plain(r: RotationSecrets) {
    && ValidSecrets(r)
    && EnvFile.SecretsOneLine(r)
    && Stripped(r.rotationId) && Stripped(r.appPassword) && Stripped(r.rootPassword) && Stripped(r.jwtSecret)
  }

  /** Values as token_hex and uuid4 draw them, whatever their lengths and repetitions. */
  predicate Hexadecimal(r: RotationSecrets) {
    IsHex(r.rotationId) && IsHex(r.appPassword) && IsHex(r.rootPassword) && IsHex(r.jwtSecret)
  }

  lemma HexIsPlain(s: string)
    requires IsHex(s)
    ensures Stripped(s) && EnvFile.OneLine(s)
  {
  }

  /** What is drawn and accepted is plain. */
  lemma GeneratedIsPlain(r: RotationSecrets)
    requires Hexadecimal(r) && ValidSecrets(r)
    ensures Plain(r)
  {
    HexIsPlain(r.rotationId);
    HexIsPlain(r.appPassword);
    HexIsPlain(r.rootPassword);
    HexIsPlain(r.jwtSecret);
  }

  lemma PreparedIsStripped()
    ensures Strip(PREPARED) == PREPARED && PREPARED != ""
  {
    StripFacts(PREPARED);
  }

  /** Staging is complete: the next run reads back exactly the staged rotation. */
  lemma StagedLoads(v: Vault, r: RotationSecrets)
    requires Plain(r)
    ensures LoadPending(Staged(v, r)) == Ok(Some(r))
  {
    hide Strip, PartlyStaged, IsHex, PREPARED, EnvFile.SecretsOneLine;
    PreparedIsStripped();
    StripFacts(r.rotationId);
    StripFacts(r.appPassword);
    StripFacts(r.rootPassword);
    StripFacts(r.jwtSecret);
  }

  /** What was read from the vault is stripped. */
  lemma LoadedIsStripped(v: Vault, r: RotationSecrets)
    requires LoadPending(v) == Ok(Some(r))
    ensures ValidSecrets(r)
    ensures Stripped(r.rotationId) && Stripped(r.appPassword) && Stripped(r.rootPassword) && Stripped(r.jwtSecret)
  {
    StripFacts(Raw(v, RotationId));
    StripFacts(Raw(v, PendingDbPassword));
    StripFacts(Raw(v, PendingRootPassword));
    StripFacts(Raw(v, PendingJwtSecret));
  }

  /** A vault key that a rotation neither writes nor removes. */
  predicate Unrelated(k: Key) {
    !Rotated(k) && k !in ROTATION_METADATA + LEGACY_ALIASES + {LastRotationId, LastRotationAt}
  }

  /**
   * Finalizing promotes the secrets, names the rotation and its time, leaves nothing pending, and
   * touches no other setting.
   */
  lemma FinalizedFacts(v: Vault, r: RotationSecrets, at: string)
    ensures var f := Finalized(v, r, at);
      && LoadPending(f) == Ok(None)
      && Raw(f, DbPassword) == r.appPassword && Raw(f, RootPassword) == r.rootPassword
      && Raw(f, JwtSecret) == r.jwtSecret
      && Raw(f, LastRotationId) == r.rotationId && Raw(f, LastRotationAt) == at
      && f.Keys !! ROTATION_METADATA && f.Keys !! LEGACY_ALIASES
      && (forall k :: k in f ==> !Pending(k) && !Legacy(k))
      && (forall k :: Unrelated(k) ==> Raw(f, k) == Raw(v, k))
  {
    hide Strip, LoadPending;
    var f := Finalized(v, r, at);
    PromotedKeys();
    NothingPending(f);
  }

  lemma PromotedKeys()
    ensures {DbPassword, RootPassword, JwtSecret, LastRotationId, LastRotationAt} !! ROTATION_METADATA + LEGACY_ALIASES
  {
  }

  lemma NothingPending(v: Vault)
    requires v.Keys !! ROTATION_METADATA
    ensures LoadPending(v) == Ok(None)
  {
    hide Strip;
    assert RotationState in ROTATION_METADATA && RotationId in ROTATION_METADATA;
    assert PendingDbPassword in ROTATION_METADATA && PendingRootPassword in ROTATION_METADATA;
    assert PendingJwtSecret in ROTATION_METADATA;
    StripFacts("");
    assert Strip("") == "";
  }
}
