/** The settings names shared by the secrets vault and the .env file. */
module Keys {

  datatype Key =
    | DbPassword | RootPassword | JwtSecret
    | PendingDbPassword | PendingRootPassword | PendingJwtSecret
    | RotationState | RotationId | LastRotationId | LastRotationAt
    | ApiSecretKey | LegacyDbPassword | LegacyJwtSecret | LegacyApiSecretKey | SecretKey
    | DbHost | DbUser | DbName | DbPort
    | Other(name: string)

  /** The replacement credentials of one rotation. */
  datatype RotationSecrets = RotationSecrets(
    rotationId: string, appPassword: string, rootPassword: string, jwtSecret: string)

  predicate Rotated(k: Key) {
    k in {DbPassword, RootPassword, JwtSecret}
  }

  predicate Pending(k: Key) {
    k in {PendingDbPassword, PendingRootPassword, PendingJwtSecret}
  }

  predicate Legacy(k: Key) {
    k in {ApiSecretKey, LegacyDbPassword, LegacyJwtSecret, LegacyApiSecretKey, SecretKey}
  }

  function Replacement(r: RotationSecrets, k: Key): string
    requires Rotated(k)
  {
    match k
    case DbPassword => r.appPassword
    case RootPassword => r.rootPassword
    case JwtSecret => r.jwtSecret
  }

  /** The name of a rotated key. */
  function NameOf(k: Key): string
    requires Rotated(k)
  {
    match k
    case DbPassword => "MTO_DB_PASSWORD"
    case RootPassword => "DB_ROOT_PASSWORD"
    case JwtSecret => "MTO_JWT_SECRET"
  }

  /** The names that the tool knows, the rotated ones first. */
  const NAMES: seq<(string, Key)> :=
    [("MTO_DB_PASSWORD", DbPassword), ("DB_ROOT_PASSWORD", RootPassword), ("MTO_JWT_SECRET", JwtSecret),
     ("MTO_PENDING_DB_PASSWORD", PendingDbPassword), ("MTO_PENDING_ROOT_PASSWORD", PendingRootPassword),
     ("MTO_PENDING_JWT_SECRET", PendingJwtSecret),
     ("MTO_CREDENTIAL_ROTATION_STATE", RotationState), ("MTO_CREDENTIAL_ROTATION_ID", RotationId),
     ("MTO_LAST_CREDENTIAL_ROTATION_ID", LastRotationId), ("MTO_LAST_CREDENTIAL_ROTATION_AT", LastRotationAt),
     ("API_SECRET_KEY", ApiSecretKey), ("DB_PASSWORD", LegacyDbPassword), ("JWT_SECRET", LegacyJwtSecret),
     ("MTO_API_SECRET_KEY", LegacyApiSecretKey), ("SECRET_KEY", SecretKey),
     ("MTO_DB_HOST", DbHost), ("MTO_DB_USER", DbUser), ("MTO_DB_NAME", DbName), ("MTO_DB_PORT", DbPort)]

  function Find(names: seq<(string, Key)>, name: string): Key {
    if names == [] then Other(name)
    else if names[0].0 == name then names[0].1
    else Find(names[1..], name)
  }

  function KeyOf(name: string): Key {
    Find(NAMES, name)
  }

  /** A name in the list is found at its first place. */
  lemma {:induction false} FindAt(names: seq<(string, Key)>, i: nat)
    requires i < |names| && forall j :: 0 <= j < i ==> names[j].0 != names[i].0
    ensures Find(names, names[i].0) == names[i].1
  {
    if i > 0 {
      FindAt(names[1..], i - 1);
    }
  }

  lemma {:induction false} FindGives(names: seq<(string, Key)>, name: string)
    ensures Find(names, name) == Other(name) || (name, Find(names, name)) in names
  {
    if names != [] && names[0].0 != name {
      FindGives(names[1..], name);
    }
  }

  const PENDING_NAMES: seq<string> := ["MTO_PENDING_DB_PASSWORD", "MTO_PENDING_ROOT_PASSWORD", "MTO_PENDING_JWT_SECRET"]
  const LEGACY_NAMES: seq<string> := ["API_SECRET_KEY", "DB_PASSWORD", "JWT_SECRET", "MTO_API_SECRET_KEY", "SECRET_KEY"]

  lemma NamesDiffer(i: nat)
    requires 3 <= i < 6 || 10 <= i < 15
    ensures forall j :: 0 <= j < i ==> NAMES[j].0 != NAMES[i].0
  {
    assert NAMES[0].0[0] == 'M' && |NAMES[0].0| == 15 && |NAMES[1].0| == 16 && |NAMES[2].0| == 14;
    assert |NAMES[3].0| == 23 && |NAMES[4].0| == 25 && |NAMES[5].0| == 22 && |NAMES[6].0| == 29 && |NAMES[7].0| == 26;
    assert |NAMES[8].0| == 31 && |NAMES[9].0| == 31 && |NAMES[10].0| == 14 && |NAMES[11].0| == 11;
    assert |NAMES[12].0| == 10 && |NAMES[13].0| == 18 && |NAMES[14].0| == 10;
    assert NAMES[2].0[0] == 'M' && NAMES[10].0[0] == 'A' && NAMES[12].0[0] == 'J' && NAMES[14].0[0] == 'S';
  }

  lemma RemovedPlaces(i: nat)
    requires i < |NAMES|
    ensures Pending(NAMES[i].1) <==> 3 <= i < 6
    ensures Legacy(NAMES[i].1) <==> 10 <= i < 15
  {
  }

  lemma PlacesNamed()
    ensures |NAMES| == 19
    ensures forall i :: 0 <= i < 3 ==> NAMES[i + 3].0 == PENDING_NAMES[i]
    ensures forall i :: 0 <= i < 5 ==> NAMES[i + 10].0 == LEGACY_NAMES[i]
  {
  }

  lemma NameAt(i: nat)
    requires 3 <= i < 6 || 10 <= i < 15
    ensures i < |NAMES| && KeyOf(NAMES[i].0) == NAMES[i].1
  {
    hide Find;
    NamesDiffer(i);
    FindAt(NAMES, i);
  }

  /** The names of the keys that a rotation removes. */
  lemma RemovedNames(name: string)
    ensures Pending(KeyOf(name)) <==> name in PENDING_NAMES
    ensures Legacy(KeyOf(name)) <==> name in LEGACY_NAMES
  {
    hide NAMES, PENDING_NAMES, LEGACY_NAMES, Find;
    ListSizes();
    PlacesNamed();
    FindGives(NAMES, name);
    if (name, KeyOf(name)) in NAMES {
      var i :| 0 <= i < |NAMES| && NAMES[i] == (name, KeyOf(name));
      RemovedPlaces(i);
      if 3 <= i < 6 {
        assert PENDING_NAMES[i - 3] == name;
      } else if 10 <= i < 15 {
        assert LEGACY_NAMES[i - 10] == name;
      }
    }
    if k :| 0 <= k < 3 && PENDING_NAMES[k] == name {
      NameAt(k + 3);
      RemovedPlaces(k + 3);
    }
    if k :| 0 <= k < 5 && LEGACY_NAMES[k] == name {
      NameAt(k + 10);
      RemovedPlaces(k + 10);
    }
  }

  lemma SettingNamesDiffer(i: nat)
    requires 15 <= i < 19
    ensures forall j :: 0 <= j < i ==> NAMES[j].0 != NAMES[i].0
  {
    assert |NAMES[0].0| == 15 && |NAMES[1].0| == 16 && |NAMES[2].0| == 14;
    assert |NAMES[3].0| == 23 && |NAMES[4].0| == 25 && |NAMES[5].0| == 22 && |NAMES[6].0| == 29 && |NAMES[7].0| == 26;
    assert |NAMES[8].0| == 31 && |NAMES[9].0| == 31 && |NAMES[10].0| == 14 && |NAMES[11].0| == 11;
    assert |NAMES[12].0| == 10 && |NAMES[13].0| == 18 && |NAMES[14].0| == 10 && |NAMES[i].0| == 11;
    assert NAMES[11].0[0] == 'D' && NAMES[i].0[0] == 'M';
    assert NAMES[15].0[7] == 'H' && NAMES[16].0[7] == 'U' && NAMES[17].0[7] == 'N' && NAMES[18].0[7] == 'P';
  }

  /** The names of the connection settings. */
  lemma SettingNames()
    ensures KeyOf("MTO_DB_HOST") == DbHost && KeyOf("MTO_DB_USER") == DbUser
    ensures KeyOf("MTO_DB_NAME") == DbName && KeyOf("MTO_DB_PORT") == DbPort
  {
    hide Find;
    forall i: nat | 15 <= i < 19 ensures KeyOf(NAMES[i].0) == NAMES[i].1 {
      SettingNamesDiffer(i);
      FindAt(NAMES, i);
    }
    assert NAMES[15] == ("MTO_DB_HOST", DbHost) && NAMES[16] == ("MTO_DB_USER", DbUser);
    assert NAMES[17] == ("MTO_DB_NAME", DbName) && NAMES[18] == ("MTO_DB_PORT", DbPort);
  }

  lemma ListSizes()
    ensures |PENDING_NAMES| == 3 && |LEGACY_NAMES| == 5
  {
  }

  lemma NamesAreRead(k: Key)
    requires Rotated(k)
    ensures KeyOf(NameOf(k)) == k
  {
    assert |NAMES[1].0| == 16 && |NAMES[2].0| == 14;
    assert NAMES[1..][0] == NAMES[1] && NAMES[1..][1..][0] == NAMES[2];
  }
}
