/** Settings and their merge with the secret vault (app/core/config.py). The settings
    object is updated in place: the merge walks a fixed table of eight vault secrets in
    order, fills each setting that is still unset, and in production stops with an error
    at the first secret it cannot fetch. */
module Config {
  import opened Wrappers

  const Production: string := "production"
  const Development: string := "development"

  /** The eight settings the vault can supply. */
  datatype SecretSetting =
    | SqlalchemyDatabaseUriOps
    | SqlalchemyDatabaseUriAnalytics
    | BlobStorageConnectionString
    | SecretKey
    | AzureServiceBusConnectionString
    | AzureSpeechKey
    | AzureMlEndpoint
    | AzureMlApiKey

  /** One row of the table: the secret's name in the vault and the setting it fills. */
  datatype MappingEntry = MappingEntry(secretName: string, setting: SecretSetting)

  /** The vault-to-settings table, in the order the merge walks it. */
  const SecretsMapping: seq<MappingEntry> := [
    MappingEntry("SqlOpsConnectionString", SqlalchemyDatabaseUriOps),
    MappingEntry("SqlAnalyticsConnectionString", SqlalchemyDatabaseUriAnalytics),
    MappingEntry("BlobStorageConnectionString", BlobStorageConnectionString),
    MappingEntry("JwtSecretKey", SecretKey),
    MappingEntry("ServiceBusConnectionString", AzureServiceBusConnectionString),
    MappingEntry("SpeechServiceKey", AzureSpeechKey),
    MappingEntry("AzureMlEndpoint", AzureMlEndpoint),
    MappingEntry("AzureMlApiKey", AzureMlApiKey)
  ]

  const MappingSize: nat := 8

  /** The position of a setting in the table. */
  function SettingIndex(s: SecretSetting): (i: nat)
    ensures i < MappingSize && SecretsMapping[i].setting == s
  {
    match s
    case SqlalchemyDatabaseUriOps => 0
    case SqlalchemyDatabaseUriAnalytics => 1
    case BlobStorageConnectionString => 2
    case SecretKey => 3
    case AzureServiceBusConnectionString => 4
    case AzureSpeechKey => 5
    case AzureMlEndpoint => 6
    case AzureMlApiKey => 7
  }

  /** Every setting that is not filled from the vault, as one value. */
  datatype StaticSettings = StaticSettings(
    appName: string, apiVersion: string, environment: string, debug: bool,
    azureKeyVaultName: string, azureTenantId: Option<string>, azureClientId: Option<string>,
    azureClientSecret: Option<string>, azureSpeechRegion: string, blobContainerName: string,
    algorithm: string, accessTokenExpireMinutes: int, allowedOrigins: seq<string>,
    rateLimitPerMinute: int)

  /** The credential used to reach the vault. */
  datatype Credential =
    | ClientSecretCredential(tenantId: string, clientId: string, clientSecret: string)
    | DefaultAzureCredential

  /** A secret client: the vault's URL, the credential, and the answers the vault gives
      (a secret's value, or the error its lookup raises). */
  datatype SecretClient = SecretClient(
    vaultUrl: string, credential: Credential, store: string -> Result<string, string>)

  /** Python truthiness of an optional string. */
  predicate Truthy(s: Option<string>) {
    s.Some? && s.value != ""
  }

  /** The vault URL for a vault name. */
  function VaultUrl(vaultName: string): string {
    "https://" + vaultName + ".vault.azure.net/"
  }

  /** A client-secret credential is used exactly in development with tenant, client id
      and client secret all set and non-empty; otherwise the default credential. */
  function SelectCredential(environment: string, tenantId: Option<string>,
                            clientId: Option<string>, clientSecret: Option<string>): (c: Credential)
    ensures c.ClientSecretCredential? <==>
      environment == Development && Truthy(tenantId) && Truthy(clientId) && Truthy(clientSecret)
    ensures c.ClientSecretCredential? ==>
      c.tenantId == tenantId.value && c.clientId == clientId.value && c.clientSecret == clientSecret.value
  {
    if environment == Development && Truthy(tenantId) && Truthy(clientId) && Truthy(clientSecret)
    then ClientSecretCredential(tenantId.value, clientId.value, clientSecret.value)
    else DefaultAzureCredential
  }

  /** Looking a secret up; without a client (no vault name) every lookup raises. */
  function GetSecret(client: Option<SecretClient>, secretName: string): (r: Result<string, string>)
    ensures r.Success? ==> client.Some?
    ensures client.Some? ==> r == client.value.store(secretName)
  {
    match client
    case None => Failure("no secret client")
    case Some(c) => c.store(secretName)
  }

  /** The error raised in production for a secret that could not be fetched. */
  function MissingSecretError(secretName: string): string {
    "Critical secret '" + secretName + "' missing in production"
  }

  /** The merge runs only when the operations database URI is unset and a vault is named. */
  predicate ShouldLoadSecrets(databaseUriOps: Option<string>, vaultName: string) {
    databaseUriOps.None? && vaultName != ""
  }

  // ----- the merge, stated entry by entry over the eight values in table order -----

  /** What the vault answers for table entry `i`. */
  function Fetched(client: Option<SecretClient>, i: nat): Result<string, string>
    requires i < MappingSize
  {
    GetSecret(client, SecretsMapping[i].secretName)
  }

  /** A setting keeps a value it has, otherwise takes what the vault returns, otherwise
      stays unset. */
  function Fill(current: Option<string>, fetched: Result<string, string>): Option<string> {
    if current.Some? then current
    else if fetched.Success? then Some(fetched.value)
    else None
  }

  /** Entry `i` stops the merge: it is unset, its fetch fails, and this is production. */
  predicate Fatal(values: seq<Option<string>>, environment: string, client: Option<SecretClient>, i: nat)
    requires |values| == MappingSize && i < MappingSize
  {
    values[i].None? && Fetched(client, i).Failure? && environment == Production
  }

  /** The first entry at or after `from` that stops the merge, or 8 when none does. */
  function FirstFatal(values: seq<Option<string>>, environment: string,
                      client: Option<SecretClient>, from: nat): (k: nat)
    requires |values| == MappingSize && from <= MappingSize
    ensures from <= k <= MappingSize
    ensures k < MappingSize ==> Fatal(values, environment, client, k)
    ensures forall j :: from <= j < k ==> !Fatal(values, environment, client, j)
    decreases MappingSize - from
  {
    if from == MappingSize then MappingSize
    else if Fatal(values, environment, client, from) then from
    else FirstFatal(values, environment, client, from + 1)
  }

  /** The values once the entries before `upTo` are filled and the rest are untouched. */
  function FilledBefore(values: seq<Option<string>>, client: Option<SecretClient>, upTo: nat)
    : (m: seq<Option<string>>)
    requires |values| == MappingSize
    ensures |m| == MappingSize
  {
    seq(MappingSize, i requires 0 <= i < MappingSize =>
      if i < upTo then Fill(values[i], Fetched(client, i)) else values[i])
  }

  /** The values after the merge: entries before the stopping entry are filled, the
      stopping entry and every later one are as they were. */
  function Merged(values: seq<Option<string>>, environment: string,
                  client: Option<SecretClient>): (m: seq<Option<string>>)
    requires |values| == MappingSize
    ensures |m| == MappingSize
  {
    FilledBefore(values, client, FirstFatal(values, environment, client, 0))
  }

  /** The secret names the merge asks the vault for, from entry `from` on, in order. */
  function Requested(values: seq<Option<string>>, environment: string,
                     client: Option<SecretClient>, from: nat): seq<string>
    requires |values| == MappingSize && from <= MappingSize
    decreases MappingSize - from
  {
    if from == MappingSize then []
    else if values[from].Some? then Requested(values, environment, client, from + 1)
    else if Fatal(values, environment, client, from) then [SecretsMapping[from].secretName]
    else [SecretsMapping[from].secretName] + Requested(values, environment, client, from + 1)
  }

  // ----- what the merge promises -----

  /** The vault URL names the vault: different names give different URLs. */
  lemma VaultUrlInjective(a: string, b: string)
    requires VaultUrl(a) == VaultUrl(b)
    ensures a == b
  {
    assert |a| == |b|;
    assert a == VaultUrl(a)[8..8 + |a|];
    assert b == VaultUrl(b)[8..8 + |b|];
  }

  /** Only unset entries at or after `from` are asked for. */
  lemma {:induction false} RequestedOnlyUnset(values: seq<Option<string>>, environment: string,
                                             client: Option<SecretClient>, from: nat, x: string)
    requires |values| == MappingSize && from <= MappingSize
    requires x in Requested(values, environment, client, from)
    ensures exists j :: from <= j < MappingSize && values[j].None? && SecretsMapping[j].secretName == x
    decreases MappingSize - from
  {
    if from < MappingSize && x != SecretsMapping[from].secretName {
      RequestedOnlyUnset(values, environment, client, from + 1, x);
    } else if from < MappingSize && values[from].Some? {
      RequestedOnlyUnset(values, environment, client, from + 1, x);
    }
  }

  /** A setting that already has a value is never fetched and never changed. */
  lemma MergeKeepsPresent(values: seq<Option<string>>, environment: string,
                          client: Option<SecretClient>, i: nat)
    requires |values| == MappingSize && i < MappingSize && values[i].Some?
    ensures Merged(values, environment, client)[i] == values[i]
    ensures SecretsMapping[i].secretName !in Requested(values, environment, client, 0)
  {
    var name := SecretsMapping[i].secretName;
    if name in Requested(values, environment, client, 0) {
      RequestedOnlyUnset(values, environment, client, 0, name);
    }
  }

  /** Outside production the merge never stops: every unset setting takes the vault's
      value when the fetch succeeds and stays unset when it fails. */
  lemma MergeOutsideProduction(values: seq<Option<string>>, environment: string,
                               client: Option<SecretClient>, i: nat)
    requires |values| == MappingSize && environment != Production && i < MappingSize
    ensures FirstFatal(values, environment, client, 0) == MappingSize
    ensures values[i].None? && Fetched(client, i).Success? ==>
      Merged(values, environment, client)[i] == Some(Fetched(client, i).value)
    ensures values[i].None? && Fetched(client, i).Failure? ==>
      Merged(values, environment, client)[i].None?
  {
  }

  /** The names asked for from entry `from` on, when entry `k` is the first to stop the
      merge, end with the secret of entry `k`. */
  lemma {:induction false} RequestedEndsAtFatal(values: seq<Option<string>>, environment: string,
                                               client: Option<SecretClient>, from: nat, k: nat)
    requires |values| == MappingSize && from <= k < MappingSize
    requires k == FirstFatal(values, environment, client, from)
    ensures |Requested(values, environment, client, from)| > 0
    ensures var r := Requested(values, environment, client, from); r[|r| - 1] == SecretsMapping[k].secretName
    decreases k - from
  {
    if from < k {
      RequestedEndsAtFatal(values, environment, client, from + 1, k);
    }
  }

  /** In production a failed fetch stops the merge: the settings before it in table order
      all hold values (loaded earlier or already set), and it and every later one are
      untouched. The failed secret is the last one asked for. */
  lemma MergeInProductionStops(values: seq<Option<string>>, client: Option<SecretClient>, k: nat)
    requires |values| == MappingSize && k < MappingSize
    requires k == FirstFatal(values, Production, client, 0)
    ensures values[k].None? && Fetched(client, k).Failure?
    ensures forall j :: 0 <= j < k ==> Merged(values, Production, client)[j].Some?
    ensures forall j :: k <= j < MappingSize ==> Merged(values, Production, client)[j] == values[j]
    ensures |Requested(values, Production, client, 0)| > 0
    ensures var r := Requested(values, Production, client, 0); r[|r| - 1] == SecretsMapping[k].secretName
  {
    RequestedEndsAtFatal(values, Production, client, 0, k);
  }

  /** Nothing is asked for from entry `from` on when every such entry is set. */
  lemma {:induction false} RequestedNothingWhenSet(values: seq<Option<string>>, environment: string,
                                                  client: Option<SecretClient>, from: nat)
    requires |values| == MappingSize && from <= MappingSize
    requires forall j :: from <= j < MappingSize ==> values[j].Some?
    ensures Requested(values, environment, client, from) == []
    decreases MappingSize - from
  {
    if from < MappingSize {
      RequestedNothingWhenSet(values, environment, client, from + 1);
    }
  }

  /** With all eight settings present the merge asks the vault nothing, raises nothing
      and changes nothing. */
  lemma MergeAllPresent(values: seq<Option<string>>, environment: string, client: Option<SecretClient>)
    requires |values| == MappingSize
    requires forall j :: 0 <= j < MappingSize ==> values[j].Some?
    ensures Requested(values, environment, client, 0) == []
    ensures FirstFatal(values, environment, client, 0) == MappingSize
    ensures Merged(values, environment, client) == values
  {
    RequestedNothingWhenSet(values, environment, client, 0);
  }

  /** Merging again against the same vault changes nothing and stops at the same entry. */
  lemma MergeIdempotent(values: seq<Option<string>>, environment: string, client: Option<SecretClient>)
    requires |values| == MappingSize
    ensures FirstFatal(Merged(values, environment, client), environment, client, 0)
         == FirstFatal(values, environment, client, 0)
    ensures Merged(Merged(values, environment, client), environment, client)
         == Merged(values, environment, client)
  {
    var m := Merged(values, environment, client);
    var k := FirstFatal(values, environment, client, 0);
    forall j | 0 <= j < k
      ensures !Fatal(m, environment, client, j)
    {
      assert !Fatal(values, environment, client, j);
    }
    if k < MappingSize {
      assert Fatal(m, environment, client, k);
    }
    var k2 := FirstFatal(m, environment, client, 0);
    assert k2 == k;
  }

  /** The settings object the source mutates in place. */
  class Settings {
    var appName: string
    var apiVersion: string
    var environment: string
    var debug: bool
    var azureKeyVaultName: string
    var azureTenantId: Option<string>
    var azureClientId: Option<string>
    var azureClientSecret: Option<string>
    var sqlalchemyDatabaseUriOps: Option<string>
    var sqlalchemyDatabaseUriAnalytics: Option<string>
    var blobStorageConnectionString: Option<string>
    var secretKey: Option<string>
    var azureServiceBusConnectionString: Option<string>
    var azureSpeechKey: Option<string>
    var azureSpeechRegion: string
    var azureMlEndpoint: Option<string>
    var azureMlApiKey: Option<string>
    var blobContainerName: string
    var algorithm: string
    var accessTokenExpireMinutes: int
    var allowedOrigins: seq<string>
    var rateLimitPerMinute: int

    /** Settings as loaded from the environment: the static fields and the eight
        vault-backed values in table order. */
    constructor (statics: StaticSettings, initial: seq<Option<string>>)
      requires |initial| == MappingSize
      ensures Static() == statics && Values() == initial
    {
      appName, apiVersion := statics.appName, statics.apiVersion;
      environment, debug := statics.environment, statics.debug;
      azureKeyVaultName := statics.azureKeyVaultName;
      azureTenantId, azureClientId := statics.azureTenantId, statics.azureClientId;
      azureClientSecret := statics.azureClientSecret;
      azureSpeechRegion, blobContainerName := statics.azureSpeechRegion, statics.blobContainerName;
      algorithm, accessTokenExpireMinutes := statics.algorithm, statics.accessTokenExpireMinutes;
      allowedOrigins, rateLimitPerMinute := statics.allowedOrigins, statics.rateLimitPerMinute;
      sqlalchemyDatabaseUriOps, sqlalchemyDatabaseUriAnalytics := initial[0], initial[1];
      blobStorageConnectionString, secretKey := initial[2], initial[3];
      azureServiceBusConnectionString, azureSpeechKey := initial[4], initial[5];
      azureMlEndpoint, azureMlApiKey := initial[6], initial[7];
    }

    /** The fields the vault never writes. */
    function Static(): StaticSettings
      reads this
    {
      StaticSettings(appName, apiVersion, environment, debug, azureKeyVaultName, azureTenantId,
                     azureClientId, azureClientSecret, azureSpeechRegion, blobContainerName,
                     algorithm, accessTokenExpireMinutes, allowedOrigins, rateLimitPerMinute)
    }

    /** `getattr(settings, name)` for a vault-backed setting. */
    function Get(s: SecretSetting): Option<string>
      reads this
    {
      match s
      case SqlalchemyDatabaseUriOps => sqlalchemyDatabaseUriOps
      case SqlalchemyDatabaseUriAnalytics => sqlalchemyDatabaseUriAnalytics
      case BlobStorageConnectionString => blobStorageConnectionString
      case SecretKey => secretKey
      case AzureServiceBusConnectionString => azureServiceBusConnectionString
      case AzureSpeechKey => azureSpeechKey
      case AzureMlEndpoint => azureMlEndpoint
      case AzureMlApiKey => azureMlApiKey
    }

    /** The eight vault-backed values, in table order. */
    function Values(): (v: seq<Option<string>>)
      reads this
      ensures |v| == MappingSize
      ensures forall i :: 0 <= i < MappingSize ==> v[i] == Get(SecretsMapping[i].setting)
    {
      [sqlalchemyDatabaseUriOps, sqlalchemyDatabaseUriAnalytics, blobStorageConnectionString,
       secretKey, azureServiceBusConnectionString, azureSpeechKey, azureMlEndpoint, azureMlApiKey]
    }

    /** `setattr(settings, name, value)` for a vault-backed setting: that setting takes
        the value and nothing else changes. */
    method Set(s: SecretSetting, value: string)
      modifies this
      ensures Get(s) == Some(value)
      ensures Values() == old(Values())[SettingIndex(s) := Some(value)]
      ensures Static() == old(Static())
    {
      match s
      case SqlalchemyDatabaseUriOps => sqlalchemyDatabaseUriOps := Some(value);
      case SqlalchemyDatabaseUriAnalytics => sqlalchemyDatabaseUriAnalytics := Some(value);
      case BlobStorageConnectionString => blobStorageConnectionString := Some(value);
      case SecretKey => secretKey := Some(value);
      case AzureServiceBusConnectionString => azureServiceBusConnectionString := Some(value);
      case AzureSpeechKey => azureSpeechKey := Some(value);
      case AzureMlEndpoint => azureMlEndpoint := Some(value);
      case AzureMlApiKey => azureMlApiKey := Some(value);
    }
  }

  /** Reaches the vault on behalf of a settings object. */
  class KeyVaultManager {
    const settings: Settings
    const keyVaultUrl: Option<string>
    const credential: Option<Credential>
    const secretClient: Option<SecretClient>

    /** A vault URL, a credential and a client exist only when a vault is named. */
    constructor (settings: Settings, store: string -> Result<string, string>)
      ensures this.settings == settings
      ensures settings.azureKeyVaultName == "" ==>
        keyVaultUrl.None? && credential.None? && secretClient.None?
      ensures settings.azureKeyVaultName != "" ==>
        && keyVaultUrl == Some(VaultUrl(settings.azureKeyVaultName))
        && credential == Some(SelectCredential(settings.environment, settings.azureTenantId,
                                               settings.azureClientId, settings.azureClientSecret))
        && secretClient == Some(SecretClient(keyVaultUrl.value, credential.value, store))
    {
      this.settings := settings;
      if settings.azureKeyVaultName != "" {
        var url := VaultUrl(settings.azureKeyVaultName);
        var cred := SelectCredential(settings.environment, settings.azureTenantId,
                                     settings.azureClientId, settings.azureClientSecret);
        keyVaultUrl, credential := Some(url), Some(cred);
        secretClient := Some(SecretClient(url, cred, store));
      } else {
        keyVaultUrl, credential, secretClient := None, None, None;
      }
    }

    /** Walks the table in order and fills every unset setting from the vault. A fetch
        that fails is skipped outside production; in production it ends the walk with an
        error, keeping what was filled before it. `requested` lists the secrets asked for. */
    method LoadSecretsToSettings(target: Settings)
      returns (r: Result<Settings, string>, requested: seq<string>)
      modifies target
      ensures target.Static() == old(target.Static())
      ensures target.Values() == Merged(old(target.Values()), old(target.environment), secretClient)
      ensures requested == Requested(old(target.Values()), old(target.environment), secretClient, 0)
      ensures r.Failure? <==> FirstFatal(old(target.Values()), old(target.environment), secretClient, 0) < MappingSize
      ensures r.Failure? ==> r.error == MissingSecretError(
        SecretsMapping[FirstFatal(old(target.Values()), old(target.environment), secretClient, 0)].secretName)
      ensures r.Success? ==> r.value == target
    {
      ghost var values := target.Values();
      ghost var env := target.environment;
      ghost var stop := FirstFatal(values, env, secretClient, 0);
      requested := [];
      var i := 0;
      while i < MappingSize
        invariant 0 <= i <= stop
        invariant stop == FirstFatal(values, env, secretClient, i)
        invariant target.Static() == old(target.Static()) && target.environment == env
        invariant target.Values() == FilledBefore(values, secretClient, i)
        invariant requested + Requested(values, env, secretClient, i) == Requested(values, env, secretClient, 0)
      {
        var entry := SecretsMapping[i];
        ghost var before := target.Values();
        assert FilledBefore(values, secretClient, i + 1) == before[i := Fill(values[i], Fetched(secretClient, i))];
        if target.Get(entry.setting) == None {
          var value := GetSecret(secretClient, entry.secretName);
          requested := requested + [entry.secretName];
          match value
          case Success(v) =>
            target.Set(entry.setting, v);
          case Failure(_) =>
            if target.environment == Production {
              return Failure(MissingSecretError(entry.secretName)), requested;
            }
        }
        i := i + 1;
      }
      return Success(target), requested;
    }
  }

  /** Builds the settings: when the operations database URI is unset and a vault is named,
      runs the merge and swallows any error it raises, so the caller always gets the
      settings object, holding whatever the merge filled before an error. */
  method GetSettings(settings: Settings, store: string -> Result<string, string>) returns (r: Settings)
    modifies settings
    ensures r == settings
    ensures settings.Static() == old(settings.Static())
    ensures ShouldLoadSecrets(old(settings.sqlalchemyDatabaseUriOps), old(settings.azureKeyVaultName)) ==>
      settings.Values() == Merged(old(settings.Values()), old(settings.environment),
        Some(SecretClient(VaultUrl(old(settings.azureKeyVaultName)),
                          SelectCredential(old(settings.environment), old(settings.azureTenantId),
                                           old(settings.azureClientId), old(settings.azureClientSecret)),
                          store)))
    ensures !ShouldLoadSecrets(old(settings.sqlalchemyDatabaseUriOps), old(settings.azureKeyVaultName)) ==>
      settings.Values() == old(settings.Values())
  {
    if settings.sqlalchemyDatabaseUriOps.None? && settings.azureKeyVaultName != "" {
      var manager := new KeyVaultManager(settings, store);
      var loaded, _ := manager.LoadSecretsToSettings(settings);
    }
    return settings;
  }
}
