/**
 * The per-store secret access policy GetSecret applies before it asks a
 * secret store for a key, and GetSecret itself.
 *
 * Order of the checks: a store without a scope is unrestricted; a key on the
 * store's denied list is refused; a non-empty allowed list admits exactly its
 * members, whatever the default; with no allowed list the default decides.
 */
module SecretAccess {
  import opened Wrappers
  import opened Rpc

  datatype DefaultAccess = AllowAccess | DenyAccess

  /** `config.SecretsScope` of one secret store. */
  datatype SecretsScope = SecretsScope(
    defaultAccess: DefaultAccess, allowedSecrets: seq<string>, deniedSecrets: seq<string>)

  /** Secret-store name to its scope; a store may have none. */
  type SecretsConfiguration = map<string, SecretsScope>

  /** The scope's verdict on one key. */
  function IsSecretAllowed(scope: SecretsScope, key: string): (allowed: bool)
    ensures allowed ==> key !in scope.deniedSecrets
    ensures allowed && |scope.allowedSecrets| != 0 ==> key in scope.allowedSecrets
    ensures !allowed ==> key in scope.deniedSecrets || |scope.allowedSecrets| != 0 || scope.defaultAccess == DenyAccess
  {
    if key in scope.deniedSecrets then false
    else if |scope.allowedSecrets| != 0 then key in scope.allowedSecrets
    else scope.defaultAccess == AllowAccess
  }

  /** The policy for a key of a named store. */
  function IsAllowed(config: SecretsConfiguration, storeName: string, key: string): (allowed: bool)
    ensures storeName !in config ==> allowed
    ensures storeName in config ==> allowed == IsSecretAllowed(config[storeName], key)
  {
    storeName !in config || IsSecretAllowed(config[storeName], key)
  }

  /** A store without configuration is unrestricted. */
  lemma UnconfiguredStoreAllowsAll(config: SecretsConfiguration, storeName: string, key: string)
    requires storeName !in config
    ensures IsAllowed(config, storeName, key)
  {
  }

  /** A key on the denied list is refused, whatever the other settings. */
  lemma DeniedKeyIsRefused(config: SecretsConfiguration, storeName: string, key: string)
    requires storeName in config && key in config[storeName].deniedSecrets
    ensures !IsAllowed(config, storeName, key)
  {
  }

  /** A non-empty allowed list admits exactly its members, even when the default is allow. */
  lemma AllowListIsExclusive(config: SecretsConfiguration, storeName: string, key: string)
    requires storeName in config && |config[storeName].allowedSecrets| != 0
    requires key !in config[storeName].deniedSecrets
    ensures IsAllowed(config, storeName, key) <==> key in config[storeName].allowedSecrets
  {
  }

  /** Without an allowed list, a key not denied gets the store's default. */
  lemma DefaultDecides(config: SecretsConfiguration, storeName: string, key: string)
    requires storeName in config && |config[storeName].allowedSecrets| == 0
    requires key !in config[storeName].deniedSecrets
    ensures IsAllowed(config, storeName, key) <==> config[storeName].defaultAccess == AllowAccess
  {
  }

  datatype GetSecretRequest = GetSecretRequest(storeName: string, key: string)

  /** The secret store's lookup: the key-value data it returns for a key. */
  type SecretStore = string -> map<string, string>

  /**
   * GetSecret: a refused key fails with PermissionDenied and no data; an
   * admitted key returns the store's data for it unchanged.
   */
  function GetSecret(config: SecretsConfiguration, store: SecretStore, req: GetSecretRequest)
    : (r: Result<map<string, string>, Status>)
    ensures r.Failure? <==> !IsAllowed(config, req.storeName, req.key)
    ensures r.Failure? ==> r.error.code == PermissionDenied && r.error.details == []
    ensures r.Success? ==> r.value == store(req.key)
  {
    if !IsAllowed(config, req.storeName, req.key) then Failure(Error(PermissionDenied, ""))
    else Success(store(req.key))
  }

  /** A refused lookup never consults the store: its outcome is the same whatever the store holds. */
  lemma RefusedLookupIgnoresStore(config: SecretsConfiguration, s1: SecretStore, s2: SecretStore, req: GetSecretRequest)
    requires !IsAllowed(config, req.storeName, req.key)
    ensures GetSecret(config, s1, req) == GetSecret(config, s2, req)
  {
  }

  /** The configuration of `TestGetSecret`; store4 has no scope. */
  const TestSecretsConfiguration: SecretsConfiguration :=
    map[
      "store1" := SecretsScope(AllowAccess, [], ["not-allowed"]),
      "store2" := SecretsScope(DenyAccess, ["good-key"], []),
      "store3" := SecretsScope(AllowAccess, ["good-key"], [])]

  /** A lookup answering the requested key; the tests read only good-key's value, "life is good". */
  function FakeSecretStore(key: string): map<string, string> {
    map[key := "life is good"]
  }

  function TestGetSecret(storeName: string, key: string): Result<map<string, string>, Status> {
    GetSecret(TestSecretsConfiguration, FakeSecretStore, GetSecretRequest(storeName, key))
  }

  /** The cases of `TestGetSecret`. */
  lemma TestGetSecretCases()
    ensures TestGetSecret("store4", "good-key").Success?
    ensures TestGetSecret("store4", "good-key").value["good-key"] == "life is good"
    ensures TestGetSecret("store1", "good-key").Success?
    ensures TestGetSecret("store1", "good-key").value["good-key"] == "life is good"
    ensures TestGetSecret("store3", "good-key").Success?
    ensures TestGetSecret("store3", "good-key").value["good-key"] == "life is good"
    ensures TestGetSecret("store3", "random").Failure?
    ensures TestGetSecret("store3", "random").error.code == PermissionDenied
    ensures TestGetSecret("store2", "random").Failure?
    ensures TestGetSecret("store2", "random").error.code == PermissionDenied
  {
  }
}
