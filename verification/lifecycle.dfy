/** The handlers composed the way Vault drives them: configure, issue, let
    the host renew the lease any number of times, then revoke. */
module Lifecycle {
  import opened Wrappers
  import opened GoTime
  import opened Logical
  import opened Mailgun
  import opened ConfigPath
  import opened CredentialsPath

  /** The secret the host holds after `k` renewals of `secret`. */
  function RenewTimes(stored: Storage, secret: Secret, k: nat): Secret {
    if k == 0 then secret
    else Renew(stored, RenewTimes(stored, secret, k - 1)).reply.response.secret.value
  }

  /** Renewals never touch the lease's internal data, and after at least one
      the lease is the fixed one. */
  lemma {:induction false} RenewTimesKeepsInternalData(stored: Storage, secret: Secret, k: nat)
    ensures RenewTimes(stored, secret, k).internalData == secret.internalData
    ensures RenewTimes(stored, secret, k).renewable == secret.renewable
    ensures k > 0 ==> RenewTimes(stored, secret, k).ttl == LeaseTTL
                      && RenewTimes(stored, secret, k).maxTtl == LeaseMaxTTL
  {
    if k > 0 {
      RenewTimesKeepsInternalData(stored, secret, k - 1);
    }
  }

  /** Revoking an issued credential, after any number of renewals and with the
      configuration unchanged, deletes exactly the login that was created, on
      the account it was created on; the revoke succeeds exactly when that
      delete does. */
  lemma IssueRenewRevoke(stored: Storage, password: Draw<Password>, suffix: Draw<Suffix>,
                         provider: Provider, k: nat)
    requires Issued(Issue(stored, password, suffix, provider))
    ensures var issued := Issue(stored, password, suffix, provider);
            var held := RenewTimes(stored, issued.reply.response.secret.value, k);
            var revoked := Revoke(stored, held, provider);
            && issued.calls == [CreateCredential(Account(stored.value.domain, stored.value.apiKey),
                                                 Username(suffix.value), password.value)]
            && revoked.calls == [DeleteCredential(Account(stored.value.domain, stored.value.apiKey),
                                                  Username(suffix.value))]
            && (revoked.reply == NoResponse <==>
                  provider.deleteCredential(Account(stored.value.domain, stored.value.apiKey),
                                            Username(suffix.value)).None?)
  {
  }

  /** The account double of the plugin's tests: it accepts every key and
      domain, and its create and delete return no error. The tests install it
      only as the client factory used by configuration writes. */
  function AcceptingProvider(): (p: Provider)
    ensures forall a :: p.isApiKeyValid(a) && p.isDomainValid(a)
    ensures forall a, u, w :: p.createCredential(a, u, w).None?
    ensures forall a, u :: p.deleteCredential(a, u).None?
  {
    Provider(_ => true, _ => true, (_, _, _) => None, (_, _) => None)
  }

  /** A configuration with only an API key and a domain, written through the
      accepting double, is saved: the read shows that domain, zero TTLs and
      no API key. */
  lemma SavedConfigContainsDomain()
    ensures var fields := FieldData(map[ApiKeyField := "apiKey123", DomainField := "example.com"], map[]);
            var written := WriteConfig(None, fields, AcceptingProvider());
            && written.reply == NoResponse
            && ReadConfig(written.storage).reply.response.data
               == map[DomainField := Str("example.com"), TtlField := Int(0), MaxTtlField := Int(0)]
  {
  }

  /** Configure, issue, renew any number of times, revoke: once a write has
      been accepted, issuing creates the login on exactly the account that
      was written (its domain and API key), with the fixed 1m/3m lease
      whatever TTLs were configured, and revoking the held lease deletes that
      same login on that same account. */
  lemma EndToEnd(stored: Storage, fields: FieldData, provider: Provider,
                 password: Password, suffix: Suffix, k: nat)
    requires WriteConfig(stored, fields, provider).reply == NoResponse
    ensures var configured := WriteConfig(stored, fields, provider).storage;
            var account := Account(fields.strings[DomainField], fields.strings[ApiKeyField]);
            var login := Username(suffix);
            var issued := Issue(configured, Drawn(password), Drawn(suffix), provider);
            && issued.calls == [CreateCredential(account, login, password)]
            && (provider.createCredential(account, login, password).None? ==>
                  var secret := issued.reply.response.secret.value;
                  && secret.ttl == Minute && secret.maxTtl == 3 * Minute
                  && Revoke(configured, RenewTimes(configured, secret, k), provider).calls
                     == [DeleteCredential(account, login)])
  {
  }
}
