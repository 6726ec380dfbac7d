/** The `credentials` path and the secret's lease callbacks: issuing a fresh
    Mailgun SMTP login with a fixed lease, renewing that lease, and revoking
    the login named in the lease's internal data. */
module CredentialsPath {
  import opened Wrappers
  import opened GoTime
  import opened Logical
  import opened Mailgun
  import opened ConfigPath

  const VaultUserPrefix := "vault"
  const InternalDataUser := "user_name"
  const UsernameKey := "username"
  const PasswordKey := "password"

  const PasswordLength := 32
  const SuffixLength := 5

  /** The lease every issued or renewed credential gets. */
  const LeaseTTL: Duration := Minute
  const LeaseMaxTTL: Duration := 3 * Minute

  const NotConfiguredMessage := "Mailgun plugin is not configured."
  const NoInternalUserMessage := "no internal user name found"
  const PasswordErrorPrefix := "Unable to create random password: "
  const SuffixErrorPrefix := "Unable to create unique, random username: "
  /** The text both the create and the delete failure carry. */
  const ProviderErrorPrefix := "Unable to create credentials in mailgun: "

  predicate IsAlphaNumeric(c: char) {
    ('0' <= c <= '9') || ('a' <= c <= 'z') || ('A' <= c <= 'Z')
  }

  predicate AllAlphaNumeric(s: string) {
    forall i | 0 <= i < |s| :: IsAlphaNumeric(s[i])
  }

  /** What `credsutil.RandomAlphaNumeric(32, false)` yields. */
  type Password = s: string | |s| == PasswordLength && AllAlphaNumeric(s)
    witness "abcdefghijklmnopqrstuvwxyz012345"

  /** What `base62.Random(5, true)` yields. */
  type Suffix = s: string | |s| == SuffixLength && AllAlphaNumeric(s)
    witness "abcde"

  /** The outcome of drawing from a random source. */
  datatype Draw<T> = Drawn(value: T) | DrawFailed(error: string)

  /** `fmt.Sprintf("%v.%v", vaultUserPrefix, userSuffix)`. */
  function Username(suffix: Suffix): string {
    VaultUserPrefix + "." + suffix
  }

  /** The shape of every issued login: `vault.` then five alphanumerics. */
  predicate IsVaultUsername(u: string) {
    && |u| == |VaultUserPrefix| + 1 + SuffixLength
    && u[..|VaultUserPrefix|] == VaultUserPrefix
    && u[|VaultUserPrefix|] == '.'
    && AllAlphaNumeric(u[|VaultUserPrefix| + 1..])
  }

  /** The random part of a login of that shape. */
  function SuffixOf(u: string): (s: Suffix)
    requires IsVaultUsername(u)
  {
    u[|VaultUserPrefix| + 1..]
  }

  /** Logins and suffixes are in one-to-one correspondence: a login has the
      fixed shape and gives back its suffix, and every login of that shape is
      built from its suffix. Distinct suffixes therefore give distinct logins. */
  lemma UsernameRoundTrip(suffix: Suffix, u: string)
    ensures IsVaultUsername(Username(suffix)) && SuffixOf(Username(suffix)) == suffix
    ensures IsVaultUsername(u) ==> Username(SuffixOf(u)) == u
  {
  }

  /** The secret response of a successful issue. */
  function IssuedResponse(username: string, password: string): Response {
    Response(map[UsernameKey := Str(username), PasswordKey := Str(password)],
             Some(Secret(map[InternalDataUser := Str(username)], LeaseTTL, LeaseMaxTTL, true)))
  }

  /** `generateCredentials`: needs a stored configuration, then a password,
      then a username suffix, then the account's consent to create the login;
      only when all succeed is a secret with its lease returned. */
  function Issue(stored: Storage, password: Draw<Password>, suffix: Draw<Suffix>,
                 provider: Provider): (r: Outcome)
    ensures r.storage == stored
    ensures stored.None? ==> RespondsError(r.reply, NotConfiguredMessage) && r.calls == []
    ensures stored.Some? && password.DrawFailed? ==>
              r.reply == Error(PasswordErrorPrefix + password.error) && r.calls == []
    ensures stored.Some? && password.Drawn? && suffix.DrawFailed? ==>
              r.reply == Error(SuffixErrorPrefix + suffix.error) && r.calls == []
    ensures stored.Some? && password.Drawn? && suffix.Drawn? ==>
              var account := Account(stored.value.domain, stored.value.apiKey);
              var login := Username(suffix.value);
              && r.calls == [CreateCredential(account, login, password.value)]
              && r.reply.Respond?
              && (provider.createCredential(account, login, password.value).Some? ==>
                    RespondsError(r.reply,
                      ProviderErrorPrefix + provider.createCredential(account, login, password.value).value))
              && (provider.createCredential(account, login, password.value).None? ==>
                    && r.reply.response.data == map[UsernameKey := Str(login), PasswordKey := Str(password.value)]
                    && r.reply.response.secret.Some?
                    && var secret := r.reply.response.secret.value;
                       && secret.internalData == map[InternalDataUser := Str(login)]
                       && secret.ttl == 60 * Second && secret.maxTtl == 3 * 60 * Second
                       && secret.renewable)
  {
    match stored
    case None => Outcome(Respond(ErrorResponse(NotConfiguredMessage)), stored, [])
    case Some(cfg) =>
      match password
      case DrawFailed(e) => Outcome(Error(PasswordErrorPrefix + e), stored, [])
      case Drawn(pw) =>
        match suffix
        case DrawFailed(e) => Outcome(Error(SuffixErrorPrefix + e), stored, [])
        case Drawn(sfx) =>
          var login := Username(sfx);
          var account := Account(cfg.domain, cfg.apiKey);
          var call := CreateCredential(account, login, pw);
          match provider.createCredential(account, login, pw)
          case Some(e) => Outcome(Respond(ErrorResponse(ProviderErrorPrefix + e)), stored, [call])
          case None => Outcome(Respond(IssuedResponse(login, pw)), stored, [call])
  }

  /** The issue succeeded: the reply carries a secret. */
  predicate Issued(r: Outcome) {
    r.reply.Respond? && r.reply.response.secret.Some?
  }

  /** A secret is returned exactly when a configuration exists, both draws
      succeed and the account creates the login; the secret's login is then
      `vault.<suffix>`, its password the drawn one, and its internal data
      points at the same login. */
  lemma IssuedIff(stored: Storage, password: Draw<Password>, suffix: Draw<Suffix>, provider: Provider)
    ensures var r := Issue(stored, password, suffix, provider);
            Issued(r) <==>
              && stored.Some? && password.Drawn? && suffix.Drawn?
              && provider.createCredential(Account(stored.value.domain, stored.value.apiKey),
                                           Username(suffix.value), password.value).None?
    ensures var r := Issue(stored, password, suffix, provider);
            Issued(r) ==>
              && IsVaultUsername(r.reply.response.data[UsernameKey].s)
              && SuffixOf(r.reply.response.data[UsernameKey].s) == suffix.value
              && |r.reply.response.data[PasswordKey].s| == PasswordLength
              && r.reply.response.secret.value.internalData[InternalDataUser]
                 == r.reply.response.data[UsernameKey]
  {
  }

  /** The issued login and password depend on the random draws only: two
      configurations the account accepts give the same credentials. */
  lemma CredentialsIndependentOfConfig(a: Storage, b: Storage, password: Draw<Password>,
                                       suffix: Draw<Suffix>, provider: Provider)
    requires Issued(Issue(a, password, suffix, provider)) && Issued(Issue(b, password, suffix, provider))
    ensures Issue(a, password, suffix, provider).reply == Issue(b, password, suffix, provider).reply
  {
  }

  /** `secretCredentialsRenew`: the incoming secret with the fixed lease,
      neither storage nor the account consulted. */
  function Renew(stored: Storage, secret: Secret): (r: Outcome)
    ensures r.storage == stored && r.calls == []
    ensures r.reply.Respond? && r.reply.response.data == map[] && r.reply.response.secret.Some?
    ensures var renewed := r.reply.response.secret.value;
            && renewed.internalData == secret.internalData
            && renewed.renewable == secret.renewable
            && renewed.ttl == 60 * Second && renewed.maxTtl == 3 * 60 * Second
  {
    Outcome(Respond(Response(map[], Some(secret.(ttl := LeaseTTL, maxTtl := LeaseMaxTTL)))), stored, [])
  }

  /** Renewal is independent of the stored configuration, and renewing a
      renewed secret changes nothing further. */
  lemma RenewIgnoresConfig(a: Storage, b: Storage, secret: Secret)
    ensures Renew(a, secret).reply == Renew(b, secret).reply
    ensures var once := Renew(a, secret).reply.response.secret.value;
            Renew(a, once).reply == Renew(a, secret).reply
  {
  }

  /** `secretCredentialsRevoke`: the login from the lease's internal data is
      deleted from the configured account; a missing login, a missing
      configuration and a failed delete are all reported. */
  function Revoke(stored: Storage, secret: Secret, provider: Provider): (r: Outcome)
    ensures r.storage == stored
    ensures InternalDataUser !in secret.internalData ==>
              r.reply == Error(NoInternalUserMessage) && r.calls == []
    ensures InternalDataUser in secret.internalData && stored.None? ==>
              RespondsError(r.reply, NotConfiguredMessage) && r.calls == []
    ensures InternalDataUser in secret.internalData && stored.Some?
              && !secret.internalData[InternalDataUser].Str? ==>
              r.reply.Panic? && r.calls == []
    ensures InternalDataUser in secret.internalData && stored.Some?
              && secret.internalData[InternalDataUser].Str? ==>
              var account := Account(stored.value.domain, stored.value.apiKey);
              var login := secret.internalData[InternalDataUser].s;
              && r.calls == [DeleteCredential(account, login)]
              && (provider.deleteCredential(account, login).None? <==> r.reply == NoResponse)
              && (provider.deleteCredential(account, login).Some? ==>
                    RespondsError(r.reply, ProviderErrorPrefix + provider.deleteCredential(account, login).value))
  {
    if InternalDataUser !in secret.internalData then
      Outcome(Error(NoInternalUserMessage), stored, [])
    else
      match stored
      case None => Outcome(Respond(ErrorResponse(NotConfiguredMessage)), stored, [])
      case Some(cfg) =>
        match secret.internalData[InternalDataUser]
        case Int(_) => Outcome(Panic("interface conversion: user name is not a string"), stored, [])
        case Str(login) =>
          var account := Account(cfg.domain, cfg.apiKey);
          var call := DeleteCredential(account, login);
          match provider.deleteCredential(account, login)
          case Some(e) => Outcome(Respond(ErrorResponse(ProviderErrorPrefix + e)), stored, [call])
          case None => Outcome(NoResponse, stored, [call])
  }
}
