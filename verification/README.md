# Mailgun secrets engine for Vault — a Dafny model of its handlers

The plugin turns one long-lived Mailgun API key into short-lived SMTP
logins. It has two pieces of state-changing logic, and both are modelled
here as pure functions.

- The **`config` path** stores one record: API key, domain, TTL and max TTL.
  A write needs `api_key` and `domain`. It overlays an optional
  `ttl`/`max_ttl` onto the stored record, or onto a zero record. It asks the
  Mailgun account to accept the API key and then the domain, and it stores
  the record only when everything passes. A read returns the domain and
  both TTLs in whole seconds. It never returns the API key, and it returns
  nothing when no record exists.
- The **`credentials` path** issues a login named `vault.<5 random base-62
  characters>` with a 32-character random alphanumeric password. The login is
  created on the configured account. The secret comes with a fixed lease
  (1 minute, at most 3 minutes, renewable). Its internal data `user_name`
  names the login. Renew re-applies the same fixed lease. Revoke deletes the
  login named in the internal data.

Every handler is a function from the storage cell (`Option<Config>`), the
request, the random draws and the account's answers to an `Outcome`. An
`Outcome` holds the handler's reply, the storage afterwards, and the list of
calls made on the account. So "nothing persisted" and "no provider call" can
be stated as facts about the result.

Modules:

- `GoTime`: Go's `time.Duration` int64 arithmetic. It has explicit
  wrap-around and division truncating toward zero.
- `Logical`: Vault's response, secret and reply shapes.
- `Mailgun`: the account oracle and the call trace.
- `ConfigPath` and `CredentialsPath`: the two handler files.
- `Lifecycle`: the handlers composed the way Vault drives them.

The code's TODOs (plugin/path_credentials.go:17, 96, 125-126) and the
backend help text ("a configurable lease set", plugin/backend.go:37) describe
behaviour the code does not have yet. The model follows the code:

- The lease is hard-coded to 1m/3m. It is not taken from the configuration.
- Renew does not read the configuration. It sets the same fixed lease.
- Every failed delete on revoke is reported as an error, whatever the reason.
- `api_key` and `domain` are checked for presence only, so an empty string
  is accepted.
- The username suffix is used as `base62.Random` returns it, in mixed case.
- The delete-failure message of revoke says "Unable to create credentials in
  mailgun", as the code does.

## Model

| member | source | states |
|---|---|---|
| GoTime.FromSeconds | plugin/path_config.go:91-98 | `time.Duration(n) * time.Second` does not wrap for any seconds count the framework can hand over; the result is exactly `n` billion nanoseconds |
| GoTime.WholeSeconds | plugin/path_config.go:63-64 | `int64(d / time.Second)` is `d` in whole seconds, rounded toward zero for both signs, and fits the seconds range |
| GoTime.SecondsRoundTrip | plugin/path_config.go:91-98 | a TTL written as `n` seconds reads back as `n` seconds |
| ConfigPath.GetFieldString | plugin/path_config.go:144-150 | a present field yields its value; an absent one yields an error response whose text is the required-field message for that key |
| ConfigPath.MissingFieldMessageNamesField | plugin/path_config.go:144-150 | the required-field message quotes the field name, so the `api_key` and `domain` errors differ |
| ConfigPath.View | plugin/path_config.go:60-66 | the read view has exactly the keys `domain`, `ttl`, `max_ttl` and no `api_key`; the TTLs are the stored durations in whole seconds |
| ConfigPath.ReadConfig | plugin/path_config.go:51-67 | with no record the reply is empty and not an error; with one it is a non-error response whose data is the view of the record: exactly `domain`, `ttl`, `max_ttl`, the stored domain, both TTLs in whole seconds rounded toward zero, and no API key; storage is unchanged and the account is not called |
| ConfigPath.WriteConfig | plugin/path_config.go:69-118 | a missing `api_key`, then a missing `domain`, gives the error naming it with no account call; then a rejected key, then a rejected domain, gives its own error after exactly the checks made so far; any error leaves storage unchanged; otherwise the reply is empty and the stored record is the overlay of the request onto the prior or zero record |
| ConfigPath.WriteThenRead | plugin/path_config.go:51-118 | after a successful write a read shows the written domain and each supplied `ttl`/`max_ttl` in the seconds written, keeps each omitted one (`ttl` and `max_ttl` alike) from the prior record, reads it as zero without one, and never shows the API key |
| ConfigPath.WriteIdempotent | plugin/path_config.go:69-118 | repeating a successful write leaves the stored record as it was after the first |
| CredentialsPath.UsernameRoundTrip | plugin/path_credentials.go:102-107 | `vault.<suffix>` has the fixed login shape and gives back its suffix, and every login of that shape is built from its suffix, so distinct suffixes give distinct logins |
| CredentialsPath.Issue | plugin/path_credentials.go:86-131 | no configuration gives the not-configured error with no account call; a failed password draw, then a failed suffix draw, gives its Go error with no call; otherwise exactly one create of `vault.<suffix>` with the drawn password on the configured account; a refused create gives an error response with no secret; an accepted one returns username and password, internal `user_name` equal to the username, and a renewable 1m/3m lease; storage never changes |
| CredentialsPath.IssuedIff | plugin/path_credentials.go:86-131 | a secret is returned if and only if a configuration exists, both draws succeed and the account creates the login; the issued login then has the `vault.` shape with the drawn suffix, a 32-character password, and internal data naming the same login |
| CredentialsPath.CredentialsIndependentOfConfig | plugin/path_credentials.go:96-107 | the issued login and password depend on the random draws only, not on which configuration is stored |
| CredentialsPath.Renew | plugin/path_credentials.go:52-59 | the reply carries the incoming secret with the same internal data and renewable flag and the 1m/3m lease; storage is unchanged and the account is not called |
| CredentialsPath.RenewIgnoresConfig | plugin/path_credentials.go:52-59 | renewal gives the same reply whatever is stored, and renewing an already renewed secret changes nothing further |
| CredentialsPath.Revoke | plugin/path_credentials.go:61-84 | a lease without `user_name` is a Go error, checked before the configuration; no configuration gives the not-configured error with no call; a non-string `user_name` panics; otherwise exactly one delete of that login on the configured account, an empty reply exactly when it succeeds, and an error response otherwise; storage never changes |
| Lifecycle.RenewTimesKeepsInternalData | plugin/path_credentials.go:52-59 | any number of renewals keeps the lease's internal data and renewable flag, and after one or more the lease is 1m/3m |
| Lifecycle.IssueRenewRevoke | plugin/path_credentials.go:61-131 | after a successful issue and any number of renewals, revoke deletes exactly the login that was created, on the same account, and succeeds exactly when that delete does |
| Lifecycle.AcceptingProvider | plugin/path_config_test.go:229-249 | the tests' client double accepts every key and domain, and its create and delete return no error |
| Lifecycle.EndToEnd | plugin/path_credentials.go:86-113 | composing the config write (plugin/path_config.go lines 69-118), issue, and revoke (plugin/path_credentials.go lines 61-84): after any accepted configuration write, issuing creates `vault.<suffix>` on exactly the written domain and API key with the fixed 1m/3m lease whatever TTLs were written, and revoking the held lease after any number of renewals deletes that login on the same account |
| Lifecycle.SavedConfigContainsDomain | plugin/path_config_test.go:78-104 | writing `apiKey123`/`example.com` through the accepting double succeeds, and the read then shows that domain, zero TTLs and no API key |

## Left out

- Storage errors from `getConfig`, JSON encoding of the record and `Storage.Put` failures. Storage is the single `Option<Config>` cell, so `getConfig` is reading that cell and has no member of its own.
- The HTTP calls behind `IsApiKeyValid`, `IsDomainValid`, `CreateCredential` and `DeleteCredential` (plugin/mailgun_client.go). They are oracle answers in `Mailgun.Provider`, keyed on the (domain, API key) pair. One `Provider` stands both for the client `MailgunFactory` builds on a configuration write and for the clients `mailgun.NewMailgun` builds directly on issue and revoke.
- The random sources `credsutil.RandomAlphaNumeric` and `base62.Random`. Their outcomes are inputs (`Draw`). A successful draw is typed as the 32- or 5-character alphanumeric string those calls are asked for.
- The framework's parsing of the request and its schema. Fields arrive already typed. A `TypeDurationSecond` field is a whole number of seconds of some int64 duration. This bound is what rules out wrap-around when writing a TTL.
- Entries the framework's `Secret.Response` may add to the internal data. That code is not part of this model. The model's internal data is the map the handler builds.
- `errwrap` formatting. A wrapped error is modelled as the prefix followed by the underlying message.
- Logging, help text, path registration and backend setup (plugin/backend.go, main.go).
- CredentialsPath.Revoke: the panic reply records that a panic happens, but not the Go runtime's exact message.
- ConfigPath.WriteConfig: each handler is modelled as one atomic step on the storage cell. The code is not atomic: `pathConfigWrite` reads the record with `getConfig` (plugin/path_config.go:70) and writes it back with `Storage.Put` (plugin/path_config.go:113), with no lock in between. Two concurrent writes can both overlay onto the same prior record, and the later `Put` then silently drops the other write's `ttl`/`max_ttl`. The model cannot express this interleaving.
- Lifecycle.EndToEnd: the single oracle ties the client built by `MailgunFactory` (plugin/path_config.go:100) to the clients built directly by `mailgun.NewMailgun` (plugin/path_credentials.go:77, 109). That matches `DefaultMailgunClientFactory`, which builds the same client. It does not match the tests, which replace only the factory (plugin/path_config_test.go:200), so in their setup issue and revoke still reach the live account.
- Lifecycle.SavedConfigContainsDomain: it does not model the test at plugin/path_config_test.go:124-146. That test expects a 10-minute default TTL, which the code never sets. An omitted TTL reads as 0.
