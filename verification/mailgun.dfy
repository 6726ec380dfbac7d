/** The Mailgun account as the handlers see it: a fixed set of yes/no and
    success/error answers. The HTTP client behind `MailgunFactory` and
    `mailgun.NewMailgun` is replaced by these oracles, and every handler
    reports the calls it made so that "no call was made" can be stated. */
module Mailgun {
  import opened Wrappers

  /** The (domain, API key) pair a client is constructed with. */
  datatype Account = Account(domain: string, apiKey: string)

  /** One call a handler makes on a client. */
  datatype ProviderCall =
    | CheckApiKey(account: Account)
    | CheckDomain(account: Account)
    | CreateCredential(account: Account, login: string, password: string)
    | DeleteCredential(account: Account, username: string)

  /** The answers the account gives. A `None` error means success. */
  datatype Provider = Provider(
    isApiKeyValid: Account -> bool,
    isDomainValid: Account -> bool,
    createCredential: (Account, string, string) -> Option<string>,
    deleteCredential: (Account, string) -> Option<string>)
}
