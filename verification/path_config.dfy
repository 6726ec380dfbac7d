/** The `config` path: one stored configuration record, written after the
    Mailgun account accepts the API key and the domain, and read back
    without the API key. */
module ConfigPath {
  import opened Wrappers
  import opened GoTime
  import opened Logical
  import opened Mailgun

  /** The stored `config` record. */
  datatype Config = Config(apiKey: string, domain: string, ttl: Duration, maxTtl: Duration)

  /** The storage entry "config": absent until the first successful write. */
  type Storage = Option<Config>

  /** What a handler invocation produces: its reply, the storage after it, and
      the calls it made on the Mailgun account, in order. */
  datatype Outcome = Outcome(reply: Reply, storage: Storage, calls: seq<ProviderCall>)

  /** The request fields as the framework parsed them against the path's
      schema: `api_key` and `domain` are strings, `ttl` and `max_ttl` whole
      seconds. A key is present exactly when the request supplied it. */
  datatype FieldData = FieldData(strings: map<string, string>, durations: map<string, Seconds>)

  const ApiKeyField := "api_key"
  const DomainField := "domain"
  const TtlField := "ttl"
  const MaxTtlField := "max_ttl"

  const InvalidApiKeyMessage := "'api_key' is not valid."
  const InvalidDomainMessage := "'domain' is not valid."

  /** The record a first write starts from. */
  const ZeroConfig := Config("", "", 0, 0)

  function MissingFieldMessage(key: string): string {
    "Required field '" + key + "' is not set."
  }

  /** The missing-field message quotes the field name, so the messages for
      two different fields differ. */
  lemma MissingFieldMessageNamesField(key: string, other: string)
    ensures MissingFieldMessage(key)[16..16 + |key|] == key
    ensures key != other ==> MissingFieldMessage(key) != MissingFieldMessage(other)
  {
  }

  datatype FieldString = FieldValue(value: string) | FieldMissing(response: Response)

  /** `GetFieldString`: the string value of a required field, or the error
      response naming it. */
  function GetFieldString(key: string, fields: FieldData): (r: FieldString)
    ensures r.FieldValue? <==> key in fields.strings
    ensures r.FieldValue? ==> r.value == fields.strings[key]
    ensures r.FieldMissing? ==>
              IsError(r.response) && r.response.data[ErrorKey] == Str(MissingFieldMessage(key))
  {
    if key in fields.strings then FieldValue(fields.strings[key])
    else FieldMissing(ErrorResponse(MissingFieldMessage(key)))
  }

  /** An optional duration field: the stored duration it sets, or `prior`
      when the request omits it. */
  function OverlayDuration(key: string, fields: FieldData, prior: Duration): Duration {
    if key in fields.durations then FromSeconds(fields.durations[key]) else prior
  }

  /** The record `pathConfigWrite` has built once both required fields are
      read, starting from `base`. */
  function Overlay(base: Config, apiKey: string, domain: string, fields: FieldData): Config {
    Config(apiKey, domain,
           OverlayDuration(TtlField, fields, base.ttl),
           OverlayDuration(MaxTtlField, fields, base.maxTtl))
  }

  /** `cfg` is what a write of `fields` makes of the prior storage: the API key
      and domain are the request's, each TTL is the request's when supplied
      and otherwise the prior one (zero without a prior record). */
  ghost predicate IsOverlay(prior: Storage, fields: FieldData, cfg: Config) {
    var base := prior.GetOr(ZeroConfig);
    && ApiKeyField in fields.strings && cfg.apiKey == fields.strings[ApiKeyField]
    && DomainField in fields.strings && cfg.domain == fields.strings[DomainField]
    && (TtlField in fields.durations ==> cfg.ttl == fields.durations[TtlField] * Second)
    && (TtlField !in fields.durations ==> cfg.ttl == base.ttl)
    && (MaxTtlField in fields.durations ==> cfg.maxTtl == fields.durations[MaxTtlField] * Second)
    && (MaxTtlField !in fields.durations ==> cfg.maxTtl == base.maxTtl)
  }

  /** The read view of a stored record: the domain and both TTLs in whole
      seconds, and nothing else. */
  function View(cfg: Config): (data: map<string, Value>)
    ensures data.Keys == {DomainField, TtlField, MaxTtlField}
    ensures ApiKeyField !in data
    ensures data[DomainField] == Str(cfg.domain)
    ensures data[TtlField].Int? && IsWholeSeconds(cfg.ttl, data[TtlField].i)
    ensures data[MaxTtlField].Int? && IsWholeSeconds(cfg.maxTtl, data[MaxTtlField].i)
  {
    map[DomainField := Str(cfg.domain),
        TtlField := Int(WholeSeconds(cfg.ttl)),
        MaxTtlField := Int(WholeSeconds(cfg.maxTtl))]
  }

  /** `pathConfigRead`. */
  function ReadConfig(stored: Storage): (r: Outcome)
    ensures r.storage == stored && r.calls == []
    ensures stored.None? <==> r.reply == NoResponse
    ensures stored.Some? ==>
              && r.reply.Respond?
              && !IsError(r.reply.response)
              && r.reply.response.secret.None?
              && r.reply.response.data.Keys == {DomainField, TtlField, MaxTtlField}
              && r.reply.response.data[DomainField] == Str(stored.value.domain)
              && r.reply.response.data == View(stored.value)
    ensures r.reply.Respond? ==> ApiKeyField !in r.reply.response.data
  {
    match stored
    case None => Outcome(NoResponse, stored, [])
    case Some(cfg) => Outcome(Respond(Response(View(cfg), None)), stored, [])
  }

  /** `pathConfigWrite`: required fields first (API key, then domain), then the
      account checks (API key, then domain); the merged record is stored only
      when all four pass. */
  function WriteConfig(stored: Storage, fields: FieldData, provider: Provider): (r: Outcome)
    ensures r.reply != NoResponse ==> r.storage == stored
    ensures ApiKeyField !in fields.strings ==>
              RespondsError(r.reply, MissingFieldMessage(ApiKeyField)) && r.calls == []
    ensures ApiKeyField in fields.strings && DomainField !in fields.strings ==>
              RespondsError(r.reply, MissingFieldMessage(DomainField)) && r.calls == []
    ensures ApiKeyField in fields.strings && DomainField in fields.strings ==>
              var account := Account(fields.strings[DomainField], fields.strings[ApiKeyField]);
              && (!provider.isApiKeyValid(account) ==>
                    RespondsError(r.reply, InvalidApiKeyMessage) && r.calls == [CheckApiKey(account)])
              && (provider.isApiKeyValid(account) && !provider.isDomainValid(account) ==>
                    RespondsError(r.reply, InvalidDomainMessage)
                    && r.calls == [CheckApiKey(account), CheckDomain(account)])
              && (provider.isApiKeyValid(account) && provider.isDomainValid(account) ==>
                    r.reply == NoResponse
                    && r.storage.Some? && IsOverlay(stored, fields, r.storage.value)
                    && r.calls == [CheckApiKey(account), CheckDomain(account)])
  {
    var base := stored.GetOr(ZeroConfig);
    match GetFieldString(ApiKeyField, fields)
    case FieldMissing(resp) => Outcome(Respond(resp), stored, [])
    case FieldValue(apiKey) =>
      match GetFieldString(DomainField, fields)
      case FieldMissing(resp) => Outcome(Respond(resp), stored, [])
      case FieldValue(domain) =>
        var cfg := Overlay(base, apiKey, domain, fields);
        var account := Account(domain, apiKey);
        if !provider.isApiKeyValid(account) then
          Outcome(Respond(ErrorResponse(InvalidApiKeyMessage)), stored, [CheckApiKey(account)])
        else if !provider.isDomainValid(account) then
          Outcome(Respond(ErrorResponse(InvalidDomainMessage)), stored,
                  [CheckApiKey(account), CheckDomain(account)])
        else
          Outcome(NoResponse, Some(cfg), [CheckApiKey(account), CheckDomain(account)])
  }

  /** A successful write is visible to a later read: the domain written, each
      TTL written (in the same seconds) or else kept from before, and never
      the API key. */
  lemma WriteThenRead(stored: Storage, fields: FieldData, provider: Provider)
    requires WriteConfig(stored, fields, provider).reply == NoResponse
    ensures var view := ReadConfig(WriteConfig(stored, fields, provider).storage).reply;
            && view.Respond?
            && ApiKeyField !in view.response.data
            && view.response.data[DomainField] == Str(fields.strings[DomainField])
            && (TtlField in fields.durations ==>
                  view.response.data[TtlField] == Int(fields.durations[TtlField]))
            && (MaxTtlField in fields.durations ==>
                  view.response.data[MaxTtlField] == Int(fields.durations[MaxTtlField]))
            && (TtlField !in fields.durations && stored.Some? ==>
                  view.response.data[TtlField] == ReadConfig(stored).reply.response.data[TtlField])
            && (TtlField !in fields.durations && stored.None? ==>
                  view.response.data[TtlField] == Int(0))
            && (MaxTtlField !in fields.durations && stored.Some? ==>
                  view.response.data[MaxTtlField] == ReadConfig(stored).reply.response.data[MaxTtlField])
            && (MaxTtlField !in fields.durations && stored.None? ==>
                  view.response.data[MaxTtlField] == Int(0))
  {
  }

  /** Writing the same request twice stores the same record as writing it once. */
  lemma WriteIdempotent(stored: Storage, fields: FieldData, provider: Provider)
    requires WriteConfig(stored, fields, provider).reply == NoResponse
    ensures var once := WriteConfig(stored, fields, provider).storage;
            WriteConfig(once, fields, provider).storage == once
  {
  }
}
