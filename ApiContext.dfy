/** The API settings store: Kraken credentials, the database connection
    string and the LLaMA URL, kept in browser storage, and a connection
    status per service. Whenever one of the four settings changes, every
    status is recomputed from the settings; a connection test moves one
    service through "connecting" to "connected" or "error". */
module ApiContext {

  datatype ConnectionStatus = Disconnected | Connecting | Connected | Error

  datatype Service = Kraken | Database | Llama

  datatype Statuses = Statuses(kraken: ConnectionStatus, database: ConnectionStatus, llama: ConnectionStatus)

  /** Browser storage: key to stored string. */
  type Storage = map<string, string>

  const KrakenKeyItem: string := "krakenApiKey"
  const KrakenSecretItem: string := "krakenApiSecret"
  const SqlItem: string := "sqlConnection"
  const LlamaItem: string := "llamaApiUrl"
  const DefaultLlamaUrl: string := "http://localhost:8000/v1/chat"
  /** `Math.random() > 0.3`: a test succeeds for draws above 0.3. */
  const FailureCutoff: real := 0.3

  function StatusOf(st: Statuses, service: Service): ConnectionStatus
  {
    match service
    case Kraken => st.kraken
    case Database => st.database
    case Llama => st.llama
  }

  /** `{ ...prev, [type]: status }`. */
  function WithStatus(st: Statuses, service: Service, status: ConnectionStatus): (r: Statuses)
    ensures StatusOf(r, service) == status
    ensures forall other :: other != service ==> StatusOf(r, other) == StatusOf(st, other)
  {
    match service
    case Kraken => st.(kraken := status)
    case Database => st.(database := status)
    case Llama => st.(llama := status)
  }

  /** `localStorage.getItem(key) || fallback`: a missing or empty item gives
      the fallback. */
  function Stored(storage: Storage, key: string, fallback: string): (v: string)
    ensures key in storage && storage[key] != "" ==> v == storage[key]
    ensures (key !in storage || storage[key] == "") ==> v == fallback
  {
    if key in storage && storage[key] != "" then storage[key] else fallback
  }

  /** The statuses the settings effect sets: a service whose settings are
      all non-empty is disconnected, any other is in error. */
  function ResetStatuses(key: string, secret: string, sql: string, llamaUrl: string): Statuses
  {
    Statuses(if key != "" && secret != "" then Disconnected else Error,
             if sql != "" then Disconnected else Error,
             if llamaUrl != "" then Disconnected else Error)
  }

  /** After a reset no service is connected or connecting, and a service is
      in error exactly when one of its settings is empty. */
  lemma ResetForgetsConnections(key: string, secret: string, sql: string, llamaUrl: string, s: Service)
    ensures var st := ResetStatuses(key, secret, sql, llamaUrl);
            && StatusOf(st, s) != Connected && StatusOf(st, s) != Connecting
            && (StatusOf(st, s) == Error <==>
                  match s
                  case Kraken => key == "" || secret == ""
                  case Database => sql == ""
                  case Llama => llamaUrl == "")
  {
  }

  class Api {
    var krakenApiKey: string
    var krakenApiSecret: string
    var sqlConnection: string
    var llamaApiUrl: string
    var storage: Storage
    var connectionStatus: Statuses

    /** Reloading would read the same settings back: the credentials and the
        connection string always, the LLaMA URL unless it was cleared (an
        empty URL reads back as the default). */
    ghost predicate Valid()
      reads this
    {
      && krakenApiKey == Stored(storage, KrakenKeyItem, "")
      && krakenApiSecret == Stored(storage, KrakenSecretItem, "")
      && sqlConnection == Stored(storage, SqlItem, "")
      && (llamaApiUrl != "" ==> llamaApiUrl == Stored(storage, LlamaItem, DefaultLlamaUrl))
    }

    /** The provider once mounted: each setting read from storage (the LLaMA
        URL defaulting to the local server) and the statuses set by the
        settings effect's first run. */
    constructor (initial: Storage)
      ensures Valid()
      ensures storage == initial
      ensures krakenApiKey == Stored(initial, KrakenKeyItem, "")
      ensures krakenApiSecret == Stored(initial, KrakenSecretItem, "")
      ensures sqlConnection == Stored(initial, SqlItem, "")
      ensures llamaApiUrl == Stored(initial, LlamaItem, DefaultLlamaUrl) && llamaApiUrl != ""
      ensures connectionStatus == ResetStatuses(krakenApiKey, krakenApiSecret, sqlConnection, llamaApiUrl)
    {
      storage := initial;
      krakenApiKey := Stored(initial, KrakenKeyItem, "");
      krakenApiSecret := Stored(initial, KrakenSecretItem, "");
      sqlConnection := Stored(initial, SqlItem, "");
      llamaApiUrl := Stored(initial, LlamaItem, DefaultLlamaUrl);
      connectionStatus := Statuses(Disconnected, Disconnected, Disconnected);
      new;
      SettingsEffect(true);
    }

    /** The settings effect: it runs only when a setting differs from its
        value at the previous render. */
    method SettingsEffect(changed: bool)
      requires Valid()
      modifies this`connectionStatus
      ensures Valid()
      ensures changed ==> connectionStatus == ResetStatuses(krakenApiKey, krakenApiSecret, sqlConnection, llamaApiUrl)
      ensures !changed ==> connectionStatus == old(connectionStatus)
    {
      if changed {
        connectionStatus := ResetStatuses(krakenApiKey, krakenApiSecret, sqlConnection, llamaApiUrl);
      }
    }

    method UpdateKrakenCredentials(key: string, secret: string)
      requires Valid()
      modifies this`krakenApiKey, this`krakenApiSecret, this`storage, this`connectionStatus
      ensures Valid()
      ensures krakenApiKey == key && krakenApiSecret == secret
      ensures storage == old(storage)[KrakenKeyItem := key][KrakenSecretItem := secret]
      ensures (key != old(krakenApiKey) || secret != old(krakenApiSecret)) ==>
                connectionStatus == ResetStatuses(key, secret, sqlConnection, llamaApiUrl)
      ensures key == old(krakenApiKey) && secret == old(krakenApiSecret) ==> connectionStatus == old(connectionStatus)
    {
      var changed := key != krakenApiKey || secret != krakenApiSecret;
      krakenApiKey, krakenApiSecret := key, secret;
      storage := storage[KrakenKeyItem := key][KrakenSecretItem := secret];
      SettingsEffect(changed);
    }

    method UpdateSqlConnection(connectionString: string)
      requires Valid()
      modifies this`sqlConnection, this`storage, this`connectionStatus
      ensures Valid()
      ensures sqlConnection == connectionString
      ensures storage == old(storage)[SqlItem := connectionString]
      ensures connectionString != old(sqlConnection) ==>
                connectionStatus == ResetStatuses(krakenApiKey, krakenApiSecret, connectionString, llamaApiUrl)
      ensures connectionString == old(sqlConnection) ==> connectionStatus == old(connectionStatus)
    {
      var changed := connectionString != sqlConnection;
      sqlConnection := connectionString;
      storage := storage[SqlItem := connectionString];
      SettingsEffect(changed);
    }

    method UpdateLlamaApiUrl(url: string)
      requires Valid()
      modifies this`llamaApiUrl, this`storage, this`connectionStatus
      ensures Valid()
      ensures llamaApiUrl == url
      ensures storage == old(storage)[LlamaItem := url]
      ensures url != old(llamaApiUrl) ==>
                connectionStatus == ResetStatuses(krakenApiKey, krakenApiSecret, sqlConnection, url)
      ensures url == old(llamaApiUrl) ==> connectionStatus == old(connectionStatus)
    {
      var changed := url != llamaApiUrl;
      llamaApiUrl := url;
      storage := storage[LlamaItem := url];
      SettingsEffect(changed);
    }

    /** The start of `testConnection`: the service is marked connecting. */
    method StartTest(service: Service)
      requires Valid()
      modifies this`connectionStatus
      ensures Valid()
      ensures connectionStatus == WithStatus(old(connectionStatus), service, Connecting)
    {
      connectionStatus := WithStatus(connectionStatus, service, Connecting);
    }

    /** The end of `testConnection`, 1.5 s later, with the random draw as a
        parameter and `threw` saying that the `try` block threw: the service
        becomes connected on success and in error on failure or exception,
        and the result says which. Statuses may have been reset by a setting
        change in between; only this service is overwritten. */
    method FinishTest(service: Service, draw: real, threw: bool) returns (success: bool)
      requires Valid()
      modifies this`connectionStatus
      ensures Valid()
      ensures success <==> !threw && draw > FailureCutoff
      ensures connectionStatus == WithStatus(old(connectionStatus), service, if success then Connected else Error)
    {
      if threw {
        connectionStatus := WithStatus(connectionStatus, service, Error);
        return false;
      }
      success := draw > FailureCutoff;
      if success {
        connectionStatus := WithStatus(connectionStatus, service, Connected);
      } else {
        connectionStatus := WithStatus(connectionStatus, service, Error);
      }
    }

    /** A whole test with nothing happening in between: the result is true
        exactly when the service ends connected, and the other two services
        keep their status. */
    method TestConnection(service: Service, draw: real, threw: bool) returns (success: bool)
      requires Valid()
      modifies this`connectionStatus
      ensures Valid()
      ensures success <==> !threw && draw > FailureCutoff
      ensures success <==> StatusOf(connectionStatus, service) == Connected
      ensures !success ==> StatusOf(connectionStatus, service) == Error
      ensures forall other :: other != service ==>
                StatusOf(connectionStatus, other) == StatusOf(old(connectionStatus), other)
    {
      StartTest(service);
      success := FinishTest(service, draw, threw);
    }
  }

  /** A test changes only the tested service: testing one service and then
      another gives each its own outcome, whichever order they run in. */
  lemma TestsCommute(st: Statuses, a: Service, b: Service, sa: ConnectionStatus, sb: ConnectionStatus)
    requires a != b
    ensures WithStatus(WithStatus(st, a, sa), b, sb) == WithStatus(WithStatus(st, b, sb), a, sa)
  {
  }

  /** What a reload reads back after the LLaMA URL is cleared: the default. */
  lemma ClearedLlamaUrlReloadsAsDefault(storage: Storage)
    ensures Stored(storage[LlamaItem := ""], LlamaItem, DefaultLlamaUrl) == DefaultLlamaUrl
  {
  }
}
