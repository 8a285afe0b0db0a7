/**
 * The configuration of the appender (lib/index.js): validation of the
 * connection string, the `mongodb://` prefix, the batch interval in
 * milliseconds, the defaults, and the write-mode policy `getOptions`.
 */
module Configuration {
  import opened Wrappers
  import opened Sanitizer

  /** The category the appender's own logger uses; events in it are not stored. */
  const ModuleName := "node-mongo-appender"

  const Scheme := "mongodb://"

  const MissingConnectionString := "connectionString is missing. Cannot connect to mongdb."

  /** The options passed to every `collection.insert`: the write concern `w`
      and the journal flag (an absent `journal` property reads as false). */
  datatype WriteOptions = WriteOptions(w: nat, journal: bool)

  /** An insert with `w == 0` is issued without a callback (fire and forget). */
  predicate Acknowledged(o: WriteOptions) {
    o.w != 0
  }

  /** `getOptions`: "normal" and "safe" ask for acknowledgement, only "safe"
      for the journal; anything else, including no setting, is fire and forget. */
  function GetOptions(write: Option<string>): (r: WriteOptions)
    ensures Acknowledged(r) <==> write == Some("normal") || write == Some("safe")
    ensures r.journal <==> write == Some("safe")
    ensures r.w <= 1
  {
    var options := WriteOptions(0, false);
    var options := if write == Some("normal") then options.(w := 1) else options;
    if write == Some("safe") then options.(w := 1, journal := true) else options
  }

  predicate StartsWith(s: string, prefix: string) {
    |prefix| <= |s| && s[..|prefix|] == prefix
  }

  /** A connection string whose `indexOf('mongodb://')` is not 0 gets the scheme prepended. */
  function NormalizeConnectionString(s: string): (r: string)
    ensures StartsWith(r, Scheme)
    ensures StartsWith(s, Scheme) ==> r == s
    ensures !StartsWith(s, Scheme) ==> r == Scheme + s
  {
    if StartsWith(s, Scheme) then s else Scheme + s
  }

  /** Normalising twice is normalising once. */
  lemma NormalizeIdempotent(s: string)
    ensures NormalizeConnectionString(NormalizeConnectionString(s)) == NormalizeConnectionString(s)
  {
  }

  /** `BATCH_INTERVAL`: a positive `writeInterval` in seconds, in milliseconds;
      0 (batching off) for an absent, zero or negative setting. */
  function BatchIntervalMs(writeInterval: Option<int>): (r: nat)
    ensures r > 0 <==> writeInterval.Some? && writeInterval.value > 0
    ensures r > 0 ==> r == writeInterval.value * 1000
  {
    if writeInterval.Some? && writeInterval.value > 0 then writeInterval.value * 1000 else 0
  }

  /** JavaScript truthiness of a configuration value. */
  predicate Truthy(v: Value) {
    match v
    case Null => false
    case Bool(b) => b
    case Num(n) => n != 0
    case Str(s) => s != ""
    case _ => true
  }

  /** The configuration object as the caller passes it; None is an absent property. */
  datatype Config = Config(
    connectionString: Option<string>,
    write: Option<string>,
    writeInterval: Option<int>,
    metaData: Option<Value>,
    collectionName: Option<string>)

  /** The settings the appender runs with once construction has succeeded. */
  datatype Settings = Settings(
    connectionString: string,
    write: Option<string>,
    intervalMs: nat,
    metaData: Value,
    collectionName: string)

  /** The checks and defaults `mongodbAppender` applies before connecting:
      it throws when the configuration or its connection string is missing
      or empty. */
  function Configure(config: Option<Config>): (r: Result<Settings, string>)
    ensures r.Failure? <==> config.None? || config.value.connectionString.GetOr("") == ""
    ensures r.Failure? ==> r.error == MissingConnectionString
    ensures r.Success? ==>
      && r.value.connectionString == NormalizeConnectionString(config.value.connectionString.value)
      && StartsWith(r.value.connectionString, Scheme)
      && r.value.write == config.value.write
      && r.value.intervalMs == BatchIntervalMs(config.value.writeInterval)
      && r.value.collectionName != ""
      && (config.value.collectionName.GetOr("") != "" ==> r.value.collectionName == config.value.collectionName.value)
      && (config.value.collectionName.GetOr("") == "" ==> r.value.collectionName == "log")
      && (config.value.metaData.Some? && Truthy(config.value.metaData.value) ==>
            r.value.metaData == config.value.metaData.value)
      && (config.value.metaData.None? || !Truthy(config.value.metaData.value) ==> r.value.metaData == Obj([]))
  {
    if config.None? || config.value.connectionString.GetOr("") == "" then
      Failure(MissingConnectionString)
    else
      var c := config.value;
      var metaData := if c.metaData.Some? && Truthy(c.metaData.value) then c.metaData.value else Obj([]);
      var collectionName := if c.collectionName.GetOr("") != "" then c.collectionName.value else "log";
      Success(Settings(
        NormalizeConnectionString(c.connectionString.value),
        c.write,
        BatchIntervalMs(c.writeInterval),
        metaData,
        collectionName))
  }

  /** The defaults: no metaData means `{}`, no collection name means "log". */
  lemma ConfigureDefaults(cs: string, write: Option<string>, writeInterval: Option<int>)
    requires cs != ""
    ensures Configure(Some(Config(Some(cs), write, writeInterval, None, None)))
         == Success(Settings(NormalizeConnectionString(cs), write, BatchIntervalMs(writeInterval), Obj([]), "log"))
  {
  }
}
