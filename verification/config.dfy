/**
 * The plugin's configuration, the checks `configure` makes on it, and the
 * option hash handed to the broker client when a connection is created.
 */
module Config {
  import opened Wrappers

  /** The `config_param` values after Fluentd has parsed them (`nil` as None). */
  datatype Config = Config(
    tag: string,
    host: Option<string>,
    hosts: Option<seq<string>>,
    user: string,
    pass: string,
    vhost: string,
    port: int,
    ssl: bool,
    verifySsl: bool,
    heartbeat: int,
    queue: Option<string>,
    durable: bool,
    exclusive: bool,
    autoDelete: bool,
    passive: bool,
    payloadFormat: string,
    tagKey: bool,
    tagHeader: Option<string>,
    timeHeader: Option<string>,
    tls: bool,
    tlsCert: Option<string>,
    tlsKey: Option<string>,
    tlsCaCertificates: Option<seq<string>>,
    tlsVerifyPeer: bool,
    bindExchange: bool,
    exchange: string,
    routingKey: string)

  /** Every parameter at its declared default. */
  const Defaults: Config := Config(
    "hunter.amqp", None, None, "guest", "guest", "/", 5672, false, false, 60,
    None, false, false, false, false, "json", false, None, None,
    false, None, None, None, true, false, "", "#")

  /** The two startup faults `configure` raises as Fluent::ConfigError. */
  datatype ConfigError = EndpointOrQueueMissing | TlsMaterialMissing

  /**
   * The configuration invariant: an endpoint and a queue are given, and TLS
   * comes with both its key and its certificate. Presence is Ruby presence:
   * an empty `hosts` list or an empty queue name is not nil, so it counts.
   */
  predicate WellFormed(c: Config)
  {
    && (c.host.Some? || c.hosts.Some?)
    && c.queue.Some?
    && (c.tls ==> c.tlsKey.Some? && c.tlsCert.Some?)
  }

  /** `check_tls_configuration`: TLS without both key and certificate is refused. */
  function CheckTls(c: Config): (r: Outcome<ConfigError>)
    ensures r.Pass? <==> (c.tls ==> c.tlsKey.Some? && c.tlsCert.Some?)
    ensures r.Fail? ==> r.error == TlsMaterialMissing
  {
    if c.tls && !(c.tlsKey.Some? && c.tlsCert.Some?) then Fail(TlsMaterialMissing) else Pass
  }

  /** The validation part of `configure`: endpoints and queue first, TLS second. */
  function Configure(c: Config): (r: Outcome<ConfigError>)
    ensures r.Pass? <==> WellFormed(c)
    ensures r == Fail(EndpointOrQueueMissing) <==> (c.host.None? && c.hosts.None?) || c.queue.None?
    ensures r == Fail(TlsMaterialMissing) <==> (c.host.Some? || c.hosts.Some?) && c.queue.Some? && c.tls && (c.tlsKey.None? || c.tlsCert.None?)
  {
    if !((c.host.Some? || c.hosts.Some?) && c.queue.Some?) then Fail(EndpointOrQueueMissing)
    else CheckTls(c)
  }

  /** The `ssl` and `verify_ssl` flags play no part in validation. */
  lemma SslFlagsNotChecked(c: Config, ssl: bool, verifySsl: bool)
    ensures Configure(c.(ssl := ssl, verifySsl := verifySsl)) == Configure(c)
  {
  }

  /** With every parameter at its default there is neither host nor queue, so startup fails. */
  lemma DefaultsRejected()
    ensures Configure(Defaults) == Fail(EndpointOrQueueMissing)
  {
  }

  /** An empty `hosts` list passes validation: Ruby's `[]` is not nil. */
  lemma EmptyHostListAccepted(c: Config)
    requires c.host.None? && c.hosts == Some([]) && c.queue.Some? && !c.tls
    ensures Configure(c).Pass?
  {
  }

  /** A value in the broker client's option hash. */
  datatype OptValue = OStr(s: string) | OInt(i: int) | OBool(b: bool) | OList(items: seq<OptValue>) | ONil

  /**
   * The symbol keys of the option hash passed to `Bunny.new`. `Passwd` is the
   * `:pass` key, renamed so that it does not clash with `Outcome.Pass`.
   */
  datatype OptKey =
    | Hosts | Port | Vhost | Passwd | User | Ssl | VerifySsl | Heartbeat
    | Tls | TlsCert | TlsKey | VerifyPeer | TlsCaCertificates

  /** The option hash passed to `Bunny.new`. */
  type ConnectionOptions = map<OptKey, OptValue>

  /** The keys `get_connection_options` always sets. */
  const BaseKeys: set<OptKey> := {
    Hosts, Port, Vhost, Passwd, User, Ssl, VerifySsl, Heartbeat, Tls, TlsCert, TlsKey, VerifyPeer}

  function OptString(o: Option<string>): OptValue
  {
    match o
    case None => ONil
    case Some(s) => OStr(s)
  }

  function OptStrings(ss: seq<string>): (r: seq<OptValue>)
    ensures |r| == |ss|
    ensures forall i :: 0 <= i < |ss| ==> r[i] == OStr(ss[i])
  {
    seq(|ss|, i requires 0 <= i < |ss| => OStr(ss[i]))
  }

  /**
   * The option hash built from a configuration whose endpoint list has
   * already been settled: every parameter is copied under its key, and the
   * CA bundle key is present only when a bundle is configured.
   */
  function OptionHash(c: Config, hosts: seq<string>): (o: ConnectionOptions)
    ensures o.Keys == BaseKeys + (if c.tlsCaCertificates.Some? then {TlsCaCertificates} else {})
    ensures o[Hosts] == OList(OptStrings(hosts))
    ensures c.tlsCaCertificates.Some? ==> o[TlsCaCertificates] == OList(OptStrings(c.tlsCaCertificates.value))
    ensures o[Port] == OInt(c.port) && o[Vhost] == OStr(c.vhost)
    ensures o[User] == OStr(c.user) && o[Passwd] == OStr(c.pass)
    ensures o[Ssl] == OBool(c.ssl) && o[VerifySsl] == OBool(c.verifySsl)
    ensures o[Heartbeat] == OInt(c.heartbeat) && o[Tls] == OBool(c.tls)
    ensures o[TlsCert] == OptString(c.tlsCert) && o[TlsKey] == OptString(c.tlsKey)
    ensures o[VerifyPeer] == OBool(c.tlsVerifyPeer)
  {
    var opts := map[
      Hosts := OList(OptStrings(hosts)), Port := OInt(c.port), Vhost := OStr(c.vhost),
      Passwd := OStr(c.pass), User := OStr(c.user), Ssl := OBool(c.ssl),
      VerifySsl := OBool(c.verifySsl), Heartbeat := OInt(c.heartbeat),
      Tls := OBool(c.tls),
      TlsCert := OptString(c.tlsCert),
      TlsKey := OptString(c.tlsKey),
      VerifyPeer := OBool(c.tlsVerifyPeer)];
    if c.tlsCaCertificates.Some? then opts[TlsCaCertificates := OList(OptStrings(c.tlsCaCertificates.value))] else opts
  }

  /**
   * `get_connection_options`. It returns the option hash together with the
   * configuration as it stands afterwards, since `@hosts ||= [@host]` stores
   * the one-element list back into `hosts`. It is only reached after
   * `configure` has accepted an endpoint.
   */
  function GetConnectionOptions(c: Config): (r: (ConnectionOptions, Config))
    requires c.host.Some? || c.hosts.Some?
    ensures r.1.hosts.Some?
    ensures c.hosts.Some? ==> r.1 == c
    ensures c.hosts.None? ==> r.1 == c.(hosts := Some([c.host.value]))
    ensures r.0 == OptionHash(c, r.1.hosts.value)
  {
    var c' := if c.hosts.Some? then c else c.(hosts := Some([c.host.value]));
    (OptionHash(c, c'.hosts.value), c')
  }

  /** Building the options a second time, from the updated configuration, changes nothing. */
  lemma ConnectionOptionsIdempotent(c: Config)
    requires c.host.Some? || c.hosts.Some?
    ensures GetConnectionOptions(GetConnectionOptions(c).1) == GetConnectionOptions(c)
  {
  }
}
