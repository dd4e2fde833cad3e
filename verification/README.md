# fluent-plugin-amqp input: a Dafny model of the consumer core

This project models the deterministic core of the `amqp` Fluentd input plugin
(`Fluent::Plugin::AMQPInput`). The plugin reads messages from a RabbitMQ queue
through the Bunny client and emits one Fluentd event per message. The model
covers the following:

- how `configure` validates the configuration (host(s) and queue, then TLS
  material);
- how `get_connection_options` builds the option hash for `Bunny.new`,
  including memoising `@hosts`;
- the broker calls that `start` makes: connect, declare, bind if
  `bind_exchange` is set, subscribe with manual acknowledgment;
- the three resolvers `parse_payload`, `parse_tag` and `parse_time`;
- the subscribe block's acknowledge/reject decision, run once per delivery on
  an immutable log of broker actions, and `shutdown`.

Modules:

- `Wrappers`: `Option`, `Result` and `Outcome`. A Ruby `raise` becomes
  `Failure`/`Fail`.
- `Values`: Ruby values and their truthiness, records, header tables,
  deliveries, event times, and the faults a delivery can raise.
- `Config`: the configuration record and its defaults, `Configure`,
  `CheckTls`, `OptionHash` and `GetConnectionOptions`.
- `Resolve`: `ParsePayload` (built on `RunBlock`, the parser's block),
  `ParseTag` and `ParseTime`.
- `Dispatch`: the action log, `HandleDelivery` (one run of the subscribe
  block) and `Consume` (one run per arrival), with the lemmas that each
  delivery is settled on its own.
- `Lifecycle`: `Start`, `Shutdown` and a whole `Session`.

Collaborators whose code is not visible are parameters, as follows:

- The parser plugin is a function from the body to the list of values it
  yields to the block, or `Raised`. Whether a parser is configured at all is
  `Collaborators.parser`.
- `Time.parse` composed with `EventTime.from_time` is a partial function
  `Value -> Option<EventTime>`.
- `Fluent::Engine.now` is the clock reading carried by each `Arrival`.
- `router.emit` is a function returning whether it returned normally.
- Whether `@channel.acknowledge` raises is a predicate on the delivery tag
  (`Collaborators.ackRaises`), for instance on a channel closed during shutdown.
  The call is logged either way, and a raise is rescued into a reject.

Broker calls are entries of the action log `Dispatch.Action`. Nothing about
the network is modelled beyond those entries.

Behaviour of the code that a reader of the plugin's description might not
expect, and that the model keeps:

- **An empty parse result.** If the parser never calls its block,
  `parse_payload` returns `nil` and `nil` is emitted. The fallback record is
  not used in that case. A raise from the parser is not turned into the
  fallback record. It escapes the subscribe block before `begin`, so the
  delivery is neither acknowledged nor rejected (`Disposition.Escaped`).
- **Tag resolution can fail.** Suppose `tag_header` is set, the routing-key
  branch is not taken, and the message carries no header table, so that
  `meta[:headers]` is nil. Then indexing it raises. The raise is rescued, and
  the delivery is rejected with requeue. `time_header` behaves the same way.
- **Endpoint presence is Ruby presence.** `hosts []` and an empty queue name
  are not nil, so `configure` accepts them (`Config.EmptyHostListAccepted`).
- **"Present" means truthy.** A header is used only when its value is truthy:
  neither nil nor `false`. A header whose value is `false` falls through to
  the static tag or to the clock.

## Model

| member | source | states |
|---|---|---|
| Config.Configure | lib/fluent/plugin/in_amqp.rb:60-63 | Validation passes exactly for well-formed configurations. The endpoint/queue error is reported precisely when host and hosts are both nil or the queue is nil, even if TLS is also incomplete. The TLS error is reported only once endpoint and queue are present. |
| Config.CheckTls | lib/fluent/plugin/in_amqp.rb:135-141 | With TLS on, a missing key or a missing certificate is refused. With TLS off, anything passes. |
| Config.SslFlagsNotChecked | lib/fluent/plugin/in_amqp.rb:135-141 | The ssl and verify_ssl flags never change the validation outcome. |
| Config.DefaultsRejected | lib/fluent/plugin/in_amqp.rb:19-46 | With every parameter at its declared default, startup fails for lack of host(s) and queue. |
| Config.EmptyHostListAccepted | lib/fluent/plugin/in_amqp.rb:60-62 | An empty hosts list with a queue and no TLS passes validation, because an empty list is not nil. |
| Config.OptionHash | lib/fluent/plugin/in_amqp.rb:145-155 | The option hash has exactly the twelve base keys, plus tls_ca_certificates exactly when a CA bundle is configured. Every value is the configured one, and tls_verify_peer is stored under verify_peer. |
| Config.GetConnectionOptions | lib/fluent/plugin/in_amqp.rb:143-156 | The hosts option is the configured list, or [host] when hosts is nil. That list is stored back into the configuration, and an already set hosts is left as it was. |
| Config.ConnectionOptionsIdempotent | lib/fluent/plugin/in_amqp.rb:144 | Building the options again from the updated configuration gives the same options and the same configuration. |
| Resolve.RunBlock | lib/fluent/plugin/in_amqp.rb:103-111 | After the block has run over the yields, only the last yield is kept, with nil mapped to the fallback record. With no yields the variable keeps its initial value. |
| Resolve.ParsePayload | lib/fluent/plugin/in_amqp.rb:100-115 | With no parser, the result is exactly {"message" => msg}. With a parser: a raise propagates; no yields gives nil; a last yield of nil gives the fallback record; a last yield of a payload gives that payload unchanged. |
| Resolve.ParseTag | lib/fluent/plugin/in_amqp.rb:117-125 | The tag follows the priority order. First the routing key, when tag_key is on and the key is non-empty. Next the configured header, when it is truthy. Otherwise the static tag. It fails only when the header branch has to index a missing header table. |
| Resolve.EmptyRoutingKeyFallsThrough | lib/fluent/plugin/in_amqp.rb:118-124 | With an empty routing key, tag_key on resolves exactly as tag_key off. |
| Resolve.TagComesFromCandidate | lib/fluent/plugin/in_amqp.rb:117-125 | Every resolved tag is the routing key (when that branch applies), a truthy value of the configured header, or the static tag. |
| Resolve.ParseTime | lib/fluent/plugin/in_amqp.rb:127-133 | A configured, truthy time header is parsed, and a parse failure raises rather than falling back. Otherwise the result is the clock reading. A configured header with no header table raises. |
| Resolve.TimeSourceExclusive | lib/fluent/plugin/in_amqp.rb:127-133 | For any two clock readings, either both results are those readings or the two results are identical. So a header-derived time never depends on the clock. |
| Dispatch.Forward | lib/fluent/plugin/in_amqp.rb:82-85 | The begin region succeeds exactly when tag resolution, time resolution, the router call and the acknowledgment all succeed. It fails with AckRaised exactly when everything before the acknowledgment succeeded and the acknowledgment raised. |
| Dispatch.Decide | lib/fluent/plugin/in_amqp.rb:81-89 | The block ends in one of three ways. It is acknowledged exactly when payload, tag, time, emit and the acknowledgment all succeed. It escapes exactly when the parser raised. Otherwise it is requeued, with a fault from tag/time resolution, the router or the acknowledgment. |
| Dispatch.HandleDelivery | lib/fluent/plugin/in_amqp.rb:79-90 | A run appends only Acknowledge(tag, false), exactly when payload, tag, time, emit and the acknowledgment all succeed. It appends only Reject(tag, true) when tag/time resolution or emit raises. It appends Acknowledge(tag, false) then Reject(tag, true) when the acknowledgment raises and is rescued. It appends nothing exactly when the parser raises. |
| Dispatch.Consume | lib/fluent/plugin/in_amqp.rb:79-90 | Running the block over a sequence of deliveries only appends to the log, at most two entries per delivery. |
| Dispatch.ConsumeOnlySettlesOwnTags | lib/fluent/plugin/in_amqp.rb:85-88 | Everything a run of deliveries appends is a single-delivery acknowledgment or a requeueing reject. It names the tag of one of those deliveries. |
| Dispatch.ConsumeSettlesEachDeliveryAlone | lib/fluent/plugin/in_amqp.rb:79-90 | With distinct delivery tags, the entries a whole run makes for one delivery are exactly the channel calls that its own outcome calls for. Each callback affects only its own tag. |
| Dispatch.ConsumeSettlesExactlyOnce | lib/fluent/plugin/in_amqp.rb:81-89 | Each delivery whose parser did not raise ends settled exactly once in a run. Its last entry is an acknowledgment exactly when the event was accepted and acknowledged, and a requeueing reject otherwise. That entry is the only one, except when the acknowledgment raised: then the entries are the acknowledgment followed by the reject. |
| Dispatch.StaticTagExample | lib/fluent/plugin/in_amqp.rb:79-125 | For a JSON body on routing key "foo.bar", with tag_key off and no tag header, the router receives the static tag "hunter.amqp", the clock reading and the parsed record. The delivery is acknowledged exactly when the router accepts and the acknowledgment does not raise. If the router refuses, the delivery is rejected with requeue. |
| Dispatch.MissingHeaderTableAlwaysRequeued | lib/fluent/plugin/in_amqp.rb:117-121 | With tag_header set and the routing-key branch not taken, a message without a header table is rejected with requeue whatever the router does. Its redelivery under a new tag is requeued again. |
| Lifecycle.Setup | lib/fluent/plugin/in_amqp.rb:70-79 | Once a connection exists, the calls are StartConnection, CreateChannel, one DeclareQueue with the configured name and flags, the bind only when bind_exchange is set, and Subscribe(true) last and only there. It settles nothing. |
| Lifecycle.Start | lib/fluent/plugin/in_amqp.rb:66-79 | A new connection is built from the options only when none was injected, and it comes first. Then StartConnection, CreateChannel and exactly one DeclareQueue with the configured name and flags follow, at fixed positions. A BindQueue to the configured exchange and routing key comes after the declare and before the subscription, exactly when bind_exchange is set. A single manual-ack Subscribe comes last. Start settles nothing. |
| Lifecycle.Shutdown | lib/fluent/plugin/in_amqp.rb:93-97 | Shutdown appends a single connection stop to the log and keeps what was there. |
| Lifecycle.SessionSettlesWhileSubscribed | lib/fluent/plugin/in_amqp.rb:72-95 | In a whole session, every acknowledgment or reject comes after the subscription and before the connection is stopped. |
| Lifecycle.SessionBindsIffConfigured | lib/fluent/plugin/in_amqp.rb:74-77 | In a whole session, the queue is bound exactly when bind_exchange is set, and only before subscribing. |

## Left out

- The Bunny connection, channel and queue objects and their network
  behaviour are left out. `Bunny.new`, `start`, `create_channel`, `queue`,
  `bind`, `subscribe`, `acknowledge`, `reject` and `stop` appear only as log
  entries. Passive-declaration failures, bind failures and connection errors
  raised by the client are not modelled. The one exception is an
  acknowledgment that raises, which is modelled. A `reject` that raises is
  logged like any other call; the exception that then leaves the block is
  not modelled.
- Dispatch.HandleDelivery: treats every raise from tag or time resolution,
  from `router.emit` and from `acknowledge` as a StandardError, which the bare
  `rescue` catches. An exception outside StandardError, such as a
  `SignalException` or a custom `Exception` subclass from the router, would
  escape without any reject. The model does not represent this, so its
  "settled exactly once" promise assumes StandardError raises only.
- Fluentd plumbing is left out: plugin registration, `config_param`
  declarations and their type coercion, `compat_parameters_convert`, the
  legacy `format` aliasing, `parser_create` and `super` calls. Whether a
  parser exists is a parameter, not derived from `payload_format`.
- Logging calls are left out. They have no effect on the outcome.
- The parser plugins, `Time.parse`, `Fluent::EventTime.from_time`, the wall
  clock and the router are opaque parameters. The router is a function of its
  arguments, so the model does not capture a router whose success varies
  between identical calls.
- Callback threading is left out. Deliveries are handled one after another,
  one block run each.
- Delivery tags are unbounded naturals. Bunny's 64-bit width is not
  modelled. The routing key is always a string. A nil routing key is not
  modelled.
- The assignment of an injected `@connection` for tests is reduced to the
  `injected` flag of `Lifecycle.Start`.
- Lifecycle.Start: requires that `configure` accepted the configuration,
  because the source only calls `start` after a successful `configure`.
- Config.GetConnectionOptions: requires that host or hosts is set, for the
  same reason. With both nil the source would build `[nil]`.
