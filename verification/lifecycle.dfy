/**
 * `start` and `shutdown`: the broker calls made around the subscribe block,
 * recorded on the same action log the block appends to.
 */
module Lifecycle {
  import opened Wrappers
  import opened Config
  import opened Dispatch

  /** The channel calls of `start` once a connection exists: open, declare, bind if asked, subscribe. */
  function Setup(c: Config): (r: seq<Action>)
    requires c.queue.Some?
    ensures |r| == 4 + (if c.bindExchange then 1 else 0)
    ensures r[0] == StartConnection && r[1] == CreateChannel
    ensures r[2] == DeclareQueue(c.queue.value, c.passive, c.durable, c.exclusive, c.autoDelete)
    ensures r[|r| - 1] == Subscribe(true)
    ensures c.bindExchange ==> r[3] == BindQueue(c.exchange, c.routingKey)
    ensures forall k :: 0 <= k < |r| ==> !r[k].Settles() && !r[k].NewConnection?
    ensures forall k :: 0 <= k < |r| && r[k].DeclareQueue? ==> k == 2
    ensures forall k :: 0 <= k < |r| && r[k].BindQueue? ==> 2 < k < |r| - 1
    ensures forall k :: 0 <= k < |r| && r[k].Subscribe? ==> k == |r| - 1
  {
    var declare := DeclareQueue(c.queue.value, c.passive, c.durable, c.exclusive, c.autoDelete);
    if c.bindExchange then [StartConnection, CreateChannel, declare, BindQueue(c.exchange, c.routingKey), Subscribe(true)]
    else [StartConnection, CreateChannel, declare, Subscribe(true)]
  }

  /**
   * `start` on a configuration `configure` accepted. When a connection was
   * injected beforehand (`injected`), no new one is built from the options.
   */
  function Start(c: Config, injected: bool): (r: seq<Action>)
    requires Configure(c).Pass?
    ensures |r| > 0 && r[|r| - 1] == Subscribe(true)
    ensures !injected ==> r[0] == NewConnection(GetConnectionOptions(c).0)
    ensures forall k :: 0 <= k < |r| && r[k].NewConnection? ==> k == 0 && !injected
    ensures BindQueue(c.exchange, c.routingKey) in r <==> c.bindExchange
    ensures forall k :: 0 <= k < |r| && r[k].BindQueue? ==> r[k] == BindQueue(c.exchange, c.routingKey)
    ensures var o := if injected then 0 else 1;
      && |r| == o + 4 + (if c.bindExchange then 1 else 0)
      && r[o] == StartConnection
      && r[o + 1] == CreateChannel
      && r[o + 2] == DeclareQueue(c.queue.value, c.passive, c.durable, c.exclusive, c.autoDelete)
      && (forall k :: 0 <= k < |r| && r[k].DeclareQueue? ==> k == o + 2)
      && (forall k :: 0 <= k < |r| && r[k].BindQueue? ==> o + 2 < k < |r| - 1)
    ensures forall k :: 0 <= k < |r| && r[k].Subscribe? ==> k == |r| - 1
    ensures forall k :: 0 <= k < |r| ==> !r[k].Settles()
  {
    var setup := Setup(c);
    if injected then setup
    else
      var r := [NewConnection(GetConnectionOptions(c).0)] + setup;
      assert forall k :: 1 <= k < |r| ==> r[k] == setup[k - 1];
      r
  }

  /** `shutdown`: the connection is stopped. */
  function Shutdown(log: seq<Action>): (r: seq<Action>)
    ensures log <= r && |r| == |log| + 1 && r[|log|] == StopConnection
  {
    log + [StopConnection]
  }

  /** A whole life of the plugin: start, one block run per arrival, shutdown. */
  function Session(c: Config, env: Collaborators, injected: bool, arrivals: seq<Arrival>): seq<Action>
    requires Configure(c).Pass?
  {
    Shutdown(Consume(c, env, arrivals, Start(c, injected)))
  }

  /**
   * In a session every settlement comes after the subscription with manual
   * acknowledgment and before the connection is stopped.
   */
  lemma SessionSettlesWhileSubscribed(c: Config, env: Collaborators, injected: bool, arrivals: seq<Arrival>)
    requires Configure(c).Pass?
    ensures var r := Session(c, env, injected, arrivals);
      var s := |Start(c, injected)|;
      && r[s - 1] == Subscribe(true)
      && r[|r| - 1] == StopConnection
      && forall k :: 0 <= k < |r| && r[k].Settles() ==> s <= k < |r| - 1
  {
    var st := Start(c, injected);
    var log := Consume(c, env, arrivals, st);
    var r := Session(c, env, injected, arrivals);
    assert r == log + [StopConnection];
    assert st <= log;
    forall k | 0 <= k < |st|
      ensures r[k] == st[k]
    {
    }
  }

  /** Extending a log with settlements only and stopping adds no binding. */
  lemma SettlementsAddNoBinding(st: seq<Action>, log: seq<Action>, b: Action)
    requires st <= log && b.BindQueue?
    requires forall k :: |st| <= k < |log| ==> log[k].Settles()
    ensures (b in log + [StopConnection] <==> b in st)
    ensures forall k :: 0 <= k < |log| + 1 && (log + [StopConnection])[k].BindQueue? ==> k < |st|
  {
    var r := log + [StopConnection];
    forall k | 0 <= k < |st|
      ensures r[k] == st[k]
    {
    }
  }

  /** In a session the queue is bound, only before subscribing, exactly when `bind_exchange` is set. */
  lemma SessionBindsIffConfigured(c: Config, env: Collaborators, injected: bool, arrivals: seq<Arrival>)
    requires Configure(c).Pass?
    ensures var r := Session(c, env, injected, arrivals);
      && (BindQueue(c.exchange, c.routingKey) in r <==> c.bindExchange)
      && forall k :: 0 <= k < |r| && r[k].BindQueue? ==> k < |Start(c, injected)|
  {
    var st := Start(c, injected);
    var log := Consume(c, env, arrivals, st);
    ConsumeOnlySettlesOwnTags(c, env, arrivals, st);
    forall k | |st| <= k < |log|
      ensures log[k].Settles()
    {
      assert log[k] == log[|st|..][k - |st|];
    }
    SettlementsAddNoBinding(st, log, BindQueue(c.exchange, c.routingKey));
  }
}
