/**
 * The subscribe block: per delivery, resolve the payload, then (inside the
 * rescued region) the tag and time and the router call, and append either an
 * acknowledgment or a requeueing reject to the broker action log.
 */
module Dispatch {
  import opened Wrappers
  import opened Values
  import opened Config
  import opened Resolve

  /** The calls the plugin makes on the broker client, as entries of one log. */
  datatype Action =
    | NewConnection(options: ConnectionOptions)
    | StartConnection
    | CreateChannel
    | DeclareQueue(name: string, passive: bool, durable: bool, exclusive: bool, autoDelete: bool)
    | BindQueue(exchange: string, routingKey: string)
    | Subscribe(manualAck: bool)
    | Acknowledge(deliveryTag: nat, multiple: bool)
    | Reject(deliveryTag: nat, requeue: bool)
    | StopConnection
  {
    /** An acknowledgment or reject of a delivery. */
    predicate Settles()
    {
      Acknowledge? || Reject?
    }

    /** A single-delivery acknowledgment, or a reject that requeues. */
    predicate SettlesOneRequeueing()
    {
      (Acknowledge? && !multiple) || (Reject? && requeue)
    }
  }

  /**
   * The collaborators the subscribe block calls but whose behaviour is not
   * part of the model. `ackRaises(t)` says whether `@channel.acknowledge(t,
   * false)` raises; the call is logged either way.
   */
  datatype Collaborators = Collaborators(
    parser: Option<Parser>,
    parseTime: Value -> Option<EventTime>,
    emit: (Value, EventTime, Option<Record>) -> bool,
    ackRaises: nat -> bool)

  /** How one run of the subscribe block ended. */
  datatype Disposition =
    | Acked               // the router accepted the event and the acknowledgment did not raise
    | Requeued(fault: Fault)   // something inside `begin` raised and was rescued
    | Escaped(fault: Fault)    // `parse_payload` raised before `begin`

  /** The action log after one run of the block, and how it ended. */
  datatype Step = Step(log: seq<Action>, outcome: Disposition)

  /** The `begin` region: resolve the tag, then the time, call the router, then acknowledge. */
  function Forward(c: Config, env: Collaborators, d: Delivery, now: EventTime, payload: Option<Record>): (r: Outcome<Fault>)
    ensures r.Pass? <==>
      && ParseTag(c, d).Success?
      && ParseTime(c, d.headers, env.parseTime, now).Success?
      && env.emit(ParseTag(c, d).value, ParseTime(c, d.headers, env.parseTime, now).value, payload)
      && !env.ackRaises(d.deliveryTag)
    ensures r == Fail(AckRaised) <==>
      && ParseTag(c, d).Success?
      && ParseTime(c, d.headers, env.parseTime, now).Success?
      && env.emit(ParseTag(c, d).value, ParseTime(c, d.headers, env.parseTime, now).value, payload)
      && env.ackRaises(d.deliveryTag)
  {
    match ParseTag(c, d)
    case Failure(e) => Fail(e)
    case Success(tag) =>
      match ParseTime(c, d.headers, env.parseTime, now)
      case Failure(e) => Fail(e)
      case Success(t) =>
        if !env.emit(tag, t, payload) then Fail(EmitFailed)
        else if env.ackRaises(d.deliveryTag) then Fail(AckRaised)
        else Pass
  }

  /** How the subscribe block ends for delivery `d`, with `now` the clock reading `Engine.now` gives. */
  function Decide(c: Config, env: Collaborators, d: Delivery, now: EventTime): (o: Disposition)
    ensures o.Escaped? <==> env.parser.Some? && env.parser.value(d.body).Raised?
    ensures o.Acked? <==>
      && ParsePayload(env.parser, d.body).Success?
      && ParseTag(c, d).Success?
      && ParseTime(c, d.headers, env.parseTime, now).Success?
      && env.emit(ParseTag(c, d).value, ParseTime(c, d.headers, env.parseTime, now).value,
                  ParsePayload(env.parser, d.body).value)
      && !env.ackRaises(d.deliveryTag)
    ensures o == Requeued(AckRaised) <==>
      && ParsePayload(env.parser, d.body).Success?
      && ParseTag(c, d).Success?
      && ParseTime(c, d.headers, env.parseTime, now).Success?
      && env.emit(ParseTag(c, d).value, ParseTime(c, d.headers, env.parseTime, now).value,
                  ParsePayload(env.parser, d.body).value)
      && env.ackRaises(d.deliveryTag)
    ensures o.Requeued? ==> o.fault in {HeadersMissing, TimeUnparsable, EmitFailed, AckRaised}
    ensures o.Escaped? ==> o.fault == ParserFailed
  {
    match ParsePayload(env.parser, d.body)
    case Failure(e) => Escaped(e)
    case Success(payload) =>
      match Forward(c, env, d, now, payload)
      case Pass => Acked
      case Fail(e) => Requeued(e)
  }

  /**
   * The channel calls the block makes for delivery tag `tag`, given how it
   * ended. When the acknowledgment itself raised, the rescue rejects the
   * delivery after it.
   */
  function Settlement(tag: nat, o: Disposition): seq<Action>
  {
    match o
    case Acked => [Acknowledge(tag, false)]
    case Requeued(AckRaised) => [Acknowledge(tag, false), Reject(tag, true)]
    case Requeued(_) => [Reject(tag, true)]
    case Escaped(_) => []
  }

  /** One run of the subscribe block for delivery `d`, appending to `log`. */
  function HandleDelivery(c: Config, env: Collaborators, d: Delivery, now: EventTime, log: seq<Action>): (r: Step)
    ensures r.outcome.Acked? ==> r.log == log + [Acknowledge(d.deliveryTag, false)]
    ensures r.outcome.Requeued? && r.outcome.fault != AckRaised ==> r.log == log + [Reject(d.deliveryTag, true)]
    ensures r.outcome == Requeued(AckRaised) ==>
      r.log == log + [Acknowledge(d.deliveryTag, false), Reject(d.deliveryTag, true)]
    ensures r.outcome.Escaped? ==> r.log == log
    ensures r.outcome.Escaped? <==> env.parser.Some? && env.parser.value(d.body).Raised?
    ensures r.outcome.Acked? <==>
      && ParsePayload(env.parser, d.body).Success?
      && ParseTag(c, d).Success?
      && ParseTime(c, d.headers, env.parseTime, now).Success?
      && env.emit(ParseTag(c, d).value, ParseTime(c, d.headers, env.parseTime, now).value,
                  ParsePayload(env.parser, d.body).value)
      && !env.ackRaises(d.deliveryTag)
    ensures r.outcome == Requeued(AckRaised) <==>
      && ParsePayload(env.parser, d.body).Success?
      && ParseTag(c, d).Success?
      && ParseTime(c, d.headers, env.parseTime, now).Success?
      && env.emit(ParseTag(c, d).value, ParseTime(c, d.headers, env.parseTime, now).value,
                  ParsePayload(env.parser, d.body).value)
      && env.ackRaises(d.deliveryTag)
    ensures r.outcome == Decide(c, env, d, now)
  {
    var o := Decide(c, env, d, now);
    Step(log + Settlement(d.deliveryTag, o), o)
  }

  /** A delivery together with the clock reading taken while it was handled. */
  datatype Arrival = Arrival(delivery: Delivery, now: EventTime)

  /** The subscribe block run once per arrival, in order, on one action log. */
  function Consume(c: Config, env: Collaborators, arrivals: seq<Arrival>, log: seq<Action>): (r: seq<Action>)
    ensures log <= r
    ensures |r| <= |log| + 2 * |arrivals|
    decreases |arrivals|
  {
    if |arrivals| == 0 then log
    else
      var step := HandleDelivery(c, env, arrivals[0].delivery, arrivals[0].now, log);
      Consume(c, env, arrivals[1..], step.log)
  }

  /** The entries of `acts` that acknowledge or reject delivery tag `t`, in order. */
  function SettlementsOf(acts: seq<Action>, t: nat): seq<Action>
    decreases |acts|
  {
    if |acts| == 0 then []
    else (if acts[0].Settles() && acts[0].deliveryTag == t then [acts[0]] else []) + SettlementsOf(acts[1..], t)
  }

  lemma {:induction false} SettlementsOfAppend(a: seq<Action>, b: seq<Action>, t: nat)
    ensures SettlementsOf(a + b, t) == SettlementsOf(a, t) + SettlementsOf(b, t)
    decreases |a|
  {
    if |a| == 0 {
      assert a + b == b;
    } else {
      assert (a + b)[1..] == a[1..] + b;
      SettlementsOfAppend(a[1..], b, t);
    }
  }

  lemma {:induction false} SettlementsOfNone(acts: seq<Action>, t: nat)
    requires forall k :: 0 <= k < |acts| ==> !(acts[k].Settles() && acts[k].deliveryTag == t)
    ensures SettlementsOf(acts, t) == []
    decreases |acts|
  {
    if |acts| > 0 {
      SettlementsOfNone(acts[1..], t);
    }
  }

  /** The delivery tag of arrival `i`. */
  function TagOf(arrivals: seq<Arrival>, i: nat): nat
    requires i < |arrivals|
  {
    arrivals[i].delivery.deliveryTag
  }

  /** The delivery tags of a run of arrivals. */
  function Tags(arrivals: seq<Arrival>): set<nat>
  {
    set i | 0 <= i < |arrivals| :: TagOf(arrivals, i)
  }

  /** Every entry settles a single delivery, with requeue on reject, and names one of `tags`. */
  predicate SettlesOnly(acts: seq<Action>, tags: set<nat>)
  {
    forall k :: 0 <= k < |acts| ==> acts[k].SettlesOneRequeueing() && acts[k].deliveryTag in tags
  }

  /**
   * Everything a run of deliveries appends is an acknowledgment of one
   * delivery (never `multiple`) or a reject with requeue, and it names the
   * tag of one of the deliveries.
   */
  lemma {:induction false} ConsumeOnlySettlesOwnTags(c: Config, env: Collaborators, arrivals: seq<Arrival>, log: seq<Action>)
    ensures SettlesOnly(Consume(c, env, arrivals, log)[|log|..], Tags(arrivals))
    decreases |arrivals|
  {
    if |arrivals| > 0 {
      var step := HandleDelivery(c, env, arrivals[0].delivery, arrivals[0].now, log);
      var rest := arrivals[1..];
      var r := Consume(c, env, arrivals, log);
      assert r == Consume(c, env, rest, step.log);
      ConsumeOnlySettlesOwnTags(c, env, rest, step.log);
      assert Tags(rest) <= Tags(arrivals) by {
        forall j | 0 <= j < |rest|
          ensures TagOf(rest, j) in Tags(arrivals)
        {
          assert TagOf(rest, j) == TagOf(arrivals, j + 1);
        }
      }
      assert TagOf(arrivals, 0) in Tags(arrivals);
      assert r[|log|..] == step.log[|log|..] + r[|step.log|..];
    }
  }

  /** Delivery tags are unique within the run (the broker numbers them per channel). */
  predicate DistinctTags(arrivals: seq<Arrival>)
  {
    forall i, j :: 0 <= i < j < |arrivals| ==> TagOf(arrivals, i) != TagOf(arrivals, j)
  }

  /** The entries one run of the block makes all name that delivery's tag. */
  lemma SettlementsOfSettlement(u: nat, o: Disposition, t: nat)
    ensures SettlementsOf(Settlement(u, o), t) == if t == u then Settlement(u, o) else []
  {
    var mine := Settlement(u, o);
    if |mine| == 1 {
      assert mine[1..] == [];
    } else if |mine| == 2 {
      assert mine[1..][1..] == [];
      assert SettlementsOf(mine[1..], t) == (if t == u then [mine[1]] else []);
    }
  }

  lemma DistinctTagsTail(arrivals: seq<Arrival>)
    requires |arrivals| > 0 && DistinctTags(arrivals)
    ensures DistinctTags(arrivals[1..])
    ensures TagOf(arrivals, 0) !in Tags(arrivals[1..])
  {
    var rest := arrivals[1..];
    forall a, b | 0 <= a < b < |rest|
      ensures TagOf(rest, a) != TagOf(rest, b)
    {
      assert TagOf(rest, a) == TagOf(arrivals, a + 1) && TagOf(rest, b) == TagOf(arrivals, b + 1);
    }
    forall j | 0 <= j < |rest|
      ensures TagOf(rest, j) != TagOf(arrivals, 0)
    {
      assert TagOf(rest, j) == TagOf(arrivals, j + 1);
    }
  }

  /** One run of the block appends exactly the channel calls its outcome calls for. */
  lemma HandleDeliveryAppendsSettlement(c: Config, env: Collaborators, d: Delivery, now: EventTime, log: seq<Action>)
    ensures HandleDelivery(c, env, d, now, log).log == log + Settlement(d.deliveryTag, Decide(c, env, d, now))
  {
  }

  /** A non-empty run is the first delivery's entries followed by the rest's. */
  lemma ConsumeUnfold(c: Config, env: Collaborators, arrivals: seq<Arrival>, log: seq<Action>, mine: seq<Action>)
    requires |arrivals| > 0
    requires HandleDelivery(c, env, arrivals[0].delivery, arrivals[0].now, log).log == log + mine
    ensures var r := Consume(c, env, arrivals, log);
      && |log + mine| <= |r|
      && r[|log|..] == mine + r[|log + mine|..]
      && r == Consume(c, env, arrivals[1..], log + mine)
  {
    var r := Consume(c, env, arrivals, log);
    var r' := Consume(c, env, arrivals[1..], log + mine);
    assert r == r';
    assert log + mine <= r';
    assert r[|log|..] == mine + r[|log + mine|..] by {
      assert r[|log|..] == (log + mine)[|log|..] + r[|log + mine|..];
      assert (log + mine)[|log|..] == mine;
    }
  }

  /**
   * Each callback affects only its own delivery: across a whole run, the
   * entries naming delivery `i` are exactly the channel calls that
   * delivery's own outcome calls for (one acknowledgment, one reject, or
   * nothing if the parser raised).
   */
  lemma {:induction false} ConsumeSettlesEachDeliveryAlone(c: Config, env: Collaborators, arrivals: seq<Arrival>, log: seq<Action>, i: nat)
    requires DistinctTags(arrivals)
    requires i < |arrivals|
    ensures SettlementsOf(Consume(c, env, arrivals, log)[|log|..], TagOf(arrivals, i))
        == Settlement(TagOf(arrivals, i), Decide(c, env, arrivals[i].delivery, arrivals[i].now))
    decreases |arrivals|
  {
    var r := Consume(c, env, arrivals, log);
    var rest := arrivals[1..];
    var t := TagOf(arrivals, i);
    var mine := Settlement(TagOf(arrivals, 0), Decide(c, env, arrivals[0].delivery, arrivals[0].now));
    var later := r[|log + mine|..];
    HandleDeliveryAppendsSettlement(c, env, arrivals[0].delivery, arrivals[0].now, log);
    ConsumeUnfold(c, env, arrivals, log, mine);
    SettlementsOfAppend(mine, later, t);
    SettlementsOfSettlement(TagOf(arrivals, 0), Decide(c, env, arrivals[0].delivery, arrivals[0].now), t);
    DistinctTagsTail(arrivals);
    if i == 0 {
      ConsumeOnlySettlesOwnTags(c, env, rest, log + mine);
      SettlementsOfNone(later, t);
    } else {
      assert TagOf(arrivals, 0) != t;
      ConsumeSettlesEachDeliveryAlone(c, env, rest, log + mine, i - 1);
      assert TagOf(rest, i - 1) == t;
    }
  }

  /**
   * Every delivery whose payload was resolved ends settled exactly once: its
   * last entry is an acknowledgment exactly when the router accepted the
   * event and the acknowledgment went through, and a requeueing reject
   * otherwise. It is the only entry, unless the acknowledgment raised and
   * the rescue rejected the delivery after it.
   */
  lemma ConsumeSettlesExactlyOnce(c: Config, env: Collaborators, arrivals: seq<Arrival>, log: seq<Action>, i: nat)
    requires DistinctTags(arrivals)
    requires i < |arrivals|
    requires env.parser.None? || env.parser.value(arrivals[i].delivery.body).Yielded?
    ensures var s := SettlementsOf(Consume(c, env, arrivals, log)[|log|..], TagOf(arrivals, i));
      var o := Decide(c, env, arrivals[i].delivery, arrivals[i].now);
      && |s| > 0
      && (s[|s| - 1] == Acknowledge(TagOf(arrivals, i), false) <==> o.Acked?)
      && (s[|s| - 1] == Reject(TagOf(arrivals, i), true) <==> o.Requeued?)
      && (|s| == 1 <==> o != Requeued(AckRaised))
      && (o == Requeued(AckRaised) ==> s == [Acknowledge(TagOf(arrivals, i), false), Reject(TagOf(arrivals, i), true)])
  {
    ConsumeSettlesEachDeliveryAlone(c, env, arrivals, log, i);
  }

  /**
   * A JSON body on routing key "foo.bar", with `tag_key` off and no tag
   * header: the router is given the static tag, the clock reading and the
   * parsed record, and the delivery is acknowledged exactly when it accepts.
   */
  lemma StaticTagExample(c: Config, env: Collaborators, now: EventTime)
    requires c.tag == "hunter.amqp" && !c.tagKey && c.tagHeader.None? && c.timeHeader.None?
    requires env.parser.Some? && env.parser.value("{\"x\":1}") == Yielded([Some(map["x" := Int(1)])])
    ensures var d := Delivery(7, "foo.bar", Some(map[]), "{\"x\":1}");
      && (Decide(c, env, d, now).Acked? <==>
            env.emit(Str("hunter.amqp"), now, Some(map["x" := Int(1)])) && !env.ackRaises(7))
      && (Decide(c, env, d, now).Acked? ==> Settlement(7, Decide(c, env, d, now)) == [Acknowledge(7, false)])
      && (!env.emit(Str("hunter.amqp"), now, Some(map["x" := Int(1)])) ==>
            Settlement(7, Decide(c, env, d, now)) == [Reject(7, true)])
  {
  }

  /**
   * With `tag_header` set and the routing-key branch not taken, a message
   * without a header table is requeued whatever the router would do, and a
   * redelivery of it (same key, headers and body, new delivery tag) is
   * requeued again.
   */
  lemma MissingHeaderTableAlwaysRequeued(c: Config, env: Collaborators, d: Delivery, redeliveryTag: nat, now: EventTime, later: EventTime)
    requires c.tagHeader.Some? && !UsesRoutingKey(c, d) && d.headers.None?
    requires env.parser.None? || env.parser.value(d.body).Yielded?
    ensures Decide(c, env, d, now) == Requeued(HeadersMissing)
    ensures Decide(c, env, d.(deliveryTag := redeliveryTag), later) == Requeued(HeadersMissing)
    ensures Settlement(d.deliveryTag, Decide(c, env, d, now)) == [Reject(d.deliveryTag, true)]
  {
  }
}
