/**
 * The three resolvers the subscribe block calls for each delivery: the
 * payload (`parse_payload`), the tag (`parse_tag`) and the event time
 * (`parse_time`).
 */
module Resolve {
  import opened Wrappers
  import opened Values
  import opened Config

  /** What one call of the parser plugin does: the values it yields to the block, in order, or a raise. */
  datatype ParserRun = Yielded(values: seq<Option<Record>>) | Raised

  /** A parser plugin, as seen from the block it is given. */
  type Parser = string -> ParserRun

  /** What the block makes of one yielded payload: nil becomes the fallback record. */
  function Normalize(msg: string, payload: Option<Record>): Record
  {
    match payload
    case None => Fallback(msg)
    case Some(p) => p
  }

  /**
   * The block given to `@parser.parse`, run over the yields in order; `parsed`
   * is the variable the block assigns. Only the last yield survives.
   */
  function RunBlock(msg: string, ys: seq<Option<Record>>, parsed: Option<Record>): (r: Option<Record>)
    ensures |ys| == 0 ==> r == parsed
    ensures |ys| > 0 ==> r == Some(Normalize(msg, ys[|ys| - 1]))
    decreases |ys|
  {
    if |ys| == 0 then parsed
    else RunBlock(msg, ys[1..], Some(Normalize(msg, ys[0])))
  }

  /**
   * `parse_payload`: without a parser the fallback record; with one, the last
   * yield (nil mapped to the fallback record), nil if nothing was yielded, and
   * a raise if the parser raised.
   */
  function ParsePayload(parser: Option<Parser>, msg: string): (r: Result<Option<Record>, Fault>)
    ensures parser.None? ==> r == Success(Some(Fallback(msg)))
    ensures parser.Some? ==> (r.Failure? <==> parser.value(msg).Raised?)
    ensures r.Failure? ==> r.error == ParserFailed
    ensures parser.Some? && parser.value(msg).Yielded? ==>
      var ys := parser.value(msg).values;
      && (|ys| == 0 ==> r == Success(None))
      && (|ys| > 0 && ys[|ys| - 1].None? ==> r == Success(Some(Fallback(msg))))
      && (|ys| > 0 && ys[|ys| - 1].Some? ==> r == Success(ys[|ys| - 1]))
  {
    match parser
    case None => Success(Some(Fallback(msg)))
    case Some(p) =>
      match p(msg)
      case Raised => Failure(ParserFailed)
      case Yielded(ys) => Success(RunBlock(msg, ys, None))
  }

  /** Whether the routing-key branch of `parse_tag` is taken. */
  predicate UsesRoutingKey(c: Config, d: Delivery)
  {
    c.tagKey && d.routingKey != ""
  }

  /**
   * `parse_tag`: the routing key if `tag_key` is on and the key is non-empty;
   * else the `tag_header` header if configured and truthy; else the static
   * tag. Indexing a missing header table raises.
   */
  function ParseTag(c: Config, d: Delivery): (r: Result<Value, Fault>)
    ensures UsesRoutingKey(c, d) ==> r == Success(Str(d.routingKey))
    ensures !UsesRoutingKey(c, d) && c.tagHeader.None? ==> r == Success(Str(c.tag))
    ensures r.Failure? <==> !UsesRoutingKey(c, d) && c.tagHeader.Some? && d.headers.None?
    ensures r.Failure? ==> r.error == HeadersMissing
    ensures !UsesRoutingKey(c, d) && c.tagHeader.Some? && d.headers.Some? ==>
      var h := c.tagHeader.value;
      && (h in d.headers.value && Truthy(d.headers.value[h]) ==> r == Success(d.headers.value[h]))
      && (h !in d.headers.value || !Truthy(d.headers.value[h]) ==> r == Success(Str(c.tag)))
  {
    if UsesRoutingKey(c, d) then Success(Str(d.routingKey))
    else if c.tagHeader.Some? then
      match HeaderLookup(d.headers, c.tagHeader.value)
      case Failure(e) => Failure(e)
      case Success(v) => Success(if Truthy(v) then v else Str(c.tag))
    else Success(Str(c.tag))
  }

  /**
   * `parse_time`: the parsed `time_header` value if configured and truthy,
   * otherwise the clock reading `now`. A value the time parser rejects
   * raises; it does not fall back to the clock.
   */
  function ParseTime(c: Config, headers: Option<Headers>, parseTime: Value -> Option<EventTime>, now: EventTime): (r: Result<EventTime, Fault>)
    ensures c.timeHeader.None? ==> r == Success(now)
    ensures c.timeHeader.Some? && headers.None? ==> r == Failure(HeadersMissing)
    ensures c.timeHeader.Some? && headers.Some? ==>
      var h := c.timeHeader.value;
      && (h !in headers.value || !Truthy(headers.value[h]) ==> r == Success(now))
      && (h in headers.value && Truthy(headers.value[h]) ==>
            match parseTime(headers.value[h])
            case None => r == Failure(TimeUnparsable)
            case Some(t) => r == Success(t))
  {
    if c.timeHeader.None? then Success(now)
    else
      match HeaderLookup(headers, c.timeHeader.value)
      case Failure(e) => Failure(e)
      case Success(v) =>
        if !Truthy(v) then Success(now)
        else
          match parseTime(v)
          case None => Failure(TimeUnparsable)
          case Some(t) => Success(t)
  }

  /** `tag_key` with an empty routing key behaves exactly as if `tag_key` were off. */
  lemma EmptyRoutingKeyFallsThrough(c: Config, d: Delivery)
    requires d.routingKey == ""
    ensures ParseTag(c.(tagKey := true), d) == ParseTag(c.(tagKey := false), d)
  {
  }

  /**
   * The tag is always one of the three candidates, and a later candidate is
   * used only when the earlier ones do not apply.
   */
  lemma TagComesFromCandidate(c: Config, d: Delivery)
    requires ParseTag(c, d).Success?
    ensures var t := ParseTag(c, d).value;
      || (UsesRoutingKey(c, d) && t == Str(d.routingKey))
      || (!UsesRoutingKey(c, d) && c.tagHeader.Some? && d.headers.Some? && c.tagHeader.value in d.headers.value
          && Truthy(t) && t == d.headers.value[c.tagHeader.value])
      || (!UsesRoutingKey(c, d)
          && (c.tagHeader.None? || (d.headers.Some? && (c.tagHeader.value !in d.headers.value
                                                        || !Truthy(d.headers.value[c.tagHeader.value]))))
          && t == Str(c.tag))
  {
  }

  /** A time taken from the header does not depend on the clock; otherwise the result is the clock reading. */
  lemma TimeSourceExclusive(c: Config, headers: Option<Headers>, parseTime: Value -> Option<EventTime>, now1: EventTime, now2: EventTime)
    ensures var r1, r2 := ParseTime(c, headers, parseTime, now1), ParseTime(c, headers, parseTime, now2);
      (r1 == Success(now1) && r2 == Success(now2)) || r1 == r2
  {
  }
}
