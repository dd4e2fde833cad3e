/** Ruby values, records, deliveries and the faults a delivery callback can raise. */
module Values {
  import opened Wrappers

  /** A Ruby value as it appears in a header table or in a record field. */
  datatype Value = Nil | Bool(b: bool) | Int(i: int) | Str(s: string)

  /** Ruby truthiness: every value except `nil` and `false` is true. */
  predicate Truthy(v: Value)
  {
    !v.Nil? && v != Bool(false)
  }

  /** A structured record handed to the router (a Ruby hash with string keys). */
  type Record = map<string, Value>

  /** The AMQP header table of one message. */
  type Headers = map<string, Value>

  /** The record used when there is no parser, or the parser yielded `nil`. */
  function Fallback(msg: string): Record
  {
    map["message" := Str(msg)]
  }

  /** An event time as the router receives it. */
  datatype EventTime = EventTime(sec: int, nsec: nat)

  /**
   * One message handed to the subscribe block: the delivery info's tag and
   * routing key, the properties' header table (None when the message carries
   * none, so that `meta[:headers]` is nil) and the body.
   */
  datatype Delivery = Delivery(deliveryTag: nat, routingKey: string, headers: Option<Headers>, body: string)

  /** Why a resolution step or the router raised. */
  datatype Fault =
    | HeadersMissing   // `meta[:headers]` is nil and is indexed: NoMethodError
    | TimeUnparsable   // Time.parse rejected the header value
    | EmitFailed       // router.emit raised
    | AckRaised        // @channel.acknowledge raised (for instance on a closed channel)
    | ParserFailed     // the parser plugin raised

  /** `meta[:headers][key]`: raises when there is no header table, nil when the key is absent. */
  function HeaderLookup(headers: Option<Headers>, key: string): Result<Value, Fault>
  {
    match headers
    case None => Failure(HeadersMissing)
    case Some(h) => Success(if key in h then h[key] else Nil)
  }
}
