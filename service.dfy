/**
 * The point service of app/internal/service/point.go: look up the ordered
 * product, pick the level from its price, decrement that level's counter
 * through the repository, and publish `{"order_id":N,"point_level":"<level>"}`
 * to the configured topic with empty headers.
 *
 * The product lookup is a map from product identifier to product; an absent
 * key stands for every way GetProductById can fail. The Kafka producer is a
 * log of delivered messages, and whether a send is delivered is an input.
 */
module PointService {
  import opened Wrappers
  import opened Model
  import opened Payload
  import opened PointRepository

  /**
   * The price bands of the service's switch. They leave two gaps, (100, 101)
   * and (1000, 1001), where no level applies.
   */
  function Classify(price: real): (r: Option<Level>)
    ensures r == Some(Gold) <==> price >= 1001.0
    ensures r == Some(Silver) <==> 101.0 <= price <= 1000.0
    ensures r == Some(Bronze) <==> price <= 100.0
    ensures r == None <==> 100.0 < price < 101.0 || 1000.0 < price < 1001.0
  {
    if price >= 1001.0 then Some(Gold)
    else if price >= 101.0 && price <= 1000.0 then Some(Silver)
    else if price <= 100.0 then Some(Bronze)
    else None
  }

  /** The order of the levels, cheapest band first. */
  function Rank(level: Level): nat {
    match level
    case Bronze => 0
    case Silver => 1
    case Gold => 2
  }

  /** A dearer product never earns a lower level than a cheaper one. */
  lemma ClassifyMonotone(p: real, q: real)
    requires p <= q && Classify(p).Some? && Classify(q).Some?
    ensures Rank(Classify(p).value) <= Rank(Classify(q).value)
  {
  }

  /** The boundaries and the examples the service is exercised with. */
  lemma ClassifyExamples()
    ensures Classify(100.0) == Some(Bronze) && Classify(101.0) == Some(Silver)
    ensures Classify(1000.0) == Some(Silver) && Classify(1001.0) == Some(Gold)
    ensures Classify(1500.0) == Some(Gold) && Classify(800.0) == Some(Silver) && Classify(77.0) == Some(Bronze)
    ensures Classify(0.0) == Some(Bronze) && Classify(-289.2) == Some(Bronze)
    ensures Classify(100.5) == None && Classify(1000.5) == None
  {
  }

  /** The errors DecreasePoint returns, each naming the step that failed. */
  datatype ServiceError =
    | GetProductError
    | DecreaseError(level: Level, cause: RepoError)
    | UnexpectedPriceCategory
    | ProduceError

  /** A message as handed to the producer: topic, value and headers. */
  datatype Message = Message(topic: string, value: string, headers: map<string, string>)

  /** The level an order's product falls in, when its product exists and its price is in a band. */
  function TierOf(order: SuccessOrder, catalog: map<nat, Product>): Option<Level> {
    if order.productId in catalog then Classify(catalog[order.productId].price) else None
  }

  /** The one message a successful order produces. */
  function ResultMessage(topic: string, orderId: nat, level: Level): Message {
    Message(topic, Encode(DecreasePointSuccess(orderId, level)), map[])
  }

  /** Everything one call of DecreasePoint leaves behind. */
  datatype ServiceOutcome = ServiceOutcome(err: Option<ServiceError>, rows: Rows, published: seq<Message>)

  /**
   * One call of DecreasePoint against the table `rows`, with the repository's
   * retry bound and oracle, and `delivered` saying whether the send succeeds.
   */
  function Process(order: SuccessOrder, catalog: map<nat, Product>, topic: string,
                   rows: Rows, maxAttempt: nat, env: seq<Round>, delivered: bool): (o: ServiceOutcome)
    // lookup failure and a price outside every band: nothing touched, nothing sent
    ensures order.productId !in catalog ==> o == ServiceOutcome(Some(GetProductError), rows, [])
    ensures order.productId in catalog && TierOf(order, catalog).None? ==>
              o == ServiceOutcome(Some(UnexpectedPriceCategory), rows, [])
    // otherwise exactly the chosen level's decrement happens, whatever follows
    ensures TierOf(order, catalog).Some? ==>
              o.rows == Decrease(rows, LevelName(TierOf(order, catalog).value), maxAttempt, env, 0).rows
    ensures forall l :: l in rows && (TierOf(order, catalog).None? || l != LevelName(TierOf(order, catalog).value)) ==>
              l in o.rows && o.rows[l] == rows[l]
    // a failed decrement is reported with its level and cause, and nothing is sent
    ensures o.err.Some? && o.err.value.DecreaseError? ==>
              && TierOf(order, catalog) == Some(o.err.value.level)
              && Decrease(rows, LevelName(o.err.value.level), maxAttempt, env, 0).err == Some(o.err.value.cause)
              && o.published == []
    // and, the other way round, a failed decrement is always reported as one
    ensures TierOf(order, catalog).Some? &&
            Decrease(rows, LevelName(TierOf(order, catalog).value), maxAttempt, env, 0).err.Some? ==>
              o.err == Some(DecreaseError(TierOf(order, catalog).value,
                                          Decrease(rows, LevelName(TierOf(order, catalog).value), maxAttempt, env, 0).err.value))
    // a failed send is reported although the decrement stands
    ensures o.err == Some(ProduceError) ==>
              && TierOf(order, catalog).Some? && !delivered && o.published == []
              && Decrease(rows, LevelName(TierOf(order, catalog).value), maxAttempt, env, 0).err.None?
    ensures TierOf(order, catalog).Some? && !delivered &&
            Decrease(rows, LevelName(TierOf(order, catalog).value), maxAttempt, env, 0).err.None? ==>
              o.err == Some(ProduceError)
    // success: all three steps succeeded and exactly the result message went out
    ensures o.err.None? <==>
              TierOf(order, catalog).Some? && delivered
              && Decrease(rows, LevelName(TierOf(order, catalog).value), maxAttempt, env, 0).err.None?
    ensures o.err.None? ==> o.published == [ResultMessage(topic, order.orderId, TierOf(order, catalog).value)]
    ensures o.err.Some? ==> o.published == []
  {
    if order.productId !in catalog then ServiceOutcome(Some(GetProductError), rows, [])
    else
      match Classify(catalog[order.productId].price)
      case None => ServiceOutcome(Some(UnexpectedPriceCategory), rows, [])
      case Some(level) =>
        var d := Decrease(rows, LevelName(level), maxAttempt, env, 0);
        if d.err.Some? then ServiceOutcome(Some(DecreaseError(level, d.err.value)), d.rows, [])
        else if !delivered then ServiceOutcome(Some(ProduceError), d.rows, [])
        else ServiceOutcome(None, d.rows, [ResultMessage(topic, order.orderId, level)])
  }

  /**
   * An order whose product is in a band, against a counter with points left and
   * nobody competing, takes exactly one point from that level's counter and
   * publishes exactly its result message.
   */
  lemma UncontendedOrder(order: SuccessOrder, catalog: map<nat, Product>, topic: string,
                         rows: Rows, maxAttempt: nat, env: seq<Round>, level: Level)
    requires TierOf(order, catalog) == Some(level)
    requires LevelName(level) in rows && rows[LevelName(level)].remaining >= 1
    requires RoundAt(env, 0) == Quiet
    ensures var name := LevelName(level);
            Process(order, catalog, topic, rows, maxAttempt, env, true)
            == ServiceOutcome(None, rows[name := AfterWrite(rows[name])],
                              [ResultMessage(topic, order.orderId, level)])
  {
    UncontendedDecrement(rows, LevelName(level), maxAttempt, env);
  }

  /** The payload published for order 1 at level gold. */
  lemma GoldPayloadExample()
    ensures Encode(DecreasePointSuccess(1, Gold)) == "{\"order_id\":1,\"point_level\":\"gold\"}"
  {
  }

  /** The payload published for order 2 at level silver. */
  lemma SilverPayloadExample()
    ensures Encode(DecreasePointSuccess(2, Silver)) == "{\"order_id\":2,\"point_level\":\"silver\"}"
  {
  }

  /** The payload published for order 3 at level bronze. */
  lemma BronzePayloadExample()
    ensures Encode(DecreasePointSuccess(3, Bronze)) == "{\"order_id\":3,\"point_level\":\"bronze\"}"
  {
  }

  /** The Kafka producer, reduced to the log of messages it has delivered. */
  class Producer {
    var sent: seq<Message>

    constructor ()
      ensures sent == []
    {
      sent := [];
    }

    /** SendMessage: delivers the message when `delivered`, and reports failure otherwise. */
    method SendMessage(topic: string, message: string, headers: map<string, string>, delivered: bool) returns (failed: bool)
      modifies this
      ensures failed == !delivered
      ensures sent == if delivered then old(sent) + [Message(topic, message, headers)] else old(sent)
    {
      failed := !delivered;
      if delivered {
        sent := sent + [Message(topic, message, headers)];
      }
    }
  }

  /** pointService: its repository, the product table, the producer and the result topic. */
  class PointService {
    const pointRepository: PointRepository
    const catalog: map<nat, Product>
    const producer: Producer
    const decreasePointSuccessTopic: string
    /** The orders DecreasePoint has been called with, oldest first. */
    ghost var received: seq<SuccessOrder>

    constructor (pointRepository: PointRepository, catalog: map<nat, Product>, producer: Producer, topic: string)
      ensures this.pointRepository == pointRepository && this.catalog == catalog
      ensures this.producer == producer && decreasePointSuccessTopic == topic
      ensures received == []
    {
      this.pointRepository := pointRepository;
      this.catalog := catalog;
      this.producer := producer;
      this.decreasePointSuccessTopic := topic;
      this.received := [];
    }

    /** DecreasePoint: lookup, classify, decrement, encode, send; the first failure ends the call. */
    method DecreasePoint(order: SuccessOrder, env: seq<Round>, delivered: bool) returns (err: Option<ServiceError>)
      modifies this, pointRepository.db, producer
      ensures received == old(received) + [order]
      ensures var o := Process(order, catalog, decreasePointSuccessTopic, old(pointRepository.db.rows),
                               pointRepository.maxAttempt, env, delivered);
              && err == o.err
              && pointRepository.db.rows == o.rows
              && producer.sent == old(producer.sent) + o.published
    {
      received := received + [order];

      if order.productId !in catalog {
        return Some(GetProductError);
      }
      var product := catalog[order.productId];

      var level: Level;
      var decreaseErr: Option<RepoError>;
      if product.price >= 1001.0 {
        level := Gold;
        decreaseErr := pointRepository.DecreaseGoldPoint(env);
      } else if product.price >= 101.0 && product.price <= 1000.0 {
        level := Silver;
        decreaseErr := pointRepository.DecreaseSilverPoint(env);
      } else if product.price <= 100.0 {
        level := Bronze;
        decreaseErr := pointRepository.DecreaseBronzePoint(env);
      } else {
        return Some(UnexpectedPriceCategory);
      }
      if decreaseErr.Some? {
        return Some(DecreaseError(level, decreaseErr.value));
      }

      var payload := Encode(DecreasePointSuccess(order.orderId, level));
      var failed := producer.SendMessage(decreasePointSuccessTopic, payload, map[], delivered);
      if failed {
        return Some(ProduceError);
      }
      err := None;
    }
  }
}
