/**
 * The records of app/internal/model: the inbound order event, the outbound
 * decrement result and the product row, plus the three point levels.
 */
module Model {

  /** The three point levels; each is backed by one row of the points table. */
  datatype Level = Bronze | Silver | Gold

  /**
   * The string the repository stores and the service publishes for a level:
   * lower-case ASCII letters only, none of which encoding/json escapes.
   */
  function LevelName(level: Level): (name: string)
    ensures |name| > 0 && forall k :: 0 <= k < |name| ==> 'a' <= name[k] <= 'z'
  {
    match level
    case Bronze => "bronze"
    case Silver => "silver"
    case Gold => "gold"
  }

  /** Distinct levels have distinct rows: a decrement of one level never touches another's counter. */
  lemma LevelNamesDistinct(a: Level, b: Level)
    requires LevelName(a) == LevelName(b)
    ensures a == b
  {
  }

  /** The inbound "order succeeded" event (JSON keys order_id, product_id, price). */
  datatype SuccessOrder = SuccessOrder(orderId: nat, productId: nat, price: real)

  /**
   * The outbound result (JSON keys order_id, point_level). The source field is a
   * string that is only ever assigned one of the three level constants.
   */
  datatype DecreasePointSuccess = DecreasePointSuccess(orderId: nat, pointLevel: Level)

  /** A product row: its identifier, name and price. */
  datatype Product = Product(id: nat, name: string, price: real)
}
