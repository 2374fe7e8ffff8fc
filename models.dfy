/**
 * The shared target schema of models/order.py (`Customer`, `OrderItem`,
 * `StandardizedOrder`) and the pydantic v2 field validation, in lax mode,
 * that runs when one of them is constructed.
 */
module Models {
  import opened Wrappers
  import opened Python

  /** Every field is `Optional[str]`: `None` is accepted, and a field left out takes its default. */
  datatype Customer = Customer(
    name: Option<string> := Some("Unknown Customer"),
    email: Option<string> := Some(""),
    address: Option<string> := Some(""),
    city: Option<string> := Some(""),
    country: Option<string> := Some(""),
    zipCode: Option<string> := Some(""))

  /** `product_name`, `quantity` and `price` are required; the descriptors default to `None`. */
  datatype OrderItem = OrderItem(
    productName: string,
    quantity: int,
    price: real,
    variant: Option<string> := None,
    size: Option<string> := None,
    color: Option<string> := None)

  /** Every field is required except `tracking_number`; `raw_data` is the source record. */
  datatype StandardizedOrder = StandardizedOrder(
    platform: string,
    orderId: string,
    orderDate: DateTime,
    customer: Customer,
    items: seq<OrderItem>,
    subtotal: real,
    shippingCost: real,
    totalCost: real,
    status: string,
    trackingNumber: Option<string> := None,
    rawData: Json)

  /** The defaults the three models declare. */
  lemma Defaults(productName: string, quantity: int, price: real, o: StandardizedOrder)
    ensures Customer() == Customer(Some("Unknown Customer"), Some(""), Some(""), Some(""), Some(""), Some(""))
    ensures OrderItem(productName, quantity, price) == OrderItem(productName, quantity, price, None, None, None)
    ensures StandardizedOrder(o.platform, o.orderId, o.orderDate, o.customer, o.items, o.subtotal,
                              o.shippingCost, o.totalCost, o.status, rawData := o.rawData).trackingNumber == None
  {
  }

  // ---------------------------------------------------------------------------
  // pydantic v2 lax-mode validation of one field

  /** A `str` field accepts a string and nothing else. */
  function StrField(model: string, j: Json): (r: Result<string, Error>)
    ensures r.Ok? <==> j.Str?
    ensures r.Ok? ==> r.value == j.s
    ensures r.Err? ==> r.error == ValidationError(model)
  {
    if j.Str? then Ok(j.s) else Err(ValidationError(model))
  }

  /** The value an `Optional[str]` field holds once `j` passed validation. */
  function OptStr(j: Json): Option<string> {
    if j.Str? then Some(j.s) else None
  }

  /** An `Optional[str]` field accepts `None` or a string. */
  function OptStrField(model: string, j: Json): (r: Result<Option<string>, Error>)
    ensures r.Ok? <==> j.Null? || j.Str?
    ensures r.Ok? ==> r.value == OptStr(j) && (r.value.None? <==> j.Null?)
    ensures r.Err? ==> r.error == ValidationError(model)
  {
    match j
    case Null => Ok(None)
    case Str(s) => Ok(Some(s))
    case _ => Err(ValidationError(model))
  }

  /** What an `int` field accepts in lax mode: an int, a bool, an integral float or an integer string. */
  predicate IntCoercible(rt: Runtime, j: Json) {
    j.Int? || j.Bool? || (j.Float? && j.x.Floor as real == j.x) || (j.Str? && rt.intFromStr(j.s).Some?)
  }

  /** An `int` field. */
  function IntField(rt: Runtime, model: string, j: Json): (r: Result<int, Error>)
    ensures r.Ok? <==> IntCoercible(rt, j)
    ensures j.Int? ==> r == Ok(j.i)
    ensures j.Float? && r.Ok? ==> r.value as real == j.x
    ensures r.Err? ==> r.error == ValidationError(model)
  {
    match j
    case Int(i) => Ok(i)
    case Bool(b) => Ok(if b then 1 else 0)
    case Float(x) => if x.Floor as real == x then Ok(x.Floor) else Err(ValidationError(model))
    case Str(s) =>
      (match rt.intFromStr(s)
       case Some(i) => Ok(i)
       case None => Err(ValidationError(model)))
    case _ => Err(ValidationError(model))
  }
}
