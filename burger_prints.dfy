/**
 * crawlers/burger_prints.py: the Burger Prints order normaliser and the batch
 * loop of `BurgerPrintsCrawler.get_orders`. The HTTP response is the parameter `data`.
 */
module BurgerPrints {
  import opened Wrappers
  import opened Python
  import opened Models
  import opened Normalize

  const Platform := "burger_prints"
  const Envelope := "orders"
  const Keys := ItemKeys("product_name", "variant_name")

  /** The `customer` objects the customer mapping accepts. */
  predicate BuyerWellFormed(buyer: Json) {
    HasKey(buyer, "first_name") && HasKey(buyer, "last_name") && PresentOptStr(buyer, "email")
  }

  /** The `shipping` objects the customer mapping accepts. */
  predicate ShippingWellFormed(ship: Json) {
    && PresentOptStr(ship, "address") && PresentOptStr(ship, "city")
    && PresentOptStr(ship, "country") && PresentOptStr(ship, "zip")
  }

  /**
   * The customer: name and email come from the `customer` object, the address
   * fields from the `shipping` object.
   */
  function CustomerOf(rt: Runtime, order: Json): (r: Result<Customer, Error>)
    ensures r.Ok? <==>
              && HasKey(order, "customer") && BuyerWellFormed(order.fields["customer"])
              && HasKey(order, "shipping") && ShippingWellFormed(order.fields["shipping"])
    ensures r.Ok? ==>
              var buyer := order.fields["customer"].fields;
              var ship := order.fields["shipping"].fields;
              r.value == Customer(
                name := Some(PyStr(rt, buyer["first_name"]) + " " + PyStr(rt, buyer["last_name"])),
                email := OptStr(buyer["email"]),
                address := OptStr(ship["address"]),
                city := OptStr(ship["city"]),
                country := OptStr(ship["country"]),
                zipCode := OptStr(ship["zip"]))
  {
    var buyer :- Index(order, "customer");
    var first :- Index(buyer, "first_name");
    var last :- Index(buyer, "last_name");
    var email :- Index(buyer, "email");
    var shipping :- Index(order, "shipping");
    var address :- Index(shipping, "address");
    var city :- Index(shipping, "city");
    var country :- Index(shipping, "country");
    var zip :- Index(shipping, "zip");
    var emailValue :- OptStrField("Customer", email);
    var addressValue :- OptStrField("Customer", address);
    var cityValue :- OptStrField("Customer", city);
    var countryValue :- OptStrField("Customer", country);
    var zipValue :- OptStrField("Customer", zip);
    Ok(Customer(Some(PyStr(rt, first) + " " + PyStr(rt, last)),
                emailValue, addressValue, cityValue, countryValue, zipValue))
  }

  /** Costs, identity and status; the three totals are copied from the record. */
  function Finish(rt: Runtime, order: Json, customer: Customer, items: seq<OrderItem>): Result<StandardizedOrder, Error> {
    var subtotalJson :- Index(order, "subtotal");
    var subtotal :- ToFloat(rt, subtotalJson);
    var shippingJson :- Index(order, "shipping_cost");
    var shipping :- ToFloat(rt, shippingJson);
    var totalJson :- Index(order, "total");
    var total :- ToFloat(rt, totalJson);
    var id :- Index(order, "id");
    var created :- Index(order, "created_at");
    var date :- FromIsoFormat(rt, created);
    var status :- Index(order, "status");
    var tracking := DictGet(order.fields, "tracking_number", Null);
    var statusValue :- StrField("StandardizedOrder", status);
    var trackingValue :- OptStrField("StandardizedOrder", tracking);
    Ok(StandardizedOrder(Platform, PyStr(rt, id), date, customer, items, subtotal, shipping, total,
                         statusValue, trackingValue, order))
  }

  /** The records `_convert_to_standardized` accepts, stated key by key. */
  predicate WellFormed(rt: Runtime, order: Json) {
    && HasKey(order, "customer") && BuyerWellFormed(order.fields["customer"])
    && HasKey(order, "shipping") && ShippingWellFormed(order.fields["shipping"])
    && HasKey(order, "items") && ItemsWellFormed(rt, Keys, order.fields["items"])
    && HasKey(order, "subtotal") && FloatConvertible(rt, order.fields["subtotal"])
    && HasKey(order, "shipping_cost") && FloatConvertible(rt, order.fields["shipping_cost"])
    && HasKey(order, "total") && FloatConvertible(rt, order.fields["total"])
    && HasKey(order, "id")
    && HasKey(order, "created_at") && IsoDateValid(rt, order.fields["created_at"])
    && HasKey(order, "status") && order.fields["status"].Str?
    && OptionalStr(order, "tracking_number")
  }

  /** `_convert_to_standardized`: one raw Burger Prints order as a `StandardizedOrder`, or the exception it raises. */
  function Convert(rt: Runtime, order: Json): (r: Result<StandardizedOrder, Error>)
    ensures r.Ok? ==>
              && HasKey(order, "items") && HasKey(order, "subtotal") && HasKey(order, "shipping_cost")
              && HasKey(order, "total") && HasKey(order, "id") && HasKey(order, "created_at")
              && HasKey(order, "status") && order.fields["created_at"].Str?
              && var o := r.value;
              && o.platform == "burger_prints"
              && o.orderId == PyStr(rt, order.fields["id"])
              && Some(o.orderDate) == rt.fromIsoFormat(IsoText(order.fields["created_at"].s))
              && Ok(o.customer) == CustomerOf(rt, order)
              && Ok(o.items) == ItemsOf(rt, Keys, order.fields["items"])
              && Ok(o.subtotal) == ToFloat(rt, order.fields["subtotal"])
              && Ok(o.shippingCost) == ToFloat(rt, order.fields["shipping_cost"])
              && Ok(o.totalCost) == ToFloat(rt, order.fields["total"])
              && Str(o.status) == order.fields["status"]
              && o.trackingNumber == OptStrAt(order, "tracking_number")
              && o.rawData == order
  {
    var customer :- CustomerOf(rt, order);
    var itemsJson :- Index(order, "items");
    var items :- ItemsOf(rt, Keys, itemsJson);
    Finish(rt, order, customer, items)
  }

  /** A record converts exactly when it is well formed. */
  lemma ConvertSucceedsIff(rt: Runtime, order: Json)
    ensures Convert(rt, order).Ok? <==> WellFormed(rt, order)
  {
    if HasKey(order, "items") {
      ItemsOfSucceedsIff(rt, Keys, order.fields["items"]);
    }
  }

  /** `_convert_to_standardized` as the source runs it, the item loop included. */
  method ConvertToStandardized(rt: Runtime, order: Json) returns (r: Result<StandardizedOrder, Error>)
    ensures r == Convert(rt, order)
  {
    var customer := CustomerOf(rt, order);
    if customer.Err? {
      return Err(customer.error);
    }
    var itemsJson := Index(order, "items");
    if itemsJson.Err? {
      return Err(itemsJson.error);
    }
    var items := ExtractItems(rt, Keys, itemsJson.value);
    if items.Err? {
      return Err(items.error);
    }
    r := Finish(rt, order, customer.value, items.value);
  }

  function Converter(rt: Runtime): Json -> Result<StandardizedOrder, Error> {
    order => Convert(rt, order)
  }

  /** What `get_orders` returns for the response `data`. */
  function OrdersOf(rt: Runtime, data: Json): (r: Result<seq<StandardizedOrder>, Error>)
    ensures data.Obj? && Envelope !in data.fields ==> r == Ok([])
  {
    var records :- Records(data, Envelope);
    MapResult(Converter(rt), records)
  }

  /**
   * One standardized order per record, in order, exactly when every record is
   * well formed; otherwise the exception of the first record that fails.
   */
  lemma OrdersOfOneToOne(rt: Runtime, data: Json)
    requires Records(data, Envelope).Ok?
    ensures var records := Records(data, Envelope).value;
            && (OrdersOf(rt, data).Ok? <==> forall i :: 0 <= i < |records| ==> WellFormed(rt, records[i]))
            && (OrdersOf(rt, data).Ok? ==>
                  |OrdersOf(rt, data).value| == |records|
                  && forall i :: 0 <= i < |records| ==> Ok(OrdersOf(rt, data).value[i]) == Convert(rt, records[i]))
            && (OrdersOf(rt, data).Err? ==>
                  exists k :: 0 <= k < |records| && Convert(rt, records[k]) == Err(OrdersOf(rt, data).error)
                              && forall i :: 0 <= i < k ==> WellFormed(rt, records[i]))
  {
    var records := Records(data, Envelope).value;
    MapResultOk(Converter(rt), records);
    forall i | 0 <= i < |records| {
      ConvertSucceedsIff(rt, records[i]);
    }
    if OrdersOf(rt, data).Err? {
      MapResultFirstError(Converter(rt), records);
    }
  }

  /** `get_orders` after the request: convert every record of `data["orders"]`, in order. */
  method GetOrders(rt: Runtime, data: Json) returns (r: Result<seq<StandardizedOrder>, Error>)
    ensures r == OrdersOf(rt, data)
  {
    var records := Records(data, Envelope);
    if records.Err? {
      return Err(records.error);
    }
    var xs := records.value;
    var orders: seq<StandardizedOrder> := [];
    var i := 0;
    while i < |xs|
      invariant 0 <= i <= |xs|
      invariant MapResult(Converter(rt), xs[..i]) == Ok(orders)
    {
      var order := ConvertToStandardized(rt, xs[i]);
      assert xs[..i + 1][..i] == xs[..i];
      if order.Err? {
        MapResultPrefixErr(Converter(rt), xs, i + 1);
        return Err(order.error);
      }
      orders := orders + [order.value];
      i := i + 1;
    }
    assert xs[..i] == xs;
    return Ok(orders);
  }
}
