/**
 * crawlers/printful.py: the Printful order normaliser and the batch loop of
 * `PrintfulCrawler.get_orders`. The HTTP response is the parameter `data`.
 */
module Printful {
  import opened Wrappers
  import opened Python
  import opened Models
  import opened Normalize

  const Platform := "printful"
  const Envelope := "result"
  const Keys := ItemKeys("name", "variant_name")

  /** The `recipient` objects the customer mapping accepts. */
  predicate RecipientWellFormed(rec: Json) {
    && HasKey(rec, "name") && HasKey(rec, "surname")
    && OptionalStr(rec, "email")
    && PresentOptStr(rec, "address1") && PresentOptStr(rec, "city")
    && PresentOptStr(rec, "country_code") && PresentOptStr(rec, "zip")
  }

  /**
   * The customer: name is `recipient.name`, a space and `recipient.surname`;
   * email is `recipient.email`, or "" when absent; the country is `country_code`.
   */
  function CustomerOf(rt: Runtime, order: Json): (r: Result<Customer, Error>)
    ensures r.Ok? <==> HasKey(order, "recipient") && RecipientWellFormed(order.fields["recipient"])
    ensures r.Ok? ==>
              var rec := order.fields["recipient"].fields;
              r.value == Customer(
                name := Some(PyStr(rt, rec["name"]) + " " + PyStr(rt, rec["surname"])),
                email := if "email" in rec then OptStr(rec["email"]) else Some(""),
                address := OptStr(rec["address1"]),
                city := OptStr(rec["city"]),
                country := OptStr(rec["country_code"]),
                zipCode := OptStr(rec["zip"]))
  {
    var recipient :- Index(order, "recipient");
    var first :- Index(recipient, "name");
    var last :- Index(recipient, "surname");
    var email := DictGet(recipient.fields, "email", Str(""));
    var address :- Index(recipient, "address1");
    var city :- Index(recipient, "city");
    var country :- Index(recipient, "country_code");
    var zip :- Index(recipient, "zip");
    var emailValue :- OptStrField("Customer", email);
    var addressValue :- OptStrField("Customer", address);
    var cityValue :- OptStrField("Customer", city);
    var countryValue :- OptStrField("Customer", country);
    var zipValue :- OptStrField("Customer", zip);
    Ok(Customer(Some(PyStr(rt, first) + " " + PyStr(rt, last)),
                emailValue, addressValue, cityValue, countryValue, zipValue))
  }

  /** Costs, identity and status; the subtotal is recomputed from the items. */
  function Finish(rt: Runtime, order: Json, customer: Customer, items: seq<OrderItem>): Result<StandardizedOrder, Error> {
    var subtotal := LineTotal(items);
    var shippingJson :- Get(order, "shipping_cost", Int(0));
    var shipping :- ToFloat(rt, shippingJson);
    var total := subtotal + shipping;
    var id :- Index(order, "id");
    var created :- Index(order, "created");
    var date :- FromTimestamp(rt, created);
    var status :- Index(order, "status");
    var tracking := DictGet(order.fields, "tracking_number", Null);
    var statusValue :- StrField("StandardizedOrder", status);
    var trackingValue :- OptStrField("StandardizedOrder", tracking);
    Ok(StandardizedOrder(Platform, PyStr(rt, id), date, customer, items, subtotal, shipping, total,
                         statusValue, trackingValue, order))
  }

  /** The records `_convert_to_standardized` accepts, stated key by key. */
  predicate WellFormed(rt: Runtime, order: Json) {
    && HasKey(order, "recipient") && RecipientWellFormed(order.fields["recipient"])
    && HasKey(order, "items") && ItemsWellFormed(rt, Keys, order.fields["items"])
    && ("shipping_cost" in order.fields ==> FloatConvertible(rt, order.fields["shipping_cost"]))
    && HasKey(order, "id")
    && HasKey(order, "created") && TimestampValid(rt, order.fields["created"])
    && HasKey(order, "status") && order.fields["status"].Str?
    && OptionalStr(order, "tracking_number")
  }

  /** `_convert_to_standardized`: one raw Printful order as a `StandardizedOrder`, or the exception it raises. */
  function Convert(rt: Runtime, order: Json): (r: Result<StandardizedOrder, Error>)
    ensures r.Ok? ==>
              && HasKey(order, "items") && HasKey(order, "id") && HasKey(order, "created") && HasKey(order, "status")
              && var o := r.value;
              && o.platform == "printful"
              && o.orderId == PyStr(rt, order.fields["id"])
              && Ok(o.orderDate) == FromTimestamp(rt, order.fields["created"])
              && Ok(o.customer) == CustomerOf(rt, order)
              && Ok(o.items) == ItemsOf(rt, Keys, order.fields["items"])
              && o.subtotal == LineTotal(o.items)
              && Ok(o.shippingCost) == (if "shipping_cost" in order.fields
                                        then ToFloat(rt, order.fields["shipping_cost"]) else Ok(0.0))
              && o.totalCost == o.subtotal + o.shippingCost
              && Str(o.status) == order.fields["status"]
              && o.trackingNumber == OptStrAt(order, "tracking_number")
              && o.rawData == order
  {
    var customer :- CustomerOf(rt, order);
    var itemsJson :- Index(order, "items");
    var items :- ItemsOf(rt, Keys, itemsJson);
    Finish(rt, order, customer, items)
  }

  /** A record converts exactly when it is well formed. */
  lemma ConvertSucceedsIff(rt: Runtime, order: Json)
    ensures Convert(rt, order).Ok? <==> WellFormed(rt, order)
  {
    if HasKey(order, "items") {
      ItemsOfSucceedsIff(rt, Keys, order.fields["items"]);
    }
  }

  /** `_convert_to_standardized` as the source runs it, the item loop included. */
  method ConvertToStandardized(rt: Runtime, order: Json) returns (r: Result<StandardizedOrder, Error>)
    ensures r == Convert(rt, order)
  {
    var customer := CustomerOf(rt, order);
    if customer.Err? {
      return Err(customer.error);
    }
    var itemsJson := Index(order, "items");
    if itemsJson.Err? {
      return Err(itemsJson.error);
    }
    var items := ExtractItems(rt, Keys, itemsJson.value);
    if items.Err? {
      return Err(items.error);
    }
    r := Finish(rt, order, customer.value, items.value);
  }

  function Converter(rt: Runtime): Json -> Result<StandardizedOrder, Error> {
    order => Convert(rt, order)
  }

  /** What `get_orders` returns for the response `data`. */
  function OrdersOf(rt: Runtime, data: Json): (r: Result<seq<StandardizedOrder>, Error>)
    ensures data.Obj? && Envelope !in data.fields ==> r == Ok([])
  {
    var records :- Records(data, Envelope);
    MapResult(Converter(rt), records)
  }

  /**
   * One standardized order per record, in order, exactly when every record is
   * well formed; otherwise the exception of the first record that fails.
   */
  lemma OrdersOfOneToOne(rt: Runtime, data: Json)
    requires Records(data, Envelope).Ok?
    ensures var records := Records(data, Envelope).value;
            && (OrdersOf(rt, data).Ok? <==> forall i :: 0 <= i < |records| ==> WellFormed(rt, records[i]))
            && (OrdersOf(rt, data).Ok? ==>
                  |OrdersOf(rt, data).value| == |records|
                  && forall i :: 0 <= i < |records| ==> Ok(OrdersOf(rt, data).value[i]) == Convert(rt, records[i]))
            && (OrdersOf(rt, data).Err? ==>
                  exists k :: 0 <= k < |records| && Convert(rt, records[k]) == Err(OrdersOf(rt, data).error)
                              && forall i :: 0 <= i < k ==> WellFormed(rt, records[i]))
  {
    var records := Records(data, Envelope).value;
    MapResultOk(Converter(rt), records);
    forall i | 0 <= i < |records| {
      ConvertSucceedsIff(rt, records[i]);
    }
    if OrdersOf(rt, data).Err? {
      MapResultFirstError(Converter(rt), records);
    }
  }

  /** `get_orders` after the request: convert every record of `data["result"]`, in order. */
  method GetOrders(rt: Runtime, data: Json) returns (r: Result<seq<StandardizedOrder>, Error>)
    ensures r == OrdersOf(rt, data)
  {
    var records := Records(data, Envelope);
    if records.Err? {
      return Err(records.error);
    }
    var xs := records.value;
    var orders: seq<StandardizedOrder> := [];
    var i := 0;
    while i < |xs|
      invariant 0 <= i <= |xs|
      invariant MapResult(Converter(rt), xs[..i]) == Ok(orders)
    {
      var order := ConvertToStandardized(rt, xs[i]);
      assert xs[..i + 1][..i] == xs[..i];
      if order.Err? {
        MapResultPrefixErr(Converter(rt), xs, i + 1);
        return Err(order.error);
      }
      orders := orders + [order.value];
      i := i + 1;
    }
    assert xs[..i] == xs;
    return Ok(orders);
  }
}
