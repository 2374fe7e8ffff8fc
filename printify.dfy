/**
 * crawlers/printify.py: the Printify order normaliser, the shop-id state of
 * `PrintifyCrawler` and its `get_orders` guard and batch loop. The HTTP
 * response is the parameter `data`.
 */
module Printify {
  import opened Wrappers
  import opened Python
  import opened Models
  import opened Normalize

  const Platform := "printify"
  const Envelope := "data"
  const Keys := ItemKeys("title", "variant_title")
  const MissingShopId := ValueError("Shop ID must be set before fetching orders")

  /** The `shipping` objects the customer mapping accepts. */
  predicate ShippingWellFormed(ship: Json) {
    && HasKey(ship, "first_name") && HasKey(ship, "last_name")
    && PresentOptStr(ship, "address1") && PresentOptStr(ship, "city")
    && PresentOptStr(ship, "country") && PresentOptStr(ship, "zip")
  }

  /**
   * The customer: name is `shipping.first_name`, a space and `shipping.last_name`;
   * the email is the top-level `email`; the address fields come from `shipping`.
   */
  function CustomerOf(rt: Runtime, order: Json): (r: Result<Customer, Error>)
    ensures r.Ok? <==>
              && HasKey(order, "shipping") && ShippingWellFormed(order.fields["shipping"])
              && PresentOptStr(order, "email")
    ensures r.Ok? ==>
              var ship := order.fields["shipping"].fields;
              r.value == Customer(
                name := Some(PyStr(rt, ship["first_name"]) + " " + PyStr(rt, ship["last_name"])),
                email := OptStr(order.fields["email"]),
                address := OptStr(ship["address1"]),
                city := OptStr(ship["city"]),
                country := OptStr(ship["country"]),
                zipCode := OptStr(ship["zip"]))
  {
    var shipping :- Index(order, "shipping");
    var first :- Index(shipping, "first_name");
    var last :- Index(shipping, "last_name");
    var email :- Index(order, "email");
    var address :- Index(shipping, "address1");
    var city :- Index(shipping, "city");
    var country :- Index(shipping, "country");
    var zip :- Index(shipping, "zip");
    var emailValue :- OptStrField("Customer", email);
    var addressValue :- OptStrField("Customer", address);
    var cityValue :- OptStrField("Customer", city);
    var countryValue :- OptStrField("Customer", country);
    var zipValue :- OptStrField("Customer", zip);
    Ok(Customer(Some(PyStr(rt, first) + " " + PyStr(rt, last)),
                emailValue, addressValue, cityValue, countryValue, zipValue))
  }

  /** Costs, identity and status; the three totals are copied from the record. */
  function Finish(rt: Runtime, order: Json, customer: Customer, items: seq<OrderItem>): Result<StandardizedOrder, Error> {
    var subtotalJson :- Index(order, "subtotal");
    var subtotal :- ToFloat(rt, subtotalJson);
    var shippingJson :- Index(order, "shipping_cost");
    var shipping :- ToFloat(rt, shippingJson);
    var totalJson :- Index(order, "total_price");
    var total :- ToFloat(rt, totalJson);
    var id :- Index(order, "id");
    var created :- Index(order, "created_at");
    var date :- FromIsoFormat(rt, created);
    var status :- Index(order, "status");
    var tracking := DictGet(order.fields, "tracking_number", Null);
    var statusValue :- StrField("StandardizedOrder", status);
    var trackingValue :- OptStrField("StandardizedOrder", tracking);
    Ok(StandardizedOrder(Platform, PyStr(rt, id), date, customer, items, subtotal, shipping, total,
                         statusValue, trackingValue, order))
  }

  /** The records `_convert_to_standardized` accepts, stated key by key. */
  predicate WellFormed(rt: Runtime, order: Json) {
    && HasKey(order, "shipping") && ShippingWellFormed(order.fields["shipping"])
    && PresentOptStr(order, "email")
    && HasKey(order, "line_items") && ItemsWellFormed(rt, Keys, order.fields["line_items"])
    && HasKey(order, "subtotal") && FloatConvertible(rt, order.fields["subtotal"])
    && HasKey(order, "shipping_cost") && FloatConvertible(rt, order.fields["shipping_cost"])
    && HasKey(order, "total_price") && FloatConvertible(rt, order.fields["total_price"])
    && HasKey(order, "id")
    && HasKey(order, "created_at") && IsoDateValid(rt, order.fields["created_at"])
    && HasKey(order, "status") && order.fields["status"].Str?
    && OptionalStr(order, "tracking_number")
  }

  /** `_convert_to_standardized`: one raw Printify order as a `StandardizedOrder`, or the exception it raises. */
  function Convert(rt: Runtime, order: Json): (r: Result<StandardizedOrder, Error>)
    ensures r.Ok? ==>
              && HasKey(order, "line_items") && HasKey(order, "subtotal") && HasKey(order, "shipping_cost")
              && HasKey(order, "total_price") && HasKey(order, "id") && HasKey(order, "created_at")
              && HasKey(order, "status") && order.fields["created_at"].Str?
              && var o := r.value;
              && o.platform == "printify"
              && o.orderId == PyStr(rt, order.fields["id"])
              && Some(o.orderDate) == rt.fromIsoFormat(IsoText(order.fields["created_at"].s))
              && Ok(o.customer) == CustomerOf(rt, order)
              && Ok(o.items) == ItemsOf(rt, Keys, order.fields["line_items"])
              && Ok(o.subtotal) == ToFloat(rt, order.fields["subtotal"])
              && Ok(o.shippingCost) == ToFloat(rt, order.fields["shipping_cost"])
              && Ok(o.totalCost) == ToFloat(rt, order.fields["total_price"])
              && Str(o.status) == order.fields["status"]
              && o.trackingNumber == OptStrAt(order, "tracking_number")
              && o.rawData == order
  {
    var customer :- CustomerOf(rt, order);
    var itemsJson :- Index(order, "line_items");
    var items :- ItemsOf(rt, Keys, itemsJson);
    Finish(rt, order, customer, items)
  }

  /** A record converts exactly when it is well formed. */
  lemma ConvertSucceedsIff(rt: Runtime, order: Json)
    ensures Convert(rt, order).Ok? <==> WellFormed(rt, order)
  {
    if HasKey(order, "line_items") {
      ItemsOfSucceedsIff(rt, Keys, order.fields["line_items"]);
    }
  }

  /** `_convert_to_standardized` as the source runs it, the item loop included. */
  method ConvertToStandardized(rt: Runtime, order: Json) returns (r: Result<StandardizedOrder, Error>)
    ensures r == Convert(rt, order)
  {
    var customer := CustomerOf(rt, order);
    if customer.Err? {
      return Err(customer.error);
    }
    var itemsJson := Index(order, "line_items");
    if itemsJson.Err? {
      return Err(itemsJson.error);
    }
    var items := ExtractItems(rt, Keys, itemsJson.value);
    if items.Err? {
      return Err(items.error);
    }
    r := Finish(rt, order, customer.value, items.value);
  }

  function Converter(rt: Runtime): Json -> Result<StandardizedOrder, Error> {
    order => Convert(rt, order)
  }

  /** What `get_orders` returns for the response `data`. */
  function OrdersOf(rt: Runtime, data: Json): (r: Result<seq<StandardizedOrder>, Error>)
    ensures data.Obj? && Envelope !in data.fields ==> r == Ok([])
  {
    var records :- Records(data, Envelope);
    MapResult(Converter(rt), records)
  }

  /**
   * One standardized order per record, in order, exactly when every record is
   * well formed; otherwise the exception of the first record that fails.
   */
  lemma OrdersOfOneToOne(rt: Runtime, data: Json)
    requires Records(data, Envelope).Ok?
    ensures var records := Records(data, Envelope).value;
            && (OrdersOf(rt, data).Ok? <==> forall i :: 0 <= i < |records| ==> WellFormed(rt, records[i]))
            && (OrdersOf(rt, data).Ok? ==>
                  |OrdersOf(rt, data).value| == |records|
                  && forall i :: 0 <= i < |records| ==> Ok(OrdersOf(rt, data).value[i]) == Convert(rt, records[i]))
            && (OrdersOf(rt, data).Err? ==>
                  exists k :: 0 <= k < |records| && Convert(rt, records[k]) == Err(OrdersOf(rt, data).error)
                              && forall i :: 0 <= i < k ==> WellFormed(rt, records[i]))
  {
    var records := Records(data, Envelope).value;
    MapResultOk(Converter(rt), records);
    forall i | 0 <= i < |records| {
      ConvertSucceedsIff(rt, records[i]);
    }
    if OrdersOf(rt, data).Err? {
      MapResultFirstError(Converter(rt), records);
    }
  }

  /** The crawler's mutable state: the shop id that `get_orders` needs. */
  class PrintifyCrawler {
    const apiToken: string
    var shopId: Option<string>

    constructor (apiToken: string)
      ensures this.apiToken == apiToken && shopId == None
    {
      this.apiToken := apiToken;
      shopId := None;
    }

    /** `set_shop_id` stores the id and changes nothing else. */
    method SetShopId(id: string)
      modifies this
      ensures shopId == Some(id)
    {
      shopId := Some(id);
    }

    /** The guard `if not self.shop_id`: unset and empty ids both fail it. */
    predicate HasShopId()
      reads this
    {
      shopId.Some? && shopId.value != ""
    }

    /**
     * `get_orders`: fails before any request while no shop id is set; after
     * the request, converts every record of `data["data"]`, in order.
     */
    method GetOrders(rt: Runtime, data: Json) returns (r: Result<seq<StandardizedOrder>, Error>)
      ensures !HasShopId() ==> r == Err(MissingShopId)
      ensures HasShopId() ==> r == OrdersOf(rt, data)
    {
      if !HasShopId() {
        return Err(MissingShopId);
      }
      var records := Records(data, Envelope);
      if records.Err? {
        return Err(records.error);
      }
      var xs := records.value;
      var orders: seq<StandardizedOrder> := [];
      var i := 0;
      while i < |xs|
        invariant 0 <= i <= |xs|
        invariant MapResult(Converter(rt), xs[..i]) == Ok(orders)
      {
        var order := ConvertToStandardized(rt, xs[i]);
        assert xs[..i + 1][..i] == xs[..i];
        if order.Err? {
          MapResultPrefixErr(Converter(rt), xs, i + 1);
          return Err(order.error);
        }
        orders := orders + [order.value];
        i := i + 1;
      }
      assert xs[..i] == xs;
      return Ok(orders);
    }
  }
}
