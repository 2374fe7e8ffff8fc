/**
 * What the three crawlers share: the response envelope that each `get_orders`
 * unwraps, the loop shape "convert every element, in order, and let the first
 * exception escape", and the conversion of one line item into an `OrderItem`,
 * which differs between platforms only in the keys it reads.
 */
module Normalize {
  import opened Wrappers
  import opened Python
  import opened Models

  // ---------------------------------------------------------------------------
  // Convert every element; the first failure aborts

  /** `[f(x) for x in xs]` where `f` may raise: the results in order, or the first exception. */
  function MapResult<A, B>(f: A -> Result<B, Error>, xs: seq<A>): (r: Result<seq<B>, Error>)
    ensures r.Ok? ==> |r.value| == |xs|
    decreases |xs|
  {
    if xs == [] then Ok([])
    else
      var init :- MapResult(f, xs[..|xs| - 1]);
      var last :- f(xs[|xs| - 1]);
      Ok(init + [last])
  }

  /** Success exactly when every element converts; the results correspond one to one and in order. */
  lemma {:induction false} MapResultOk<A, B>(f: A -> Result<B, Error>, xs: seq<A>)
    ensures MapResult(f, xs).Ok? <==> forall i :: 0 <= i < |xs| ==> f(xs[i]).Ok?
    ensures MapResult(f, xs).Ok? ==>
              |MapResult(f, xs).value| == |xs|
              && forall i :: 0 <= i < |xs| ==> MapResult(f, xs).value[i] == f(xs[i]).value
    decreases |xs|
  {
    if xs != [] {
      var init := xs[..|xs| - 1];
      MapResultOk(f, init);
      assert forall i :: 0 <= i < |init| ==> init[i] == xs[i];
    }
  }

  /** A failure is the exception of the first element that fails, and every element before it converted. */
  lemma {:induction false} MapResultFirstError<A, B>(f: A -> Result<B, Error>, xs: seq<A>)
    requires MapResult(f, xs).Err?
    ensures exists k :: 0 <= k < |xs| && f(xs[k]) == Err(MapResult(f, xs).error)
                        && forall i :: 0 <= i < k ==> f(xs[i]).Ok?
    decreases |xs|
  {
    var init := xs[..|xs| - 1];
    assert forall i :: 0 <= i < |init| ==> init[i] == xs[i];
    if MapResult(f, init).Err? {
      MapResultFirstError(f, init);
      var k :| 0 <= k < |init| && f(init[k]) == Err(MapResult(f, init).error)
               && forall i :: 0 <= i < k ==> f(init[i]).Ok?;
      assert f(xs[k]) == Err(MapResult(f, xs).error);
    } else {
      MapResultOk(f, init);
      assert f(xs[|xs| - 1]) == Err(MapResult(f, xs).error);
    }
  }

  /** Once a prefix has failed, the rest of the list is never looked at. */
  lemma {:induction false} MapResultPrefixErr<A, B>(f: A -> Result<B, Error>, xs: seq<A>, n: nat)
    requires n <= |xs| && MapResult(f, xs[..n]).Err?
    ensures MapResult(f, xs) == MapResult(f, xs[..n])
    decreases |xs| - n
  {
    if n < |xs| {
      assert xs[..n + 1][..n] == xs[..n];
      MapResultPrefixErr(f, xs, n + 1);
    } else {
      assert xs[..n] == xs;
    }
  }

  // ---------------------------------------------------------------------------
  // The response envelope

  /** The records `for order in data.get(key, [])` visits. */
  function Records(data: Json, key: string): (r: Result<seq<Json>, Error>)
    ensures data.Obj? && key !in data.fields ==> r == Ok([])
    ensures HasKey(data, key) ==> r == Iterate(data.fields[key])
    ensures !data.Obj? ==> r == Err(AttributeError)
  {
    var envelope :- Get(data, key, Arr([]));
    Iterate(envelope)
  }

  // ---------------------------------------------------------------------------
  // One line item

  /** The keys a platform reads for an item's product name and variant. */
  datatype ItemKeys = ItemKeys(name: string, variant: string)

  /** `k` is absent, `None` or a string: what `j.get(k)` may hand to an `Optional[str]` field. */
  predicate OptionalStr(j: Json, k: string) {
    j.Obj? && (k !in j.fields || j.fields[k].Null? || j.fields[k].Str?)
  }

  /** `k` is present and `None` or a string: what `j[k]` may hand to an `Optional[str]` field. */
  predicate PresentOptStr(j: Json, k: string) {
    HasKey(j, k) && (j.fields[k].Null? || j.fields[k].Str?)
  }

  /** The value `j.get(k)` gives an `Optional[str]` field. */
  function OptStrAt(j: Json, k: string): Option<string> {
    if HasKey(j, k) then OptStr(j.fields[k]) else None
  }

  /** The items the platform accepts, stated field by field. */
  predicate ItemWellFormed(rt: Runtime, keys: ItemKeys, item: Json) {
    && HasKey(item, keys.name) && item.fields[keys.name].Str?
    && HasKey(item, "quantity") && IntCoercible(rt, item.fields["quantity"])
    && HasKey(item, "price") && FloatConvertible(rt, item.fields["price"])
    && OptionalStr(item, keys.variant)
    && OptionalStr(item, "size")
    && OptionalStr(item, "color")
  }

  /** One element of the items list as an `OrderItem`. */
  function ConvertItem(rt: Runtime, keys: ItemKeys, item: Json): (r: Result<OrderItem, Error>)
    ensures r.Ok? <==> ItemWellFormed(rt, keys, item)
    ensures r.Ok? ==>
              && r.value.productName == item.fields[keys.name].s
              && Ok(r.value.quantity) == IntField(rt, "OrderItem", item.fields["quantity"])
              && Ok(r.value.price) == ToFloat(rt, item.fields["price"])
              && r.value.variant == OptStrAt(item, keys.variant)
              && r.value.size == OptStrAt(item, "size")
              && r.value.color == OptStrAt(item, "color")
  {
    var name :- Index(item, keys.name);  // from here on `item` is a dict
    var quantity :- Index(item, "quantity");
    var priceJson :- Index(item, "price");
    var price :- ToFloat(rt, priceJson);
    var variant := DictGet(item.fields, keys.variant, Null);
    var size := DictGet(item.fields, "size", Null);
    var color := DictGet(item.fields, "color", Null);
    var productName :- StrField("OrderItem", name);
    var count :- IntField(rt, "OrderItem", quantity);
    var variantName :- OptStrField("OrderItem", variant);
    var sizeName :- OptStrField("OrderItem", size);
    var colorName :- OptStrField("OrderItem", color);
    Ok(OrderItem(productName, count, price, variantName, sizeName, colorName))
  }

  function ItemConverter(rt: Runtime, keys: ItemKeys): Json -> Result<OrderItem, Error> {
    item => ConvertItem(rt, keys, item)
  }

  /** The loop `for item in order[...]: items.append(OrderItem(...))`. */
  function ItemsOf(rt: Runtime, keys: ItemKeys, itemsJson: Json): (r: Result<seq<OrderItem>, Error>)
    ensures itemsJson.Arr? && r.Ok? ==> |r.value| == |itemsJson.elems|
    ensures itemsJson == Arr([]) ==> r == Ok([])
  {
    var elems :- Iterate(itemsJson);
    MapResult(ItemConverter(rt, keys), elems)
  }

  /** An items value the loop accepts: a list of well-formed items, an empty string or an empty dict. */
  predicate ItemsWellFormed(rt: Runtime, keys: ItemKeys, itemsJson: Json) {
    || (itemsJson.Arr? && forall i :: 0 <= i < |itemsJson.elems| ==> ItemWellFormed(rt, keys, itemsJson.elems[i]))
    || itemsJson == Str("")
    || itemsJson == Obj(map[])
  }

  lemma ItemsOfSucceedsIff(rt: Runtime, keys: ItemKeys, itemsJson: Json)
    ensures ItemsOf(rt, keys, itemsJson).Ok? <==> ItemsWellFormed(rt, keys, itemsJson)
  {
    var elems := Iterate(itemsJson);
    if elems.Ok? {
      MapResultOk(ItemConverter(rt, keys), elems.value);
      if itemsJson.Str? && itemsJson.s != "" {
        assert !ItemWellFormed(rt, keys, elems.value[0]);
      }
    }
  }

  /** The items correspond one to one and in order with the elements of the items list. */
  lemma ItemsOfOneToOne(rt: Runtime, keys: ItemKeys, itemsJson: Json)
    requires itemsJson.Arr? && ItemsOf(rt, keys, itemsJson).Ok?
    ensures |ItemsOf(rt, keys, itemsJson).value| == |itemsJson.elems|
    ensures forall i :: 0 <= i < |itemsJson.elems| ==>
              Ok(ItemsOf(rt, keys, itemsJson).value[i]) == ConvertItem(rt, keys, itemsJson.elems[i])
  {
    MapResultOk(ItemConverter(rt, keys), itemsJson.elems);
  }

  /** The item loop, run as the source runs it: convert, append, stop at the first exception. */
  method ExtractItems(rt: Runtime, keys: ItemKeys, itemsJson: Json) returns (r: Result<seq<OrderItem>, Error>)
    ensures r == ItemsOf(rt, keys, itemsJson)
  {
    var elems := Iterate(itemsJson);
    if elems.Err? {
      return Err(elems.error);
    }
    var xs := elems.value;
    var items: seq<OrderItem> := [];
    var i := 0;
    while i < |xs|
      invariant 0 <= i <= |xs|
      invariant MapResult(ItemConverter(rt, keys), xs[..i]) == Ok(items)
    {
      var item := ConvertItem(rt, keys, xs[i]);
      assert xs[..i + 1][..i] == xs[..i];
      if item.Err? {
        MapResultPrefixErr(ItemConverter(rt, keys), xs, i + 1);
        return Err(item.error);
      }
      items := items + [item.value];
      i := i + 1;
    }
    assert xs[..i] == xs;
    return Ok(items);
  }

  /** `sum(item.price * item.quantity for item in items)`. */
  function LineTotal(items: seq<OrderItem>): (r: real)
    ensures (forall i :: 0 <= i < |items| ==> items[i].price >= 0.0 && items[i].quantity >= 0) ==> r >= 0.0
    decreases |items|
  {
    if items == [] then 0.0
    else LineTotal(items[..|items| - 1]) + items[|items| - 1].price * items[|items| - 1].quantity as real
  }

  /** The subtotal grows by each further line's price times quantity. */
  lemma {:induction false} LineTotalAppend(items: seq<OrderItem>, more: seq<OrderItem>)
    ensures LineTotal(items + more) == LineTotal(items) + LineTotal(more)
    decreases |more|
  {
    if more == [] {
      assert items + more == items;
    } else {
      var last := more[|more| - 1];
      assert (items + more)[..|items + more| - 1] == items + more[..|more| - 1];
      LineTotalAppend(items, more[..|more| - 1]);
    }
  }
}
