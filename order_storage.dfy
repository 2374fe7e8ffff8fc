/**
 * storage/order_storage.py: `OrderStorage.save_orders` groups a platform's
 * orders by calendar date and writes one file per date. The files under the
 * base path are modelled as a map from (platform, date) to the orders the file
 * holds; writing a file replaces its contents.
 */
module Storage {
  import opened Wrappers
  import opened Python
  import opened Models

  /** `order.order_date.strftime("%Y-%m-%d")`. */
  function DateKey(rt: Runtime, o: StandardizedOrder): string {
    rt.dateString(o.orderDate)
  }

  /** The orders whose date key is `d`, in input order. */
  function OnDate(rt: Runtime, orders: seq<StandardizedOrder>, d: string): seq<StandardizedOrder>
    decreases |orders|
  {
    if orders == [] then []
    else
      var last := orders[|orders| - 1];
      OnDate(rt, orders[..|orders| - 1], d) + (if DateKey(rt, last) == d then [last] else [])
  }

  /** The dict the first loop of `save_orders` builds: each order appended to the list of its date. */
  function GroupByDate(rt: Runtime, orders: seq<StandardizedOrder>): (r: map<string, seq<StandardizedOrder>>)
    ensures forall d :: d in r ==> r[d] != []
    ensures orders != [] ==> DateKey(rt, orders[|orders| - 1]) in r
    decreases |orders|
  {
    if orders == [] then map[]
    else
      var groups := GroupByDate(rt, orders[..|orders| - 1]);
      var last := orders[|orders| - 1];
      var d := DateKey(rt, last);
      groups[d := (if d in groups then groups[d] else []) + [last]]
  }

  /**
   * The groups are keyed by exactly the dates that occur, and the group of a
   * date holds the orders of that date in their input order.
   */
  lemma {:induction false} GroupByDateIsFilter(rt: Runtime, orders: seq<StandardizedOrder>)
    ensures forall d :: d in GroupByDate(rt, orders) <==> exists i :: 0 <= i < |orders| && DateKey(rt, orders[i]) == d
    ensures forall d :: d in GroupByDate(rt, orders) ==> GroupByDate(rt, orders)[d] == OnDate(rt, orders, d)
    decreases |orders|
  {
    if orders != [] {
      var init := orders[..|orders| - 1];
      GroupByDateIsFilter(rt, init);
      assert forall i :: 0 <= i < |init| ==> init[i] == orders[i];
      forall d | d !in GroupByDate(rt, init)
        ensures OnDate(rt, init, d) == []
      {
        OnDateOutside(rt, init, d);
      }
    }
  }

  /** A date that no order has collects nothing. */
  lemma {:induction false} OnDateOutside(rt: Runtime, orders: seq<StandardizedOrder>, d: string)
    requires forall i :: 0 <= i < |orders| ==> DateKey(rt, orders[i]) != d
    ensures OnDate(rt, orders, d) == []
    decreases |orders|
  {
    if orders != [] {
      OnDateOutside(rt, orders[..|orders| - 1], d);
    }
  }

  /** An order occurs in the group of its own date as often as in the input, and in no other group. */
  lemma {:induction false} OnDateCount(rt: Runtime, orders: seq<StandardizedOrder>, d: string, o: StandardizedOrder)
    ensures multiset(OnDate(rt, orders, d))[o] == if DateKey(rt, o) == d then multiset(orders)[o] else 0
    decreases |orders|
  {
    if orders != [] {
      var init := orders[..|orders| - 1];
      OnDateCount(rt, init, d, o);
      assert orders == init + [orders[|orders| - 1]];
    }
  }

  /** Nothing is lost or duplicated: every order lands in the group of its own date and in no other. */
  lemma GroupsPartitionOrders(rt: Runtime, orders: seq<StandardizedOrder>, o: StandardizedOrder)
    requires o in orders
    ensures DateKey(rt, o) in GroupByDate(rt, orders)
    ensures multiset(GroupByDate(rt, orders)[DateKey(rt, o)])[o] == multiset(orders)[o]
    ensures forall d :: d in GroupByDate(rt, orders) && d != DateKey(rt, o) ==> o !in GroupByDate(rt, orders)[d]
  {
    GroupByDateIsFilter(rt, orders);
    var i :| 0 <= i < |orders| && orders[i] == o;
    OnDateCount(rt, orders, DateKey(rt, o), o);
    forall d | d in GroupByDate(rt, orders) && d != DateKey(rt, o)
      ensures o !in GroupByDate(rt, orders)[d]
    {
      OnDateCount(rt, orders, d, o);
    }
  }

  /** The files of the store: `<base_path>/<platform>/<date>.json` holds the orders of that platform and date. */
  class OrderStorage {
    const basePath: string
    var files: map<(string, string), seq<StandardizedOrder>>

    /** `os.makedirs(base_path, exist_ok=True)` leaves files already on disk in place. */
    constructor (basePath: string, existing: map<(string, string), seq<StandardizedOrder>>)
      ensures this.basePath == basePath && files == existing
    {
      this.basePath := basePath;
      files := existing;
    }

    /**
     * `save_orders`: nothing happens for an empty list; otherwise the file of
     * each date that occurs is replaced by that date's group, and every other
     * file stays as it was.
     */
    method SaveOrders(rt: Runtime, orders: seq<StandardizedOrder>, platform: string)
      modifies this
      ensures orders == [] ==> files == old(files)
      ensures forall d :: d in GroupByDate(rt, orders) ==>
                (platform, d) in files && files[(platform, d)] == GroupByDate(rt, orders)[d]
      ensures forall k :: k in files <==> k in old(files) || (k.0 == platform && k.1 in GroupByDate(rt, orders))
      ensures forall k :: k in old(files) && !(k.0 == platform && k.1 in GroupByDate(rt, orders)) ==>
                files[k] == old(files)[k]
    {
      if orders == [] {
        return;
      }
      var byDate: map<string, seq<StandardizedOrder>> := map[];
      var i := 0;
      while i < |orders|
        invariant 0 <= i <= |orders|
        invariant byDate == GroupByDate(rt, orders[..i])
      {
        var order := orders[i];
        var d := rt.dateString(order.orderDate);
        assert orders[..i + 1][..i] == orders[..i];
        if d !in byDate {
          byDate := byDate[d := []];
        }
        byDate := byDate[d := byDate[d] + [order]];
        i := i + 1;
      }
      assert orders[..i] == orders;

      var pending := byDate.Keys;
      while pending != {}
        invariant pending <= byDate.Keys
        invariant forall d :: d in byDate.Keys - pending ==> (platform, d) in files && files[(platform, d)] == byDate[d]
        invariant forall k :: k in files <==> k in old(files) || (k.0 == platform && k.1 in byDate.Keys - pending)
        invariant forall k :: k in old(files) && !(k.0 == platform && k.1 in byDate.Keys - pending) ==>
                    files[k] == old(files)[k]
        decreases pending
      {
        var d :| d in pending;
        files := files[(platform, d) := byDate[d]];
        pending := pending - {d};
      }
    }
  }
}
