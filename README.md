# pod-crawlers: normalisation, date partitioning and daily cost aggregation, in Dafny

pod-crawlers fetches orders from three print-on-demand platforms: Printful,
Printify and Burger Prints. Each platform's crawler maps a raw order (a JSON
dict) onto one shared schema: `StandardizedOrder`, with its `Customer` and
`OrderItem` parts. `OrderStorage` writes the normalised orders to one file per
platform and calendar date. `generate_cost_report.py` reads stored orders back
and builds a table of daily costs per platform.

This project models that core and proves properties of it:

- `models.dfy` (module `Models`): the three pydantic models as datatypes with
  their defaults. It also holds the pydantic v2 lax-mode validation of `str`,
  `Optional[str]` and `int` fields.
- `python.dfy` (module `Python`): the Python semantics the core relies on:
  - a JSON value type;
  - the exception kinds;
  - dict subscript versus `.get`;
  - `float()` and `str()` / f-string formatting;
  - iteration over a value;
  - truthiness;
  - `str.replace` of one character;
  - `str.split(c)[0]`.
- `normalize.dfy` (module `Normalize`): what the three crawlers share:
  - the response envelope `data.get(key, [])`;
  - the loop "convert each element in order; the first exception escapes";
  - the conversion of one line item.
- `printful.dfy`, `printify.dfy`, `burger_prints.dfy`: one module per crawler.
  Each holds the customer mapping, `_convert_to_standardized` as a function and
  as a method with the item loop, and `get_orders` after the HTTP request, as a
  loop. The Printify crawler is a class whose mutable `shopId` field guards
  `get_orders`.
- `order_storage.dfy` (module `Storage`): `OrderStorage.save_orders`. It groups
  orders by date as a map. The store is a map from (platform, date) to the
  orders that file holds, and writing a file replaces that entry.
- `cost_report.dfy` (module `CostReport`): `get_date_from_filename`, and the
  aggregation in `main` from the three order lists down to the table sorted by
  date.

Conventions of the model:

- A Python exception is an `Err` of a `Result`.
- Money is `real`.
- Library routines whose behaviour the model does not define are fields of a
  `Runtime` value that every operation takes as a parameter:
  - `float(str)`;
  - pydantic's string-to-int coercion;
  - `datetime.fromisoformat`;
  - `datetime.fromtimestamp`;
  - `strftime("%Y-%m-%d")`;
  - `str()` of floats and containers.

  These routines may fail, and the model carries their failure
  (`ValueError`, validation error) through every path.

Failure behaviour of the code, as the model states it:

- a malformed record raises out of `get_orders`, and the whole batch fails;
- prices and totals are copied from the record, or recomputed from the items,
  without any unit conversion;
- a missing required key raises;
- `save_orders` overwrites the file for a date.

## Model

| member | source | states |
|---|---|---|
| Models.Defaults | models/order.py:5-32 | Customer defaults: name "Unknown Customer", every other field "". OrderItem's variant, size and color default to None. StandardizedOrder's tracking_number defaults to None. |
| Models.StrField | models/order.py:14-16 | A `str` field accepts exactly a string, keeps it, and otherwise raises a validation error. |
| Models.OptStrField | models/order.py:6-11 | An `Optional[str]` field accepts exactly None or a string, and holds None exactly for None. |
| Models.IntField | models/order.py:15 | An `int` field accepts exactly an int, a bool, an integral float or an integer string. An int is kept unchanged and an integral float keeps its value. |
| Python.Index | crawlers/printful.py:35 | `d[k]` succeeds exactly when d is a dict holding k. A missing key raises KeyError(k); a non-dict raises TypeError. |
| Python.Get | crawlers/printful.py:58 | `d.get(k, default)` succeeds exactly on a dict, giving the value or the default; on anything else it raises AttributeError. |
| Python.ToFloat | crawlers/printful.py:49 | `float(x)`: ints and floats convert to their value, True to 1.0 and False to 0.0. A string goes through the runtime parser, or raises ValueError when the parser rejects it. None, lists and dicts raise TypeError. |
| Python.FromTimestamp | crawlers/printful.py:64 | `datetime.fromtimestamp`: succeeds exactly for a number the runtime accepts, giving the runtime's date. |
| Python.ReplaceChar | crawlers/printify.py:70 | `s.replace(c, rep)` for a one-character pattern; its meaning is given by ReplaceCharConcat, ReplaceCharAbsent, ReplaceCharRemoves and ReplaceCharIdempotent. |
| Python.IsoText | crawlers/printify.py:70 | After `replace('Z', '+00:00')` no 'Z' is left, and text without a 'Z' is unchanged. |
| Python.ReplaceCharConcat | crawlers/printify.py:70 | Replacement distributes over concatenation. |
| Python.ReplaceCharAbsent | crawlers/printify.py:70 | Text without the pattern comes back unchanged. |
| Python.ReplaceCharRemoves | crawlers/printify.py:70 | When the replacement holds no 'Z', the result holds no 'Z'. |
| Python.ReplaceCharIdempotent | crawlers/printify.py:70 | Replacing twice is the same as replacing once. |
| Python.FromIsoFormat | crawlers/burger_prints.py:63 | `datetime.fromisoformat(v.replace(...))`: a non-string raises AttributeError. A string gives the runtime's parse of the replaced text, and ValueError when the runtime rejects that text. |
| Python.PyStr | crawlers/printful.py:63 | `str(x)`: a string is itself, an int its decimal form, True "True" and False "False", None "None". |
| Python.IntToDecimal | crawlers/printful.py:63 | `str(i)` for an int: non-empty, with a leading '-' exactly for negative i. IntToDecimalRoundTrip and IntToDecimalInjective give the rest of its meaning. |
| Python.IntToDecimalRoundTrip | crawlers/printful.py:63 | The decimal form of an integer id reads back as that integer. |
| Python.IntToDecimalInjective | crawlers/printify.py:69 | Distinct integer ids give distinct `order_id` strings. |
| Python.Iterate | crawlers/printful.py:45 | `for x in v`: a list yields its elements, a string its characters, an empty dict nothing. A non-empty dict, None, a bool or a number raises TypeError. |
| Python.Truthy | generate_cost_report.py:218 | Python truthiness: None, False, 0, 0.0, "", [] and {} are false. What follows from it for the report's date test is stated by CostReport.OrderDay. |
| Python.SplitFirst | generate_cost_report.py:218 | `s.split(c)[0]` is the prefix of s before the first c: a prefix with no c, followed in s by c unless it is all of s. |
| Python.SplitFirstUnique | generate_cost_report.py:13 | That prefix is the only prefix with those properties. |
| Normalize.MapResult | crawlers/printful.py:25-30 | The append loop over a list where each conversion may raise. A success has one result per element. MapResultOk, MapResultFirstError and MapResultPrefixErr give the rest of its meaning. |
| Normalize.MapResultOk | crawlers/printful.py:25-30 | The append loop succeeds exactly when every element converts. On success the results match the elements one to one and in order. |
| Normalize.MapResultFirstError | crawlers/printful.py:26-28 | On failure the exception is that of the first failing element, and every earlier element converted. |
| Normalize.MapResultPrefixErr | crawlers/burger_prints.py:25-27 | Once a prefix has failed, later elements do not change the outcome. |
| Normalize.Records | crawlers/printful.py:26 | A missing envelope key gives no records; the envelope value is iterated; a non-dict response raises AttributeError. |
| Normalize.ConvertItem | crawlers/printful.py:46-53 | An item converts exactly when its name is a string, its quantity int-coercible, its price float-convertible, and its variant, size and color absent, None or strings. The product name, quantity, price, variant, size and color are the ones read from the item. |
| Normalize.ItemsOf | crawlers/printful.py:44-54 | The item loop. On a list, a success has one item per element, and an empty list gives no items. ItemsOfSucceedsIff and ItemsOfOneToOne give the rest of its meaning. |
| Normalize.ItemsOfSucceedsIff | crawlers/printful.py:44-54 | The item loop succeeds exactly on a list of well-formed items, an empty string or an empty dict. |
| Normalize.ItemsOfOneToOne | crawlers/printify.py:50-60 | Items map one to one and in order from the items list. |
| Normalize.ExtractItems | crawlers/burger_prints.py:43-54 | The append loop over the items computes exactly the item list defined above, the first failure included. |
| Normalize.LineTotal | crawlers/printful.py:57 | `sum(price * quantity)` over the items; it is non-negative when every price and quantity is. LineTotalAppend gives its additivity. |
| Normalize.LineTotalAppend | crawlers/printful.py:57 | The recomputed subtotal sums price × quantity over a concatenation part by part (and is 0 for no items). |
| Printful.CustomerOf | crawlers/printful.py:34-41 | The customer exists exactly when recipient has name, surname, and string-or-None address1, city, country_code and zip, and email is absent or string-or-None. Its name is name, a space, surname; its email defaults to ""; its country is country_code. |
| Printful.Convert | crawlers/printful.py:32-73 | platform "printful"; order_id is `str(id)`; the date comes from the timestamp `created`; the customer and items are as above; subtotal is the sum of price × quantity; shipping_cost is 0 when absent; total = subtotal + shipping; status and tracking_number are copied; raw_data is the input unchanged. |
| Printful.ConvertSucceedsIff | crawlers/printful.py:32-73 | A record converts exactly when it is well formed, stated key by key. |
| Printful.ConvertToStandardized | crawlers/printful.py:32-73 | The method with the item loop computes exactly `Convert`. |
| Printful.OrdersOf | crawlers/printful.py:25-30 | A response without `result` gives an empty list. |
| Printful.OrdersOfOneToOne | crawlers/printful.py:25-30 | get_orders succeeds exactly when every record is well formed, and then gives one order per record, in order. Otherwise one malformed record fails the batch with the first failing record's exception. |
| Printful.GetOrders | crawlers/printful.py:25-30 | The batch loop computes exactly `OrdersOf`. |
| Printify.CustomerOf | crawlers/printify.py:40-47 | Name is shipping.first_name, a space, last_name. Email is the top-level `email`, which is required. Address, city, country and zip come from shipping. Succeeds exactly when those keys hold acceptable values. |
| Printify.Convert | crawlers/printify.py:38-79 | platform "printify"; order_id is `str(id)`; subtotal, shipping_cost and total_cost are `float` of subtotal, shipping_cost and total_price, with no recomputation; the date is the ISO parse of created_at with 'Z' replaced by '+00:00'; items come from line_items via title and variant_title; raw_data is the input unchanged. |
| Printify.ConvertSucceedsIff | crawlers/printify.py:38-79 | A record converts exactly when it is well formed. |
| Printify.ConvertToStandardized | crawlers/printify.py:38-79 | The method with the item loop computes exactly `Convert`. |
| Printify.OrdersOf | crawlers/printify.py:31-36 | A response without `data` gives an empty list. |
| Printify.OrdersOfOneToOne | crawlers/printify.py:31-36 | One order per record, in order, exactly when every record is well formed; otherwise the first failure's exception. |
| Printify.PrintifyCrawler.constructor | crawlers/printify.py:8-11 | A new crawler has no shop id. |
| Printify.PrintifyCrawler.SetShopId | crawlers/printify.py:13-14 | Stores the given id. Nothing else changes: the token is immutable. |
| Printify.PrintifyCrawler.GetOrders | crawlers/printify.py:16-36 | With the shop id unset or empty it raises "Shop ID must be set before fetching orders" and reads nothing. Otherwise it computes exactly `OrdersOf`. |
| BurgerPrints.CustomerOf | crawlers/burger_prints.py:33-40 | Name and email come from `customer`; address, city, country and zip from `shipping`. Succeeds exactly when those keys hold acceptable values. |
| BurgerPrints.Convert | crawlers/burger_prints.py:31-72 | platform "burger_prints"; totals are `float` of subtotal, shipping_cost and total; the date is the ISO parse of created_at with 'Z' replaced; items come from product_name and variant_name; tracking_number is None when absent; raw_data is the input unchanged. |
| BurgerPrints.ConvertSucceedsIff | crawlers/burger_prints.py:31-72 | A record converts exactly when it is well formed. |
| BurgerPrints.ConvertToStandardized | crawlers/burger_prints.py:31-72 | The method with the item loop computes exactly `Convert`. |
| BurgerPrints.OrdersOf | crawlers/burger_prints.py:24-29 | A response without `orders` gives an empty list. |
| BurgerPrints.OrdersOfOneToOne | crawlers/burger_prints.py:24-29 | One order per record, in order, exactly when every record is well formed. Otherwise a single malformed record aborts the batch with its exception. |
| BurgerPrints.GetOrders | crawlers/burger_prints.py:24-29 | The batch loop computes exactly `OrdersOf`. |
| Storage.GroupByDate | storage/order_storage.py:20-25 | The `orders_by_date` dict: no group is empty, and the last order's date is a key. GroupByDateIsFilter, OnDateCount and GroupsPartitionOrders give its meaning. |
| Storage.GroupByDateIsFilter | storage/order_storage.py:20-25 | The grouping has a key exactly for each date that occurs. The group of a date is the orders of that date in input order. |
| Storage.OnDateOutside | storage/order_storage.py:23-24 | A date no order has collects nothing. |
| Storage.OnDateCount | storage/order_storage.py:21-25 | Every order occurs in its own date's group as often as in the input, and in no other group. |
| Storage.GroupsPartitionOrders | storage/order_storage.py:20-25 | Every input order lands in the group of its own date, with no loss or duplication, and in no other group. |
| Storage.OrderStorage.constructor | storage/order_storage.py:8-10 | A new store keeps the files already under its base path. |
| Storage.OrderStorage.SaveOrders | storage/order_storage.py:12-42 | An empty list changes nothing. Otherwise, exactly one file per distinct date is written, at (platform, date). Its contents are replaced by that date's group. Every other file is untouched. |
| CostReport.DateFromFilename | generate_cost_report.py:11-13 | The date is the prefix of the file name before the first '.'. |
| CostReport.OrderDay | generate_cost_report.py:218-219 | A missing or falsy `order_date` (None, "", 0, [], {}) gives no date. A truthy non-string raises AttributeError. A string gives its prefix before the first space, or no date when that prefix is empty. A non-dict order raises AttributeError. |
| CostReport.FinalPrice | generate_cost_report.py:220 | `final_price` is 0 when absent and otherwise `float` of its value. |
| CostReport.AddCost | generate_cost_report.py:221-222 | `daily_costs[d][col] += p; daily_costs[d]["total"] += p`: date d gains p in column col and in its total, and every other date keeps its costs. At most one row is added. |
| CostReport.CostsOnUnique | generate_cost_report.py:213 | With distinct dates, looking up a row's date gives that row's costs. |
| CostReport.Step | generate_cost_report.py:217-222 | An undated order leaves the table unchanged. A dated order with a price is `AddCost` of its date, its platform column and its price. |
| CostReport.AddCostSums | generate_cost_report.py:221-222 | Adding a price adds it to the grand total and to its own platform's column, and to no other column. |
| CostReport.AddCostShape | generate_cost_report.py:213-238 | Adding a price adds its date to the table and keeps the dates distinct. It keeps every row's total equal to the sum of its three columns. |
| CostReport.AccumulateFacts | generate_cost_report.py:216-238 | A platform loop adds exactly the prices of that platform's dated orders, to its column and to the totals. It adds exactly their dates and keeps rows balanced and dates distinct. |
| CostReport.Accumulate | generate_cost_report.py:216-222 | One platform loop, the first exception aborting. AccumulateFacts, AccumulateOn and AccumulatePrefixErr give its meaning. |
| CostReport.AccumulateOn | generate_cost_report.py:216-222 | A platform loop adds to date e, in its own column and in the total, the prices of exactly the orders dated e. It leaves the other columns of e alone. |
| CostReport.AccumulatePrefixErr | generate_cost_report.py:216-222 | Once an order has raised, the rest of the loop does not change the outcome. |
| CostReport.AccumulatePlatform | generate_cost_report.py:216-222 | The loop over one platform's orders, updating the table in place, computes exactly `Accumulate`, the first exception included. |
| CostReport.DailyCostsFacts | generate_cost_report.py:213-238 | After the three loops:<br>• there is one balanced row per date of some dated order;<br>• each column sums to that platform's dated prices;<br>• the grand total is the sum over all three platforms. |
| CostReport.DailyCosts | generate_cost_report.py:213-238 | The three loops in order: Printful, Printify, Burger Prints. DailyCostsFacts and DailyCostsOn give its meaning. |
| CostReport.DailyCostsOn | generate_cost_report.py:213-238 | After the three loops, every date holds, per platform, the sum of `final_price` over that platform's orders of that date. Its total is the sum over all three platforms. |
| CostReport.ReportRows | generate_cost_report.py:247-250 | With no dated order the frame has no `date` column, and sorting raises KeyError('date'). A table that is produced is never empty. |
| CostReport.LexLtIrreflexive | generate_cost_report.py:250 | No date string sorts before itself. |
| CostReport.LexLtTransitive | generate_cost_report.py:250 | String order is transitive. |
| CostReport.LexLtTotal | generate_cost_report.py:250 | Distinct date strings are ordered one way or the other. |
| CostReport.InsertContents | generate_cost_report.py:250 | Inserting a row adds it to the rows, to the dates and to every sum. |
| CostReport.InsertSorted | generate_cost_report.py:250 | Inserting a new date into strictly sorted rows keeps them strictly sorted. |
| CostReport.SortByDate | generate_cost_report.py:250 | `sort_values('date')`; it keeps the length. SortByDateContents and SortByDateSorted give its meaning. |
| CostReport.SortByDateContents | generate_cost_report.py:250 | Sorting is a permutation, and keeps the dates and all sums. |
| CostReport.SortByDateSorted | generate_cost_report.py:250 | Rows with distinct dates sort into strictly increasing date order. |
| CostReport.PermutationBalanced | generate_cost_report.py:241-250 | Reordering balanced rows keeps them balanced. |
| CostReport.StrictlySortedIncreasing | generate_cost_report.py:250 | In the sorted table every earlier date is below every later one. |
| CostReport.StrictlySortedUnique | generate_cost_report.py:241-250 | The sorted table has one row per date. |
| CostReport.ReportRowsFacts | generate_cost_report.py:213-250 | The table written:<br>• has one row per distinct date that some order has, sorted by date;<br>• in each row, each platform column is the sum of `final_price` over that platform's orders of that row's date;<br>• every row's total equals the sum of its three columns;<br>• each column sums to its platform's dated `final_price`s, and the totals to those of all three platforms. |
| CostReport.BuildDailyTable | generate_cost_report.py:213-250 | The three loops, the row list and the sort compute exactly `ReportRows`. |

## Left out

- HTTP transport (`requests.get`, `raise_for_status`, endpoint and query parameters, bearer headers in crawlers/base.py): network calls. The parsed response is the parameter `data` of each `GetOrders`.
- crawlers/base.py: an abstract class whose only behaviour is header construction and an unused date-range helper. It is not part of this model.
- jobs/crawl_orders.py: environment, logging and scheduling plumbing. It calls a `get_shop_id` that Printify's crawler does not define. It is not part of this model.
- crawlers/test_printful.py: a manual live-API script. It is not part of this model.
- `load_orders_from_dir`, `create_cost_plots`, `analyze_data`, `generate_report` and the CSV write in generate_cost_report.py: filesystem, plotting and pandas statistics. The three stored-order lists are parameters of `CostReport.BuildDailyTable`.
- IEEE floating point: money is `real`, so rounding of `float` arithmetic is not modelled.
- Date parsing and formatting (`fromisoformat`, `fromtimestamp`, `strftime`), `float` of a string, pydantic's integer-string coercion and `str()` of floats and containers: opaque routines, taken as fields of a `Runtime` parameter. Only the 'Z' → '+00:00' replacement is modelled.
- Python.FromTimestamp: every rejected timestamp raises ValueError. Python raises OverflowError or OSError for some out-of-range values, and the model does not distinguish those kinds.
- Validation errors carry only the model's name, not pydantic's error detail. Messages of Python's own exceptions are not modelled beyond their kind.
- `raw_data: dict` validation: every record that reaches it has already been subscripted as a dict, so that check cannot fail.
- Storage.OrderStorage.SaveOrders: JSON serialisation (`model_dump`, `json.dump`) and `os.makedirs` are not modelled; a file holds the orders themselves.
- Storage.OrderStorage.SaveOrders: the write loop visits the dates in an arbitrary order rather than the dict's insertion order. The final store is the same either way, because each date writes its own file.
- Python.Iterate: iterating over a non-empty dict yields its string keys, which the crawlers then subscript with a string. That raises TypeError, so the model raises TypeError at the iteration itself.
- `final_price` is produced by no crawler; the report reads it from stored records with default 0, and the model takes it as an optional field of the input records.
- `daily_costs` is an insertion-ordered list of rows with distinct dates, since a Python dict keeps insertion order. The list `data` built from its items holds the same rows in the same order.
- CostReport.ReportRows: pandas' `sort_values` is modelled by an insertion sort under Python's string order. Dates are distinct, so any correct sort gives the same table.
