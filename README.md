# Supermarket store core, modelled in Dafny

This project models the in-memory store layer of the Super Market Management System
(`Super_Merket.cpp`). The store keeps a product catalogue and an employee roster, each
keyed by an integer id drawn from its own counter that only ever increases. It also keeps
a history of sales and two revenue accumulators, "daily" and "monthly". Adding an item to
a sale checks the product's live stock. If the stock is enough, the sale gets a new line,
its running subtotal grows by the discounted price times the quantity, and the product's
stock drops by the quantity. If not, nothing happens. Completing a sale records the
payment method and a sale-level discount, then adds the discounted total to both
accumulators.

Modules, one per class of the source plus two helpers:

- `Products` (`products.dfy`): class `Product`. Its price, stock and discount change in
  place through setters and `UpdateStock`. It also has the derived discounted price and
  the in-stock test.
- `Staff` (`employees.dfy`): class `Employee`. Its salary and position change in place.
- `Sales` (`sales.dfy`): class `Sale` and the value type `Line`. The module also holds the
  pure ledger functions `Subtotal` (what the lines are worth) and `UnitsOf` (how many units
  of one product the lines hold), with their lemmas. `Sale.Valid()` says the running
  `totalAmount` always equals `Subtotal(items)`.
- `Store` (`supermarket.dfy`): class `Supermarket`, which holds `map<int, Product>`,
  `map<int, Employee>`, `seq<Sale>`, the three counters and the two accumulators.
  `Valid()` states these invariants:
  - every record sits under its own id;
  - the ids handed out so far (ghost sets, kept even after a removal) are exactly those
    from 1 up to the counter;
  - sale `i` of the history has id `i + 1`;
  - both accumulators equal `Posted(postings)`, the sum of the totals completed sales have
    posted, so they are always equal.
- `Listing` (`listing.dfy`): the ascending key order in which the reports walk the
  ordered maps.
- `Fractions` (`fractions.dfy`): reducing an amount by a discount fraction in [0, 1].
- `Scenarios` (`scenarios.dfy`): client walk-throughs that use only the contracts. One sale
  buys 3 of 5 units at 10.00, has a subtotal of 30.00 and, completed with a 0.10 discount,
  posts 27.00 to each accumulator. A request for more units than are on hand is refused
  with nothing changed. A second completion posts the total again. A removed id is not
  handed out again.

Prices, discounts and revenue are exact `real`s. Stock quantities and ids are `int`s.
Timestamps are read from the clock in the source; here the caller supplies them as
parameters (`joinDate`, `saleDate`).

Where the code is looser than a careful design would be, the model follows the code:

- A request that exceeds stock, or names an unknown product, is silently ignored. It does
  not return an error.
- Discounts are not range-checked (`SetDiscount`, `CompleteSale`).
- `CompleteSale` has no guard against being called twice, and there is no finalized
  state: a second call posts the total again.
- A requested quantity is not checked to be non-negative. A negative request passes the
  stock check and raises the stock. It lowers the subtotal when the discounted unit price
  is positive.
- No quantity, price or salary is checked inside the store. Stock non-negativity
  (`StockNonNegative`) is therefore not an invariant of the store. Each operation instead
  proves that it keeps stock non-negative when the numbers passed to it are non-negative.
  The console front end reads some numbers through `getValidInput`
  (Super_Merket.cpp:230-243), which retries until the value is at least 0. These are:
  - `updateProduct`'s id, price and quantity (Super_Merket.cpp:294-296);
  - `removeProduct`'s id (line 302);
  - `updateEmployee`'s id and salary (lines 344-345);
  - `removeEmployee`'s id (line 355);
  - `addToSale`'s product id and quantity (lines 371-372);
  - the sale discount (line 381), which is bounded below only, so values above 1 pass.

  `addProduct`'s price and quantity (lines 280-282) and `addEmployee`'s salary
  (line 334) are read with a plain `cin >>` and not checked at all.
- The source's sale lines hold a pointer to the product and the quantity, nothing else.
  A `Line` holds the product id, the quantity and the discounted unit price that was added
  to the subtotal. This is a snapshot that stays meaningful after the product is repriced
  or removed.

## Model

| member | source | states |
|---|---|---|
| Products.Product.constructor | Super_Merket.cpp:27-28 | a new product has the given id, name, price, quantity, category and supplier, and discount 0 |
| Products.Product.SetPrice | Super_Merket.cpp:40 | overwrites the price; no other field changes |
| Products.Product.SetQuantity | Super_Merket.cpp:41 | overwrites the stock on hand; no other field changes |
| Products.Product.SetDiscount | Super_Merket.cpp:42 | overwrites the discount with any value (no range check); no other field changes |
| Products.Product.UpdateStock | Super_Merket.cpp:45 | stock becomes the old stock plus the signed delta; no other field changes |
| Products.Product.DiscountedPrice | Super_Merket.cpp:46 | the reduction from the list price is exactly price times discount; no discount leaves the list price; a discount in [0, 1] on a non-negative price gives a value between 0 and the price |
| Products.Product.IsInStock | Super_Merket.cpp:47 | in stock exactly when one unit can be taken without the stock going negative (with `Sales.Sale.AddItem`: a one-unit line is accepted exactly when the product was in stock) |
| Fractions.ReducedWithin | Super_Merket.cpp:46 | reducing a non-negative amount by a fraction in [0, 1] gives a result between 0 and the amount |
| Staff.Employee.constructor | Super_Merket.cpp:61-65 | a new employee has the given id, name, position, salary, contact and join time |
| Staff.Employee.SetSalary | Super_Merket.cpp:76 | overwrites the salary; no other field changes |
| Staff.Employee.SetPosition | Super_Merket.cpp:77 | overwrites the position; no other field changes |
| Sales.SubtotalAppend | Super_Merket.cpp:98 | the worth of two runs of lines joined is the sum of their worths, so adding one line to a running subtotal keeps it equal to the worth of all the lines |
| Sales.UnitsOfAppend | Super_Merket.cpp:97-99 | the units of a product held by two runs of lines joined is the sum of the units held by each run |
| Sales.SubtotalNonNegative | Super_Merket.cpp:98 | lines with non-negative quantities and unit prices have a non-negative subtotal |
| Sales.Sale.constructor | Super_Merket.cpp:91-93 | a new sale has the given id and date, no lines, subtotal 0, discount 0 and an empty payment method |
| Sales.Sale.AddItem | Super_Merket.cpp:95-101 | if the product has at least the requested units: appends one line (product id, quantity, current discounted price), adds that price times the quantity to the subtotal, and lowers the product's stock by the quantity; otherwise lines, subtotal and stock are all unchanged; so a one-unit line is taken exactly when the product was in stock; in both cases stock plus the units this sale holds of the product is conserved, and the subtotal stays equal to the worth of the lines |
| Sales.Sale.SetPaymentMethod | Super_Merket.cpp:103 | overwrites the payment method; no other field changes |
| Sales.Sale.SetDiscount | Super_Merket.cpp:104 | overwrites the sale-level discount with any value; no other field changes |
| Sales.Sale.TotalAmount | Super_Merket.cpp:105 | the total is the subtotal of the lines less subtotal times the sale discount; no discount leaves the subtotal; a discount in [0, 1] on a non-negative subtotal gives a value between 0 and the subtotal |
| Store.Supermarket.constructor | Super_Merket.cpp:124 | a new store is empty, all three counters start at 1 and both accumulators at 0 |
| Store.Supermarket.AddProduct | Super_Merket.cpp:127-130 | files a new product (discount 0) under the current counter, which was never handed out before, even for a product since removed; the counter goes up by one; existing records are untouched; stock stays non-negative for a non-negative quantity |
| Store.Supermarket.UpdateProduct | Super_Merket.cpp:132-137 | no change for an absent id; otherwise overwrites exactly that product's price and quantity, and every other field and record is unchanged |
| Store.Supermarket.RemoveProduct | Super_Merket.cpp:139-144 | the catalogue loses exactly the given key (no change if absent); counters and issued ids are unchanged |
| Store.Supermarket.AddEmployee | Super_Merket.cpp:147-150 | files a new employee under the current counter, which was never handed out before; the counter goes up by one; existing records are untouched |
| Store.Supermarket.UpdateEmployee | Super_Merket.cpp:152-157 | no change for an absent id; otherwise overwrites exactly that employee's salary and position, and every other record is unchanged |
| Store.Supermarket.RemoveEmployee | Super_Merket.cpp:159-164 | the roster loses exactly the given key (no change if absent) |
| Store.Supermarket.CreateSale | Super_Merket.cpp:167-171 | opens a fresh, empty sale with the current sale counter as its id, distinct from every earlier sale's id; appends it to the history at once; the counter goes up by one |
| Store.Supermarket.AddToSale | Super_Merket.cpp:173-177 | unknown product or too little stock: sale and stock unchanged; otherwise the sale takes the line and only that product's stock drops by the quantity; no other product changes; a non-negative request keeps all stock non-negative |
| Store.Supermarket.CompleteSale | Super_Merket.cpp:179-184 | sets payment method and discount on the sale, then adds the sale's discounted total to both daily and monthly revenue, which remain equal; neither falls when the discount is in [0, 1] and no line has a negative quantity or unit price; a repeated call posts again |
| Store.Supermarket.InventoryReport | Super_Merket.cpp:187-199 | one row (id, name, price, quantity, category) per catalogued product, taken from that product, in strictly ascending id order and covering every id |
| Store.Supermarket.SalesReport | Super_Merket.cpp:201-205 | reports the two accumulators, which are equal and are the sum of all posted totals |
| Store.Supermarket.EmployeeReport | Super_Merket.cpp:207-219 | one row (id, name, position, salary, contact) per employee, taken from that record, in strictly ascending id order and covering every id |
| Listing.LeastExists | Super_Merket.cpp:193 | every non-empty finite set of ids has a least element |
| Listing.KeysAscending | Super_Merket.cpp:193 | lists every key of a map exactly once, in strictly ascending order, as an ordered map is walked |

## Left out

- `main` (Super_Merket.cpp:245-417) and `getValidInput` (Super_Merket.cpp:230-243): these
  are the console menu and its input retry loops, which are I/O. The retry loop's rule,
  that a value read through it is at least 0, appears as the "non-negative" hypotheses in
  the stock and revenue contracts. It covers only the numbers listed above.
- Report formatting (`cout`, `setw`, `setprecision`): the reports return rows instead of
  printing them.
- Clock reads (`time(0)`, `ctime`) in the `Employee` and `Sale` constructors: the caller
  supplies the value.
- `new`/`delete` and the destructor (Super_Merket.cpp:222-226): memory management. This
  includes the dangling `Product*` a sale keeps after `removeProduct`; sale lines are id
  snapshots here.
- IEEE `double` rounding: prices, discounts, salaries and revenue are exact reals.
- 32-bit `int` wrap-around: the id counters and stock quantities are unbounded integers.
  The source would overflow only after about 2^31 additions, or on stock values near the
  `int` limit.
- The one-line getters of `Product`, `Employee` and `Sale`: each is a plain field read,
  and the fields are public in the model.
- Store.Supermarket.CompleteSale: a discount above 1, or lines with a negative quantity or
  price, lower revenue. No-decrease is proved only under the hypotheses that rule these out,
  because the source checks none of them.
