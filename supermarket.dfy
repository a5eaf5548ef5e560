/**
 * The store: the product catalogue and the employee roster keyed by id, the
 * history of sales, the three id counters and the two revenue accumulators.
 */
module Store {
  import Products
  import Staff
  import Sales
  import Listing

  /** The sum of the totals posted to revenue, in posting order. */
  function Posted(totals: seq<real>): real {
    if totals == [] then 0.0 else Posted(totals[..|totals| - 1]) + totals[|totals| - 1]
  }

  /** No line has a negative quantity or unit price. */
  ghost predicate LinesNonNegative(lines: seq<Sales.Line>) {
    forall i :: 0 <= i < |lines| ==> lines[i].quantity >= 0 && lines[i].unitPrice >= 0.0
  }

  class Supermarket {
    var products: map<int, Products.Product>
    var employees: map<int, Staff.Employee>
    var sales: seq<Sales.Sale>
    var nextProductId: int
    var nextEmployeeId: int
    var nextSaleId: int
    var dailyRevenue: real
    var monthlyRevenue: real

    /** Every product id ever handed out, including those of removed products. */
    ghost var issuedProductIds: set<int>
    /** Every employee id ever handed out, including those of removed employees. */
    ghost var issuedEmployeeIds: set<int>
    /** The totals posted by completed sales, in order. */
    ghost var postings: seq<real>

    /**
     * Each record sits under its own id; the ids handed out so far are exactly
     * 1 up to the counter, exclusive; the sale history holds sales 1, 2, ...
     * in creation order; and both revenue accumulators equal the sum of the
     * posted totals.
     */
    ghost predicate Valid()
      reads this
    {
      && (forall k :: k in products ==> products[k].id == k)
      && products.Keys <= issuedProductIds
      && (forall k :: k in issuedProductIds <==> 1 <= k < nextProductId)
      && (forall k :: k in employees ==> employees[k].id == k)
      && employees.Keys <= issuedEmployeeIds
      && (forall k :: k in issuedEmployeeIds <==> 1 <= k < nextEmployeeId)
      && 1 <= nextProductId && 1 <= nextEmployeeId
      && nextSaleId == |sales| + 1
      && (forall i :: 0 <= i < |sales| ==> sales[i].id == i + 1)
      && dailyRevenue == Posted(postings)
      && monthlyRevenue == Posted(postings)
    }

    /** No product has negative stock on hand. */
    ghost predicate StockNonNegative()
      reads this, products.Values
    {
      forall k :: k in products ==> products[k].quantity >= 0
    }

    constructor ()
      ensures Valid() && StockNonNegative()
      ensures products == map[] && employees == map[] && sales == []
      ensures nextProductId == 1 && nextEmployeeId == 1 && nextSaleId == 1
      ensures dailyRevenue == 0.0 && monthlyRevenue == 0.0
      ensures issuedProductIds == {} && issuedEmployeeIds == {} && postings == []
    {
      products := map[];
      employees := map[];
      sales := [];
      nextProductId := 1;
      nextEmployeeId := 1;
      nextSaleId := 1;
      dailyRevenue := 0.0;
      monthlyRevenue := 0.0;
      issuedProductIds := {};
      issuedEmployeeIds := {};
      postings := [];
    }

    // Product management

    /**
     * Files a new product, without discount, under the current counter, an id
     * never handed out before, and advances the counter. The existing records
     * are untouched.
     */
    method AddProduct(name: string, price: real, quantity: int, category: string, supplier: string)
      requires Valid()
      modifies `products, `nextProductId, `issuedProductIds
      ensures Valid()
      ensures old(nextProductId) !in old(issuedProductIds) && old(nextProductId) !in old(products)
      ensures nextProductId == old(nextProductId) + 1
      ensures issuedProductIds == old(issuedProductIds) + {old(nextProductId)}
      ensures products.Keys == old(products.Keys) + {old(nextProductId)}
      ensures forall k :: k in old(products) ==> products[k] == old(products[k])
      ensures var p := products[old(nextProductId)];
        && fresh(p)
        && p.name == name && p.price == price && p.quantity == quantity
        && p.category == category && p.supplier == supplier && p.discount == 0.0
      ensures old(StockNonNegative()) && quantity >= 0 ==> StockNonNegative()
    {
      var product := new Products.Product(nextProductId, name, price, quantity, category, supplier);
      nextProductId := nextProductId + 1;
      issuedProductIds := issuedProductIds + {product.id};
      products := products[product.id := product];
    }

    /**
     * Overwrites price and stock of the product filed under `id`; does nothing
     * if there is none. Every other field and every other record is unchanged.
     */
    method UpdateProduct(id: int, price: real, quantity: int)
      requires Valid()
      modifies if id in products then {products[id]} else {}
      ensures Valid() && unchanged(this)
      ensures id in products ==>
        && products[id].price == price && products[id].quantity == quantity
        && products[id].discount == old(products[id].discount)
      ensures forall k :: k in products && k != id ==>
        products[k].price == old(products[k].price) && products[k].quantity == old(products[k].quantity)
      ensures old(StockNonNegative()) && quantity >= 0 ==> StockNonNegative()
    {
      if id in products {
        products[id].SetPrice(price);
        products[id].SetQuantity(quantity);
      }
    }

    /** Deletes exactly the record filed under `id`; nothing if there is none. */
    method RemoveProduct(id: int)
      requires Valid()
      modifies `products
      ensures Valid()
      ensures products == old(products) - {id}
      ensures old(StockNonNegative()) ==> StockNonNegative()
    {
      if id in products {
        products := products - {id};
      }
    }

    // Employee management

    /**
     * Files a new employee under the current counter, an id never handed out
     * before, and advances the counter. `joinDate` is the clock's reading.
     */
    method AddEmployee(name: string, position: string, salary: real, contact: string, joinDate: string)
      requires Valid()
      modifies `employees, `nextEmployeeId, `issuedEmployeeIds
      ensures Valid()
      ensures old(nextEmployeeId) !in old(issuedEmployeeIds) && old(nextEmployeeId) !in old(employees)
      ensures nextEmployeeId == old(nextEmployeeId) + 1
      ensures issuedEmployeeIds == old(issuedEmployeeIds) + {old(nextEmployeeId)}
      ensures employees.Keys == old(employees.Keys) + {old(nextEmployeeId)}
      ensures forall k :: k in old(employees) ==> employees[k] == old(employees[k])
      ensures var e := employees[old(nextEmployeeId)];
        && fresh(e)
        && e.name == name && e.position == position && e.salary == salary
        && e.contact == contact && e.joinDate == joinDate
    {
      var employee := new Staff.Employee(nextEmployeeId, name, position, salary, contact, joinDate);
      nextEmployeeId := nextEmployeeId + 1;
      issuedEmployeeIds := issuedEmployeeIds + {employee.id};
      employees := employees[employee.id := employee];
    }

    /**
     * Overwrites salary and position of the employee filed under `id`; does
     * nothing if there is none. Every other record is unchanged.
     */
    method UpdateEmployee(id: int, salary: real, position: string)
      requires Valid()
      modifies if id in employees then {employees[id]} else {}
      ensures Valid() && unchanged(this)
      ensures id in employees ==> employees[id].salary == salary && employees[id].position == position
      ensures forall k :: k in employees && k != id ==>
        employees[k].salary == old(employees[k].salary) && employees[k].position == old(employees[k].position)
    {
      if id in employees {
        employees[id].SetSalary(salary);
        employees[id].SetPosition(position);
      }
    }

    /** Deletes exactly the record filed under `id`; nothing if there is none. */
    method RemoveEmployee(id: int)
      requires Valid()
      modifies `employees
      ensures Valid()
      ensures employees == old(employees) - {id}
    {
      if id in employees {
        employees := employees - {id};
      }
    }

    // Sales management

    /**
     * Opens an empty sale under the current sale counter, records it in the
     * history at once and advances the counter. `saleDate` is the clock's reading.
     */
    method CreateSale(saleDate: int) returns (sale: Sales.Sale)
      requires Valid()
      modifies `sales, `nextSaleId
      ensures Valid()
      ensures fresh(sale) && sale.Valid()
      ensures sale.id == old(nextSaleId) && sale.saleDate == saleDate
      ensures sale.items == [] && sale.totalAmount == 0.0 && sale.discount == 0.0 && sale.paymentMethod == ""
      ensures sales == old(sales) + [sale]
      ensures nextSaleId == old(nextSaleId) + 1
      ensures forall i :: 0 <= i < |old(sales)| ==> old(sales)[i].id != sale.id
    {
      sale := new Sales.Sale(nextSaleId, saleDate);
      nextSaleId := nextSaleId + 1;
      sales := sales + [sale];
    }

    /**
     * Offers `quantity` units of the product filed under `productId` to the
     * sale. Nothing happens when there is no such product or when it has
     * fewer units on hand; otherwise the sale takes the line and that one
     * product's stock shrinks by `quantity`. No other product changes, and a
     * non-negative request cannot drive any stock below zero.
     */
    method AddToSale(sale: Sales.Sale, productId: int, quantity: int)
      requires Valid() && sale.Valid()
      modifies sale`items, sale`totalAmount
      modifies if productId in products then {products[productId]} else {}
      ensures Valid() && sale.Valid() && unchanged(this)
      ensures productId in products && old(products[productId].quantity) >= quantity ==>
        var p := products[productId];
        && sale.items == old(sale.items) + [Sales.Line(productId, quantity, old(p.DiscountedPrice()))]
        && sale.totalAmount == old(sale.totalAmount) + old(p.DiscountedPrice()) * quantity as real
        && p.quantity == old(p.quantity) - quantity
      ensures !(productId in products && old(products[productId].quantity) >= quantity) ==>
        && sale.items == old(sale.items) && sale.totalAmount == old(sale.totalAmount)
        && (productId in products ==> products[productId].quantity == old(products[productId].quantity))
      ensures productId in products ==>
        products[productId].price == old(products[productId].price)
        && products[productId].discount == old(products[productId].discount)
      ensures forall k :: k in products && k != productId ==> products[k].quantity == old(products[k].quantity)
      ensures old(StockNonNegative()) && quantity >= 0 ==> StockNonNegative()
    {
      if productId in products {
        sale.AddItem(products[productId], quantity);
      }
    }

    /**
     * Records payment method and sale-level discount on the sale, then posts
     * the sale's discounted total to both the daily and the monthly revenue.
     * Nothing stops a sale from being completed twice: each call posts again.
     * Revenue cannot fall when the discount lies in [0, 1] and no line has a
     * negative quantity or unit price; outside that, the source's unchecked
     * numbers can lower it.
     */
    method CompleteSale(sale: Sales.Sale, paymentMethod: string, discount: real := 0.0)
      requires Valid() && sale.Valid()
      modifies `dailyRevenue, `monthlyRevenue, `postings, sale`paymentMethod, sale`discount
      ensures Valid() && sale.Valid()
      ensures sale.paymentMethod == paymentMethod && sale.discount == discount
      ensures postings == old(postings) + [sale.TotalAmount()]
      ensures dailyRevenue == old(dailyRevenue) + sale.TotalAmount()
      ensures monthlyRevenue == old(monthlyRevenue) + sale.TotalAmount()
      ensures dailyRevenue == monthlyRevenue
      ensures 0.0 <= discount <= 1.0 && LinesNonNegative(sale.items) ==>
        dailyRevenue >= old(dailyRevenue) && monthlyRevenue >= old(monthlyRevenue)
    {
      if LinesNonNegative(sale.items) {
        Sales.SubtotalNonNegative(sale.items);
      }
      sale.SetPaymentMethod(paymentMethod);
      sale.SetDiscount(discount);
      postings := postings + [sale.TotalAmount()];
      assert postings[..|postings| - 1] == old(postings);
      dailyRevenue := dailyRevenue + sale.TotalAmount();
      monthlyRevenue := monthlyRevenue + sale.TotalAmount();
    }

    // Reporting

    /** The inventory listing: one row per catalogued product, in ascending id order. */
    method InventoryReport() returns (rows: seq<Products.InventoryRow>)
      requires Valid()
      ensures forall i, j :: 0 <= i < j < |rows| ==> rows[i].id < rows[j].id
      ensures forall i :: 0 <= i < |rows| ==> rows[i].id in products && rows[i] == products[rows[i].id].Row()
      ensures forall k :: k in products ==> exists i :: 0 <= i < |rows| && rows[i].id == k
    {
      var ks := Listing.KeysAscending(products.Keys);
      rows := [];
      var n := 0;
      while n < |ks|
        invariant 0 <= n <= |ks| && |rows| == n
        invariant forall i :: 0 <= i < n ==> rows[i] == products[ks[i]].Row()
      {
        rows := rows + [products[ks[n]].Row()];
        n := n + 1;
      }
      forall k | k in products
        ensures exists i :: 0 <= i < |rows| && rows[i].id == k
      {
        var i :| 0 <= i < |ks| && ks[i] == k;
        assert rows[i].id == k;
      }
    }

    /** The employee listing: one row per employee on the roster, in ascending id order. */
    method EmployeeReport() returns (rows: seq<Staff.EmployeeRow>)
      requires Valid()
      ensures forall i, j :: 0 <= i < j < |rows| ==> rows[i].id < rows[j].id
      ensures forall i :: 0 <= i < |rows| ==> rows[i].id in employees && rows[i] == employees[rows[i].id].Row()
      ensures forall k :: k in employees ==> exists i :: 0 <= i < |rows| && rows[i].id == k
    {
      var ks := Listing.KeysAscending(employees.Keys);
      rows := [];
      var n := 0;
      while n < |ks|
        invariant 0 <= n <= |ks| && |rows| == n
        invariant forall i :: 0 <= i < n ==> rows[i] == employees[ks[i]].Row()
      {
        rows := rows + [employees[ks[n]].Row()];
        n := n + 1;
      }
      forall k | k in employees
        ensures exists i :: 0 <= i < |rows| && rows[i].id == k
      {
        var i :| 0 <= i < |ks| && ks[i] == k;
        assert rows[i].id == k;
      }
    }

    /** The revenue summary: the two accumulators, which always agree. */
    method SalesReport() returns (daily: real, monthly: real)
      requires Valid()
      ensures daily == dailyRevenue && monthly == monthlyRevenue
      ensures daily == monthly && daily == Posted(postings)
    {
      daily, monthly := dailyRevenue, monthlyRevenue;
    }
  }
}
