/**
 * Client walk-throughs that use only the store's contracts: a checkout with a
 * sale-level discount, a refused line, a sale completed twice and an id that
 * is not reused.
 */
module Scenarios {
  import Store
  import Sales

  /** A store holding product 1 at price 10 with 5 units on hand. */
  method StockedStore() returns (store: Store.Supermarket)
    ensures fresh(store) && store.Valid() && store.StockNonNegative()
    ensures store.products.Keys == {1} && fresh(store.products[1])
    ensures store.products[1].price == 10.0 && store.products[1].quantity == 5
    ensures store.products[1].discount == 0.0
    ensures store.nextProductId == 2 && store.dailyRevenue == 0.0 && store.sales == [] && store.nextSaleId == 1
  {
    store := new Store.Supermarket();
    store.AddProduct("Rice", 10.0, 5, "Grocery", "Acme");
  }

  method CheckoutWithDiscount() {
    var store := StockedStore();
    var rice := store.products[1];
    var sale := store.CreateSale(0);
    store.AddToSale(sale, 1, 3);
    assert sale.items == [Sales.Line(1, 3, 10.0)];
    assert sale.totalAmount == 30.0;
    assert rice.quantity == 2;

    store.CompleteSale(sale, "cash", 0.1);
    assert store.dailyRevenue == 27.0 && store.monthlyRevenue == 27.0;

    // Nothing stops a second completion: the total is posted again.
    store.CompleteSale(sale, "cash", 0.1);
    assert store.dailyRevenue == 54.0 && store.monthlyRevenue == 54.0;
  }

  method RefusedLines() {
    var store := StockedStore();
    var rice := store.products[1];
    var sale := store.CreateSale(0);
    // More units than are on hand: the line is refused and nothing moves.
    store.AddToSale(sale, 1, 6);
    assert rice.quantity == 5 && sale.totalAmount == 0.0 && sale.items == [];
    // An unknown product is ignored just the same.
    store.AddToSale(sale, 7, 1);
    assert rice.quantity == 5 && sale.items == [];
  }

  method RemovedIdNotReused() {
    var store := StockedStore();
    store.RemoveProduct(1);
    store.AddProduct("Beans", 2.0, 4, "Grocery", "Acme");
    assert store.products.Keys == {2};
  }

  method RemoveUnknownEmployee() {
    var store := new Store.Supermarket();
    store.AddEmployee("Ana", "Clerk", 1200.0, "555-0100", "Mon");
    var before := store.employees;
    store.RemoveEmployee(999);
    assert store.employees == before;
    store.UpdateEmployee(1, 1300.0, "Supervisor");
    assert store.employees[1].salary == 1300.0 && store.employees[1].position == "Supervisor";
  }
}
