/**
 * The catalogue entry of the supermarket. Identity and descriptive fields are
 * fixed when the product is created; price, stock on hand and the product's
 * own discount fraction are updated in place.
 */
module Products {
  import Fractions

  /** One line of the inventory listing: the columns the inventory report shows. */
  datatype InventoryRow = InventoryRow(id: int, name: string, price: real, quantity: int, category: string)

  class Product {
    const id: int
    const name: string
    const category: string
    const supplier: string
    var price: real
    var quantity: int
    var discount: real

    /** A new product carries no discount. */
    constructor (id: int, name: string, price: real, quantity: int, category: string, supplier: string)
      ensures this.id == id && this.name == name && this.category == category && this.supplier == supplier
      ensures this.price == price && this.quantity == quantity && this.discount == 0.0
    {
      this.id := id;
      this.name := name;
      this.price := price;
      this.quantity := quantity;
      this.category := category;
      this.supplier := supplier;
      this.discount := 0.0;
    }

    method SetPrice(newPrice: real)
      modifies `price
      ensures price == newPrice
    {
      price := newPrice;
    }

    method SetQuantity(newQuantity: int)
      modifies `quantity
      ensures quantity == newQuantity
    {
      quantity := newQuantity;
    }

    /** The fraction is not range-checked. */
    method SetDiscount(newDiscount: real)
      modifies `discount
      ensures discount == newDiscount
    {
      discount := newDiscount;
    }

    /** Applies a signed change to the stock on hand; no lower bound is enforced here. */
    method UpdateStock(amount: int)
      modifies `quantity
      ensures quantity == old(quantity) + amount
    {
      quantity := quantity + amount;
    }

    /**
     * The unit price after the product's own discount. Without a discount it
     * is the list price; with a discount fraction in [0, 1] and a non-negative
     * price it lies between 0 and the list price, and the reduction is
     * exactly `price * discount`.
     */
    function DiscountedPrice(): (r: real)
      reads this
      ensures discount == 0.0 ==> r == price
      ensures r + price * discount == price
      ensures 0.0 <= discount <= 1.0 && 0.0 <= price ==> 0.0 <= r <= price
    {
      Fractions.ReducedWithin(price, discount);
      price * (1.0 - discount)
    }

    /** In stock exactly when one unit can be taken without the stock going negative. */
    predicate IsInStock()
      reads this
      ensures IsInStock() <==> quantity - 1 >= 0
    {
      quantity > 0
    }

    /** The inventory report's row for this product. */
    function Row(): InventoryRow
      reads this
    {
      InventoryRow(id, name, price, quantity, category)
    }
  }
}
