/**
 * A sale transaction. Lines accumulate one by one, each checked against the
 * live stock of its product; the running subtotal grows with every accepted
 * line, and a sale-level discount is applied when the total is read.
 */
module Sales {
  import Products
  import Fractions

  /**
   * One accepted line: the product's id, the units sold and the discounted
   * unit price the product had when the line was added. A snapshot, not a
   * reference, so it stays meaningful after the product is repriced or removed.
   */
  datatype Line = Line(productId: int, quantity: int, unitPrice: real) {
    function Amount(): real {
      unitPrice * quantity as real
    }
  }

  /** What the lines are worth before the sale-level discount. */
  function Subtotal(lines: seq<Line>): real {
    if lines == [] then 0.0 else lines[0].Amount() + Subtotal(lines[1..])
  }

  /** The units of product `productId` the lines account for. */
  function UnitsOf(lines: seq<Line>, productId: int): int {
    if lines == [] then 0
    else (if lines[0].productId == productId then lines[0].quantity else 0) + UnitsOf(lines[1..], productId)
  }

  lemma {:induction false} SubtotalAppend(a: seq<Line>, b: seq<Line>)
    ensures Subtotal(a + b) == Subtotal(a) + Subtotal(b)
  {
    if a != [] {
      assert (a + b)[1..] == a[1..] + b;
      SubtotalAppend(a[1..], b);
    } else {
      assert a + b == b;
    }
  }

  lemma {:induction false} UnitsOfAppend(a: seq<Line>, b: seq<Line>, productId: int)
    ensures UnitsOf(a + b, productId) == UnitsOf(a, productId) + UnitsOf(b, productId)
  {
    if a != [] {
      assert (a + b)[1..] == a[1..] + b;
      UnitsOfAppend(a[1..], b, productId);
    } else {
      assert a + b == b;
    }
  }

  /** Lines with non-negative units and prices never add up to a negative subtotal. */
  lemma {:induction false} SubtotalNonNegative(lines: seq<Line>)
    requires forall i :: 0 <= i < |lines| ==> lines[i].quantity >= 0 && lines[i].unitPrice >= 0.0
    ensures Subtotal(lines) >= 0.0
  {
    if lines != [] {
      SubtotalNonNegative(lines[1..]);
    }
  }

  class Sale {
    const id: int
    /** The creation time as the clock gave it; supplied by the caller. */
    const saleDate: int
    var items: seq<Line>
    var totalAmount: real
    var paymentMethod: string
    var discount: real

    /** The running subtotal is always the worth of the accepted lines. */
    ghost predicate Valid()
      reads this
    {
      totalAmount == Subtotal(items)
    }

    constructor (id: int, saleDate: int)
      ensures Valid()
      ensures this.id == id && this.saleDate == saleDate
      ensures items == [] && totalAmount == 0.0 && paymentMethod == "" && discount == 0.0
    {
      this.id := id;
      this.saleDate := saleDate;
      items := [];
      totalAmount := 0.0;
      paymentMethod := "";
      discount := 0.0;
    }

    /**
     * Accepts the line exactly when the product has at least `quantity` units
     * on hand. An accepted line is appended with the product's current
     * discounted price, the subtotal grows by that price times `quantity`, and
     * the product's stock shrinks by `quantity`. A refused line changes
     * nothing; so a one-unit line is taken exactly when the product was in
     * stock. Either way, stock on hand plus the units this sale holds of the
     * product is conserved.
     */
    method AddItem(product: Products.Product, quantity: int)
      requires Valid()
      modifies `items, `totalAmount, product`quantity
      ensures Valid()
      ensures old(product.quantity) >= quantity ==>
        && items == old(items) + [Line(product.id, quantity, old(product.DiscountedPrice()))]
        && totalAmount == old(totalAmount) + old(product.DiscountedPrice()) * quantity as real
        && product.quantity == old(product.quantity) - quantity
      ensures old(product.quantity) < quantity ==>
        items == old(items) && totalAmount == old(totalAmount) && product.quantity == old(product.quantity)
      ensures product.quantity + UnitsOf(items, product.id) == old(product.quantity) + UnitsOf(old(items), product.id)
      ensures quantity == 1 ==> (old(product.IsInStock()) <==> |items| == |old(items)| + 1)
    {
      if product.quantity >= quantity {
        var line := Line(product.id, quantity, product.DiscountedPrice());
        SubtotalAppend(items, [line]);
        UnitsOfAppend(items, [line], product.id);
        items := items + [line];
        totalAmount := totalAmount + product.DiscountedPrice() * quantity as real;
        product.UpdateStock(-quantity);
      }
    }

    method SetPaymentMethod(method_: string)
      modifies `paymentMethod
      ensures paymentMethod == method_
    {
      paymentMethod := method_;
    }

    /** The sale-level discount fraction; not range-checked. */
    method SetDiscount(disc: real)
      modifies `discount
      ensures discount == disc
    {
      discount := disc;
    }

    /**
     * The amount due: the worth of the accepted lines reduced by the
     * sale-level discount. Without a discount it is the subtotal; with a
     * fraction in [0, 1] and a non-negative subtotal it lies between 0 and
     * the subtotal.
     */
    function TotalAmount(): (r: real)
      reads this
      requires Valid()
      ensures r + Subtotal(items) * discount == Subtotal(items)
      ensures discount == 0.0 ==> r == Subtotal(items)
      ensures 0.0 <= discount <= 1.0 && 0.0 <= Subtotal(items) ==> 0.0 <= r <= Subtotal(items)
    {
      Fractions.ReducedWithin(totalAmount, discount);
      totalAmount * (1.0 - discount)
    }
  }
}
