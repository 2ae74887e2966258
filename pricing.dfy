/**
  The price of a cart, as `getCartDetails` computes it: every item costs its
  unit cost minus the owner's personal discount (taken off per item, with no
  floor at zero), the items are summed front to back, and when the
  goods-and-services tax flag is set the sum is multiplied by 1.1 as the very
  last step. All amounts are exact rationals.
*/
module Pricing {
  import opened Directory

  /** The sum, front to back, of (cost - discount) over the items of `cart`. */
  function Subtotal(cart: seq<Product>, discount: real): real
  {
    if cart == [] then 0.0
    else Subtotal(cart[..|cart| - 1], discount) + (Cost(cart[|cart| - 1]) - discount)
  }

  /** The tax rate factor: 1.1 is exactly eleven tenths here. */
  const TaxFactor: real := 1.1

  /** `amount`, taxed when `gst` is set. */
  function WithTax(amount: real, gst: bool): real
  {
    if gst then amount * TaxFactor else amount
  }

  /** The `totalCost` of `user`'s `cart`. */
  function CartTotal(cart: seq<Product>, user: User, gst: bool): real
  {
    WithTax(Subtotal(cart, Discount(user)), gst)
  }

  /** The number of copies of `p` in `cart`. */
  function Count(cart: seq<Product>, p: Product): nat
  {
    multiset(cart)[p]
  }

  /**
    The discount is taken once per item, not once per cart: the subtotal is
    the list price of the cart minus `|cart|` discounts.
  */
  lemma {:induction false} DiscountPerItem(cart: seq<Product>, discount: real)
    ensures Subtotal(cart, discount) == Subtotal(cart, 0.0) - (|cart| as real) * discount
  {
    if cart != [] {
      DiscountPerItem(cart[..|cart| - 1], discount);
    }
  }

  /**
    The list price of a cart (its subtotal before discounts) depends only on
    how many of each product it holds, not on the order they were added in.
  */
  lemma {:induction false} ListPriceByCounts(cart: seq<Product>)
    ensures Subtotal(cart, 0.0)
         == (Count(cart, ProductA) as real) * Cost(ProductA)
          + (Count(cart, ProductB) as real) * Cost(ProductB)
  {
    if cart != [] {
      var init, last := cart[..|cart| - 1], cart[|cart| - 1];
      assert cart == init + [last];
      assert multiset(cart) == multiset(init) + multiset{last};
      ListPriceByCounts(init);
    }
  }

  /** Reordering a cart does not change its total. */
  lemma OrderIndependent(a: seq<Product>, b: seq<Product>, user: User, gst: bool)
    requires multiset(a) == multiset(b)
    ensures CartTotal(a, user, gst) == CartTotal(b, user, gst)
  {
    assert |a| == |multiset(a)| == |multiset(b)| == |b|;
    ListPriceByCounts(a);
    ListPriceByCounts(b);
    DiscountPerItem(a, Discount(user));
    DiscountPerItem(b, Discount(user));
  }

  /** Adding items to a cart adds their subtotal to the cart's. */
  lemma {:induction false} SubtotalAppend(a: seq<Product>, b: seq<Product>, discount: real)
    ensures Subtotal(a + b, discount) == Subtotal(a, discount) + Subtotal(b, discount)
  {
    if b != [] {
      var init := b[..|b| - 1];
      assert (a + b)[..|a + b| - 1] == a + init;
      assert (a + b)[|a + b| - 1] == b[|b| - 1];
      SubtotalAppend(a, init, discount);
    } else {
      assert a + b == a;
    }
  }

  /**
    With the catalogue as it is, every item costs at least 10 - 2.35 after
    discount, so an untaxed subtotal lies between the cheapest and the
    dearest price per item times the number of items, and is never negative.
  */
  lemma {:induction false} SubtotalBounds(cart: seq<Product>, user: User)
    ensures (|cart| as real) * (Cost(ProductA) - Discount(user))
         <= Subtotal(cart, Discount(user))
         <= (|cart| as real) * (Cost(ProductB) - Discount(user))
    ensures Subtotal(cart, Discount(user)) >= 0.0
  {
    if cart != [] {
      SubtotalBounds(cart[..|cart| - 1], user);
    }
  }

  /**
    The worked example of the shop: Laura (discount 1.00) with one of each
    product pays (10.00 - 1.00) + (35.70 - 1.00) = 43.70, or 48.07 with tax.
  */
  lemma LauraPays()
    ensures CartTotal([ProductA, ProductB], Laura, false) == 43.7
    ensures CartTotal([ProductA, ProductB], Laura, true) == 48.07
    ensures CartTotal([ProductB, ProductA], Laura, true) == 48.07
  {
    assert [ProductA, ProductB][..1] == [ProductA];
    assert [ProductB, ProductA][..1] == [ProductB];
    assert [ProductA][..0] == [] && [ProductB][..0] == [];
  }
}
