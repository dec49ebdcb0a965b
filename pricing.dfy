/** The price arithmetic of order creation: the sum of the product prices,
    counted once per list entry, and the stock condition every entry must meet. */
module Pricing {
  import opened Models

  /** The sum of the prices of all entries, in list order. It is defined on
      the last entry so that it grows exactly as an accumulator that walks
      the list from the front. */
  function SumPrices(products: seq<ProductModel>): real
  {
    if products == [] then 0.0
    else SumPrices(products[..|products| - 1]) + products[|products| - 1].price
  }

  /** Every entry has at least one unit in stock. */
  predicate AllInStock(products: seq<ProductModel>)
  {
    forall i :: 0 <= i < |products| ==> products[i].stock >= 1
  }

  /** The sum over a concatenation is the sum of the sums. */
  lemma {:induction false} SumPricesAppend(a: seq<ProductModel>, b: seq<ProductModel>)
    ensures SumPrices(a + b) == SumPrices(a) + SumPrices(b)
    decreases |b|
  {
    if b == [] {
      assert a + b == a;
    } else {
      var front := b[..|b| - 1];
      assert (a + b)[..|a + b| - 1] == a + front;
      SumPricesAppend(a, front);
    }
  }

  /** Taking one entry out of a list lowers the sum by that entry's price. */
  lemma {:induction false} SumPricesRemoveAt(products: seq<ProductModel>, j: nat)
    requires j < |products|
    ensures SumPrices(products) == SumPrices(products[..j] + products[j + 1..]) + products[j].price
  {
    var x := products[j];
    assert products == products[..j] + [x] + products[j + 1..];
    SumPricesAppend(products[..j] + [x], products[j + 1..]);
    SumPricesAppend(products[..j], [x]);
    SumPricesAppend(products[..j], products[j + 1..]);
    assert SumPrices([x]) == x.price by {
      assert [x][..0] == [];
    }
  }

  /** Taking the last entry of one list and an equal entry of a list with the
      same entries leaves two lists with the same entries. */
  lemma SameEntriesAfterRemoval(a: seq<ProductModel>, b: seq<ProductModel>, j: nat)
    requires multiset(a) == multiset(b) && a != []
    requires j < |b| && b[j] == a[|a| - 1]
    ensures multiset(a[..|a| - 1]) == multiset(b[..j] + b[j + 1..])
  {
    var x := b[j];
    assert a == a[..|a| - 1] + [x];
    assert b == b[..j] + [x] + b[j + 1..];
    assert multiset(a[..|a| - 1]) == multiset(a) - multiset{x};
    assert multiset(b[..j] + b[j + 1..]) == multiset(b) - multiset{x};
  }

  /** The total does not depend on the order of the entries: two lists
      holding the same entries the same number of times sum alike. */
  lemma {:induction false} SumPricesPermutation(a: seq<ProductModel>, b: seq<ProductModel>)
    requires multiset(a) == multiset(b)
    ensures SumPrices(a) == SumPrices(b)
    decreases |a|
  {
    if a == [] {
      assert |b| == |multiset(b)| == 0;
    } else {
      var x := a[|a| - 1];
      assert x in multiset(b) by {
        assert a == a[..|a| - 1] + [x];
      }
      var j :| 0 <= j < |b| && b[j] == x;
      SameEntriesAfterRemoval(a, b, j);
      SumPricesPermutation(a[..|a| - 1], b[..j] + b[j + 1..]);
      SumPricesRemoveAt(b, j);
    }
  }

  /** n entries of the same product cost n times its price. */
  lemma {:induction false} SumPricesOfCopies(p: ProductModel, n: nat)
    ensures SumPrices(seq(n, _ => p)) == n as real * p.price
  {
    if n > 0 {
      var copies := seq(n, _ => p);
      assert copies[..n - 1] == seq(n - 1, _ => p);
      SumPricesOfCopies(p, n - 1);
    }
  }

  /** Adding one more entry for a product already in the list, anywhere in
      the list, raises the sum by exactly that product's price. */
  lemma {:induction false} SumPricesExtraCopy(products: seq<ProductModel>, i: nat, k: nat)
    requires i < |products| && k <= |products|
    ensures SumPrices(products[..k] + [products[i]] + products[k..])
         == SumPrices(products) + products[i].price
  {
    var x := products[i];
    assert products == products[..k] + products[k..];
    SumPricesAppend(products[..k] + [x], products[k..]);
    SumPricesAppend(products[..k], [x]);
    SumPricesAppend(products[..k], products[k..]);
    assert SumPrices([x]) == x.price by {
      assert [x][..0] == [];
    }
  }
}
