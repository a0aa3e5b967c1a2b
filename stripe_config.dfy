/**
 * The payment catalogue: the products offered through Stripe and the two
 * lookups over them.
 */
module StripeConfig {
  import opened Wrappers
  import opened Seqs

  datatype Mode = Payment | SubscriptionMode

  datatype StripeProduct = StripeProduct(
    id: string,
    priceId: string,
    name: string,
    description: string,
    price: real,
    currency: string,
    mode: Mode)

  const ProDescription :=
    "Unlock unlimited reports and advanced AI analysis tools to build a comprehensive, court-ready record of your co-parenting experience. "
    + "Gain deeper insights into behavioral patterns, get help drafting legal documents, and compile complete evidence packages instantly."

  /** The one product: the monthly Pro subscription. */
  const Pro := StripeProduct("prod_TCdl7iz93sLSrW", "price_1SGEUIFTI9a0AzKUFc18ATqx", "CustodyX.AI Pro",
                             ProDescription, 29.99, "usd", SubscriptionMode)

  const StripeProducts: seq<StripeProduct> := [Pro]

  /** The catalogue holds exactly one product, a subscription at 29.99 US dollars. */
  lemma CatalogueShape()
    ensures |StripeProducts| == 1
    ensures StripeProducts[0].mode == SubscriptionMode
    ensures StripeProducts[0].price == 29.99 && StripeProducts[0].currency == "usd"
  {
  }

  /** The first product with the given price id, or `None` (`undefined`) when there is none. */
  function GetProductByPriceId(priceId: string): (r: Option<StripeProduct>)
    ensures r.None? <==> forall i :: 0 <= i < |StripeProducts| ==> StripeProducts[i].priceId != priceId
    ensures r.Some? ==> r.value in StripeProducts && r.value.priceId == priceId
  {
    Find(StripeProducts, (p: StripeProduct) => p.priceId == priceId)
  }

  /** The first product with the given id, or `None` (`undefined`) when there is none. */
  function GetProductById(id: string): (r: Option<StripeProduct>)
    ensures r.None? <==> forall i :: 0 <= i < |StripeProducts| ==> StripeProducts[i].id != id
    ensures r.Some? ==> r.value in StripeProducts && r.value.id == id
  {
    Find(StripeProducts, (p: StripeProduct) => p.id == id)
  }

  /** Ids and price ids are unique in the catalogue. */
  predicate KeysUnique(products: seq<StripeProduct>) {
    forall i, j :: 0 <= i < j < |products| ==>
      products[i].id != products[j].id && products[i].priceId != products[j].priceId
  }

  /** Every catalogue product is found again by its own id and by its own price id. */
  lemma {:induction false} LookupsFindEachProduct(q: StripeProduct)
    requires q in StripeProducts
    ensures KeysUnique(StripeProducts)
    ensures GetProductById(q.id) == Some(q)
    ensures GetProductByPriceId(q.priceId) == Some(q)
  {
    assert StripeProducts[0] == q;
  }
}
