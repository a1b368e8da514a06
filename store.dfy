/**
  The database as the handlers see it: one map from id to stored record per
  collection. Handlers read and reassign these maps; `Valid` collects the
  schema bounds the stored records keep.
*/
module Store {
  import opened Schemas
  import opened OrderModel

  /**
    Product prices are never negative (the product schema's minimum; its
    stock minimum is not kept, because the order routes move stock with
    `$inc`, which skips validation).
  */
  predicate PricesValid(products: map<ProductId, Product>) {
    forall id :: id in products ==> products[id].prix >= 0
  }

  /** Every stored order satisfies the order invariants. */
  predicate OrdersValid(orders: map<OrderId, OrderData>) {
    forall id :: id in orders ==> StoredOrderValid(orders[id])
  }

  /** Storing a valid order keeps the collection valid. */
  lemma PutOrderKeepsValid(orders: map<OrderId, OrderData>, id: OrderId, o: OrderData)
    requires OrdersValid(orders)
    requires StoredOrderValid(o)
    ensures OrdersValid(orders[id := o])
  {
  }

  /** Storing a product with a non-negative price keeps the price bound. */
  lemma PutProductKeepsPrices(products: map<ProductId, Product>, id: ProductId, p: Product)
    requires PricesValid(products)
    requires p.prix >= 0
    ensures PricesValid(products[id := p])
  {
  }

  class Database {
    var products: map<ProductId, Product>
    var orders: map<OrderId, OrderData>
    var categories: map<CategoryId, Category>
    var shops: map<ShopId, Shop>
    var users: map<UserId, User>

    predicate Valid()
      reads this
    {
      PricesValid(products) && OrdersValid(orders)
    }

    constructor ()
      ensures Valid()
      ensures products == map[] && orders == map[] && categories == map[] && shops == map[] && users == map[]
    {
      products := map[];
      orders := map[];
      categories := map[];
      shops := map[];
      users := map[];
    }
  }
}
