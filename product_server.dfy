/**
 * The product catalogue demo service of
 * grpc-service/productInfo-server/productInfo-server.go: `AddProduct` files
 * a product under a freshly generated id and `GetProduct` looks one up.
 * The product map starts out nil (`None`) and is made on the first add.
 * `uuid.NewUUID` is an input: the new id, or the error as `fmt` renders a
 * stray argument (`type=value`).
 */
module ProductInfo {
  import opened Wrappers
  import opened Grpc

  datatype Product = Product(id: string, name: string, description: string, price: real)

  /**
   * The status of a failed id generation: the format string has no verb
   * for the error, so `fmt` appends it as an extra argument.
   */
  function IdGenerationFailed(rendered: string): (s: Status)
    ensures s.code == Internal
    ensures "Error while generating product id" <= s.message
  {
    Status(Internal, "Error while generating product id%!(EXTRA " + rendered + ")")
  }

  /** The status of a missing product: again the id is an extra argument with no verb. */
  function ProductNotFound(id: string): (s: Status)
    ensures s.code == NotFound
    ensures "Product not found." <= s.message && |s.message| > |id| && s.message[|s.message| - |id| - 1..] == id + ")"
  {
    Status(NotFound, "Product not found.%!(EXTRA string=" + id + ")")
  }

  /** Every product filed under its own id. */
  ghost predicate KeyedById(products: map<string, Product>)
  {
    forall id :: id in products ==> products[id].id == id
  }

  class ProductInfoServer {
    /** `productMap`; `None` is the nil map of a fresh server. */
    var productMap: Option<map<string, Product>>

    /** The products stored; a nil map reads as empty. */
    function Products(): map<string, Product>
      reads this
    {
      if productMap.None? then map[] else productMap.value
    }

    ghost predicate Valid()
      reads this
    {
      KeyedById(Products())
    }

    constructor ()
      ensures Valid() && productMap == None
    {
      productMap := None;
    }

    /**
     * `AddProduct`: on an id-generation error nothing changes; otherwise the
     * product takes the new id, the map is made if it was nil, the product
     * is filed under its id (replacing any holder of that id) and the id is
     * returned.
     */
    method AddProduct(product: Product, newId: Result<string, string>) returns (r: Result<string, Status>)
      requires Valid()
      modifies this
      ensures Valid()
      ensures newId.Failure? ==> r == Failure(IdGenerationFailed(newId.error)) && productMap == old(productMap)
      ensures newId.Success? ==> r == Success(newId.value) && productMap.Some?
      ensures newId.Success? ==> Products() == old(Products())[newId.value := product.(id := newId.value)]
    {
      if newId.Failure? {
        return Failure(IdGenerationFailed(newId.error));
      }
      var stored := product.(id := newId.value);
      if productMap.None? {
        productMap := Some(map[]);
      }
      productMap := Some(productMap.value[stored.id := stored]);
      return Success(stored.id);
    }

    /** `GetProduct`: the product filed under the id, or NotFound. */
    method GetProduct(id: string) returns (r: Result<Product, Status>)
      requires Valid()
      ensures id in Products() ==> r == Success(Products()[id]) && r.value.id == id
      ensures id !in Products() ==> r == Failure(ProductNotFound(id))
    {
      if productMap.Some? && id in productMap.value {
        return Success(productMap.value[id]);
      }
      return Failure(ProductNotFound(id));
    }
  }

  /**
   * Round trip: a product added under a generated id is returned by a lookup
   * of that id, with its name, description and price intact, while every
   * other id still looks up as before.
   */
  method AddThenGet(server: ProductInfoServer, product: Product, newId: Result<string, string>, other: string)
    returns (added: Result<string, Status>, got: Result<Product, Status>, otherBefore: Result<Product, Status>,
             otherAfter: Result<Product, Status>)
    requires server.Valid() && newId.Success? && other != newId.value
    modifies server
    ensures added == Success(newId.value)
    ensures got.Success? && got.value.id == newId.value
    ensures got.value.name == product.name && got.value.description == product.description
    ensures got.value.price == product.price
    ensures otherAfter == otherBefore
  {
    otherBefore := server.GetProduct(other);
    added := server.AddProduct(product, newId);
    got := server.GetProduct(added.value);
    otherAfter := server.GetProduct(other);
  }

  /** A fresh server knows no product. */
  method GetFromFreshServer(id: string) returns (r: Result<Product, Status>)
    ensures r == Failure(ProductNotFound(id)) && r.error.code == NotFound
  {
    var server := new ProductInfoServer();
    r := server.GetProduct(id);
  }
}
