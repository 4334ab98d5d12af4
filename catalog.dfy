/**
 * The product catalog: a fixed, read-only list of ten products with lookup by
 * id (first match), filter by category (catalog order kept) and "all products".
 * Prices are whole rupees.
 */
module Catalog {
  import opened Wrappers

  /**
   * A catalog entry; `category` is optional. The display-only image URL and
   * description are not part of this model.
   */
  datatype Product = Product(id: int, name: string, price: int, category: Option<string>)

  /** The catalog, in definition order. */
  const Products: seq<Product> := [
    Product(1, "Boat Airdopes 131", 1299, Some("Electronics")),
    Product(2, "Noise ColorFit Pro 4", 2999, Some("Electronics")),
    Product(3, "Tata Coffee Gold", 299, Some("Food & Beverage")),
    Product(4, "Fabindia Cotton Kurta", 1299, Some("Clothing")),
    Product(5, "OnePlus Wireless Charger", 1999, Some("Electronics")),
    Product(6, "Himalayan Salt Lamp", 899, Some("Home & Office")),
    Product(7, "Yoga Mat by Decathlon", 599, Some("Sports & Fitness")),
    Product(8, "Terracotta Tea Set", 799, Some("Home & Office")),
    Product(9, "Kashmiri Saffron", 2499, Some("Food & Beverage")),
    Product(10, "Banarasi Silk Saree", 8999, Some("Clothing"))
  ]

  /** `find` over `ps`: the first product whose id is `id`, or None. */
  function FindById(ps: seq<Product>, id: int): (r: Option<Product>)
    ensures r.None? <==> forall i :: 0 <= i < |ps| ==> ps[i].id != id
    ensures r.Some? ==>
      exists k :: 0 <= k < |ps| && ps[k] == r.value && ps[k].id == id &&
        forall j :: 0 <= j < k ==> ps[j].id != id
  {
    if ps == [] then None
    else if ps[0].id == id then Some(ps[0])
    else FindById(ps[1..], id)
  }

  /** `filter` over `ps`: the products whose category is `c`, in the order of `ps`. */
  function FilterByCategory(ps: seq<Product>, c: string): (r: seq<Product>)
    ensures forall p :: p in r <==> p in ps && p.category == Some(c)
    ensures |r| <= |ps|
  {
    if ps == [] then []
    else if ps[0].category == Some(c) then [ps[0]] + FilterByCategory(ps[1..], c)
    else FilterByCategory(ps[1..], c)
  }

  /** The catalog product with the given id, if any. */
  function GetProductById(id: int): (r: Option<Product>)
    ensures r.None? <==> forall i :: 0 <= i < |Products| ==> Products[i].id != id
    ensures r.Some? ==> r.value in Products && r.value.id == id
  {
    FindById(Products, id)
  }

  /** The catalog products of the given category, in catalog order. */
  function GetProductsByCategory(category: string): (r: seq<Product>)
    ensures forall p :: p in r <==> p in Products && p.category == Some(category)
  {
    FilterByCategory(Products, category)
  }

  /**
   * The whole catalog. Every product it returns has a positive id, a
   * non-empty name and a positive price, and there are at least five.
   */
  function GetAllProducts(): (r: seq<Product>)
    ensures |r| >= 5
    ensures forall i :: 0 <= i < |r| ==> r[i].id > 0 && |r[i].name| > 0 && r[i].price > 0
  {
    Products
  }

  /** Catalog ids are exactly 1..10, in order, hence pairwise distinct. */
  lemma CatalogIds()
    ensures |Products| == 10
    ensures forall i :: 0 <= i < |Products| ==> Products[i].id == i + 1
    ensures forall i, j :: 0 <= i < j < |Products| ==> Products[i].id != Products[j].id
  {
  }

  /** In a list whose ids are its positions plus one, lookup succeeds exactly on 1..|ps|. */
  lemma {:induction false} FindByIdPositionalIds(ps: seq<Product>, id: int)
    requires forall i :: 0 <= i < |ps| ==> ps[i].id == i + 1
    ensures FindById(ps, id).Some? <==> 1 <= id <= |ps|
    ensures FindById(ps, id).Some? ==> FindById(ps, id).value == ps[id - 1]
  {
    if 1 <= id <= |ps| {
      assert ps[id - 1].id == id;
    }
    var r := FindById(ps, id);
    if r.Some? {
      var k :| 0 <= k < |ps| && ps[k] == r.value && ps[k].id == id &&
        forall j :: 0 <= j < k ==> ps[j].id != id;
      assert k == id - 1;
    }
  }

  /** Lookup succeeds exactly on the ids 1..10 and yields the product at that position. */
  lemma GetProductByIdSucceedsExactlyOnCatalogIds(id: int)
    ensures GetProductById(id).Some? <==> 1 <= id <= 10
    ensures GetProductById(id).Some? ==> GetProductById(id).value == Products[id - 1]
  {
    CatalogIds();
    FindByIdPositionalIds(Products, id);
  }

  /** An id outside the catalog, such as 9999, is not found. */
  lemma UnknownIdIsAbsent()
    ensures GetProductById(9999) == None
  {
    GetProductByIdSucceedsExactlyOnCatalogIds(9999);
  }

  /** Product 1 costs 1299 rupees. */
  lemma ProductOnePrice()
    ensures GetProductById(1).Some? && GetProductById(1).value.price == 1299
  {
    GetProductByIdSucceedsExactlyOnCatalogIds(1);
  }

  /** Filtering distributes over concatenation: the result keeps the order of the input. */
  lemma {:induction false} FilterByCategoryAppend(a: seq<Product>, b: seq<Product>, c: string)
    ensures FilterByCategory(a + b, c) == FilterByCategory(a, c) + FilterByCategory(b, c)
  {
    if a == [] {
      assert a + b == b;
    } else {
      assert (a + b)[0] == a[0];
      assert (a + b)[1..] == a[1..] + b;
      FilterByCategoryAppend(a[1..], b, c);
    }
  }

  /** Every lookup and every category listing returns elements of the whole catalog. */
  lemma LookupsReturnCatalogProducts(id: int, category: string)
    ensures GetProductById(id).Some? ==> GetProductById(id).value in GetAllProducts()
    ensures forall p :: p in GetProductsByCategory(category) ==> p in GetAllProducts()
  {
  }
}
