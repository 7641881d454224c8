/**
 * The product record and the fixed sample catalog (`Product`, `SampleProducts`).
 * Prices are held in integer cents: 99.99 USD is 9999.
 */
module Catalog {
  import opened Wrappers

  /** An immutable catalog entry; `price` is in cents. */
  datatype Product = Product(
    id: string,
    name: string,
    description: string,
    price: int,
    currency: string,
    imageUrl: string,
    category: string,
    sku: string,
    brand: string)

  /** No two entries of `ps` share an id. */
  predicate DistinctIds(ps: seq<Product>)
  {
    forall i, j :: 0 <= i < j < |ps| ==> ps[i].id != ps[j].id
  }

  /** The six sample products, in the order `getProducts` lists them. */
  function Products(): (r: seq<Product>)
    ensures |r| == 6
    ensures forall i :: 0 <= i < |r| ==> r[i].id == "prod_00" + [('1' as int + i) as char]
    ensures forall i :: 0 <= i < |r| ==> r[i].currency == "USD" && r[i].price > 0
  {
    [ Product("prod_001", "Wireless Headphones", "Premium wireless headphones with noise cancellation",
              9999, "USD", "", "Electronics", "WH-001", "TechBrand"),
      Product("prod_002", "Smart Watch", "Fitness tracking smartwatch with heart rate monitor",
              19999, "USD", "", "Electronics", "SW-002", "TechBrand"),
      Product("prod_003", "Wireless Mouse", "Ergonomic wireless mouse with long battery life",
              2999, "USD", "", "Accessories", "WM-003", "TechBrand"),
      Product("prod_004", "USB-C Cable", "Fast charging USB-C cable, 6ft length",
              1299, "USD", "", "Accessories", "UC-004", "TechBrand"),
      Product("prod_005", "Laptop Stand", "Adjustable aluminum laptop stand",
              4999, "USD", "", "Accessories", "LS-005", "TechBrand"),
      Product("prod_006", "Mechanical Keyboard", "RGB mechanical keyboard with blue switches",
              7999, "USD", "", "Accessories", "MK-006", "TechBrand") ]
  }

  /** The catalog's ids are pairwise distinct: they differ in their last digit. */
  lemma CatalogIdsDistinct()
    ensures DistinctIds(Products())
  {
    var ps := Products();
    forall i, j | 0 <= i < j < |ps| ensures ps[i].id != ps[j].id {
      assert ps[i].id[7] != ps[j].id[7];
    }
  }

  /** Kotlin's `find { it.id == id }`: the first entry with that id, if any. */
  function FindById(ps: seq<Product>, id: string): (r: Option<Product>)
    ensures r.None? <==> forall i :: 0 <= i < |ps| ==> ps[i].id != id
    ensures r.Some? ==> exists i :: 0 <= i < |ps| && ps[i] == r.value && ps[i].id == id
                                    && forall j :: 0 <= j < i ==> ps[j].id != id
  {
    if ps == [] then None
    else if ps[0].id == id then Some(ps[0])
    else
      var r := FindById(ps[1..], id);
      if r.Some? then
        var i :| 0 <= i < |ps[1..]| && ps[1..][i] == r.value && ps[1..][i].id == id
                   && forall j :: 0 <= j < i ==> ps[1..][j].id != id;
        assert ps[i + 1] == r.value && ps[i + 1].id == id && forall j :: 0 <= j < i + 1 ==> ps[j].id != id;
        r
      else r
  }

  /** `getProductById`: the catalog entry with that id, or null (None). */
  function ProductById(id: string): (r: Option<Product>)
    ensures r.None? <==> forall i :: 0 <= i < |Products()| ==> Products()[i].id != id
    ensures r.Some? ==> r.value.id == id
    ensures r.Some? ==> exists i :: 0 <= i < |Products()| && Products()[i] == r.value
                                    && forall j :: 0 <= j < i ==> Products()[j].id != id
  {
    FindById(Products(), id)
  }

  /**
   * Among entries with distinct ids, looking up the id of entry k finds entry k:
   * the lookup is the inverse of reading an entry's id.
   */
  lemma {:induction false} FindByIdOfEntry(ps: seq<Product>, k: nat)
    requires DistinctIds(ps) && k < |ps|
    ensures FindById(ps, ps[k].id) == Some(ps[k])
  {
    if k > 0 {
      assert ps[0].id != ps[k].id;
      assert DistinctIds(ps[1..]) by {
        forall i, j | 0 <= i < j < |ps[1..]| ensures ps[1..][i].id != ps[1..][j].id {
          assert ps[1..][i] == ps[i + 1] && ps[1..][j] == ps[j + 1];
        }
      }
      FindByIdOfEntry(ps[1..], k - 1);
    }
  }

  /** Every catalog product is found by its own id. */
  lemma ProductByIdOfCatalogEntry(k: nat)
    requires k < |Products()|
    ensures ProductById(Products()[k].id) == Some(Products()[k])
  {
    CatalogIdsDistinct();
    FindByIdOfEntry(Products(), k);
  }
}
