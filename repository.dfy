/** The product repository the service sits over: paged listing, lookup,
    upsert and unconditional delete, with an in-memory store as the
    persistence engine. */
module Repository {
  import opened Wrappers
  import opened Model

  /** Spring Data refuses a page size below one. */
  type PageSize = n: nat | 1 <= n witness 10

  /** A page request: zero-based page index and page size. */
  datatype Pageable = Pageable(pageNumber: nat, pageSize: PageSize)

  /** One page of the ordered collection, with the size of the whole collection. */
  datatype Page = Page(content: seq<Product>, pageable: Pageable, totalElements: nat)

  function Min(a: int, b: int): int { if a <= b then a else b }

  /** Position of the first element of the requested page. */
  function Offset(p: Pageable): nat { p.pageNumber * p.pageSize }

  /** The page `p` of `items`: the elements from `Offset(p)` on, at most
      `pageSize` of them, in their order; empty past the end. */
  function PageOf(items: seq<Product>, p: Pageable): (page: Page)
    ensures page.pageable == p && page.totalElements == |items|
    ensures |page.content| == if Offset(p) < |items| then Min(p.pageSize, |items| - Offset(p)) else 0
    ensures forall k :: 0 <= k < |page.content| ==> page.content[k] == items[Offset(p) + k]
  {
    var start := Offset(p);
    if start < |items| then Page(items[start..start + Min(p.pageSize, |items| - start)], p, |items|)
    else Page([], p, |items|)
  }

  /** A collection of 25 products gives two full pages of 10 and a last page of 5. */
  lemma PagesOfTwentyFive(items: seq<Product>)
    requires |items| == 25
    ensures |PageOf(items, Pageable(0, 10)).content| == 10
    ensures |PageOf(items, Pageable(1, 10)).content| == 10
    ensures |PageOf(items, Pageable(2, 10)).content| == 5
    ensures |PageOf(items, Pageable(3, 10)).content| == 0
    ensures PageOf(items, Pageable(0, 10)).totalElements == 25
  {
  }

  ghost predicate Distinct(s: seq<Id>)
  {
    forall i, j :: 0 <= i < j < |s| ==> s[i] != s[j]
  }

  ghost function Elems(s: seq<Id>): set<Id>
  {
    set x | x in s
  }

  /** A sequence without repetitions has as many elements as its set. */
  lemma {:induction false} DistinctLength(s: seq<Id>)
    requires Distinct(s)
    ensures |Elems(s)| == |s|
  {
    if s != [] {
      assert Distinct(s[1..]) by {
        forall i, j | 0 <= i < j < |s[1..]| ensures s[1..][i] != s[1..][j] {
          assert s[1..][i] == s[i + 1] && s[1..][j] == s[j + 1];
        }
      }
      DistinctLength(s[1..]);
      assert Elems(s) == Elems(s[1..]) + {s[0]};
      assert s[0] !in Elems(s[1..]) by {
        forall j | 0 <= j < |s[1..]| ensures s[1..][j] != s[0] {
          assert s[1..][j] == s[j + 1];
        }
      }
    }
  }

  /** `s` with every occurrence of `x` removed, the rest in order. */
  function Without(s: seq<Id>, x: Id): (r: seq<Id>)
    ensures forall y :: y in r <==> y in s && y != x
    ensures x !in s ==> r == s
    ensures Distinct(s) ==> Distinct(r)
  {
    if s == [] then []
    else if s[0] == x then Without(s[1..], x)
    else
      var rest := Without(s[1..], x);
      assert Distinct(s) ==> s[0] !in s[1..];
      assert Distinct(s) ==> Distinct(s[1..]) by {
        if Distinct(s) {
          forall i, j | 0 <= i < j < |s[1..]| ensures s[1..][i] != s[1..][j] {
            assert s[1..][i] == s[i + 1] && s[1..][j] == s[j + 1];
          }
        }
      }
      [s[0]] + rest
  }

  /** The stored products listed in the order of `ids`. */
  function InOrder(m: map<Id, Product>, ids: seq<Id>): (r: seq<Product>)
    requires forall k :: 0 <= k < |ids| ==> ids[k] in m
    ensures |r| == |ids|
    ensures forall k :: 0 <= k < |ids| ==> r[k] == m[ids[k]]
  {
    if ids == [] then [] else [m[ids[0]]] + InOrder(m, ids[1..])
  }

  /** A write the store performed, for stating how many saves and deletes an
      operation makes and with what arguments. */
  datatype Write = Saved(product: Product) | Deleted(id: Id)

  /** The persistence engine. Records live in `products` under their id;
      `order` is the order `FindAll` lists them in (insertion order); ids
      for new records are drawn from `nextId`. */
  class ProductStore {
    var products: map<Id, Product>
    var order: seq<Id>
    var nextId: Id
    ghost var writes: seq<Write>

    /** Every record carries its own key as its id, `order` lists each key
        exactly once, and `nextId` is above every key in use. */
    ghost predicate Valid()
      reads this
    {
      && Distinct(order)
      && (forall i :: i in order <==> i in products)
      && (forall i :: i in products ==> products[i].id == Some(i) && i < nextId)
    }

    /** All stored products in listing order. */
    function Listing(): seq<Product>
      reads this
      requires Valid()
    {
      assert forall k :: 0 <= k < |order| ==> order[k] in order && order[k] in products;
      InOrder(products, order)
    }

    constructor ()
      ensures Valid()
      ensures products == map[] && order == [] && writes == []
    {
      products := map[];
      order := [];
      nextId := 1;
      writes := [];
    }

    /** `findAll(pageable)`: the requested page of all stored products. */
    method FindAll(pageable: Pageable) returns (page: Page)
      requires Valid()
      ensures page == PageOf(Listing(), pageable)
      ensures page.totalElements == |products|
    {
      page := PageOf(Listing(), pageable);
      DistinctLength(order);
      assert Elems(order) == products.Keys by {
        forall i ensures i in Elems(order) <==> i in products.Keys {
        }
      }
    }

    /** `findById(id)`: the stored record, or empty when there is none. */
    method FindById(id: Id) returns (r: Option<Product>)
      requires Valid()
      ensures r.Some? <==> id in products
      ensures r.Some? ==> r.value == products[id] && r.value.id == Some(id)
    {
      if id in products {
        r := Some(products[id]);
      } else {
        r := None;
      }
    }

    /** `save(product)`, an upsert: a product without id gets a new id not in
        use and is inserted; a product with an id replaces the record at that
        id, or is inserted there when there is none. The saved record is
        returned. */
    method Save(p: Product) returns (saved: Product)
      requires Valid()
      modifies this
      ensures Valid()
      ensures saved.id.Some?
      ensures p.id.Some? ==> saved == p
      ensures p.id.None? ==> saved == p.(id := Some(old(nextId))) && saved.id.value !in old(products)
      ensures products == old(products)[saved.id.value := saved]
      ensures order == if saved.id.value in old(products) then old(order) else old(order) + [saved.id.value]
      ensures nextId == if saved.id.value < old(nextId) then old(nextId) else saved.id.value + 1
      ensures writes == old(writes) + [Saved(p)]
    {
      var id: Id;
      if p.id.Some? {
        id := p.id.value;
        saved := p;
      } else {
        id := nextId;
        saved := p.(id := Some(id));
      }
      if id !in products {
        order := order + [id];
      }
      products := products[id := saved];
      if id >= nextId {
        nextId := id + 1;
      }
      writes := writes + [Saved(p)];
    }

    /** `deleteById(id)`: removes the record at `id` if there is one; an absent
        id is not an error. */
    method DeleteById(id: Id)
      requires Valid()
      modifies this
      ensures Valid()
      ensures products == old(products) - {id}
      ensures order == Without(old(order), id)
      ensures nextId == old(nextId)
      ensures writes == old(writes) + [Deleted(id)]
    {
      products := products - {id};
      order := Without(order, id);
      writes := writes + [Deleted(id)];
    }
  }
}
