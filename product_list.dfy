/**
 * The menu's category logic: the category pills are the products'
 * categories with repeats dropped (a JavaScript `Set` keeps the order in
 * which values were first inserted), and the grid shows the products of
 * the active category, or all of them when no category is active.
 */
module ProductList {
  import opened Wrappers
  import opened CartStore

  /** `products.map(product => product.category)`. */
  function CategoriesOf(products: seq<Product>): (cs: seq<string>)
    ensures |cs| == |products|
    ensures forall i :: 0 <= i < |products| ==> cs[i] == products[i].category
  {
    if products == [] then [] else [products[0].category] + CategoriesOf(products[1..])
  }

  /** `[...new Set(xs)]`: each value once, where it was first inserted. */
  function Dedup(xs: seq<string>): seq<string> {
    if xs == [] then []
    else
      var d := Dedup(xs[..|xs| - 1]);
      if xs[|xs| - 1] in d then d else d + [xs[|xs| - 1]]
  }

  /** The category pills. */
  function Categories(products: seq<Product>): seq<string> {
    Dedup(CategoriesOf(products))
  }

  /** `products.filter(product => product.category === category)`. */
  function InCategory(products: seq<Product>, category: string): seq<Product> {
    if products == [] then []
    else if products[0].category == category then [products[0]] + InCategory(products[1..], category)
    else InCategory(products[1..], category)
  }

  /** The grid's products; `null` and the empty string both count as "no active category". */
  function FilteredProducts(products: seq<Product>, activeCategory: Option<string>): seq<Product> {
    if activeCategory.Some? && activeCategory.value != "" then InCategory(products, activeCategory.value)
    else products
  }

  /** The index of the first occurrence of a value. */
  function FirstIndex(xs: seq<string>, x: string): (k: nat)
    requires x in xs
    ensures k < |xs| && xs[k] == x && x !in xs[..k]
  {
    if xs[0] == x then 0 else 1 + FirstIndex(xs[1..], x)
  }

  predicate NoDuplicates(xs: seq<string>) {
    forall i, j :: 0 <= i < j < |xs| ==> xs[i] != xs[j]
  }

  lemma {:induction false} FirstIndexOfPrefix(p: seq<string>, y: string, x: string)
    requires x in p
    ensures FirstIndex(p + [y], x) == FirstIndex(p, x)
  {
    assert (p + [y])[0] == p[0];
    if p[0] != x {
      assert (p + [y])[1..] == p[1..] + [y];
      FirstIndexOfPrefix(p[1..], y, x);
    }
  }

  /**
   * The categories are the distinct values of the products' categories:
   * a string is listed iff some product has it, no string is listed
   * twice, and they are listed in the order of their first appearance.
   */
  lemma {:induction false} DedupProperties(xs: seq<string>)
    ensures forall x :: x in Dedup(xs) <==> x in xs
    ensures NoDuplicates(Dedup(xs))
    ensures forall i, j :: 0 <= i < j < |Dedup(xs)| ==> FirstIndex(xs, Dedup(xs)[i]) < FirstIndex(xs, Dedup(xs)[j])
  {
    if xs != [] {
      var p := xs[..|xs| - 1];
      var y := xs[|xs| - 1];
      var d := Dedup(p);
      DedupProperties(p);
      assert xs == p + [y];
      forall x | x in p ensures FirstIndex(xs, x) == FirstIndex(p, x) {
        FirstIndexOfPrefix(p, y, x);
      }
      if y !in d {
        var r := d + [y];
        assert y !in p;
        assert FirstIndex(xs, y) == |p| by {
          assert forall m :: 0 <= m < |p| ==> xs[m] != y by {
            forall m | 0 <= m < |p| ensures xs[m] != y { assert xs[m] == p[m]; }
          }
        }
        forall i, j | 0 <= i < j < |r| ensures FirstIndex(xs, r[i]) < FirstIndex(xs, r[j]) {
          assert r[i] == d[i] && r[i] in p;
          if j < |d| {
            assert r[j] == d[j];
          } else {
            assert r[j] == y;
            assert FirstIndex(p, r[i]) < |p|;
          }
        }
        forall x ensures x in r <==> x in xs {
          assert x in r <==> x in d || x == y;
        }
      }
    }
  }

  /** Every listed category is the category of some product, and every product's category is listed. */
  lemma {:induction false} CategoriesMembers(products: seq<Product>, c: string)
    ensures c in Categories(products) <==> exists i :: 0 <= i < |products| && products[i].category == c
  {
    var cs := CategoriesOf(products);
    DedupProperties(cs);
    if c in cs {
      var i :| 0 <= i < |cs| && cs[i] == c;
      assert products[i].category == c;
    }
  }

  /** The products of a category: each product is shown iff it has that category, in the original order. */
  lemma {:induction false} InCategoryMembers(products: seq<Product>, category: string)
    ensures forall p :: p in InCategory(products, category) <==> p in products && p.category == category
  {
    if products != [] {
      InCategoryMembers(products[1..], category);
      assert products == [products[0]] + products[1..];
    }
  }

  /** Filtering distributes over concatenation, so the shown products keep their relative order. */
  lemma {:induction false} InCategoryConcat(a: seq<Product>, b: seq<Product>, category: string)
    ensures InCategory(a + b, category) == InCategory(a, category) + InCategory(b, category)
  {
    if a == [] {
      assert a + b == b;
    } else {
      var head: seq<Product> := if a[0].category == category then [a[0]] else [];
      assert InCategory(a + b, category) == head + InCategory(a[1..] + b, category) by {
        assert (a + b)[0] == a[0];
        assert (a + b)[1..] == a[1..] + b;
      }
      assert InCategory(a, category) == head + InCategory(a[1..], category);
      InCategoryConcat(a[1..], b, category);
      assert head + (InCategory(a[1..], category) + InCategory(b, category))
        == (head + InCategory(a[1..], category)) + InCategory(b, category);
    }
  }

  /**
   * With no active category (`null` or the empty string) the grid shows
   * every product; with an active one, exactly that category's products in
   * their original order.
   */
  lemma {:induction false} FilteredProductsSpec(products: seq<Product>, activeCategory: Option<string>)
    ensures activeCategory.None? ==> FilteredProducts(products, activeCategory) == products
    ensures activeCategory == Some("") ==> FilteredProducts(products, activeCategory) == products
    ensures activeCategory.Some? && activeCategory.value != "" ==>
      FilteredProducts(products, activeCategory) == InCategory(products, activeCategory.value)
    ensures activeCategory.Some? && activeCategory.value != "" ==>
      forall p :: p in FilteredProducts(products, activeCategory) <==> p in products && p.category == activeCategory.value
  {
    if activeCategory.Some? {
      InCategoryMembers(products, activeCategory.value);
    }
  }

  /** A category taken from the pills always has some product, so the empty-grid message never shows for it. */
  lemma {:induction false} ListedCategoryNotEmpty(products: seq<Product>, c: string)
    requires c in Categories(products)
    ensures FilteredProducts(products, Some(c)) != []
  {
    CategoriesMembers(products, c);
    var i :| 0 <= i < |products| && products[i].category == c;
    if c != "" {
      InCategoryMembers(products, c);
      assert products[i] in InCategory(products, c);
    }
  }
}
