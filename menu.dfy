/** The menu page: the category chips ('all' first, then each product category
    once, in the order the products first use it) and the products shown for
    the chosen chip. */
module Menu {
  import opened Cart

  const AllCategories: string := "all"

  /** `array.indexOf(x)` for an element known to be present. */
  function FirstIndex(s: seq<string>, x: string): (k: nat)
    requires x in s
    ensures k < |s| && s[k] == x
    ensures forall j :: 0 <= j < k ==> s[j] != x
  {
    if s[0] == x then 0 else 1 + FirstIndex(s[1..], x)
  }

  function CategoriesOf(products: seq<Product>): (cats: seq<string>)
    ensures |cats| == |products|
    ensures forall i :: 0 <= i < |products| ==> cats[i] == products[i].category
  {
    seq(|products|, i requires 0 <= i < |products| => products[i].category)
  }

  /** A value's first occurrence is no later than any of its occurrences. */
  lemma FirstIndexAtMost(s: seq<string>, j: nat)
    requires j < |s|
    ensures FirstIndex(s, s[j]) <= j
  {
  }

  /** The `filter` keeping, from position `i` on, the entries that sit where their
      value first occurs (`array.indexOf(category) === index`). */
  function KeepFirst(cats: seq<string>, i: nat): (r: seq<string>)
    requires i <= |cats|
    ensures forall k :: 0 <= k < |r| ==> r[k] in cats
    decreases |cats| - i
  {
    if i == |cats| then []
    else (if FirstIndex(cats, cats[i]) == i then [cats[i]] else []) + KeepFirst(cats, i + 1)
  }

  /** What is kept are values of the list whose first occurrence is at or after `i`. */
  lemma {:induction false} KeepFirstMembers(cats: seq<string>, i: nat)
    requires i <= |cats|
    ensures forall x :: x in KeepFirst(cats, i) ==> i <= FirstIndex(cats, x)
    decreases |cats| - i
  {
    if i < |cats| {
      KeepFirstMembers(cats, i + 1);
      var head := if FirstIndex(cats, cats[i]) == i then [cats[i]] else [];
      var rest := KeepFirst(cats, i + 1);
      var r := KeepFirst(cats, i);
      assert r == head + rest;
      forall x | x in r
        ensures i <= FirstIndex(cats, x)
      {
        if x !in rest {
          assert x in head;
        }
      }
    }
  }

  /** They are listed by strictly increasing first occurrence, so none repeats. */
  lemma {:induction false} KeepFirstOrdered(cats: seq<string>, i: nat)
    requires i <= |cats|
    ensures forall k1, k2 :: 0 <= k1 < k2 < |KeepFirst(cats, i)|
              ==> FirstIndex(cats, KeepFirst(cats, i)[k1]) < FirstIndex(cats, KeepFirst(cats, i)[k2])
    decreases |cats| - i
  {
    if i < |cats| {
      KeepFirstOrdered(cats, i + 1);
      KeepFirstMembers(cats, i + 1);
      var head := if FirstIndex(cats, cats[i]) == i then [cats[i]] else [];
      var rest := KeepFirst(cats, i + 1);
      var r := KeepFirst(cats, i);
      assert r == head + rest;
      forall k1, k2 | 0 <= k1 < k2 < |r|
        ensures FirstIndex(cats, r[k1]) < FirstIndex(cats, r[k2])
      {
        assert r[k2] == rest[k2 - |head|];
        assert rest[k2 - |head|] in rest;
        if k1 >= |head| {
          assert r[k1] == rest[k1 - |head|];
        } else {
          assert r[k1] == cats[i];
        }
      }
    }
  }

  /** Every value whose first occurrence is at or after `i` is kept. */
  lemma {:induction false} KeepFirstComplete(cats: seq<string>, i: nat)
    requires i <= |cats|
    ensures forall j :: i <= j < |cats| && i <= FirstIndex(cats, cats[j]) ==> cats[j] in KeepFirst(cats, i)
    decreases |cats| - i
  {
    if i < |cats| {
      KeepFirstComplete(cats, i + 1);
      var r := KeepFirst(cats, i);
      forall j | i <= j < |cats| && i <= FirstIndex(cats, cats[j])
        ensures cats[j] in r
      {
        FirstIndexAtMost(cats, j);
        FirstIndexAtMost(cats, i);
        if FirstIndex(cats, cats[j]) == i {
          assert cats[j] == cats[i];
        } else {
          assert cats[j] in KeepFirst(cats, i + 1);
        }
      }
    }
  }

  /** The chip list: 'all', then the categories without repetition. */
  function Categories(products: seq<Product>): seq<string> {
    [AllCategories] + KeepFirst(CategoriesOf(products), 0)
  }

  /** 'all' comes first; after it each category appears once, in the order of first
      use, and exactly the categories of the products appear. */
  lemma CategoriesShape(products: seq<Product>)
    ensures var cs, cats := Categories(products), CategoriesOf(products);
            && cs[0] == AllCategories
            && (forall k1, k2 :: 1 <= k1 < k2 < |cs| ==> cs[k1] != cs[k2])
            && (forall k1, k2 :: 1 <= k1 < k2 < |cs| ==> FirstIndex(cats, cs[k1]) < FirstIndex(cats, cs[k2]))
            && (forall c :: c in cs[1..] <==> c in cats)
  {
    var cats := CategoriesOf(products);
    var r := KeepFirst(cats, 0);
    assert Categories(products)[1..] == r;
    KeepFirstMembers(cats, 0);
    KeepFirstOrdered(cats, 0);
    KeepFirstComplete(cats, 0);
    var cs := Categories(products);
    assert forall k :: 1 <= k < |cs| ==> cs[k] == r[k - 1];
    forall c | c in cats
      ensures c in r
    {
      var j := FirstIndex(cats, c);
    }
  }

  /** Every product's category has a chip. */
  lemma EveryCategoryListed(products: seq<Product>, p: Product)
    requires p in products
    ensures p.category in Categories(products)
  {
    CategoriesShape(products);
    var i :| 0 <= i < |products| && products[i] == p;
    assert CategoriesOf(products)[i] == p.category;
    assert p.category in Categories(products)[1..];
  }

  // ---------------------------------------------------------------- filter

  /** `products.filter(p => p.category === category)`. */
  function InCategory(products: seq<Product>, category: string): (r: seq<Product>)
    ensures |r| <= |products|
  {
    if products == [] then []
    else (if products[0].category == category then [products[0]] else [])
         + InCategory(products[1..], category)
  }

  /** `filteredProducts`: everything under 'all', otherwise that category's products. */
  function FilteredProducts(products: seq<Product>, current: string): seq<Product> {
    if current == AllCategories then products else InCategory(products, current)
  }

  /** The filter keeps exactly the products of that category. */
  lemma {:induction false} InCategoryMembers(products: seq<Product>, category: string)
    ensures forall p :: p in InCategory(products, category) <==> p in products && p.category == category
  {
    if products != [] {
      InCategoryMembers(products[1..], category);
      assert products == [products[0]] + products[1..];
    }
  }

  /** The filter distributes over concatenation, so it keeps the original order. */
  lemma {:induction false} InCategoryAppend(a: seq<Product>, b: seq<Product>, category: string)
    ensures InCategory(a + b, category) == InCategory(a, category) + InCategory(b, category)
  {
    if a == [] {
      assert a + b == b;
    } else {
      var head := if a[0].category == category then [a[0]] else [];
      assert (a + b)[0] == a[0] && (a + b)[1..] == a[1..] + b;
      InCategoryAppend(a[1..], b, category);
      calc {
        InCategory(a + b, category);
        head + InCategory(a[1..] + b, category);
        head + (InCategory(a[1..], category) + InCategory(b, category));
        (head + InCategory(a[1..], category)) + InCategory(b, category);
      }
    }
  }

  /** One product is kept exactly when it is of that category; with the
      distribution over concatenation this fixes the result entirely. */
  lemma InCategorySingle(p: Product, category: string)
    ensures InCategory([p], category) == if p.category == category then [p] else []
  {
    assert [p][1..] == [];
  }

  /** A category no product uses shows nothing. */
  lemma {:induction false} UnusedCategoryEmpty(products: seq<Product>, category: string)
    requires forall i :: 0 <= i < |products| ==> products[i].category != category
    ensures InCategory(products, category) == []
  {
    if products != [] {
      var tail := products[1..];
      assert forall i :: 0 <= i < |tail| ==> tail[i] == products[i + 1];
      UnusedCategoryEmpty(tail, category);
    }
  }

  /** 'all' shows the whole list, unchanged. */
  lemma AllShowsEverything(products: seq<Product>)
    ensures FilteredProducts(products, AllCategories) == products
  {
  }
}
