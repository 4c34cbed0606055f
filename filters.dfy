/** The custom filter methods of ProductFilter and CategoryFilter
    (product/filters.py), each as a filter over a sequence of rows. */
module Filters {
  import opened Basics
  import opened Models

  /** The rows of s that satisfy f, in their original order. */
  function Keep<T(!new)>(s: seq<T>, f: T -> bool): (r: seq<T>)
    ensures forall x :: x in r <==> x in s && f(x)
    ensures multiset(r) <= multiset(s)
  {
    if s == [] then []
    else
      assert s == [s[0]] + s[1..];
      (if f(s[0]) then [s[0]] else []) + Keep(s[1..], f)
  }

  /** Keeping from a sequence with a first row x. */
  lemma KeepFirst<T(!new)>(x: T, rest: seq<T>, f: T -> bool)
    ensures multiset(Keep([x] + rest, f)) == (if f(x) then multiset{x} else multiset{}) + multiset(Keep(rest, f))
  {
    var s := [x] + rest;
    assert s[0] == x && s[1..] == rest;
  }

  /** The multiset step of KeepSplits: x goes to exactly one side. */
  lemma SplitOfFirst<T>(a: multiset<T>, b: multiset<T>, c: multiset<T>, d: multiset<T>, e: multiset<T>, x: T, fx: bool)
    requires a == (if fx then multiset{x} else multiset{}) + c
    requires b == (if !fx then multiset{x} else multiset{}) + d
    requires c + d == e
    ensures a + b == multiset{x} + e
  {
  }

  /** Keeping by a condition and by its negation splits the rows exactly. */
  lemma {:induction false} KeepSplits<T(!new)>(s: seq<T>, f: T -> bool, g: T -> bool)
    requires forall i :: 0 <= i < |s| ==> g(s[i]) == !f(s[i])
    ensures multiset(Keep(s, f)) + multiset(Keep(s, g)) == multiset(s)
  {
    if s != [] {
      var x, rest := s[0], s[1..];
      assert s == [x] + rest;
      assert forall i :: 0 <= i < |rest| ==> rest[i] == s[i + 1];
      KeepSplits(rest, f, g);
      KeepFirst(x, rest, f);
      KeepFirst(x, rest, g);
      assert g(x) == !f(x);
      assert multiset(s) == multiset{x} + multiset(rest);
      SplitOfFirst(multiset(Keep(s, f)), multiset(Keep(s, g)), multiset(Keep(rest, f)), multiset(Keep(rest, g)),
                   multiset(rest), x, f(x));
    }
  }

  // ---------------------------------------------------------------------
  // Case-insensitive containment (`icontains`), on ASCII letters

  function LowerChar(ch: char): char {
    if 'A' <= ch <= 'Z' then (ch as int + 32) as char else ch
  }

  function Lower(s: string): (r: string)
    ensures |r| == |s|
  {
    if s == [] then [] else [LowerChar(s[0])] + Lower(s[1..])
  }

  lemma {:induction false} LowerIdempotent(s: string)
    ensures Lower(Lower(s)) == Lower(s)
  {
    if s != [] {
      LowerIdempotent(s[1..]);
      assert Lower(s)[1..] == Lower(s[1..]);
    }
  }

  /** needle occurs somewhere in hay. */
  predicate Occurs(needle: string, hay: string)
    decreases |hay|
  {
    (|needle| <= |hay| && hay[..|needle|] == needle) || (hay != [] && Occurs(needle, hay[1..]))
  }

  predicate IContains(hay: string, needle: string) {
    Occurs(Lower(needle), Lower(hay))
  }

  // ---------------------------------------------------------------------
  // ProductFilter.filter_in_stock

  /** Untracked, or tracked with stock left; and not marked out of stock. */
  predicate InStockRow(p: Product) {
    (!p.trackInventory || p.stockQuantity > 0) && p.stockStatus != OutOfStock
  }

  function FilterInStock(ps: seq<Product>, value: bool): (r: seq<Product>)
    ensures !value ==> r == ps
    ensures value ==> forall p :: p in r <==> p in ps && InStockRow(p)
    ensures multiset(r) <= multiset(ps)
  {
    if value then Keep(ps, InStockRow) else ps
  }

  // ---------------------------------------------------------------------
  // ProductFilter.filter_on_sale

  /** compare_price is not null and price < compare_price. */
  predicate OnSaleRow(p: Product) {
    p.comparePrice.Some? && p.price < p.comparePrice.value
  }

  function FilterOnSale(ps: seq<Product>, value: bool): (r: seq<Product>)
    ensures !value ==> r == ps
    ensures value ==> forall p :: p in r <==> p in ps && OnSaleRow(p)
    ensures multiset(r) <= multiset(ps)
  {
    if value then Keep(ps, OnSaleRow) else ps
  }

  /** For non-negative prices the filter and Product.is_on_sale agree; they
      differ only on a zero compare price with a negative price. */
  lemma OnSaleFilterAgreesWithProperty(p: Product)
    ensures p.price >= 0.0 ==> (OnSaleRow(p) <==> IsOnSale(p))
    ensures IsOnSale(p) ==> OnSaleRow(p)
  {
  }

  // ---------------------------------------------------------------------
  // ProductFilter.filter_search

  /** The value occurs, ignoring case, in the name, description, short
      description, SKU, category name or brand name. */
  predicate MatchesSearch(categories: map<CategoryId, Category>, brands: map<BrandId, Brand>, p: Product, value: string) {
    || IContains(p.name, value)
    || IContains(p.description, value)
    || IContains(p.shortDescription, value)
    || IContains(p.sku, value)
    || (p.category in categories && IContains(categories[p.category].name, value))
    || (p.brand.Some? && p.brand.value in brands && IContains(brands[p.brand.value].name, value))
  }

  function FilterSearch(categories: map<CategoryId, Category>, brands: map<BrandId, Brand>, ps: seq<Product>, value: string)
    : (r: seq<Product>)
    ensures value == "" ==> r == ps
    ensures value != "" ==> forall p :: p in r <==> p in ps && MatchesSearch(categories, brands, p, value)
    ensures multiset(r) <= multiset(ps)
  {
    if value != "" then Keep(ps, p => MatchesSearch(categories, brands, p, value)) else ps
  }

  /** Searching is blind to the case of the search value. */
  lemma SearchIgnoresCase(categories: map<CategoryId, Category>, brands: map<BrandId, Brand>, p: Product, value: string)
    ensures MatchesSearch(categories, brands, p, value) == MatchesSearch(categories, brands, p, Lower(value))
  {
    LowerIdempotent(value);
  }

  // ---------------------------------------------------------------------
  // CategoryFilter.filter_has_parent

  predicate HasParent(c: Category) {
    c.parent.Some?
  }

  predicate IsTopLevel(c: Category) {
    c.parent.None?
  }

  function FilterHasParent(cs: seq<Category>, value: bool): (r: seq<Category>)
    ensures forall c :: c in r <==> c in cs && c.parent.Some? == value
    ensures multiset(r) <= multiset(cs)
  {
    if value then Keep(cs, HasParent) else Keep(cs, IsTopLevel)
  }

  /** The two answers of filter_has_parent split the categories between them. */
  lemma HasParentSplits(cs: seq<Category>)
    ensures multiset(FilterHasParent(cs, true)) + multiset(FilterHasParent(cs, false)) == multiset(cs)
  {
    KeepSplits(cs, HasParent, IsTopLevel);
  }
}
