/** Stock adjustment as checkout and cancellation perform it, one order line
    at a time: a line with a variant moves that variant's stock whatever the
    product's `track_inventory` says; a line without one moves the product's
    stock only when the product tracks inventory. Checkout deducts, cancel
    restores. */
module Inventory {
  import opened Basics
  import opened Models

  /** The part of a cart line or order item that stock adjustment reads. */
  datatype Move = Move(product: ProductId, variant: Option<VariantId>, quantity: nat)

  datatype Direction = Deduct | Restore

  function Delta(d: Direction, q: int): int {
    if d == Deduct then -q else q
  }

  function LineMove(l: CartLine): Move {
    Move(l.product, l.variant, l.quantity)
  }

  function ItemMove(it: OrderItem): Move {
    Move(it.product, it.variant, it.quantity)
  }

  function LineMoves(ls: seq<CartLine>): (ms: seq<Move>)
    ensures |ms| == |ls|
  {
    if ls == [] then [] else LineMoves(ls[..|ls| - 1]) + [LineMove(ls[|ls| - 1])]
  }

  function ItemMoves(items: seq<OrderItem>): (ms: seq<Move>)
    ensures |ms| == |items|
  {
    if items == [] then [] else ItemMoves(items[..|items| - 1]) + [ItemMove(items[|items| - 1])]
  }

  /** One line's stock update. A row the move names always exists (foreign
      keys); a missing one is left alone so that the function is total. */
  function Step(c: Catalog, m: Move, d: Direction): Catalog {
    match m.variant
    case Some(v) =>
      if v in c.variants then
        var row := c.variants[v];
        c.(variants := c.variants[v := row.(stockQuantity := row.stockQuantity + Delta(d, m.quantity))])
      else c
    case None =>
      if m.product in c.products && c.products[m.product].trackInventory then
        var row := c.products[m.product];
        c.(products := c.products[m.product := row.(stockQuantity := row.stockQuantity + Delta(d, m.quantity))])
      else c
  }

  /** All lines' updates, first line first. */
  function Shift(c: Catalog, ms: seq<Move>, d: Direction): (r: Catalog)
    ensures r.products.Keys == c.products.Keys && r.variants.Keys == c.variants.Keys
  {
    if ms == [] then c else Step(Shift(c, ms[..|ms| - 1], d), ms[|ms| - 1], d)
  }

  /** Total quantity the moves take from variant v. */
  function VariantQty(ms: seq<Move>, v: VariantId): nat {
    if ms == [] then 0
    else VariantQty(ms[..|ms| - 1], v) + (if ms[|ms| - 1].variant == Some(v) then ms[|ms| - 1].quantity else 0)
  }

  /** Total quantity the variant-less moves take from product p. */
  function ProductQty(ms: seq<Move>, p: ProductId): nat {
    if ms == [] then 0
    else ProductQty(ms[..|ms| - 1], p)
         + (if ms[|ms| - 1].variant.None? && ms[|ms| - 1].product == p then ms[|ms| - 1].quantity else 0)
  }

  /** The stock row of product p after the moves. */
  function ProductAfter(c: Catalog, ms: seq<Move>, d: Direction, p: ProductId): Product
    requires p in c.products
  {
    var row := c.products[p];
    if row.trackInventory then row.(stockQuantity := row.stockQuantity + Delta(d, ProductQty(ms, p))) else row
  }

  /** The stock row of variant v after the moves. */
  function VariantAfter(c: Catalog, ms: seq<Move>, d: Direction, v: VariantId): Variant
    requires v in c.variants
  {
    var row := c.variants[v];
    row.(stockQuantity := row.stockQuantity + Delta(d, VariantQty(ms, v)))
  }

  lemma {:induction false} ShiftProductAt(c: Catalog, ms: seq<Move>, d: Direction, p: ProductId)
    requires p in c.products
    ensures Shift(c, ms, d).products[p] == ProductAfter(c, ms, d, p)
  {
    if ms != [] {
      var init, last := ms[..|ms| - 1], ms[|ms| - 1];
      ShiftProductAt(c, init, d, p);
    }
  }

  lemma {:induction false} ShiftVariantAt(c: Catalog, ms: seq<Move>, d: Direction, v: VariantId)
    requires v in c.variants
    ensures Shift(c, ms, d).variants[v] == VariantAfter(c, ms, d, v)
  {
    if ms != [] {
      var init, last := ms[..|ms| - 1], ms[|ms| - 1];
      ShiftVariantAt(c, init, d, v);
    }
  }

  /** What a whole run of moves does, row by row: each variant's stock moves
      by the quantity of the lines naming it; each tracked product's stock by
      the quantity of its variant-less lines; untracked products, and every
      other field of every row, stay as they were. */
  lemma ShiftAt(c: Catalog, ms: seq<Move>, d: Direction)
    ensures forall p :: p in c.products ==> Shift(c, ms, d).products[p] == ProductAfter(c, ms, d, p)
    ensures forall v :: v in c.variants ==> Shift(c, ms, d).variants[v] == VariantAfter(c, ms, d, v)
  {
    forall p | p in c.products
      ensures Shift(c, ms, d).products[p] == ProductAfter(c, ms, d, p)
    {
      ShiftProductAt(c, ms, d, p);
    }
    forall v | v in c.variants
      ensures Shift(c, ms, d).variants[v] == VariantAfter(c, ms, d, v)
    {
      ShiftVariantAt(c, ms, d, v);
    }
  }

  /** Restoring what was deducted gives back the catalog exactly. */
  lemma ShiftRoundTrip(c: Catalog, ms: seq<Move>)
    ensures Shift(Shift(c, ms, Deduct), ms, Restore) == c
  {
    var c1 := Shift(c, ms, Deduct);
    var c2 := Shift(c1, ms, Restore);
    forall p | p in c.products
      ensures c2.products[p] == c.products[p]
    {
      ShiftProductAt(c, ms, Deduct, p);
      ShiftProductAt(c1, ms, Restore, p);
    }
    forall v | v in c.variants
      ensures c2.variants[v] == c.variants[v]
    {
      ShiftVariantAt(c, ms, Deduct, v);
      ShiftVariantAt(c1, ms, Restore, v);
    }
    assert c2.products == c.products;
    assert c2.variants == c.variants;
  }

  // Unfolding helpers for loops that walk the lines one at a time.

  lemma {:induction false} LineMovesPrefix(ls: seq<CartLine>, i: nat)
    requires i < |ls|
    ensures LineMoves(ls[..i + 1]) == LineMoves(ls[..i]) + [LineMove(ls[i])]
  {
    assert ls[..i + 1][..i] == ls[..i];
  }

  lemma {:induction false} ItemMovesPrefix(items: seq<OrderItem>, i: nat)
    requires i < |items|
    ensures ItemMoves(items[..i + 1]) == ItemMoves(items[..i]) + [ItemMove(items[i])]
  {
    assert items[..i + 1][..i] == items[..i];
  }
}
