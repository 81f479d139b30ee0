/** The Product record: a product's name, its alias (the identifier used in shop
    URLs and as the key of a stock snapshot), its availability flag and its
    inventory quantity. */
module Products {
  import opened Nullable
  import opened Text

  /** The record's alias may be null; its name is taken to be non-null. */
  datatype Product = Product(name: string, alias: Option<string>, available: bool, inventoryQuantity: int)

  /** isInStock: available, and at least one unit in inventory. */
  predicate IsInStock(p: Product)
  {
    p.available && p.inventoryQuantity > 0
  }

  /** A product that is not available is out of stock whatever its quantity,
      and one whose quantity is zero or negative is out of stock whatever its flag. */
  lemma OutOfStockCases(p: Product)
    ensures !p.available ==> !IsInStock(p)
    ensures p.inventoryQuantity <= 0 ==> !IsInStock(p)
    ensures IsInStock(p) ==> p.inventoryQuantity >= 1
  {
  }

  /** The flag printed at the end of a summary. */
  function AvailabilityFlag(available: bool): string
  {
    if available then "Yes" else "No"
  }

  /** toSummary: "name [alias] - Stock: quantity (Available: Yes|No)", with a
      null alias printed as "null". The summary begins with the name, shows the
      quantity, and ends with the availability flag. */
  function ToSummary(p: Product): (r: string)
    ensures StartsWith(r, p.name + " [")
    ensures Contains(r, "] - Stock: " + IntToString(p.inventoryQuantity) + " ")
    ensures EndsWith(r, "(Available: " + AvailabilityFlag(p.available) + ")")
  {
    var a := p.name + " [";
    var b := OrNull(p.alias);
    var c := "] - Stock: " + IntToString(p.inventoryQuantity) + " ";
    var d := "(Available: " + AvailabilityFlag(p.available) + ")";
    FourParts(a, b, c, d);
    a + b + c + d
  }

  /** The summary tells whether the product is available: it ends in "Yes)"
      exactly when the available flag is set. */
  lemma SummaryShowsAvailability(p: Product)
    ensures p.available <==> EndsWith(ToSummary(p), "Yes)")
  {
    var r := ToSummary(p);
    if !p.available {
      assert r[|r| - 4..] == r[|r| - 16..][12..];
      assert r[|r| - 4..] == " No)";
    }
  }

  /** The number of products in stock and out of stock. */
  function CountInStock(ps: seq<Product>): (n: nat)
    ensures n <= |ps|
  {
    if ps == [] then 0
    else CountInStock(ps[..|ps| - 1]) + (if IsInStock(ps[|ps| - 1]) then 1 else 0)
  }

  function CountOutOfStock(ps: seq<Product>): (n: nat)
    ensures n <= |ps|
  {
    if ps == [] then 0
    else CountOutOfStock(ps[..|ps| - 1]) + (if IsInStock(ps[|ps| - 1]) then 0 else 1)
  }

  /** Every product is counted once: in stock or out of stock. */
  lemma {:induction false} CountsPartition(ps: seq<Product>)
    ensures CountInStock(ps) + CountOutOfStock(ps) == |ps|
  {
    if ps != [] {
      CountsPartition(ps[..|ps| - 1]);
    }
  }

  lemma {:induction false} CountInStockAppend(ps: seq<Product>, qs: seq<Product>)
    ensures CountInStock(ps + qs) == CountInStock(ps) + CountInStock(qs)
    decreases |qs|
  {
    if qs != [] {
      assert (ps + qs)[..|ps + qs| - 1] == ps + qs[..|qs| - 1];
      CountInStockAppend(ps, qs[..|qs| - 1]);
    } else {
      assert ps + qs == ps;
    }
  }

  // ---------------------------------------------------------------------------
  // Stream.filter on a list of products

  /** The products of `ps` that `keep` accepts, in order. */
  function Filter(ps: seq<Product>, keep: Product -> bool): (r: seq<Product>)
    ensures |r| <= |ps|
  {
    if ps == [] then [] else Filter(ps[..|ps| - 1], keep) + (if keep(ps[|ps| - 1]) then [ps[|ps| - 1]] else [])
  }

  /** A product is kept exactly when it is in the list and accepted. */
  lemma {:induction false} FilterMembers(ps: seq<Product>, keep: Product -> bool)
    ensures forall p :: p in Filter(ps, keep) <==> p in ps && keep(p)
  {
    if ps != [] {
      var init, q := ps[..|ps| - 1], ps[|ps| - 1];
      FilterMembers(init, keep);
      assert ps == init + [q];
    }
  }

  /** One more product is appended to the result exactly when it is accepted. */
  lemma FilterSnoc(ps: seq<Product>, q: Product, keep: Product -> bool)
    ensures Filter(ps + [q], keep) == Filter(ps, keep) + (if keep(q) then [q] else [])
  {
    assert (ps + [q])[..|ps|] == ps;
  }

  /** Filtering distributes over concatenation. */
  lemma {:induction false} FilterAppend(ps: seq<Product>, qs: seq<Product>, keep: Product -> bool)
    ensures Filter(ps + qs, keep) == Filter(ps, keep) + Filter(qs, keep)
    decreases |qs|
  {
    if qs == [] {
      assert ps + qs == ps;
    } else {
      var init := qs[..|qs| - 1];
      assert (ps + qs)[..|ps + qs| - 1] == ps + init;
      FilterAppend(ps, init, keep);
    }
  }

  /** A list whose products are all accepted is kept whole; one with none accepted is dropped. */
  lemma {:induction false} FilterAllOrNone(ps: seq<Product>, keep: Product -> bool)
    ensures (forall p | p in ps :: keep(p)) ==> Filter(ps, keep) == ps
    ensures (forall p | p in ps :: !keep(p)) ==> Filter(ps, keep) == []
  {
    if ps != [] {
      var init, q := ps[..|ps| - 1], ps[|ps| - 1];
      assert q in ps;
      assert forall p | p in init :: p in ps;
      FilterAllOrNone(init, keep);
      assert init + [q] == ps;
    }
  }

  /** Keeping only products in stock keeps at most the in-stock ones; keeping
      only products out of stock keeps at most the rest. */
  lemma {:induction false} FilterStockBounds(ps: seq<Product>, keep: Product -> bool)
    ensures (forall p | p in ps && keep(p) :: IsInStock(p)) ==> |Filter(ps, keep)| <= CountInStock(ps)
    ensures (forall p | p in ps && keep(p) :: !IsInStock(p)) ==> |Filter(ps, keep)| <= |ps| - CountInStock(ps)
  {
    if ps != [] {
      var init, q := ps[..|ps| - 1], ps[|ps| - 1];
      assert q in ps;
      assert forall p | p in init :: p in ps;
      FilterStockBounds(init, keep);
    }
  }
}
