/** The persistent stock state: snapshots keyed by product alias, the diff that
    finds products that came back in stock or went out of stock, and the JSON
    state file, read and written under the retry executor.

    A snapshot is a Java HashMap from alias to Product; a null alias is a key
    like any other. The HashMap's iteration order is not specified: operations
    that iterate over a snapshot take the order as an explicit enumeration of
    its keys. */
module StateService {
  import opened Nullable
  import opened Text
  import opened Errors
  import opened Products
  import opened RetryUtility
  import opened RetryProperties

  type Key = Option<string>
  type Snapshot = map<Key, Product>

  /** Every entry is stored under its product's own alias. */
  ghost predicate AliasKeyed(m: Snapshot)
  {
    forall k | k in m :: m[k].alias == k
  }

  /** `order` lists each key of `m` exactly once: an iteration order of the map. */
  ghost predicate Enumerates(order: seq<Key>, m: Snapshot)
  {
    && (forall i, j | 0 <= i < j < |order| :: order[i] != order[j])
    && (forall k :: k in m <==> k in order)
  }

  /** Iterating over a HashMap: some enumeration of its keys, which the model
      leaves open. */
  method IterationOrder(m: Snapshot) returns (order: seq<Key>)
    ensures Enumerates(order, m)
  {
    order := [];
    var rest := m.Keys;
    while rest != {}
      invariant rest <= m.Keys
      invariant forall i, j | 0 <= i < j < |order| :: order[i] != order[j]
      invariant forall k :: k in order <==> k in m && k !in rest
      decreases |rest|
    {
      var k :| k in rest;
      order := order + [k];
      rest := rest - {k};
    }
  }

  // ---------------------------------------------------------------------------
  // productsToStateMap

  /** The map that inserting the products in order builds: a later product
      replaces an earlier one with the same alias. */
  function StateMapOf(ps: seq<Product>): Snapshot
  {
    if ps == [] then map[] else StateMapOf(ps[..|ps| - 1])[ps[|ps| - 1].alias := ps[|ps| - 1]]
  }

  /** productsToStateMap: puts every product under its alias, in list order. */
  method ProductsToStateMap(products: seq<Product>) returns (stateMap: Snapshot)
    ensures stateMap == StateMapOf(products)
  {
    stateMap := map[];
    for i := 0 to |products|
      invariant stateMap == StateMapOf(products[..i])
    {
      assert products[..i + 1][..i] == products[..i];
      stateMap := stateMap[products[i].alias := products[i]];
    }
    assert products[..|products|] == products;
  }

  /** `i` is the position of the last product in `ps` whose alias is `k`. */
  predicate LastWithAlias(ps: seq<Product>, k: Key, i: int)
  {
    0 <= i < |ps| && ps[i].alias == k && forall j | i < j < |ps| :: ps[j].alias != k
  }

  /** The keys of the built map are exactly the aliases in the list. */
  lemma {:induction false} StateMapOfKeys(ps: seq<Product>)
    ensures forall k :: k in StateMapOf(ps) <==> exists i | 0 <= i < |ps| :: ps[i].alias == k
  {
    if ps != [] {
      var init := ps[..|ps| - 1];
      var p := ps[|ps| - 1];
      StateMapOfKeys(init);
      var m := StateMapOf(ps);
      assert m == StateMapOf(init)[p.alias := p];
      forall k
        ensures k in m <==> exists i | 0 <= i < |ps| :: ps[i].alias == k
      {
        if k != p.alias {
          if k in m {
            var i :| 0 <= i < |init| && init[i].alias == k;
            assert ps[i] == init[i];
          }
          if exists i | 0 <= i < |ps| :: ps[i].alias == k {
            var i :| 0 <= i < |ps| && ps[i].alias == k;
            assert init[i] == ps[i];
          }
        } else {
          assert ps[|ps| - 1].alias == k;
        }
      }
    }
  }

  /** Each key of the built map holds the last product in the list with that alias. */
  lemma {:induction false} StateMapOfLastWins(ps: seq<Product>)
    ensures forall k | k in StateMapOf(ps) :: exists i :: LastWithAlias(ps, k, i) && StateMapOf(ps)[k] == ps[i]
  {
    if ps != [] {
      var init := ps[..|ps| - 1];
      var p := ps[|ps| - 1];
      StateMapOfLastWins(init);
      var m := StateMapOf(ps);
      assert m == StateMapOf(init)[p.alias := p];
      forall k | k in m
        ensures exists i :: LastWithAlias(ps, k, i) && m[k] == ps[i]
      {
        if k == p.alias {
          assert LastWithAlias(ps, k, |ps| - 1);
        } else {
          var i :| LastWithAlias(init, k, i) && StateMapOf(init)[k] == init[i];
          assert LastWithAlias(ps, k, i);
        }
      }
    }
  }

  /** The built map always stores each product under its own alias. */
  lemma {:induction false} StateMapOfAliasKeyed(ps: seq<Product>)
    ensures AliasKeyed(StateMapOf(ps))
  {
    if ps != [] {
      StateMapOfAliasKeyed(ps[..|ps| - 1]);
    }
  }

  lemma StateMapOfSnoc(ps: seq<Product>, p: Product)
    ensures StateMapOf(ps + [p]) == StateMapOf(ps)[p.alias := p]
  {
    assert (ps + [p])[..|ps|] == ps;
  }

  // ---------------------------------------------------------------------------
  // Iterating a snapshot

  /** The values of `m` in the iteration order `order` (keys missing from `m` are passed over). */
  function ValuesIn(m: Snapshot, order: seq<Key>): seq<Product>
  {
    if order == [] then []
    else ValuesIn(m, order[..|order| - 1]) + (if order[|order| - 1] in m then [m[order[|order| - 1]]] else [])
  }

  /** A product is among the iterated values exactly when some key holds it. */
  lemma {:induction false} ValuesInMembers(m: Snapshot, order: seq<Key>)
    requires Enumerates(order, m)
    ensures forall p :: p in ValuesIn(m, order) <==> p in m.Values
    ensures |ValuesIn(m, order)| == |order|
  {
    ValuesInPrefix(m, order);
    forall p
      ensures p in ValuesIn(m, order) <==> p in m.Values
    {
      if p in m.Values {
        var k :| k in m && m[k] == p;
        assert k in order;
      }
    }
  }

  lemma {:induction false} ValuesInPrefix(m: Snapshot, order: seq<Key>)
    requires forall k | k in order :: k in m
    ensures forall p :: p in ValuesIn(m, order) <==> exists k | k in order :: m[k] == p
    ensures |ValuesIn(m, order)| == |order|
  {
    if order != [] {
      var init := order[..|order| - 1];
      var k := order[|order| - 1];
      assert forall x | x in init :: x in order;
      ValuesInPrefix(m, init);
      forall p
        ensures p in ValuesIn(m, order) <==> exists x | x in order :: m[x] == p
      {
        if exists x | x in order :: m[x] == p {
          var x :| x in order && m[x] == p;
          if x != k {
            var i :| 0 <= i < |order| && order[i] == x;
            assert init[i] == x;
          }
        }
      }
    }
  }

  // ---------------------------------------------------------------------------
  // The diff

  /** The two changes the diff reports. */
  datatype Change = CameBackInStock | WentOutOfStock

  /** The current product fires for `change`: the previous snapshot has an entry
      under its alias, and that entry's stock state and the product's differ in
      the direction of `change`. */
  predicate Fires(previousState: Snapshot, p: Product, change: Change)
  {
    && p.alias in previousState
    && match change
       case CameBackInStock => !IsInStock(previousState[p.alias]) && IsInStock(p)
       case WentOutOfStock => IsInStock(previousState[p.alias]) && !IsInStock(p)
  }

  /** Fires, as the condition of a stream filter. */
  function FiresFor(previousState: Snapshot, change: Change): Product -> bool
  {
    p => Fires(previousState, p, change)
  }

  /** The stream filter of both diff methods: the products of `ps`, in order, that fire for `change`. */
  function Changed(previousState: Snapshot, ps: seq<Product>, change: Change): (r: seq<Product>)
    ensures |r| <= |ps|
  {
    Filter(ps, FiresFor(previousState, change))
  }

  /** findNewlyInStockProducts: the current values, in iteration order, whose
      previous entry was out of stock and which are in stock now. */
  function FindNewlyInStockProducts(previousState: Snapshot, currentState: Snapshot, order: seq<Key>): (r: seq<Product>)
    ensures forall p :: p in r <==> (p in ValuesIn(currentState, order) && p.alias in previousState
                                    && !IsInStock(previousState[p.alias]) && IsInStock(p))
  {
    FilterMembers(ValuesIn(currentState, order), FiresFor(previousState, CameBackInStock));
    Changed(previousState, ValuesIn(currentState, order), CameBackInStock)
  }

  /** findNewlyOutOfStockProducts: the current values, in iteration order,
      whose previous entry was in stock and which are out of stock now. */
  function FindNewlyOutOfStockProducts(previousState: Snapshot, currentState: Snapshot, order: seq<Key>): (r: seq<Product>)
    ensures forall p :: p in r <==> (p in ValuesIn(currentState, order) && p.alias in previousState
                                    && IsInStock(previousState[p.alias]) && !IsInStock(p))
  {
    FilterMembers(ValuesIn(currentState, order), FiresFor(previousState, WentOutOfStock));
    Changed(previousState, ValuesIn(currentState, order), WentOutOfStock)
  }

  /** The newly-in-stock list holds exactly the current products whose previous
      entry was out of stock and which are in stock now; the newly-out-of-stock
      list exactly those whose previous entry was in stock and which are out of
      stock now. A product without a previous entry is in neither. */
  lemma DiffContents(previousState: Snapshot, currentState: Snapshot, order: seq<Key>, p: Product)
    requires Enumerates(order, currentState)
    ensures p in FindNewlyInStockProducts(previousState, currentState, order) <==>
      p in currentState.Values && p.alias in previousState
      && !IsInStock(previousState[p.alias]) && IsInStock(p)
    ensures p in FindNewlyOutOfStockProducts(previousState, currentState, order) <==>
      p in currentState.Values && p.alias in previousState
      && IsInStock(previousState[p.alias]) && !IsInStock(p)
  {
    ValuesInMembers(currentState, order);
  }

  /** The diff lists follow the iteration order of the current snapshot: going
      one key further appends that key's product to a list exactly when it
      fires for that list. With no keys both lists are empty. */
  lemma DiffInIterationOrder(previousState: Snapshot, currentState: Snapshot, order: seq<Key>, k: Key)
    ensures FindNewlyInStockProducts(previousState, currentState, []) == []
    ensures FindNewlyOutOfStockProducts(previousState, currentState, []) == []
    ensures FindNewlyInStockProducts(previousState, currentState, order + [k])
      == FindNewlyInStockProducts(previousState, currentState, order)
         + (if k in currentState && Fires(previousState, currentState[k], CameBackInStock) then [currentState[k]] else [])
    ensures FindNewlyOutOfStockProducts(previousState, currentState, order + [k])
      == FindNewlyOutOfStockProducts(previousState, currentState, order)
         + (if k in currentState && Fires(previousState, currentState[k], WentOutOfStock) then [currentState[k]] else [])
  {
    assert (order + [k])[..|order|] == order;
    var vs := ValuesIn(currentState, order);
    var tail := if k in currentState then [currentState[k]] else [];
    assert ValuesIn(currentState, order + [k]) == vs + tail;
    FilterAppend(vs, tail, FiresFor(previousState, CameBackInStock));
    FilterAppend(vs, tail, FiresFor(previousState, WentOutOfStock));
    if k in currentState {
      FilterSnoc([], currentState[k], FiresFor(previousState, CameBackInStock));
      FilterSnoc([], currentState[k], FiresFor(previousState, WentOutOfStock));
      assert [] + [currentState[k]] == tail;
    }
  }

  /** A current product whose alias the previous snapshot does not know fires neither alert. */
  lemma NoPreviousEntryNoChange(previousState: Snapshot, currentState: Snapshot, order: seq<Key>, p: Product)
    requires p.alias !in previousState
    ensures p !in FindNewlyInStockProducts(previousState, currentState, order)
    ensures p !in FindNewlyOutOfStockProducts(previousState, currentState, order)
  {
  }

  /** No product is reported both as back in stock and as out of stock. */
  lemma DiffDisjoint(previousState: Snapshot, currentState: Snapshot, order: seq<Key>)
    ensures forall p | p in FindNewlyInStockProducts(previousState, currentState, order)
      :: p !in FindNewlyOutOfStockProducts(previousState, currentState, order)
  {
  }

  /** Diffing an alias-keyed snapshot against itself reports nothing. */
  lemma SelfDiffEmpty(s: Snapshot, order: seq<Key>)
    requires AliasKeyed(s) && Enumerates(order, s)
    ensures FindNewlyInStockProducts(s, s, order) == []
    ensures FindNewlyOutOfStockProducts(s, s, order) == []
  {
    ValuesInMembers(s, order);
    var vs := ValuesIn(s, order);
    forall p | p in vs
      ensures !Fires(s, p, CameBackInStock) && !Fires(s, p, WentOutOfStock)
    {
      var k :| k in s && s[k] == p;
      assert p.alias == k;
    }
    NothingFires(s, vs, CameBackInStock);
    NothingFires(s, vs, WentOutOfStock);
  }

  lemma NothingFires(previousState: Snapshot, ps: seq<Product>, change: Change)
    requires forall p | p in ps :: !Fires(previousState, p, change)
    ensures Changed(previousState, ps, change) == []
  {
    FilterAllOrNone(ps, FiresFor(previousState, change));
  }

  /** Every product that came back in stock is in stock now, and every product
      that went out of stock is out of stock now. */
  lemma ChangedCounts(previousState: Snapshot, ps: seq<Product>)
    ensures |Changed(previousState, ps, CameBackInStock)| <= CountInStock(ps)
    ensures |Changed(previousState, ps, WentOutOfStock)| <= |ps| - CountInStock(ps)
  {
    FilterStockBounds(ps, FiresFor(previousState, CameBackInStock));
    FilterStockBounds(ps, FiresFor(previousState, WentOutOfStock));
  }

  // ---------------------------------------------------------------------------
  // getStateComparisonSummary

  /** The four numbers the comparison summary reports. */
  datatype ComparisonCounts = ComparisonCounts(previousInStock: nat, currentInStock: nat,
                                               newlyInStock: nat, newlyOutOfStock: nat)

  /** The keys of `m` whose product is in stock. */
  function InStockKeys(m: Snapshot): set<Key>
  {
    set k | k in m && IsInStock(m[k])
  }

  /** The keys of `currentState` whose product fires for `change`. */
  function FiringKeys(previousState: Snapshot, currentState: Snapshot, change: Change): set<Key>
  {
    set k | k in currentState && Fires(previousState, currentState[k], change)
  }

  /** The counts of the summary: the number of in-stock entries of each
      snapshot, and the numbers of entries of the current snapshot that came
      back in stock and that went out of stock; none depends on the iteration
      orders. Products newly in stock are among those in stock now, and
      products newly out of stock among the rest. */
  function StateComparisonCounts(previousState: Snapshot, previousOrder: seq<Key>,
                                 currentState: Snapshot, currentOrder: seq<Key>): (c: ComparisonCounts)
    requires Enumerates(previousOrder, previousState) && Enumerates(currentOrder, currentState)
    ensures c.previousInStock == |InStockKeys(previousState)|
    ensures c.currentInStock == |InStockKeys(currentState)|
    ensures c.newlyInStock == |FiringKeys(previousState, currentState, CameBackInStock)|
    ensures c.newlyOutOfStock == |FiringKeys(previousState, currentState, WentOutOfStock)|
    ensures c.previousInStock <= |previousState| && c.currentInStock <= |currentState|
    ensures c.newlyInStock <= c.currentInStock
    ensures c.newlyOutOfStock <= |currentState| - c.currentInStock
  {
    ValuesInMembers(previousState, previousOrder);
    ValuesInMembers(currentState, currentOrder);
    CardinalityOfEnumeration(previousOrder, previousState);
    CardinalityOfEnumeration(currentOrder, currentState);
    var currentValues := ValuesIn(currentState, currentOrder);
    ChangedCounts(previousState, currentValues);
    InStockKeysCounted(previousState, previousOrder);
    InStockKeysCounted(currentState, currentOrder);
    FiringKeysCounted(previousState, currentState, currentOrder, CameBackInStock);
    FiringKeysCounted(previousState, currentState, currentOrder, WentOutOfStock);
    ComparisonCounts(
      CountInStock(ValuesIn(previousState, previousOrder)),
      CountInStock(currentValues),
      |FindNewlyInStockProducts(previousState, currentState, currentOrder)|,
      |FindNewlyOutOfStockProducts(previousState, currentState, currentOrder)|)
  }

  /** The keys listed in `order` that `sel` picks. */
  function Selected(order: seq<Key>, sel: Key -> bool): set<Key>
  {
    set x | x in order && sel(x)
  }

  lemma SelectedSnoc(init: seq<Key>, k: Key, sel: Key -> bool)
    requires k !in init
    ensures |Selected(init + [k], sel)| == |Selected(init, sel)| + (if sel(k) then 1 else 0)
  {
    forall x
      ensures x in init + [k] <==> x in init || x == k
    {
    }
    assert Selected(init + [k], sel) == Selected(init, sel) + (if sel(k) then {k} else {});
  }

  /** On an enumeration, the selected keys are the keys of the map that `sel` picks. */
  lemma SelectedAll(order: seq<Key>, m: Snapshot, sel: Key -> bool)
    requires Enumerates(order, m)
    ensures Selected(order, sel) == set x | x in m && sel(x)
  {
  }

  lemma LastNotBefore(order: seq<Key>)
    requires order != []
    requires forall i, j | 0 <= i < j < |order| :: order[i] != order[j]
    ensures order == order[..|order| - 1] + [order[|order| - 1]]
    ensures order[|order| - 1] !in order[..|order| - 1]
  {
    var init := order[..|order| - 1];
    forall i | 0 <= i < |init|
      ensures init[i] != order[|order| - 1]
    {
      assert init[i] == order[i];
    }
  }

  function InStockIn(m: Snapshot): Key -> bool
  {
    k => k in m && IsInStock(m[k])
  }

  function FiringIn(previousState: Snapshot, m: Snapshot, change: Change): Key -> bool
  {
    k => k in m && Fires(previousState, m[k], change)
  }

  /** Counting the in-stock values along an enumeration counts the in-stock keys. */
  lemma InStockKeysCounted(m: Snapshot, order: seq<Key>)
    requires Enumerates(order, m)
    ensures CountInStock(ValuesIn(m, order)) == |InStockKeys(m)|
  {
    InStockAlong(m, order);
    SelectedAll(order, m, InStockIn(m));
    assert InStockKeys(m) == set x | x in m && InStockIn(m)(x);
  }

  lemma {:induction false} InStockAlong(m: Snapshot, order: seq<Key>)
    requires forall i, j | 0 <= i < j < |order| :: order[i] != order[j]
    ensures CountInStock(ValuesIn(m, order)) == |Selected(order, InStockIn(m))|
  {
    if order != [] {
      var init := order[..|order| - 1];
      var k := order[|order| - 1];
      InStockAlong(m, init);
      var tail := if k in m then [m[k]] else [];
      CountInStockAppend(ValuesIn(m, init), tail);
      LastNotBefore(order);
      SelectedSnoc(init, k, InStockIn(m));
    }
  }

  /** The length of a diff list is the number of keys whose product fires for it. */
  lemma FiringKeysCounted(previousState: Snapshot, currentState: Snapshot, order: seq<Key>, change: Change)
    requires Enumerates(order, currentState)
    ensures |Changed(previousState, ValuesIn(currentState, order), change)| == |FiringKeys(previousState, currentState, change)|
  {
    FiringAlong(previousState, currentState, order, change);
    SelectedAll(order, currentState, FiringIn(previousState, currentState, change));
    assert FiringKeys(previousState, currentState, change)
        == set x | x in currentState && FiringIn(previousState, currentState, change)(x);
  }

  lemma {:induction false} FiringAlong(previousState: Snapshot, m: Snapshot, order: seq<Key>, change: Change)
    requires forall i, j | 0 <= i < j < |order| :: order[i] != order[j]
    ensures |Changed(previousState, ValuesIn(m, order), change)| == |Selected(order, FiringIn(previousState, m, change))|
  {
    if order != [] {
      var init := order[..|order| - 1];
      var k := order[|order| - 1];
      FiringAlong(previousState, m, init, change);
      var tail := if k in m then [m[k]] else [];
      FilterAppend(ValuesIn(m, init), tail, FiresFor(previousState, change));
      if k in m {
        FilterSnoc([], m[k], FiresFor(previousState, change));
        assert [] + [m[k]] == tail;
      }
      LastNotBefore(order);
      SelectedSnoc(init, k, FiringIn(previousState, m, change));
    }
  }

  /** An enumeration has as many entries as the map has keys. */
  lemma CardinalityOfEnumeration(order: seq<Key>, m: Snapshot)
    requires Enumerates(order, m)
    ensures |order| == |m|
  {
    assert m.Keys == set k | k in order;
    DistinctCardinality(order);
  }

  lemma {:induction false} DistinctCardinality(order: seq<Key>)
    requires forall i, j | 0 <= i < j < |order| :: order[i] != order[j]
    ensures |set k | k in order| == |order|
  {
    if order != [] {
      var init := order[..|order| - 1];
      var last := order[|order| - 1];
      DistinctCardinality(init);
      assert (set k | k in order) == (set k | k in init) + {last};
    }
  }

  /** getStateComparisonSummary's text. */
  function StateComparisonSummary(c: ComparisonCounts): (r: string)
    ensures StartsWith(r, "State comparison: Previous (" + NatToString(c.previousInStock) + " in stock)")
    ensures Contains(r, " vs Current (" + NatToString(c.currentInStock) + " in stock). ")
    ensures Contains(r, "Newly in stock: " + NatToString(c.newlyInStock) + " products")
    ensures EndsWith(r, ", Newly out of stock: " + NatToString(c.newlyOutOfStock) + " products")
  {
    var a := "State comparison: Previous (" + NatToString(c.previousInStock) + " in stock)";
    var b := " vs Current (" + NatToString(c.currentInStock) + " in stock). ";
    var k := "Newly in stock: " + NatToString(c.newlyInStock) + " products";
    var d := ", Newly out of stock: " + NatToString(c.newlyOutOfStock) + " products";
    FourParts(a, b, k, d);
    ContainsInfix(a, b, k + d);
    assert a + b + (k + d) == a + b + k + d;
    a + b + k + d
  }

  // ---------------------------------------------------------------------------
  // The state file

  /** What JSON parsing of a file yields: an error, the literal null, or an
      array whose elements may be null. */
  datatype Doc = Malformed(reason: string) | JsonNull | JsonArray(items: seq<Option<Product>>)

  /** A file: its size in bytes and what it parses to. */
  datatype FileContent = FileContent(size: nat, doc: Doc)

  type FileSystem = map<string, FileContent>

  /** The 10 MiB limit on the state file. */
  const MaxStateFileBytes: nat := 10 * 1024 * 1024

  /** The products loadStateFromFile keeps: non-null, with a non-null alias, in file order. */
  function ValidProducts(items: seq<Option<Product>>): (ps: seq<Product>)
    ensures |ps| <= |items|
  {
    if items == [] then []
    else
      var x := items[|items| - 1];
      ValidProducts(items[..|items| - 1]) + (if x.Some? && x.value.alias.Some? then [x.value] else [])
  }

  /** Every kept product has an alias and is an item of the file, and every
      item that is a product with an alias is kept. */
  lemma {:induction false} ValidProductsMembers(items: seq<Option<Product>>)
    ensures forall p | p in ValidProducts(items) :: p.alias.Some? && Some(p) in items
    ensures forall x | x in items && x.Some? && x.value.alias.Some? :: x.value in ValidProducts(items)
  {
    if items != [] {
      var init, x := items[..|items| - 1], items[|items| - 1];
      ValidProductsMembers(init);
      assert items == init + [x];
    }
  }

  /** Keeping the valid products distributes over concatenation. With
      ValidProductsSnoc: every valid item is kept, as often as it occurs, in
      file order. */
  lemma {:induction false} ValidProductsAppend(items: seq<Option<Product>>, more: seq<Option<Product>>)
    ensures ValidProducts(items + more) == ValidProducts(items) + ValidProducts(more)
    decreases |more|
  {
    if more == [] {
      assert items + more == items;
    } else {
      var init, x := more[..|more| - 1], more[|more| - 1];
      assert more == init + [x];
      assert items + more == (items + init) + [x];
      ValidProductsAppend(items, init);
      ValidProductsSnoc(items + init, x);
      ValidProductsSnoc(init, x);
    }
  }

  /** One more item is appended to the kept products exactly when it is a product with an alias. */
  lemma ValidProductsSnoc(items: seq<Option<Product>>, x: Option<Product>)
    ensures ValidProducts(items + [x])
         == ValidProducts(items) + (if x.Some? && x.value.alias.Some? then [x.value] else [])
  {
    assert (items + [x])[..|items|] == items;
  }

  /** The map loadStateFromFile builds from the parsed list. */
  function LoadedMap(items: seq<Option<Product>>): Snapshot
  {
    StateMapOf(ValidProducts(items))
  }

  /** A loaded map has no null key and stores every product under its own alias. */
  lemma LoadedMapWellFormed(items: seq<Option<Product>>)
    ensures AliasKeyed(LoadedMap(items)) && None !in LoadedMap(items)
  {
    StateMapOfAliasKeyed(ValidProducts(items));
    StateMapOfKeys(ValidProducts(items));
    ValidProductsMembers(items);
  }

  /** loadStateFromFile on the file's content: an empty file or a null document
      gives an empty map; a file over 10 MiB or one that does not parse fails
      with an IOException; otherwise the valid products are put under their aliases. */
  function LoadStateFromFile(content: FileContent): (r: Result<Snapshot>)
    ensures r.Err? <==> content.size != 0 && (content.size > MaxStateFileBytes || content.doc.Malformed?)
    ensures r.Err? ==> r.error.cls == IOException
    ensures r.Ok? ==> AliasKeyed(r.value) && None !in r.value
  {
    if content.size == 0 then Ok(map[])
    else if content.size > MaxStateFileBytes then
      Err(Exc(IOException, "State file is too large: " + NatToString(content.size) + " bytes", NoCause))
    else match content.doc
      case Malformed(reason) =>
        Err(Exc(IOException, "Failed to parse JSON from state file: " + reason,
                CausedBy(Exc(OtherException("com.fasterxml.jackson.core.JsonParseException", "JsonParseException"),
                             reason, NoCause))))
      case JsonNull => Ok(map[])
      case JsonArray(items) =>
        LoadedMapWellFormed(items);
        Ok(LoadedMap(items))
  }

  /** One attempt of the retried load: the I/O error the file system raises at
      this attempt, if any, or the parse of the file; a failure is rethrown
      wrapped in a RuntimeException. */
  function LoadAttempt(content: FileContent, readErrors: nat -> Option<Exc>): ((), nat) -> Step<(), Snapshot>
  {
    (w: (), attempt: nat) =>
      var outcome := if readErrors(attempt).Some? then Err(readErrors(attempt).value) else LoadStateFromFile(content);
      Step(if outcome.Err? then Err(WrapInRuntime(outcome.error)) else outcome, w)
  }

  function LoadOperationName(filePath: string): string
  {
    "Load state from " + filePath
  }

  /** loadState: a missing file gives an empty map; otherwise the retried read's
      map, or an empty map when the read still fails. */
  /** Whatever the file and the faults, loadState returns a map without a null
      key that stores every product under its own alias. */
  function LoadResult(files: FileSystem, filePath: string, readErrors: nat -> Option<Exc>,
                      interrupted: nat -> bool): (r: Snapshot)
    ensures AliasKeyed(r) && None !in r
  {
    if filePath !in files then map[]
    else
      LoadRunWellFormed(files[filePath], filePath, readErrors, interrupted);
      var run := Retry(ForStateOperations(), LoadOperationName(filePath),
                       LoadAttempt(files[filePath], readErrors), interrupted, ());
      if run.result.Ok? then run.result.value else map[]
  }

  /** A successful retried read returns a well-formed map. */
  lemma LoadRunWellFormed(content: FileContent, filePath: string, readErrors: nat -> Option<Exc>,
                          interrupted: nat -> bool)
    ensures var run := Retry(ForStateOperations(), LoadOperationName(filePath),
                             LoadAttempt(content, readErrors), interrupted, ());
      run.result.Ok? ==> AliasKeyed(run.result.value) && None !in run.result.value
  {
    var op := LoadAttempt(content, readErrors);
    var good := (w: (), m: Snapshot) => AliasKeyed(m) && None !in m;
    forall w: (), j: nat | op(w, j).outcome.Ok?
      ensures good(op(w, j).world, op(w, j).outcome.value)
    {
      assert op(w, j).outcome == LoadStateFromFile(content);
    }
    RetrySuccessFromOp(ForStateOperations(), LoadOperationName(filePath), op, interrupted, (), good);
  }

  /** A file that is empty, over 10 MiB or a null document yields an empty map,
      whatever the read errors. */
  lemma LoadEmptyCases(files: FileSystem, filePath: string, readErrors: nat -> Option<Exc>,
                       interrupted: nat -> bool)
    requires filePath in files
    requires var c := files[filePath]; c.size == 0 || c.size > MaxStateFileBytes || c.doc == JsonNull
    ensures LoadResult(files, filePath, readErrors, interrupted) == map[]
  {
    var op := LoadAttempt(files[filePath], readErrors);
    var good := (w: (), m: Snapshot) => m == map[];
    forall w: (), j: nat | op(w, j).outcome.Ok?
      ensures good(op(w, j).world, op(w, j).outcome.value)
    {
      assert op(w, j).outcome == LoadStateFromFile(files[filePath]);
    }
    RetrySuccessFromOp(ForStateOperations(), LoadOperationName(filePath), op, interrupted, (), good);
  }

  /** A readable, well-formed file read without I/O errors yields the map of its
      valid products. */
  lemma LoadWellFormedFile(files: FileSystem, filePath: string, items: seq<Option<Product>>,
                           interrupted: nat -> bool)
    requires filePath in files
    requires 0 < files[filePath].size <= MaxStateFileBytes && files[filePath].doc == JsonArray(items)
    ensures LoadResult(files, filePath, _ => None, interrupted) == LoadedMap(items)
  {
    var op := LoadAttempt(files[filePath], _ => None);
    forall w: ()
      ensures op(w, 1).outcome == Ok(LoadedMap(items))
    {
      assert op(w, 1).outcome == LoadStateFromFile(files[filePath]);
    }
    RetrySucceedsAt(ForStateOperations(), LoadOperationName(filePath), op, interrupted, (), 1, LoadedMap(items));
  }

  // saveStateToFile

  /** What the file system does at one save attempt. */
  datatype WriteResult =
    | Written(bytes: nat)                        // the serializer wrote `bytes` bytes
    | WriteFailed(error: Exc, partialBytes: nat) // it threw after writing part of the file

  datatype SaveFaults = SaveFaults(write: WriteResult, moveError: Option<Exc>, deleteFails: bool)

  function TempPath(filePath: string): string
  {
    filePath + ".tmp"
  }

  lemma TempPathDiffers(filePath: string)
    ensures TempPath(filePath) != filePath
  {
    assert |TempPath(filePath)| == |filePath| + 4;
  }

  predicate HasAlias(p: Product)
  {
    p.alias.Some?
  }

  /** The values saveStateToFile writes: exactly those with a non-null alias. */
  function SavedProducts(ps: seq<Product>): (r: seq<Product>)
    ensures forall p :: p in r <==> p in ps && p.alias.Some?
  {
    FilterMembers(ps, HasAlias);
    Filter(ps, HasAlias)
  }

  /** saveStateToFile writes the values in iteration order: going one key
      further appends that key's product exactly when it has an alias. */
  lemma SavedInIterationOrder(state: Snapshot, order: seq<Key>, k: Key)
    ensures SavedProducts(ValuesIn(state, [])) == []
    ensures SavedProducts(ValuesIn(state, order + [k]))
      == SavedProducts(ValuesIn(state, order)) + (if k in state && state[k].alias.Some? then [state[k]] else [])
  {
    assert (order + [k])[..|order|] == order;
    var vs := ValuesIn(state, order);
    var tail := if k in state then [state[k]] else [];
    assert ValuesIn(state, order + [k]) == vs + tail;
    FilterAppend(vs, tail, HasAlias);
    if k in state {
      FilterSnoc([], state[k], HasAlias);
      assert [] + [state[k]] == tail;
    }
  }

  function AsItems(ps: seq<Product>): (items: seq<Option<Product>>)
    ensures |items| == |ps| && forall i | 0 <= i < |ps| :: items[i] == Some(ps[i])
  {
    seq(|ps|, i requires 0 <= i < |ps| => Some(ps[i]))
  }

  /** The document written for `state` iterated in `order`. */
  function SavedDoc(state: Snapshot, order: seq<Key>): Doc
  {
    JsonArray(AsItems(SavedProducts(ValuesIn(state, order))))
  }

  /** The destination holds its old content (or is still absent), or holds the
      complete new document. */
  ghost predicate OldOrNew(before: FileSystem, after: FileSystem, filePath: string, doc: Doc)
  {
    || (filePath in after && after[filePath].doc == doc && after[filePath].size > 0)
    || ((filePath in after <==> filePath in before) && (filePath in before ==> after[filePath] == before[filePath]))
  }

  /** Files other than the destination and its temporary file are left as they were. */
  ghost predicate OthersUnchanged(before: FileSystem, after: FileSystem, filePath: string)
  {
    forall f | f != filePath && f != TempPath(filePath) ::
      (f in after <==> f in before) && (f in before ==> after[f] == before[f])
  }

  /** saveStateToFile, one attempt: a null state fails before touching any file;
      otherwise the list is written to `filePath + ".tmp"`, an empty temporary
      file fails, the temporary file is moved over the destination, and in every
      case the temporary file is then deleted if it still exists (a failed
      delete is only logged).
      Such an attempt succeeds exactly when the state is non-null, the write
      produced a non-empty file and the move worked; success leaves the new
      document at the destination; the destination is never left half-written;
      the temporary file is gone unless its deletion failed; other files are
      untouched. */
  function SaveStateToFile(files: FileSystem, filePath: string, state: Option<Snapshot>, order: seq<Key>,
                           faults: SaveFaults): (r: Step<FileSystem, ()>)
    ensures
      && (r.outcome.Ok? <==>
            state.Some? && faults.write.Written? && faults.write.bytes > 0 && faults.moveError.None?)
      && (r.outcome.Ok? ==>
            filePath in r.world && r.world[filePath] == FileContent(faults.write.bytes, SavedDoc(state.value, order)))
      && (state.Some? ==> OldOrNew(files, r.world, filePath, SavedDoc(state.value, order)))
      && (state.None? ==> r.world == files)
      && (state.Some? && !faults.deleteFails ==> TempPath(filePath) !in r.world)
      && OthersUnchanged(files, r.world, filePath)
  {
    TempPathDiffers(filePath);
    if state.None? then Step(Err(Exc(IOException, "Cannot save null state", NoCause)), files)
    else
      var tmp := TempPath(filePath);
      var doc := SavedDoc(state.value, order);
      var tried: Step<FileSystem, ()> :=
        match faults.write
        case WriteFailed(e, partial) =>
          Step(Err(e), files[tmp := FileContent(partial, Malformed("incomplete write"))])
        case Written(bytes) =>
          var written := files[tmp := FileContent(bytes, doc)];
          if bytes == 0 then
            Step(Err(Exc(IOException, "Temporary state file is empty after write", NoCause)), written)
          else if faults.moveError.Some? then Step(Err(faults.moveError.value), written)
          else Step(Ok(()), (written - {tmp})[filePath := FileContent(bytes, doc)]);
      Step(tried.outcome, if faults.deleteFails then tried.world else tried.world - {tmp})
  }

  /** One attempt of the retried save: a failure is rethrown wrapped in a RuntimeException. */
  function SaveAttempt(filePath: string, state: Option<Snapshot>, order: seq<Key>,
                       faults: nat -> SaveFaults): (FileSystem, nat) -> Step<FileSystem, ()>
  {
    (w: FileSystem, attempt: nat) =>
      var step := SaveStateToFile(w, filePath, state, order, faults(attempt));
      Step(if step.outcome.Err? then Err(WrapInRuntime(step.outcome.error)) else step.outcome, step.world)
  }

  function SaveOperationName(filePath: string): string
  {
    "Save state to " + filePath
  }

  /** saveState: the retried save, and whether it succeeded. */
  function SaveRun(files: FileSystem, filePath: string, state: Option<Snapshot>, order: seq<Key>,
                   faults: nat -> SaveFaults, interrupted: nat -> bool): RetryRun<FileSystem, ()>
  {
    Retry(ForStateOperations(), SaveOperationName(filePath), SaveAttempt(filePath, state, order, faults), interrupted, files)
  }

  /** After saveState, whatever the faults: the destination holds its old
      content or the complete new document; other files are untouched; a true
      result means the new document is at the destination. */
  lemma SaveStateFacts(files: FileSystem, filePath: string, state: Snapshot, order: seq<Key>,
                       faults: nat -> SaveFaults, interrupted: nat -> bool)
    ensures var run := SaveRun(files, filePath, Some(state), order, faults, interrupted);
      && OldOrNew(files, run.world, filePath, SavedDoc(state, order))
      && OthersUnchanged(files, run.world, filePath)
      && (run.result.Ok? ==> filePath in run.world && run.world[filePath].doc == SavedDoc(state, order)
                              && run.world[filePath].size > 0)
  {
    var op := SaveAttempt(filePath, Some(state), order, faults);
    var doc := SavedDoc(state, order);
    forall w: FileSystem, j: nat
      ensures OldOrNew(w, op(w, j).world, filePath, doc) && OthersUnchanged(w, op(w, j).world, filePath)
      ensures op(w, j).outcome.Ok? ==> filePath in op(w, j).world && op(w, j).world[filePath].doc == doc
                                       && op(w, j).world[filePath].size > 0
    {
      var step := SaveStateToFile(w, filePath, Some(state), order, faults(j));
    }
    RetryPreserves(ForStateOperations(), SaveOperationName(filePath), op, interrupted, files,
                   (w: FileSystem) => OldOrNew(files, w, filePath, doc) && OthersUnchanged(files, w, filePath));
    RetrySuccessFromOp(ForStateOperations(), SaveOperationName(filePath), op, interrupted, files,
                       (w: FileSystem, u: ()) => filePath in w && w[filePath].doc == doc && w[filePath].size > 0);
  }

  /** If every deletion works, no temporary file is left behind, not even a
      stale one from an earlier run: every attempt deletes it. */
  lemma SaveLeavesNoTempFile(files: FileSystem, filePath: string, state: Snapshot, order: seq<Key>,
                             faults: nat -> SaveFaults, interrupted: nat -> bool)
    requires forall j: nat :: !faults(j).deleteFails
    ensures TempPath(filePath) !in SaveRun(files, filePath, Some(state), order, faults, interrupted).world
  {
    var op := SaveAttempt(filePath, Some(state), order, faults);
    forall w: FileSystem, j: nat
      ensures TempPath(filePath) !in op(w, j).world
    {
    }
    RetryEstablishes(ForStateOperations(), SaveOperationName(filePath), op, interrupted, files,
                     (w: FileSystem) => TempPath(filePath) !in w);
  }

  /** Saving a null state fails and changes no file. */
  lemma SaveNullState(files: FileSystem, filePath: string, order: seq<Key>,
                      faults: nat -> SaveFaults, interrupted: nat -> bool)
    ensures var run := SaveRun(files, filePath, None, order, faults, interrupted);
      run.result.Err? && run.world == files
  {
    var op := SaveAttempt(filePath, None, order, faults);
    forall w: FileSystem, j: nat
      ensures op(w, j).world == w && op(w, j).outcome.Err?
    {
      var step := SaveStateToFile(w, filePath, None, order, faults(j));
    }
    RetryPreserves(ForStateOperations(), SaveOperationName(filePath), op, interrupted, files,
                   (w: FileSystem) => w == files);
    RetrySuccessFromOp(ForStateOperations(), SaveOperationName(filePath), op, interrupted, files,
                       (w: FileSystem, u: ()) => false);
  }

  // The round trip

  /** Restricting a map to the keys listed in `order`. */
  function Restrict(m: Snapshot, order: seq<Key>): Snapshot
  {
    map k | k in m && k in order :: m[k]
  }

  /** Restricting to one more key adds that key's entry, if `m` has one. */
  lemma RestrictSnoc(m: Snapshot, init: seq<Key>, k: Key)
    ensures k in m ==> Restrict(m, init + [k]) == Restrict(m, init)[k := m[k]]
    ensures k !in m ==> Restrict(m, init + [k]) == Restrict(m, init)
  {
    forall x
      ensures x in init + [k] <==> x in init || x == k
    {
    }
  }

  lemma {:induction false} StateMapOfValues(m: Snapshot, order: seq<Key>)
    requires AliasKeyed(m)
    ensures StateMapOf(ValuesIn(m, order)) == Restrict(m, order)
  {
    if order != [] {
      var init := order[..|order| - 1];
      var k := order[|order| - 1];
      assert order == init + [k];
      StateMapOfValues(m, init);
      RestrictSnoc(m, init, k);
      if k in m {
        assert ValuesIn(m, order) == ValuesIn(m, init) + [m[k]];
        StateMapOfSnoc(ValuesIn(m, init), m[k]);
        assert m[k].alias == k;
      } else {
        assert ValuesIn(m, order) == ValuesIn(m, init);
      }
    } else {
      assert Restrict(m, order) == map[];
    }
  }

  lemma SavedProductsKeepsAll(ps: seq<Product>)
    requires forall p | p in ps :: p.alias.Some?
    ensures SavedProducts(ps) == ps
  {
    FilterAllOrNone(ps, HasAlias);
  }

  lemma {:induction false} ValidProductsOfItems(ps: seq<Product>)
    requires forall p | p in ps :: p.alias.Some?
    ensures ValidProducts(AsItems(ps)) == ps
  {
    if ps != [] {
      var init := ps[..|ps| - 1];
      ValidProductsOfItems(init);
      assert AsItems(ps)[..|ps| - 1] == AsItems(init);
      assert init + [ps[|ps| - 1]] == ps;
    }
  }

  /** Loading the document saved from a snapshot gives the snapshot back, when
      the snapshot has no null key and stores each product under its own alias
      (as every snapshot built by productsToStateMap from products with
      non-null aliases does). */
  lemma SaveLoadRoundTrip(state: Snapshot, order: seq<Key>, bytes: nat)
    requires AliasKeyed(state) && None !in state && Enumerates(order, state)
    requires 0 < bytes <= MaxStateFileBytes
    ensures LoadStateFromFile(FileContent(bytes, SavedDoc(state, order))) == Ok(state)
  {
    var vs := ValuesIn(state, order);
    ValuesInMembers(state, order);
    forall p | p in vs
      ensures p.alias.Some?
    {
      var k :| k in state && state[k] == p;
    }
    SavedProductsKeepsAll(vs);
    ValidProductsOfItems(vs);
    StateMapOfValues(state, order);
    RestrictToAll(state, order);
    assert SavedDoc(state, order) == JsonArray(AsItems(vs));
    assert LoadedMap(AsItems(vs)) == state;
  }

  lemma RestrictToAll(m: Snapshot, order: seq<Key>)
    requires forall k | k in m :: k in order
    ensures Restrict(m, order) == m
  {
  }

  // ---------------------------------------------------------------------------
  // loadState and saveState

  /** The file system the state file lives on. */
  class Disk {
    var files: FileSystem

    constructor(files: FileSystem)
      ensures this.files == files
    {
      this.files := files;
    }
  }

  /** loadState: an empty map when the file is missing; otherwise the retried
      read, with an empty map when it still fails. */
  method LoadState(disk: Disk, filePath: string, readErrors: nat -> Option<Exc>, interrupted: nat -> bool)
    returns (state: Snapshot)
    ensures state == LoadResult(disk.files, filePath, readErrors, interrupted)
    ensures AliasKeyed(state) && None !in state
  {
    if filePath !in disk.files {
      return map[];
    }
    var run := ExecuteWithRetry(LoadAttempt(disk.files[filePath], readErrors), ForStateOperations(),
                                LoadOperationName(filePath), interrupted, ());
    if run.result.Ok? {
      state := run.result.value;
    } else {
      state := map[];
    }
  }

  /** saveState: the retried save; true exactly when it succeeded. The disk
      afterwards is the world the retried save leaves behind: its destination
      holds the old content or the complete new document, and the new document
      when the result is true. */
  method SaveState(disk: Disk, filePath: string, state: Option<Snapshot>, order: seq<Key>,
                   faults: nat -> SaveFaults, interrupted: nat -> bool) returns (saved: bool)
    requires state.Some? ==> Enumerates(order, state.value)
    modifies disk
    ensures var run := SaveRun(old(disk.files), filePath, state, order, faults, interrupted);
      saved == run.result.Ok? && disk.files == run.world
    ensures state.Some? ==> OldOrNew(old(disk.files), disk.files, filePath, SavedDoc(state.value, order))
    ensures state.Some? && saved ==> filePath in disk.files && disk.files[filePath].doc == SavedDoc(state.value, order)
    ensures state.None? ==> !saved && disk.files == old(disk.files)
  {
    if state.Some? {
      SaveStateFacts(disk.files, filePath, state.value, order, faults, interrupted);
    } else {
      SaveNullState(disk.files, filePath, order, faults, interrupted);
    }
    var run := ExecuteWithRetry(SaveAttempt(filePath, state, order, faults), ForStateOperations(),
                                SaveOperationName(filePath), interrupted, disk.files);
    disk.files := run.world;
    saved := run.result.Ok?;
  }
}
