/** The cart views (Cart/views.py): lazy get-or-create, add with merge, update, remove, clear.
    Each view is a method on the store, proved equal to a spec function whose contract states
    the error checks in their order, what the cart becomes and that nothing else changes. */
module CartViews {
  import opened Models
  import opened Storage

  /** A `quantity` request value as update_item sees it: absent, present but falsy (0, "", null),
      truthy and accepted by int() with result n, or truthy and refused by int() (ValueError). */
  datatype RawQuantity = Absent | Falsy | Numeric(n: int) | NotNumeric

  datatype CartError =
    | ProductIdRequired
    | ProductNotFound
    | QuantityNotPositive
    | NotEnoughStock
    | ItemIdAndQuantityRequired
    | QuantityNotANumber
    | ItemIdRequired
    | ItemNotFound

  /** The HTTP status each error is answered with. */
  function ErrorStatus(e: CartError): int
  {
    if e == ProductNotFound || e == ItemNotFound then 404 else 400
  }

  /** A successful view answers the serialized cart, i.e. its lines. */
  datatype CartReply = CartContents(lines: seq<CartLine>) | CartFailure(error: CartError)

  /** An id field counts as given when it is present and truthy (the id 0 is falsy). */
  predicate IdGiven(id: Option<int>)
  {
    id.Some? && id.value != 0
  }

  /** `int(request.data.get('quantity', 1))`: an absent quantity adds one. */
  function AddedQuantity(quantity: Option<int>): int
  {
    if quantity.Some? then quantity.value else 1
  }

  /** Only the cart table and the line-id counter may differ between the two stores. */
  predicate OnlyCartsChanged(db: Db, db': Db)
  {
    db' == db.(carts := db'.carts, nextLineId := db'.nextLineId)
  }

  function LinesOf(db: Db, user: UserId): seq<CartLine>
  {
    if user in db.carts then db.carts[user] else []
  }

  // ---------------------------------------------------------------------------------------
  // Lines of one cart

  /** The position of the line for `product`, if there is one. */
  function FindByProduct(lines: seq<CartLine>, product: ProductId): (r: Option<nat>)
    ensures r.Some? ==> r.value < |lines| && lines[r.value].product == product
    ensures r.None? <==> forall i | 0 <= i < |lines| :: lines[i].product != product
  {
    if lines == [] then None
    else if lines[0].product == product then Some(0)
    else match FindByProduct(lines[1..], product)
      case Some(k) => Some(k + 1)
      case None => None
  }

  /** The position of the line with id `id`, if there is one (`CartItem.objects.get(id, cart)`).
      This is the same search as FindByProduct on a different key: add_item looks a line up by
      its product (`get_or_create(cart, product)`), update_item and remove_item by the line's own
      id. The two are kept apart so that each view's contract names the key it searches on. */
  function FindLine(lines: seq<CartLine>, id: LineId): (r: Option<nat>)
    ensures r.Some? ==> r.value < |lines| && lines[r.value].id == id
    ensures r.None? <==> forall i | 0 <= i < |lines| :: lines[i].id != id
  {
    if lines == [] then None
    else if lines[0].id == id then Some(0)
    else match FindLine(lines[1..], id)
      case Some(k) => Some(k + 1)
      case None => None
  }

  function Contribution(line: CartLine, product: ProductId): int
  {
    if line.product == product then line.quantity else 0
  }

  /** How many units of `product` the lines hold. */
  function QuantityOf(lines: seq<CartLine>, product: ProductId): int
  {
    if lines == [] then 0 else Contribution(lines[0], product) + QuantityOf(lines[1..], product)
  }

  lemma {:induction false} QuantityOfConcat(a: seq<CartLine>, b: seq<CartLine>, p: ProductId)
    ensures QuantityOf(a + b, p) == QuantityOf(a, p) + QuantityOf(b, p)
  {
    if a == [] {
      assert a + b == b;
    } else {
      assert (a + b)[0] == a[0];
      assert (a + b)[1..] == a[1..] + b;
      QuantityOfConcat(a[1..], b, p);
      calc {
        QuantityOf(a + b, p);
        Contribution(a[0], p) + QuantityOf(a[1..] + b, p);
        Contribution(a[0], p) + QuantityOf(a[1..], p) + QuantityOf(b, p);
      }
    }
  }

  lemma QuantityOfSingle(line: CartLine, p: ProductId)
    ensures QuantityOf([line], p) == Contribution(line, p)
  {
    assert [line][1..] == [];
  }

  /** Replacing line k changes the held quantity by exactly the difference of the two lines. */
  lemma QuantityOfReplace(lines: seq<CartLine>, k: nat, v: CartLine, p: ProductId)
    requires k < |lines|
    ensures QuantityOf(lines[k := v], p) == QuantityOf(lines, p) - Contribution(lines[k], p) + Contribution(v, p)
  {
    assert lines == lines[..k] + [lines[k]] + lines[k+1..];
    assert lines[k := v] == lines[..k] + [v] + lines[k+1..];
    QuantityOfConcat(lines[..k] + [lines[k]], lines[k+1..], p);
    QuantityOfConcat(lines[..k], [lines[k]], p);
    QuantityOfConcat(lines[..k] + [v], lines[k+1..], p);
    QuantityOfConcat(lines[..k], [v], p);
    QuantityOfSingle(lines[k], p);
    QuantityOfSingle(v, p);
  }

  /** Removing line k takes away exactly what that line held. */
  lemma QuantityOfRemove(lines: seq<CartLine>, k: nat, p: ProductId)
    requires k < |lines|
    ensures QuantityOf(RemoveAt(lines, k), p) == QuantityOf(lines, p) - Contribution(lines[k], p)
  {
    assert lines == lines[..k] + [lines[k]] + lines[k+1..];
    QuantityOfConcat(lines[..k] + [lines[k]], lines[k+1..], p);
    QuantityOfConcat(lines[..k], [lines[k]], p);
    QuantityOfConcat(lines[..k], lines[k+1..], p);
    QuantityOfSingle(lines[k], p);
  }

  /** With at most one line per product, the held quantity of a product is that of its line,
      and zero when it has none. */
  lemma {:induction false} QuantityOfUnique(lines: seq<CartLine>, p: ProductId)
    requires forall i, j | 0 <= i < j < |lines| :: lines[i].product != lines[j].product
    ensures FindByProduct(lines, p).Some? ==> QuantityOf(lines, p) == lines[FindByProduct(lines, p).value].quantity
    ensures FindByProduct(lines, p).None? ==> QuantityOf(lines, p) == 0
  {
    if lines != [] {
      QuantityOfUnique(lines[1..], p);
      if lines[0].product == p {
        assert FindByProduct(lines[1..], p).None? by {
          forall i | 0 <= i < |lines[1..]| ensures lines[1..][i].product != p {
            assert lines[1..][i] == lines[i + 1];
          }
        }
      }
    }
  }

  /** `get_or_create(cart, product, defaults={'quantity': q})` followed by `quantity += q`: only the
      product's line is touched. Every existing line keeps its id and product, lines of other
      products are unchanged, and a line is appended, with the fresh id, only when none had the
      product. */
  function Merge(lines: seq<CartLine>, product: ProductId, quantity: int, freshId: LineId): (r: seq<CartLine>)
    ensures |lines| <= |r| <= |lines| + 1
    ensures forall i | 0 <= i < |lines| ::
      && r[i].id == lines[i].id && r[i].product == lines[i].product
      && (lines[i].product != product ==> r[i] == lines[i])
    ensures |r| == |lines| + 1 <==> forall i | 0 <= i < |lines| :: lines[i].product != product
    ensures |r| == |lines| + 1 ==> r[|lines|] == CartLine(freshId, product, quantity)
  {
    match FindByProduct(lines, product)
    case Some(k) => lines[k := lines[k].(quantity := lines[k].quantity + quantity)]
    case None => lines + [CartLine(freshId, product, quantity)]
  }

  /** The line counter after a merge: it moves on only when a line was created. */
  function NextAfterMerge(lines: seq<CartLine>, product: ProductId, nextLineId: int): int
  {
    if FindByProduct(lines, product).Some? then nextLineId else nextLineId + 1
  }

  /** A merge adds q units of the product and leaves every other product's quantity alone; it
      keeps the lines valid, one per product. */
  lemma MergeFacts(lines: seq<CartLine>, products: map<ProductId, Product>, next: int, product: ProductId, q: int)
    requires LinesValid(lines, products, next) && next >= 1 && product in products && q > 0
    ensures LinesValid(Merge(lines, product, q, next), products, NextAfterMerge(lines, product, next))
    ensures forall p :: QuantityOf(Merge(lines, product, q, next), p) == QuantityOf(lines, p) + (if p == product then q else 0)
  {
    var m := Merge(lines, product, q, next);
    match FindByProduct(lines, product) {
      case Some(k) =>
        assert forall i | 0 <= i < |m| :: m[i].id == lines[i].id && m[i].product == lines[i].product;
      case None =>
        assert forall i | 0 <= i < |lines| :: m[i] == lines[i];
        assert m[|lines|] == CartLine(next, product, q);
    }
    forall p ensures QuantityOf(Merge(lines, product, q, next), p) == QuantityOf(lines, p) + (if p == product then q else 0) {
      match FindByProduct(lines, product)
      case Some(k) =>
        QuantityOfReplace(lines, k, lines[k].(quantity := lines[k].quantity + q), p);
      case None =>
        QuantityOfConcat(lines, [CartLine(next, product, q)], p);
        QuantityOfSingle(CartLine(next, product, q), p);
    }
  }

  function RemoveAt(lines: seq<CartLine>, k: nat): seq<CartLine>
    requires k < |lines|
  {
    lines[..k] + lines[k+1..]
  }

  /** Removing the line at k leaves exactly the lines with another id, and keeps the lines valid. */
  lemma RemoveFacts(lines: seq<CartLine>, products: map<ProductId, Product>, next: int, k: nat)
    requires LinesValid(lines, products, next) && k < |lines|
    ensures LinesValid(RemoveAt(lines, k), products, next)
    ensures forall l :: l in RemoveAt(lines, k) <==> l in lines && l.id != lines[k].id
    ensures |RemoveAt(lines, k)| == |lines| - 1
  {
    var r := RemoveAt(lines, k);
    assert forall i | 0 <= i < |r| :: r[i] == if i < k then lines[i] else lines[i + 1];
    forall l | l in lines && l.id != lines[k].id ensures l in r {
      var j :| 0 <= j < |lines| && lines[j] == l;
      assert j != k;
      if j < k { assert r[j] == l; } else { assert r[j - 1] == l; }
    }
  }

  // ---------------------------------------------------------------------------------------
  // The views as spec functions

  /** `Cart.objects.get_or_create(user=...)`: the user's cart, created empty when missing, so
      there is never more than one cart per user (the carts table is keyed by user). */
  function GetOrCreateCartSpec(db: Db, user: UserId): (r: Db)
    ensures user in r.carts && r.carts[user] == LinesOf(db, user)
    ensures r.carts.Keys == db.carts.Keys + {user}
    ensures forall u | u in db.carts :: r.carts[u] == db.carts[u]
    ensures r == db.(carts := r.carts)
    ensures Consistent(db) ==> Consistent(r)
  {
    if user in db.carts then db else db.(carts := db.carts[user := []])
  }

  function AddItemSpec(db: Db, user: UserId, product: Option<int>, quantity: Option<int>): (r: Step<CartReply>)
    ensures r.reply == CartFailure(ProductIdRequired) <==> !IdGiven(product)
    ensures r.reply == CartFailure(ProductNotFound) <==> IdGiven(product) && product.value !in db.products
    ensures r.reply == CartFailure(QuantityNotPositive) <==>
      IdGiven(product) && product.value in db.products && AddedQuantity(quantity) <= 0
    ensures r.reply == CartFailure(NotEnoughStock) <==>
      IdGiven(product) && product.value in db.products && AddedQuantity(quantity) > 0
      && db.products[product.value].stock < AddedQuantity(quantity)
    ensures r.reply.CartFailure? ==> r.db == db
    ensures r.reply.CartContents? <==>
      IdGiven(product) && product.value in db.products && AddedQuantity(quantity) > 0
      && db.products[product.value].stock >= AddedQuantity(quantity)
    ensures r.reply.CartContents? ==> OnlyCartsChanged(db, r.db) && user in r.db.carts && r.reply.lines == r.db.carts[user]
  {
    var q := AddedQuantity(quantity);
    if !IdGiven(product) then Step(CartFailure(ProductIdRequired), db)
    else if product.value !in db.products then Step(CartFailure(ProductNotFound), db)
    else if q <= 0 then Step(CartFailure(QuantityNotPositive), db)
    else if db.products[product.value].stock < q then Step(CartFailure(NotEnoughStock), db)
    else
      var db1 := GetOrCreateCartSpec(db, user);
      var lines := db1.carts[user];
      var merged := Merge(lines, product.value, q, db1.nextLineId);
      Step(CartContents(merged), db1.(carts := db1.carts[user := merged],
                                      nextLineId := NextAfterMerge(lines, product.value, db1.nextLineId)))
  }

  /** A successful add raises the product's quantity in the user's cart by q, leaves every other
      product's quantity and every other cart alone, and keeps the store consistent (in
      particular, still one line per product). */
  lemma AddItemSucceeds(db: Db, user: UserId, product: Option<int>, quantity: Option<int>)
    requires Consistent(db)
    ensures var r := AddItemSpec(db, user, product, quantity);
      && Consistent(r.db)
      && (r.reply.CartContents? ==>
        && r.db.carts.Keys == db.carts.Keys + {user}
        && (forall u | u in db.carts && u != user :: r.db.carts[u] == db.carts[u])
        && (forall p :: QuantityOf(r.reply.lines, p)
                        == QuantityOf(LinesOf(db, user), p) + (if p == product.value then AddedQuantity(quantity) else 0))
        && var before := LinesOf(db, user);
           && |before| <= |r.reply.lines| <= |before| + 1
           && (forall i | 0 <= i < |before| ::
                 && r.reply.lines[i].id == before[i].id && r.reply.lines[i].product == before[i].product
                 && (before[i].product != product.value ==> r.reply.lines[i] == before[i]))
           && (|r.reply.lines| == |before| + 1 ==>
                 r.reply.lines[|before|] == CartLine(db.nextLineId, product.value, AddedQuantity(quantity))))
  {
    var r := AddItemSpec(db, user, product, quantity);
    if r.reply.CartContents? {
      var q := AddedQuantity(quantity);
      var db1 := GetOrCreateCartSpec(db, user);
      var lines := db1.carts[user];
      MergeFacts(lines, db.products, db1.nextLineId, product.value, q);
      var next := NextAfterMerge(lines, product.value, db1.nextLineId);
      forall u | u in r.db.carts ensures LinesValid(r.db.carts[u], r.db.products, r.db.nextLineId) {
        if u != user { LinesValidLater(db1.carts[u], db1.products, db1.nextLineId, next); }
      }
    }
  }

  function UpdateItemSpec(db: Db, user: UserId, itemId: Option<int>, quantity: RawQuantity): (r: Step<CartReply>)
    requires Consistent(db)
    ensures r.reply == CartFailure(ItemIdAndQuantityRequired) <==>
      !IdGiven(itemId) || quantity.Absent? || quantity.Falsy?
    ensures r.reply == CartFailure(QuantityNotANumber) <==> IdGiven(itemId) && quantity.NotNumeric?
    ensures r.reply == CartFailure(QuantityNotPositive) <==> IdGiven(itemId) && quantity.Numeric? && quantity.n <= 0
    ensures (r.reply == CartFailure(ItemIdAndQuantityRequired) || r.reply == CartFailure(QuantityNotANumber)
             || r.reply == CartFailure(QuantityNotPositive)) ==> r.db == db
    ensures r.reply == CartFailure(ItemNotFound) <==>
      IdGiven(itemId) && quantity.Numeric? && quantity.n > 0 && FindLine(LinesOf(db, user), itemId.value).None?
    ensures r.reply == CartFailure(NotEnoughStock) <==>
      && IdGiven(itemId) && quantity.Numeric? && quantity.n > 0
      && FindLine(LinesOf(db, user), itemId.value).Some?
      && db.products[LinesOf(db, user)[FindLine(LinesOf(db, user), itemId.value).value].product].stock < quantity.n
    ensures (r.reply == CartFailure(ItemNotFound) || r.reply == CartFailure(NotEnoughStock)) ==>
      r.db == GetOrCreateCartSpec(db, user)
    ensures r.reply.CartContents? <==>
      && IdGiven(itemId) && quantity.Numeric? && quantity.n > 0
      && FindLine(LinesOf(db, user), itemId.value).Some?
      && db.products[LinesOf(db, user)[FindLine(LinesOf(db, user), itemId.value).value].product].stock >= quantity.n
    ensures r.reply.CartContents? ==>
      OnlyCartsChanged(db, r.db) && r.db.nextLineId == db.nextLineId && user in r.db.carts && r.reply.lines == r.db.carts[user]
  {
    if !IdGiven(itemId) || quantity.Absent? || quantity.Falsy? then Step(CartFailure(ItemIdAndQuantityRequired), db)
    else if quantity.NotNumeric? then Step(CartFailure(QuantityNotANumber), db)
    else if quantity.n <= 0 then Step(CartFailure(QuantityNotPositive), db)
    else
      var db1 := GetOrCreateCartSpec(db, user);
      var lines := db1.carts[user];
      match FindLine(lines, itemId.value)
      case None => Step(CartFailure(ItemNotFound), db1)
      case Some(k) =>
        if db1.products[lines[k].product].stock < quantity.n then Step(CartFailure(NotEnoughStock), db1)
        else
          var updated := lines[k := lines[k].(quantity := quantity.n)];
          Step(CartContents(updated), db1.(carts := db1.carts[user := updated]))
  }

  /** A successful update sets the named line's quantity to exactly q (a replace, not an add),
      changes no other line and no other cart, and keeps the store consistent. */
  lemma UpdateItemSucceeds(db: Db, user: UserId, itemId: Option<int>, quantity: RawQuantity)
    requires Consistent(db)
    ensures var r := UpdateItemSpec(db, user, itemId, quantity);
      && Consistent(r.db)
      && (r.reply.CartContents? ==>
        && r.db.carts.Keys == db.carts.Keys + {user}
        && (forall u | u in db.carts && u != user :: r.db.carts[u] == db.carts[u])
        && var before := LinesOf(db, user);
           var k := FindLine(before, itemId.value).value;
           && |r.reply.lines| == |before|
           && r.reply.lines[k] == CartLine(itemId.value, before[k].product, quantity.n)
           && (forall i | 0 <= i < |before| && i != k :: r.reply.lines[i] == before[i])
           && QuantityOf(r.reply.lines, before[k].product) == quantity.n)
  {
    var r := UpdateItemSpec(db, user, itemId, quantity);
    if r.reply.CartContents? {
      var lines := LinesOf(db, user);
      var k := FindLine(lines, itemId.value).value;
      var updated := lines[k := lines[k].(quantity := quantity.n)];
      assert r.reply.lines == updated;
      assert LinesValid(updated, db.products, db.nextLineId);
      QuantityOfUnique(updated, lines[k].product);
      assert updated[k].product == lines[k].product;
      var j := FindByProduct(updated, lines[k].product).value;
      assert j == k;
    }
  }

  function RemoveItemSpec(db: Db, user: UserId, itemId: Option<int>): (r: Step<CartReply>)
    requires Consistent(db)
    ensures r.reply == CartFailure(ItemIdRequired) <==> !IdGiven(itemId)
    ensures r.reply == CartFailure(ItemIdRequired) ==> r.db == db
    ensures r.reply == CartFailure(ItemNotFound) <==>
      IdGiven(itemId) && forall l | l in LinesOf(db, user) :: l.id != itemId.value
    ensures r.reply == CartFailure(ItemNotFound) ==> r.db == GetOrCreateCartSpec(db, user)
    ensures r.reply.CartContents? <==> IdGiven(itemId) && exists l | l in LinesOf(db, user) :: l.id == itemId.value
    ensures r.reply.CartContents? ==>
      OnlyCartsChanged(db, r.db) && r.db.nextLineId == db.nextLineId && user in r.db.carts && r.reply.lines == r.db.carts[user]
  {
    if !IdGiven(itemId) then Step(CartFailure(ItemIdRequired), db)
    else
      var db1 := GetOrCreateCartSpec(db, user);
      var lines := db1.carts[user];
      match FindLine(lines, itemId.value)
      case None => Step(CartFailure(ItemNotFound), db1)
      case Some(k) => Step(CartContents(RemoveAt(lines, k)), db1.(carts := db1.carts[user := RemoveAt(lines, k)]))
  }

  /** A successful remove deletes exactly the named line, keeps every other line of the cart
      and every other cart, and keeps the store consistent. */
  lemma RemoveItemSucceeds(db: Db, user: UserId, itemId: Option<int>)
    requires Consistent(db)
    ensures var r := RemoveItemSpec(db, user, itemId);
      && Consistent(r.db)
      && (r.reply.CartContents? ==>
        && r.db.carts.Keys == db.carts.Keys + {user}
        && (forall u | u in db.carts && u != user :: r.db.carts[u] == db.carts[u])
        && |r.reply.lines| == |LinesOf(db, user)| - 1
        && (forall l :: l in r.reply.lines <==> l in LinesOf(db, user) && l.id != itemId.value))
  {
    var r := RemoveItemSpec(db, user, itemId);
    if r.reply.CartContents? {
      var db1 := GetOrCreateCartSpec(db, user);
      var lines := db1.carts[user];
      var k := FindLine(lines, itemId.value).value;
      RemoveFacts(lines, db1.products, db1.nextLineId, k);
    }
  }

  function ClearSpec(db: Db, user: UserId): (r: Step<CartReply>)
    ensures r.reply == CartContents([])
    ensures OnlyCartsChanged(db, r.db) && r.db.nextLineId == db.nextLineId
    ensures r.db.carts.Keys == db.carts.Keys + {user} && r.db.carts[user] == []
    ensures forall u | u in db.carts && u != user :: r.db.carts[u] == db.carts[u]
    ensures Consistent(db) ==> Consistent(r.db)
  {
    var db1 := GetOrCreateCartSpec(db, user);
    Step(CartContents([]), db1.(carts := db1.carts[user := []]))
  }

  // ---------------------------------------------------------------------------------------
  // Properties relating several calls

  /** Adding the same product twice leaves one line for it, holding both amounts. */
  lemma AddTwiceMerges(db: Db, user: UserId, product: ProductId, q: int)
    requires Consistent(db) && product != 0 && product in db.products
    requires 0 < q <= db.products[product].stock
    ensures var s1 := AddItemSpec(db, user, Some(product), Some(q));
            var s2 := AddItemSpec(s1.db, user, Some(product), Some(q));
            && s1.reply.CartContents? && s2.reply.CartContents?
            && QuantityOf(s2.reply.lines, product) == QuantityOf(LinesOf(db, user), product) + 2 * q
            && FindByProduct(s2.reply.lines, product).Some?
            && forall i, j | 0 <= i < j < |s2.reply.lines| :: s2.reply.lines[i].product != s2.reply.lines[j].product
  {
    var s1 := AddItemSpec(db, user, Some(product), Some(q));
    AddItemSucceeds(db, user, Some(product), Some(q));
    assert s1.reply.CartContents?;
    assert s1.db.products == db.products;
    assert LinesOf(s1.db, user) == s1.reply.lines;
    var s2 := AddItemSpec(s1.db, user, Some(product), Some(q));
    AddItemSucceeds(s1.db, user, Some(product), Some(q));
    assert s2.reply.CartContents?;
    var lines := s2.reply.lines;
    assert QuantityOf(lines, product) == QuantityOf(s1.reply.lines, product) + q;
    assert QuantityOf(s1.reply.lines, product) == QuantityOf(LinesOf(db, user), product) + q;
    assert lines == s2.db.carts[user];
    assert LinesValid(lines, s2.db.products, s2.db.nextLineId);
    QuantityOfUnique(lines, product);
    QuantityOfUnique(LinesOf(db, user), product);
  }

  /** add_item compares stock with the amount added, not with what the line will hold: a line
      already in the cart can be pushed above the stock. */
  lemma AddCanExceedStock(db: Db, user: UserId, product: ProductId, q: int)
    requires Consistent(db) && product != 0 && product in db.products
    requires 0 < q <= db.products[product].stock
    requires QuantityOf(LinesOf(db, user), product) + q > db.products[product].stock
    ensures AddItemSpec(db, user, Some(product), Some(q)).reply.CartContents?
    ensures QuantityOf(AddItemSpec(db, user, Some(product), Some(q)).reply.lines, product) > db.products[product].stock
  {
    AddItemSucceeds(db, user, Some(product), Some(q));
  }

  /** A counterexample store for the lemma above: stock 5, three in the cart, three more added. */
  lemma AddExceedsStockExample()
    ensures var db := Db(map[1 := Product("lamp", 1000, 5)], map[7 := [CartLine(1, 1, 3)]], map[], map[], [], 2, 1);
            var s := AddItemSpec(db, 7, Some(1), Some(3));
            s.reply == CartContents([CartLine(1, 1, 6)]) && s.db.products[1].stock == 5
  {
    var db := Db(map[1 := Product("lamp", 1000, 5)], map[7 := [CartLine(1, 1, 3)]], map[], map[], [], 2, 1);
    assert Consistent(db);
    assert FindByProduct([CartLine(1, 1, 3)], 1) == Some(0);
  }

  /** remove_item is not idempotent: once a line is removed, removing it again is a 404. */
  lemma RemoveTwiceFails(db: Db, user: UserId, id: int)
    requires Consistent(db)
    requires RemoveItemSpec(db, user, Some(id)).reply.CartContents?
    ensures Consistent(RemoveItemSpec(db, user, Some(id)).db)
         && RemoveItemSpec(RemoveItemSpec(db, user, Some(id)).db, user, Some(id)).reply == CartFailure(ItemNotFound)
  {
    var s1 := RemoveItemSpec(db, user, Some(id));
    RemoveItemSucceeds(db, user, Some(id));
    assert LinesOf(s1.db, user) == s1.reply.lines;
    assert forall l | l in s1.reply.lines :: l.id != id;
  }

  /** clear is idempotent, and clearing an already empty cart succeeds. */
  lemma ClearIdempotent(db: Db, user: UserId)
    ensures ClearSpec(ClearSpec(db, user).db, user) == ClearSpec(db, user)
  {
  }

  /** The HTTP status of a cart reply: 200 with the cart, otherwise its error's status. */
  function ReplyStatus(r: CartReply): int
  {
    if r.CartContents? then 200 else ErrorStatus(r.error)
  }

  /** add_item answers 404 exactly for an unknown product, 200 exactly when every check passes,
      and 400 for the missing id, the non-positive quantity and the short stock. */
  lemma AddItemStatuses(db: Db, user: UserId, product: Option<int>, quantity: Option<int>)
    ensures var s := ReplyStatus(AddItemSpec(db, user, product, quantity).reply);
      && (s == 404 <==> IdGiven(product) && product.value !in db.products)
      && (s == 200 <==>
            IdGiven(product) && product.value in db.products
            && 0 < AddedQuantity(quantity) <= db.products[product.value].stock)
      && (s == 400 <==>
            !IdGiven(product)
            || (product.value in db.products && !(0 < AddedQuantity(quantity) <= db.products[product.value].stock)))
  {
  }

  /** update_item answers 404 exactly when the cart has no line with the id, 200 exactly when
      every check passes, and 400 for the missing fields, the bad quantity and the short stock. */
  lemma UpdateItemStatuses(db: Db, user: UserId, itemId: Option<int>, quantity: RawQuantity)
    requires Consistent(db)
    ensures var s := ReplyStatus(UpdateItemSpec(db, user, itemId, quantity).reply);
      var valid := IdGiven(itemId) && quantity.Numeric? && quantity.n > 0;
      && (s == 404 <==> valid && FindLine(LinesOf(db, user), itemId.value).None?)
      && (s == 200 <==>
            && valid && FindLine(LinesOf(db, user), itemId.value).Some?
            && db.products[LinesOf(db, user)[FindLine(LinesOf(db, user), itemId.value).value].product].stock >= quantity.n)
      && (s == 400 <==>
            || !valid
            || (&& FindLine(LinesOf(db, user), itemId.value).Some?
                && db.products[LinesOf(db, user)[FindLine(LinesOf(db, user), itemId.value).value].product].stock < quantity.n))
  {
  }

  /** remove_item answers 400 without an id, 404 when no line of the cart has it, else 200. */
  lemma RemoveItemStatuses(db: Db, user: UserId, itemId: Option<int>)
    requires Consistent(db)
    ensures var s := ReplyStatus(RemoveItemSpec(db, user, itemId).reply);
      && (s == 400 <==> !IdGiven(itemId))
      && (s == 404 <==> IdGiven(itemId) && forall l | l in LinesOf(db, user) :: l.id != itemId.value)
      && (s == 200 <==> IdGiven(itemId) && exists l | l in LinesOf(db, user) :: l.id == itemId.value)
  {
  }

  /** clear always answers 200. */
  lemma ClearStatuses(db: Db, user: UserId)
    ensures ReplyStatus(ClearSpec(db, user).reply) == 200
  {
  }

  // ---------------------------------------------------------------------------------------
  // The views as methods on the store

  method GetOrCreateCart(st: Store, user: UserId) returns (lines: seq<CartLine>)
    requires st.Valid()
    modifies st
    ensures st.Valid()
    ensures st.Snapshot() == GetOrCreateCartSpec(old(st.Snapshot()), user)
    ensures user in st.carts && lines == st.carts[user]
  {
    if user !in st.carts {
      st.carts := st.carts[user := []];
    }
    lines := st.carts[user];
  }

  /** GET my_cart: the user's cart, created if missing. */
  method MyCart(st: Store, user: UserId) returns (reply: CartReply)
    requires st.Valid()
    modifies st
    ensures st.Valid()
    ensures st.Snapshot() == GetOrCreateCartSpec(old(st.Snapshot()), user)
    ensures reply == CartContents(LinesOf(old(st.Snapshot()), user))
  {
    var lines := GetOrCreateCart(st, user);
    reply := CartContents(lines);
  }

  method AddItem(st: Store, user: UserId, product: Option<int>, quantity: Option<int>) returns (reply: CartReply)
    requires st.Valid()
    modifies st
    ensures st.Valid()
    ensures Step(reply, st.Snapshot()) == AddItemSpec(old(st.Snapshot()), user, product, quantity)
  {
    ghost var db := st.Snapshot();
    AddItemSucceeds(db, user, product, quantity);
    var q := AddedQuantity(quantity);
    if !IdGiven(product) {
      return CartFailure(ProductIdRequired);
    }
    var id := product.value;
    if id !in st.products {
      return CartFailure(ProductNotFound);
    }
    if q <= 0 {
      return CartFailure(QuantityNotPositive);
    }
    if st.products[id].stock < q {
      return CartFailure(NotEnoughStock);
    }
    var lines := GetOrCreateCart(st, user);
    ghost var db1 := st.Snapshot();
    assert db1 == GetOrCreateCartSpec(db, user);
    match FindByProduct(lines, id) {
      case Some(k) =>
        st.carts := st.carts[user := lines[k := lines[k].(quantity := lines[k].quantity + q)]];
      case None =>
        st.carts := st.carts[user := lines + [CartLine(st.nextLineId, id, q)]];
        st.nextLineId := st.nextLineId + 1;
    }
    reply := CartContents(st.carts[user]);
    assert st.Snapshot() == db1.(carts := db1.carts[user := Merge(lines, id, q, db1.nextLineId)],
                                 nextLineId := NextAfterMerge(lines, id, db1.nextLineId));
  }

  method UpdateItem(st: Store, user: UserId, itemId: Option<int>, quantity: RawQuantity) returns (reply: CartReply)
    requires st.Valid()
    modifies st
    ensures st.Valid()
    ensures Step(reply, st.Snapshot()) == UpdateItemSpec(old(st.Snapshot()), user, itemId, quantity)
  {
    UpdateItemSucceeds(st.Snapshot(), user, itemId, quantity);
    if !IdGiven(itemId) || quantity.Absent? || quantity.Falsy? {
      return CartFailure(ItemIdAndQuantityRequired);
    }
    if quantity.NotNumeric? {
      return CartFailure(QuantityNotANumber);
    }
    if quantity.n <= 0 {
      return CartFailure(QuantityNotPositive);
    }
    var lines := GetOrCreateCart(st, user);
    match FindLine(lines, itemId.value) {
      case None =>
        return CartFailure(ItemNotFound);
      case Some(k) =>
        if st.products[lines[k].product].stock < quantity.n {
          return CartFailure(NotEnoughStock);
        }
        st.carts := st.carts[user := lines[k := lines[k].(quantity := quantity.n)]];
        reply := CartContents(st.carts[user]);
    }
  }

  method RemoveItem(st: Store, user: UserId, itemId: Option<int>) returns (reply: CartReply)
    requires st.Valid()
    modifies st
    ensures st.Valid()
    ensures Step(reply, st.Snapshot()) == RemoveItemSpec(old(st.Snapshot()), user, itemId)
  {
    RemoveItemSucceeds(st.Snapshot(), user, itemId);
    if !IdGiven(itemId) {
      return CartFailure(ItemIdRequired);
    }
    var lines := GetOrCreateCart(st, user);
    match FindLine(lines, itemId.value) {
      case None =>
        return CartFailure(ItemNotFound);
      case Some(k) =>
        st.carts := st.carts[user := lines[..k] + lines[k+1..]];
        reply := CartContents(st.carts[user]);
    }
  }

  method Clear(st: Store, user: UserId) returns (reply: CartReply)
    requires st.Valid()
    modifies st
    ensures st.Valid()
    ensures Step(reply, st.Snapshot()) == ClearSpec(old(st.Snapshot()), user)
  {
    var _ := GetOrCreateCart(st, user);
    st.carts := st.carts[user := []];
    reply := CartContents(st.carts[user]);
  }
}
