/**
  The client-side cart store (`useCartStore` in frontend/src/store/useCartStore.ts).

  The store holds one list of cart lines. `addItem` merges into the line whose
  cart id matches and otherwise appends a line; `updateQuantity` clamps to 1..10,
  `addItem` caps at 10 only; `removeItem` filters a line out; `clearCart` empties
  the list; `getTotalPrice` sums price times quantity.

  Each operation is first a function on the list of lines (what the store's
  `set(...)` call computes), with its properties proved as lemmas; the class
  `Cart` then holds the list in a field and its methods replace it, keeping the
  invariant that cart ids are unique and quantities are at most 10.

  Prices are integers (cents), the value `parseFloat(product.price)` denotes.
*/
module CartStore {
  import opened Wrappers
  import opened CartId

  /** The fields of an API product that `addItem` reads; `price` already parsed. */
  datatype Product = Product(
    id: nat, slug: string, name: string, price: int, image: Option<string>, isCustomCake: bool)

  /** One line of the cart (CartItem, with the `cartId` every line also carries). */
  datatype CartLine = CartLine(
    cartId: string, id: nat, slug: string, name: string, price: int, image: Option<string>,
    quantity: int, isCustomCake: bool,
    flavor: Option<string>, filling: Option<string>, size: Option<string>)

  const MaxQuantity: int := 10

  function Min(a: int, b: int): int
  {
    if a <= b then a else b
  }

  function Max(a: int, b: int): int
  {
    if a >= b then a else b
  }

  /** `Math.min(10, Math.max(1, q))`: the quantity `updateQuantity` stores. */
  function Clamp(q: int): (r: int)
    ensures 1 <= r <= MaxQuantity
    ensures 1 <= q <= MaxQuantity ==> r == q
    ensures q >= MaxQuantity ==> r == MaxQuantity
    ensures q <= 1 ==> r == 1
  {
    Min(MaxQuantity, Max(1, q))
  }

  // ---------------------------------------------------------------------------
  // Invariants of the list of lines

  predicate UniqueIds(items: seq<CartLine>)
  {
    forall i, j :: 0 <= i < j < |items| ==> items[i].cartId != items[j].cartId
  }

  predicate QuantitiesCapped(items: seq<CartLine>)
  {
    forall i :: 0 <= i < |items| ==> items[i].quantity <= MaxQuantity
  }

  predicate Invariant(items: seq<CartLine>)
  {
    UniqueIds(items) && QuantitiesCapped(items)
  }

  predicate HasId(items: seq<CartLine>, cartId: string)
  {
    exists i :: 0 <= i < |items| && items[i].cartId == cartId
  }

  // ---------------------------------------------------------------------------
  // addItem

  /** The value an options object gives to key `k` when it is spread into a line. */
  function OptionValue(o: seq<(OptionKey, string)>, k: OptionKey): (v: Option<string>)
    ensures v.Some? ==> (k, v.value) in o
    ensures v.None? ==> forall i :: 0 <= i < |o| ==> o[i].0 != k
    ensures DistinctKeys(o) ==> forall i :: 0 <= i < |o| && o[i].0 == k ==> v == Some(o[i].1)
  {
    if o == [] then None
    else if o[0].0 == k then Some(o[0].1)
    else OptionValue(o[1..], k)
  }

  /** The line `addItem` appends: the product's fields, the capped quantity, then the options spread last. */
  function NewLine(cartId: string, product: Product, quantity: int, options: Option<Options>): (l: CartLine)
    ensures l.quantity <= MaxQuantity
    ensures quantity <= MaxQuantity ==> l.quantity == quantity
    ensures options.None? ==> l.flavor.None? && l.filling.None? && l.size.None?
    ensures forall o: Options, i :: options == Some(o) && 0 <= i < |o| ==>
      && (o[i].0 == Flavor ==> l.flavor == Some(o[i].1))
      && (o[i].0 == Filling ==> l.filling == Some(o[i].1))
      && (o[i].0 == Size ==> l.size == Some(o[i].1))
  {
    var spread := if options.Some? then options.value else [];
    CartLine(cartId, product.id, product.slug, product.name, product.price, product.image,
             Min(MaxQuantity, quantity), product.isCustomCake,
             OptionValue(spread, Flavor), OptionValue(spread, Filling), OptionValue(spread, Size))
  }

  /** `items.find(item => item.cartId === cartId)`, as the index of the first match. */
  function FindLine(items: seq<CartLine>, cartId: string): (r: Option<nat>)
    ensures r.Some? ==> r.value < |items| && items[r.value].cartId == cartId
    ensures r.Some? ==> forall j :: 0 <= j < r.value ==> items[j].cartId != cartId
    ensures r.None? <==> !HasId(items, cartId)
  {
    if items == [] then None
    else if items[0].cartId == cartId then Some(0)
    else
      match FindLine(items[1..], cartId)
      case None => None
      case Some(i) => Some(i + 1)
  }

  /** `items.map(...)` that gives every line with this id a new quantity and keeps the rest. */
  function SetQuantity(items: seq<CartLine>, cartId: string, newQuantity: int -> int): (r: seq<CartLine>)
    ensures |r| == |items|
    ensures forall i :: 0 <= i < |items| && items[i].cartId != cartId ==> r[i] == items[i]
    ensures forall i :: 0 <= i < |items| && items[i].cartId == cartId ==>
              r[i] == items[i].(quantity := newQuantity(items[i].quantity))
  {
    if items == [] then []
    else
      var head := if items[0].cartId == cartId
                  then items[0].(quantity := newQuantity(items[0].quantity)) else items[0];
      [head] + SetQuantity(items[1..], cartId, newQuantity)
  }

  /** The list after `addItem(product, quantity, options)`. */
  function AfterAdd(items: seq<CartLine>, product: Product, quantity: int, options: Option<Options>): (r: seq<CartLine>)
    ensures HasId(r, GenerateCartId(product.id, options))
    ensures |r| == if HasId(items, GenerateCartId(product.id, options)) then |items| else |items| + 1
    ensures forall i :: 0 <= i < |items| && items[i].cartId != GenerateCartId(product.id, options) ==> r[i] == items[i]
  {
    var cartId := GenerateCartId(product.id, options);
    if FindLine(items, cartId).Some? then
      SetQuantity(items, cartId, q => Min(MaxQuantity, q + quantity))
    else
      var r := items + [NewLine(cartId, product, quantity, options)];
      assert r[|items|].cartId == cartId;
      r
  }

  /** Adding a line whose id is present only raises that line's quantity, capped at 10. */
  lemma AddMergesExisting(items: seq<CartLine>, product: Product, quantity: int, options: Option<Options>, i: nat)
    requires UniqueIds(items)
    requires i < |items| && items[i].cartId == GenerateCartId(product.id, options)
    ensures |AfterAdd(items, product, quantity, options)| == |items|
    ensures AfterAdd(items, product, quantity, options)[i]
            == items[i].(quantity := Min(MaxQuantity, items[i].quantity + quantity))
    ensures forall j :: 0 <= j < |items| && j != i ==> AfterAdd(items, product, quantity, options)[j] == items[j]
  {
    var cartId := GenerateCartId(product.id, options);
    assert HasId(items, cartId);
    assert FindLine(items, cartId).Some?;
    var r := SetQuantity(items, cartId, q => Min(MaxQuantity, q + quantity));
    assert AfterAdd(items, product, quantity, options) == r;
    forall j | 0 <= j < |items| && j != i
      ensures r[j] == items[j]
    {
      assert items[j].cartId != cartId;
    }
  }

  /**
    Adding a line whose id is absent appends exactly one line, after the others,
    carrying the product's fields, `min(10, quantity)` and the selected options.
  */
  lemma AddAppendsNew(items: seq<CartLine>, product: Product, quantity: int, options: Option<Options>)
    requires !HasId(items, GenerateCartId(product.id, options))
    ensures var r := AfterAdd(items, product, quantity, options);
      && |r| == |items| + 1
      && r[..|items|] == items
      && r[|items|].cartId == GenerateCartId(product.id, options)
      && r[|items|].id == product.id && r[|items|].slug == product.slug
      && r[|items|].name == product.name && r[|items|].image == product.image
      && r[|items|].price == product.price
      && r[|items|].isCustomCake == product.isCustomCake
      && r[|items|].quantity == Min(MaxQuantity, quantity)
      && (options.None? ==> r[|items|].flavor.None? && r[|items|].filling.None? && r[|items|].size.None?)
      && (options.Some? ==>
            && r[|items|].flavor == OptionValue(options.value, Flavor)
            && r[|items|].filling == OptionValue(options.value, Filling)
            && r[|items|].size == OptionValue(options.value, Size))
  {
    var r := AfterAdd(items, product, quantity, options);
    assert r == items + [NewLine(GenerateCartId(product.id, options), product, quantity, options)];
    assert r[..|items|] == items;
  }

  /** `addItem` keeps ids unique and quantities at most 10. */
  lemma AddKeepsInvariant(items: seq<CartLine>, product: Product, quantity: int, options: Option<Options>)
    requires Invariant(items)
    ensures Invariant(AfterAdd(items, product, quantity, options))
  {
    var cartId := GenerateCartId(product.id, options);
    var r := AfterAdd(items, product, quantity, options);
    if !HasId(items, cartId) {
      AddAppendsNew(items, product, quantity, options);
      assert forall i :: 0 <= i < |items| ==> r[i] == items[i];
      forall i, j | 0 <= i < j < |r|
        ensures r[i].cartId != r[j].cartId
      {
        if j == |items| {
          assert r[i] == items[i];
        }
      }
      assert QuantitiesCapped(r);
    } else {
      var i := FindLine(items, cartId).value;
      AddMergesExisting(items, product, quantity, options, i);
      assert forall j :: 0 <= j < |r| ==> r[j].cartId == items[j].cartId;
    }
  }

  /**
    `addItem` caps from above only: a quantity of 0 or below on a new line is
    stored as given.
  */
  lemma AddDoesNotFloor(product: Product, quantity: int, options: Option<Options>)
    requires quantity <= MaxQuantity
    ensures AfterAdd([], product, quantity, options) == [NewLine(GenerateCartId(product.id, options), product, quantity, options)]
    ensures AfterAdd([], product, quantity, options)[0].quantity == quantity
  {
  }

  /**
    Adding the same product with the same options twice to a cart without that
    line gives one line with quantity `min(10, min(10, q1) + q2)`.
  */
  lemma AddTwiceMerges(items: seq<CartLine>, product: Product, q1: int, q2: int, options: Option<Options>)
    requires UniqueIds(items)
    requires !HasId(items, GenerateCartId(product.id, options))
    ensures var r := AfterAdd(AfterAdd(items, product, q1, options), product, q2, options);
      && |r| == |items| + 1
      && r[..|items|] == items
      && r[|items|].quantity == Min(MaxQuantity, Min(MaxQuantity, q1) + q2)
  {
    var once := AfterAdd(items, product, q1, options);
    AddAppendsNew(items, product, q1, options);
    assert UniqueIds(once) by {
      forall i, j | 0 <= i < j < |once| ensures once[i].cartId != once[j].cartId {
        if j == |items| { assert once[i] == items[i]; }
      }
    }
    AddMergesExisting(once, product, q2, options, |items|);
    var r := AfterAdd(once, product, q2, options);
    assert forall j :: 0 <= j < |items| ==> r[j] == once[j] == items[j];
    assert r[..|items|] == items;
  }

  /** Two different option selections of one product make two lines. */
  lemma AddDifferentOptionsSeparate(items: seq<CartLine>, product: Product, q1: int, q2: int, o1: Options, o2: Options)
    requires o1 != o2
    requires !HasId(items, GenerateCartId(product.id, Some(o1)))
    requires !HasId(items, GenerateCartId(product.id, Some(o2)))
    ensures var r := AfterAdd(AfterAdd(items, product, q1, Some(o1)), product, q2, Some(o2));
      && |r| == |items| + 2
      && r[|items|].flavor == OptionValue(o1, Flavor)
      && r[|items| + 1].flavor == OptionValue(o2, Flavor)
  {
    var once := AfterAdd(items, product, q1, Some(o1));
    AddAppendsNew(items, product, q1, Some(o1));
    if GenerateCartId(product.id, Some(o1)) == GenerateCartId(product.id, Some(o2)) {
      CartIdInjective(product.id, Some(o1), product.id, Some(o2));
    }
    assert !HasId(once, GenerateCartId(product.id, Some(o2))) by {
      forall j | 0 <= j < |once| ensures once[j].cartId != GenerateCartId(product.id, Some(o2)) {
        if j < |items| { assert once[j] == items[j]; }
      }
    }
    AddAppendsNew(once, product, q2, Some(o2));
  }

  // ---------------------------------------------------------------------------
  // removeItem, updateQuantity, clearCart

  /** `items.filter(item => item.cartId !== cartId)`. */
  function AfterRemove(items: seq<CartLine>, cartId: string): (r: seq<CartLine>)
    ensures forall l :: l in r <==> l in items && l.cartId != cartId
    ensures |r| <= |items|
  {
    if items == [] then []
    else if items[0].cartId == cartId then AfterRemove(items[1..], cartId)
    else [items[0]] + AfterRemove(items[1..], cartId)
  }

  /** Removing an id that is absent changes nothing. */
  lemma {:induction false} RemoveAbsent(items: seq<CartLine>, cartId: string)
    requires !HasId(items, cartId)
    ensures AfterRemove(items, cartId) == items
  {
    if items != [] {
      assert !HasId(items[1..], cartId) by {
        forall j | 0 <= j < |items[1..]| ensures items[1..][j].cartId != cartId {
          assert items[1..][j] == items[j + 1];
        }
      }
      RemoveAbsent(items[1..], cartId);
      assert [items[0]] + items[1..] == items;
    }
  }

  /** Removing a present id drops exactly that line and keeps the others in order. */
  lemma RemovePresent(items: seq<CartLine>, cartId: string, i: nat)
    requires UniqueIds(items)
    requires i < |items| && items[i].cartId == cartId
    ensures AfterRemove(items, cartId) == items[..i] + items[i + 1..]
    ensures |AfterRemove(items, cartId)| == |items| - 1
  {
    var front, line, back := items[..i], items[i], items[i + 1..];
    assert items == front + ([line] + back);
    RemoveAppend(front, [line] + back, cartId);
    RemoveAppend([line], back, cartId);
    assert AfterRemove([line], cartId) == [] by {
      assert [line][1..] == [];
    }
    assert !HasId(front, cartId) by {
      forall j | 0 <= j < |front| ensures front[j].cartId != cartId {
        assert front[j] == items[j];
      }
    }
    assert !HasId(back, cartId) by {
      forall j | 0 <= j < |back| ensures back[j].cartId != cartId {
        assert back[j] == items[i + 1 + j];
      }
    }
    RemoveAbsent(front, cartId);
    RemoveAbsent(back, cartId);
  }

  /** `filter` distributes over concatenation. */
  lemma {:induction false} RemoveAppend(a: seq<CartLine>, b: seq<CartLine>, cartId: string)
    ensures AfterRemove(a + b, cartId) == AfterRemove(a, cartId) + AfterRemove(b, cartId)
    decreases |a|
  {
    if a == [] {
      assert a + b == b;
    } else {
      assert (a + b)[0] == a[0];
      assert (a + b)[1..] == a[1..] + b;
      RemoveAppend(a[1..], b, cartId);
    }
  }

  /** Removal keeps ids unique and quantities capped. */
  lemma RemoveKeepsInvariant(items: seq<CartLine>, cartId: string)
    requires Invariant(items)
    ensures Invariant(AfterRemove(items, cartId))
  {
    var i := FindLine(items, cartId);
    if i.Some? {
      RemovePresent(items, cartId, i.value);
      var r := AfterRemove(items, cartId);
      forall a | 0 <= a < |r| ensures r[a] == items[if a < i.value then a else a + 1] {
      }
    } else {
      RemoveAbsent(items, cartId);
    }
  }

  /** The list after `updateQuantity(cartId, quantity)`. */
  function AfterUpdate(items: seq<CartLine>, cartId: string, quantity: int): (r: seq<CartLine>)
    ensures |r| == |items|
    ensures forall i :: 0 <= i < |items| ==> r[i].cartId == items[i].cartId
    ensures forall i :: 0 <= i < |items| && items[i].cartId == cartId ==> 1 <= r[i].quantity <= MaxQuantity
  {
    SetQuantity(items, cartId, _ => Clamp(quantity))
  }

  /**
    `updateQuantity` sets the matching line's quantity to the quantity clamped to
    1..10 and leaves every other line as it was; with no matching line it
    changes nothing.
  */
  lemma UpdateSetsClamped(items: seq<CartLine>, cartId: string, quantity: int)
    ensures |AfterUpdate(items, cartId, quantity)| == |items|
    ensures forall i :: 0 <= i < |items| && items[i].cartId == cartId ==>
              && AfterUpdate(items, cartId, quantity)[i] == items[i].(quantity := Clamp(quantity))
              && 1 <= AfterUpdate(items, cartId, quantity)[i].quantity <= MaxQuantity
    ensures forall i :: 0 <= i < |items| && items[i].cartId != cartId ==>
              AfterUpdate(items, cartId, quantity)[i] == items[i]
    ensures !HasId(items, cartId) ==> AfterUpdate(items, cartId, quantity) == items
  {
  }

  lemma UpdateKeepsInvariant(items: seq<CartLine>, cartId: string, quantity: int)
    requires Invariant(items)
    ensures Invariant(AfterUpdate(items, cartId, quantity))
  {
  }

  // ---------------------------------------------------------------------------
  // getTotalPrice and the navbar's count

  function LineTotal(l: CartLine): int
  {
    l.price * l.quantity
  }

  /** The sum of price times quantity, accumulated left to right as `reduce` does. */
  function Total(items: seq<CartLine>): (t: int)
    ensures items == [] ==> t == 0
    ensures (forall i :: 0 <= i < |items| ==> items[i].price >= 0 && items[i].quantity >= 0) ==> t >= 0
  {
    if items == [] then 0 else Total(items[..|items| - 1]) + LineTotal(items[|items| - 1])
  }

  /** The navbar badge: the sum of the quantities (Navbar.tsx). */
  function ItemCount(items: seq<CartLine>): (c: int)
    ensures items == [] ==> c == 0
    ensures (forall i :: 0 <= i < |items| ==> items[i].quantity >= 1) ==> c >= |items|
  {
    if items == [] then 0 else ItemCount(items[..|items| - 1]) + items[|items| - 1].quantity
  }

  /** With quantities at most 10, the badge shows at most ten per line. */
  lemma {:induction false} ItemCountBound(items: seq<CartLine>)
    requires QuantitiesCapped(items)
    ensures ItemCount(items) <= MaxQuantity * |items|
  {
    if items != [] {
      var front := items[..|items| - 1];
      assert QuantitiesCapped(front) by {
        forall i | 0 <= i < |front| ensures front[i].quantity <= MaxQuantity {
          assert front[i] == items[i];
        }
      }
      ItemCountBound(front);
    }
  }

  lemma {:induction false} TotalAppend(a: seq<CartLine>, b: seq<CartLine>)
    ensures Total(a + b) == Total(a) + Total(b)
    decreases |b|
  {
    if b == [] {
      assert a + b == a;
    } else {
      var front := b[..|b| - 1];
      assert (a + b)[..|a + b| - 1] == a + front;
      TotalAppend(a, front);
    }
  }

  /** Adding a new line raises the total by its price times its capped quantity. */
  lemma TotalAfterAddNew(items: seq<CartLine>, product: Product, quantity: int, options: Option<Options>)
    requires !HasId(items, GenerateCartId(product.id, options))
    ensures Total(AfterAdd(items, product, quantity, options))
            == Total(items) + product.price * Min(MaxQuantity, quantity)
  {
    var cartId := GenerateCartId(product.id, options);
    var line := NewLine(cartId, product, quantity, options);
    assert AfterAdd(items, product, quantity, options) == items + [line];
    TotalAppend(items, [line]);
    assert [line][..0] == [];
  }

  /** Removing a line lowers the total by exactly that line's price times quantity. */
  lemma TotalAfterRemove(items: seq<CartLine>, cartId: string, i: nat)
    requires UniqueIds(items)
    requires i < |items| && items[i].cartId == cartId
    ensures Total(AfterRemove(items, cartId)) == Total(items) - LineTotal(items[i])
  {
    var front, line, back := items[..i], items[i], items[i + 1..];
    assert items == front + ([line] + back);
    TotalSplit(front, line, back);
    RemovePresent(items, cartId, i);
    TotalAppend(front, back);
  }

  /** The total of a list split around one line. */
  lemma TotalSplit(front: seq<CartLine>, line: CartLine, back: seq<CartLine>)
    ensures Total(front + ([line] + back)) == Total(front) + LineTotal(line) + Total(back)
  {
    TotalAppend(front, [line] + back);
    TotalAppend([line], back);
    assert [line][..0] == [];
  }

  /** The totals the store's tests expect: 10 x 2 and 20 x 1 make 40 (in cents). */
  lemma TotalExample(p1: Product, p2: Product)
    requires p1.id == 1 && p1.price == 1000
    requires p2.id == 2 && p2.price == 2000
    ensures Total(AfterAdd(AfterAdd([], p1, 2, None), p2, 1, None)) == 4000
  {
    var id1, id2 := GenerateCartId(1, None), GenerateCartId(2, None);
    assert id1 == [DigitChar(1)] && id2 == [DigitChar(2)];
    AddDoesNotFloor(p1, 2, None);
    var once := AfterAdd([], p1, 2, None);
    assert |once| == 1 && once[0].cartId == id1 != id2;
    TotalAfterAddNew([], p1, 2, None);
    TotalAfterAddNew(once, p2, 1, None);
  }

  // ---------------------------------------------------------------------------
  // The store

  /** The zustand store: a single `items` field that every action replaces. */
  class Cart {
    var items: seq<CartLine>

    ghost predicate Valid()
      reads this
    {
      Invariant(items)
    }

    constructor ()
      ensures Valid() && items == []
    {
      items := [];
    }

    method AddItem(product: Product, quantity: int, options: Option<Options>)
      requires Valid()
      modifies this
      ensures Valid()
      ensures items == AfterAdd(old(items), product, quantity, options)
    {
      AddKeepsInvariant(items, product, quantity, options);
      items := AfterAdd(items, product, quantity, options);
    }

    method RemoveItem(cartId: string)
      requires Valid()
      modifies this
      ensures Valid()
      ensures items == AfterRemove(old(items), cartId)
    {
      RemoveKeepsInvariant(items, cartId);
      items := AfterRemove(items, cartId);
    }

    method UpdateQuantity(cartId: string, quantity: int)
      requires Valid()
      modifies this
      ensures Valid()
      ensures items == AfterUpdate(old(items), cartId, quantity)
    {
      UpdateKeepsInvariant(items, cartId, quantity);
      items := AfterUpdate(items, cartId, quantity);
    }

    method ClearCart()
      modifies this
      ensures Valid() && items == []
    {
      items := [];
    }

    /** `getTotalPrice`: reads the lines and changes nothing. */
    method GetTotalPrice() returns (total: int)
      ensures total == Total(items)
    {
      total := 0;
      var i := 0;
      while i < |items|
        invariant 0 <= i <= |items|
        invariant total == Total(items[..i])
      {
        assert items[..i + 1][..i] == items[..i];
        total := total + LineTotal(items[i]);
        i := i + 1;
      }
      assert items[..|items|] == items;
    }
  }
}
