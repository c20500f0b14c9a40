/** The cart service: one pending cart per user, found by a "pending cart of this user"
    lookup and created on first use; line items merged by book; a live total computed
    from the books' current prices; and checkout, which moves the pending cart to done. */
module Carts {
  import opened Common
  import opened CartSchema
  import Books

  // ---------------------------------------------------------------------------
  // The pending-cart lookup

  /** The cart is the user's active cart. */
  predicate PendingFor(c: Cart, u: UserId)
  {
    c.userId == u && c.status == Pending
  }

  /** The lookup of a user's pending cart: the first cart, in store order, that belongs
      to the user and is pending, or none when there is no such cart. */
  function FindPending(carts: seq<Cart>, u: UserId): (r: Option<CartId>)
    ensures r.Some? ==> r.value < |carts| && PendingFor(carts[r.value], u)
    ensures r.Some? ==> forall j :: 0 <= j < r.value ==> !PendingFor(carts[j], u)
    ensures r.None? <==> forall j :: 0 <= j < |carts| ==> !PendingFor(carts[j], u)
    decreases |carts|
  {
    if carts == [] then None
    else
      var init := carts[..|carts| - 1];
      assert forall j :: 0 <= j < |init| ==> init[j] == carts[j];
      match FindPending(init, u)
      case Some(i) => Some(i)
      case None => if PendingFor(carts[|carts| - 1], u) then Some(|carts| - 1) else None
  }

  /** The lookup depends only on which carts are the user's pending ones. */
  lemma FindPendingDeterminedBy(a: seq<Cart>, b: seq<Cart>, u: UserId)
    requires |a| == |b|
    requires forall j :: 0 <= j < |a| ==> (PendingFor(a[j], u) <==> PendingFor(b[j], u))
    ensures FindPending(a, u) == FindPending(b, u)
  {
  }

  /** No user has two pending carts. */
  predicate AtMostOnePending(carts: seq<Cart>)
  {
    forall i, j ::
      (0 <= i < |carts| && 0 <= j < |carts| &&
       carts[i].userId == carts[j].userId &&
       carts[i].status == Pending && carts[j].status == Pending) ==> i == j
  }

  /** While no user has two pending carts, the lookup finds the user's pending cart
      wherever it stands in the store. */
  lemma FindPendingUnique(carts: seq<Cart>, u: UserId, i: CartId)
    requires AtMostOnePending(carts)
    requires i < |carts| && PendingFor(carts[i], u)
    ensures FindPending(carts, u) == Some(i)
  {
  }

  // ---------------------------------------------------------------------------
  // Line items

  /** No book appears on two line items. */
  predicate UniqueBooks(items: seq<Item>)
  {
    forall i, j :: 0 <= i < |items| && 0 <= j < |items| && items[i].bookId == items[j].bookId ==> i == j
  }

  /** The position of the first line item for the book, or -1 when there is none. */
  function FindIndex(items: seq<Item>, b: BookId): (k: int)
    ensures -1 <= k < |items|
    ensures k >= 0 ==> items[k].bookId == b && forall j :: 0 <= j < k ==> items[j].bookId != b
    ensures k == -1 <==> forall j :: 0 <= j < |items| ==> items[j].bookId != b
    decreases |items|
  {
    if items == [] then -1
    else
      var init := items[..|items| - 1];
      assert forall j :: 0 <= j < |init| ==> init[j] == items[j];
      var k := FindIndex(init, b);
      if k > -1 then k
      else if items[|items| - 1].bookId == b then |items| - 1
      else -1
  }

  /** Adding a quantity of a book to the item list: the first line for the book has its
      quantity increased, or, when there is none, a new line is appended. */
  function AddToItems(items: seq<Item>, b: BookId, q: int): (r: seq<Item>)
    ensures |items| <= |r| <= |items| + 1
    ensures |r| == |items| + 1 ==> r == items + [Item(b, q)]
  {
    var k := FindIndex(items, b);
    if k > -1 then items[k := items[k].(quantity := items[k].quantity + q)]
    else items + [Item(b, q)]
  }

  /** When the book already has a line, the list keeps its length, that line's quantity
      grows by the added quantity and every other line is unchanged. */
  lemma AddToExisting(items: seq<Item>, b: BookId, q: int, k: nat)
    requires k < |items| && items[k].bookId == b
    requires forall j :: 0 <= j < k ==> items[j].bookId != b
    ensures |AddToItems(items, b, q)| == |items|
    ensures AddToItems(items, b, q)[k] == Item(b, items[k].quantity + q)
    ensures forall j :: 0 <= j < |items| && j != k ==> AddToItems(items, b, q)[j] == items[j]
  {
  }

  /** When the book has no line yet, exactly one line is appended and every earlier line
      keeps its place and value. */
  lemma AddToMissing(items: seq<Item>, b: BookId, q: int)
    requires forall j :: 0 <= j < |items| ==> items[j].bookId != b
    ensures AddToItems(items, b, q) == items + [Item(b, q)]
  {
  }

  /** Adding keeps the books of a cart's lines distinct. */
  lemma AddKeepsUnique(items: seq<Item>, b: BookId, q: int)
    requires UniqueBooks(items)
    ensures UniqueBooks(AddToItems(items, b, q))
  {
  }

  /** Adding the same book twice leaves one line carrying the summed quantity: the same
      list as one addition of the sum. */
  lemma AddTwice(items: seq<Item>, b: BookId, q1: int, q2: int)
    ensures AddToItems(AddToItems(items, b, q1), b, q2) == AddToItems(items, b, q1 + q2)
  {
  }

  // ---------------------------------------------------------------------------
  // The cart total

  /** A sum as the runtime computes it: a number, or NaN once a line whose stored price
      is not a number has entered the sum. */
  datatype Amount = Finite(n: int) | NaN

  function Plus(a: Amount, b: Amount): Amount
  {
    if a.Finite? && b.Finite? then Finite(a.n + b.n) else NaN
  }

  /** The book is stored and has a numeric price. */
  predicate Priced(books: map<BookId, Books.Doc>, b: BookId)
  {
    b in books && Books.PriceOf(books[b]).Some?
  }

  predicate AllPriced(items: seq<Item>, books: map<BookId, Books.Doc>)
  {
    forall j :: 0 <= j < |items| ==> Priced(books, items[j].bookId)
  }

  function Price(books: map<BookId, Books.Doc>, b: BookId): int
    requires Priced(books, b)
  {
    Books.PriceOf(books[b]).value
  }

  /** One line's contribution, price times quantity. A line whose book is no longer
      stored has nothing to read the price from, and the handler stops with a fault. */
  function LineAmount(it: Item, books: map<BookId, Books.Doc>): (r: Result<Amount>)
    ensures r.Err? <==> it.bookId !in books
    ensures r.Err? ==> r.error == Unexpected
    ensures r.Ok? ==> (r.value.Finite? <==> Priced(books, it.bookId))
    ensures Priced(books, it.bookId) ==> r == Ok(Finite(Price(books, it.bookId) * it.quantity))
  {
    if it.bookId !in books then Err(Unexpected)
    else match Books.PriceOf(books[it.bookId])
      case Some(p) => Ok(Finite(p * it.quantity))
      case None => Ok(NaN)
  }

  /** The total of a cart, summed from the first line to the last starting at 0. It
      faults exactly when some line's book is not stored, and it is a number exactly
      when every line's book has a numeric price. */
  function Total(items: seq<Item>, books: map<BookId, Books.Doc>): (r: Result<Amount>)
    ensures r.Err? <==> exists j :: 0 <= j < |items| && items[j].bookId !in books
    ensures r.Err? ==> r.error == Unexpected
    ensures r.Ok? ==> (r.value.Finite? <==> AllPriced(items, books))
    decreases |items|
  {
    if items == [] then Ok(Finite(0))
    else
      var init := items[..|items| - 1];
      assert forall j :: 0 <= j < |init| ==> init[j] == items[j];
      match Total(init, books)
      case Err(e) => Err(e)
      case Ok(s) =>
        match LineAmount(items[|items| - 1], books)
        case Err(e) => Err(e)
        case Ok(a) => Ok(Plus(s, a))
  }

  /** The reference sum of price times quantity over the lines. */
  function Sum(items: seq<Item>, books: map<BookId, Books.Doc>): int
    requires AllPriced(items, books)
  {
    if items == [] then 0
    else Price(books, items[0].bookId) * items[0].quantity + Sum(items[1..], books)
  }

  lemma {:induction false} SumAppend(items: seq<Item>, it: Item, books: map<BookId, Books.Doc>)
    requires AllPriced(items + [it], books)
    ensures AllPriced(items, books) && Priced(books, it.bookId)
    ensures Sum(items + [it], books) == Sum(items, books) + Price(books, it.bookId) * it.quantity
  {
    assert forall j :: 0 <= j < |items| ==> (items + [it])[j] == items[j];
    assert (items + [it])[|items|] == it;
    if items != [] {
      assert (items + [it])[1..] == items[1..] + [it];
      SumAppend(items[1..], it, books);
    }
  }

  lemma {:induction false} SumUpdate(items: seq<Item>, k: nat, it: Item, books: map<BookId, Books.Doc>)
    requires k < |items| && AllPriced(items, books) && Priced(books, it.bookId)
    ensures AllPriced(items[k := it], books)
    ensures Sum(items[k := it], books) ==
            Sum(items, books) - Price(books, items[k].bookId) * items[k].quantity
                              + Price(books, it.bookId) * it.quantity
  {
    var after := items[k := it];
    assert forall j :: 0 <= j < |after| ==> after[j] == if j == k then it else items[j];
    if k > 0 {
      assert after[1..] == items[1..][k - 1 := it];
      SumUpdate(items[1..], k - 1, it, books);
    } else {
      assert after[1..] == items[1..];
    }
  }

  /** When every line's book has a numeric price, the total is that sum; in particular
      an empty cart totals 0. */
  lemma {:induction false} TotalIsSum(items: seq<Item>, books: map<BookId, Books.Doc>)
    requires AllPriced(items, books)
    ensures Total(items, books) == Ok(Finite(Sum(items, books)))
  {
    if items != [] {
      var init := items[..|items| - 1];
      assert init + [items[|items| - 1]] == items;
      SumAppend(init, items[|items| - 1], books);
      TotalIsSum(init, books);
    }
  }

  /** Adding a priced book raises the total by its price times the added quantity,
      whether the book merges into an existing line or gets a new one. */
  lemma {:induction false} TotalAfterAdd(items: seq<Item>, b: BookId, q: int, books: map<BookId, Books.Doc>)
    requires AllPriced(items, books) && Priced(books, b)
    ensures AllPriced(AddToItems(items, b, q), books)
    ensures Total(AddToItems(items, b, q), books) == Ok(Finite(Sum(items, books) + Price(books, b) * q))
  {
    var k := FindIndex(items, b);
    var after := AddToItems(items, b, q);
    if k > -1 {
      var old_q := items[k].quantity;
      SumUpdate(items, k, Item(b, old_q + q), books);
      assert Price(books, b) * (old_q + q) == Price(books, b) * old_q + Price(books, b) * q;
    } else {
      SumAppend(items, Item(b, q), books);
    }
    TotalIsSum(after, books);
  }

  // ---------------------------------------------------------------------------
  // The store of carts

  /** What the store keeps true: no user has two pending carts and no cart lists a book
      on two lines. */
  predicate Consistent(carts: seq<Cart>)
  {
    AtMostOnePending(carts) && forall i :: 0 <= i < |carts| ==> UniqueBooks(carts[i].items)
  }

  /** The cart an add works on: the user's stored pending cart, or a new empty pending
      cart for the user when there is none. */
  function PendingOrNew(carts: seq<Cart>, u: UserId): (c: Cart)
    ensures PendingFor(c, u)
    ensures FindPending(carts, u).Some? ==> c == carts[FindPending(carts, u).value]
    ensures FindPending(carts, u).None? ==> c == Cart(u, [], Pending)
  {
    match FindPending(carts, u)
    case Some(i) => carts[i]
    case None => New(u)
  }

  /** The store after the user's working cart is saved as `c`: the pending cart is
      replaced in place, or `c` is added as a new cart after all others. */
  function SaveWorking(carts: seq<Cart>, u: UserId, c: Cart): (r: seq<Cart>)
    ensures |r| == if FindPending(carts, u).Some? then |carts| else |carts| + 1
    ensures forall j :: 0 <= j < |carts| && !PendingFor(carts[j], u) ==> r[j] == carts[j]
    ensures r[if FindPending(carts, u).Some? then FindPending(carts, u).value else |carts|] == c
  {
    match FindPending(carts, u)
    case Some(i) => carts[i := c]
    case None => carts + [c]
  }

  /** Saving a user's working cart with its owner and status kept and its books distinct
      keeps the store consistent, leaves the cart being the user's pending cart, and
      does not change any other user's pending cart. */
  lemma {:induction false} SaveWorkingKeepsConsistent(carts: seq<Cart>, u: UserId, c: Cart, v: UserId)
    requires Consistent(carts)
    requires PendingFor(c, u) && UniqueBooks(c.items)
    ensures Consistent(SaveWorking(carts, u, c))
    ensures FindPending(SaveWorking(carts, u, c), u) ==
            Some(if FindPending(carts, u).Some? then FindPending(carts, u).value else |carts|)
    ensures v != u ==> FindPending(SaveWorking(carts, u, c), v) == FindPending(carts, v)
  {
    var after := SaveWorking(carts, u, c);
    match FindPending(carts, u)
    case Some(i) =>
      assert forall j :: 0 <= j < |after| ==> after[j] == if j == i then c else carts[j];
      FindPendingUnique(after, u, i);
      if v != u {
        FindPendingDeterminedBy(carts, after, v);
      }
    case None =>
      assert forall j :: 0 <= j < |carts| ==> after[j] == carts[j];
      assert after[|carts|] == c;
      FindPendingUnique(after, u, |carts|);
      if v != u {
        FindPendingDeterminedBy(carts, after[..|carts|], v);
        assert after[..|carts|] == carts;
        assert FindPending(after, v) == FindPending(after[..|carts|], v);
      }
  }

  /** Checking out the user's pending cart keeps the store consistent, leaves the user
      without a pending cart, and does not change any other user's pending cart. */
  lemma {:induction false} CheckoutKeepsConsistent(carts: seq<Cart>, u: UserId, i: CartId, v: UserId)
    requires Consistent(carts)
    requires FindPending(carts, u) == Some(i)
    ensures Consistent(carts[i := carts[i].(status := Done)])
    ensures FindPending(carts[i := carts[i].(status := Done)], u).None?
    ensures v != u ==> FindPending(carts[i := carts[i].(status := Done)], v) == FindPending(carts, v)
  {
    var after := carts[i := carts[i].(status := Done)];
    assert forall j :: 0 <= j < |after| ==> after[j] == if j == i then carts[i].(status := Done) else carts[j];
    forall j | 0 <= j < |after| ensures !PendingFor(after[j], u) {
    }
    if v != u {
      FindPendingDeterminedBy(carts, after, v);
    }
  }

  /** What a cart read answers with: the cart's id, the cart and its total. */
  datatype CartView = CartView(id: CartId, cart: Cart, total: Amount)

  /** Quantity accumulation as the runtime performs it: an absent operand makes the sum
      NaN, which the quantity path cannot store. */
  function AddQuantity(a: Option<int>, b: Option<int>): (r: Option<int>)
    ensures r.Some? <==> a.Some? && b.Some?
    ensures r.Some? ==> r.value == a.value + b.value
  {
    if a.Some? && b.Some? then Some(a.value + b.value) else None
  }

  /** The raw form of an updated or extended item list is the raw list updated or
      extended the same way. */
  lemma RawItemsUpdate(items: seq<Item>, k: nat, it: Item)
    requires k < |items|
    ensures ToRawItems(items[k := it]) == ToRawItems(items)[k := ToRawItem(it)]
  {
  }

  lemma RawItemsAppend(items: seq<Item>, it: Item)
    ensures ToRawItems(items + [it]) == ToRawItems(items) + [ToRawItem(it)]
  {
  }

  /** The save at the end of an add: the document with the merged or appended line passes
      the schema exactly when the request carried both the book and the quantity, and it
      then stores the cart with the items of AddToItems. */
  lemma SaveAfterAdd(cart: Cart, bookId: Option<BookId>, quantity: Option<int>, k: int, items: seq<RawItem>)
    requires k == if bookId.Some? then FindIndex(cart.items, bookId.value) else -1
    requires k > -1 ==> items == ToRawItems(cart.items)[k := RawItem(Some(cart.items[k].bookId),
                                                                AddQuantity(Some(cart.items[k].quantity), quantity))]
    requires k == -1 ==> items == ToRawItems(cart.items) + [RawItem(bookId, quantity)]
    ensures Validate(RawCart(Some(cart.userId), items, Some(StatusName(cart.status)))) ==
            if bookId.Some? && quantity.Some?
            then Ok(cart.(items := AddToItems(cart.items, bookId.value, quantity.value)))
            else Err(ValidationError)
  {
    if bookId.Some? && quantity.Some? {
      var b, q := bookId.value, quantity.value;
      var merged := AddToItems(cart.items, b, q);
      if k > -1 {
        RawItemsUpdate(cart.items, k, Item(b, cart.items[k].quantity + q));
      } else {
        RawItemsAppend(cart.items, Item(b, q));
      }
      assert items == ToRawItems(merged);
      ValidateToRaw(cart.(items := merged));
    } else if k > -1 {
      assert !Complete(items[k]);
    } else {
      assert !Complete(items[|items| - 1]);
    }
  }

  /** The carts, in the order they were created; a cart's id is its position. Carts are
      never removed: checked-out carts stay as order history. */
  class CartStore {
    var carts: seq<Cart>

    ghost predicate Valid()
      reads this
    {
      Consistent(carts)
    }

    constructor ()
      ensures Valid() && carts == []
    {
      carts := [];
    }

    /** GET /api/cart: the user's pending cart with its total. When the user has none, a
        new empty pending cart is created and stored, and its total is 0; otherwise the
        store is unchanged and the total is computed from the books' current prices. */
    method GetCart(u: UserId, books: map<BookId, Books.Doc>) returns (r: Result<CartView>)
      requires Valid()
      modifies this
      ensures Valid()
      ensures FindPending(old(carts), u).None? ==>
                carts == old(carts) + [New(u)] &&
                r == Ok(CartView(|old(carts)|, Cart(u, [], Pending), Finite(0)))
      ensures FindPending(old(carts), u).Some? ==>
                carts == old(carts) &&
                var i := FindPending(old(carts), u).value;
                r == match Total(carts[i].items, books)
                     case Ok(t) => Ok(CartView(i, carts[i], t))
                     case Err(e) => Err(e)
      ensures FindPending(carts, u).Some?
      ensures r.Ok? ==> FindPending(carts, u) == Some(r.value.id)
    {
      var found := FindPending(carts, u);
      var id: CartId;
      var cart: Cart;
      if found.None? {
        cart := New(u);
        id := |carts|;
        SaveWorkingKeepsConsistent(carts, u, cart, u);
        carts := carts + [cart];
      } else {
        id := found.value;
        cart := carts[id];
      }
      var total := Total(cart.items, books);
      match total
      case Err(e) =>
        r := Err(e);
      case Ok(t) =>
        r := Ok(CartView(id, cart, t));
    }

    /** POST /api/cart: add a quantity of a book to the user's pending cart, which is
        created when the user has none, and save it. The save validates the document:
        when the request lacks the book or the quantity it is refused and nothing is
        stored. */
    method AddItem(u: UserId, bookId: Option<BookId>, quantity: Option<int>) returns (r: Result<Cart>)
      requires Valid()
      modifies this
      ensures Valid()
      ensures bookId.Some? && quantity.Some? ==>
                var base := PendingOrNew(old(carts), u);
                var c := base.(items := AddToItems(base.items, bookId.value, quantity.value));
                r == Ok(c) && carts == SaveWorking(old(carts), u, c)
      ensures bookId.None? || quantity.None? ==> r == Err(ValidationError) && carts == old(carts)
      ensures FindPending(old(carts), u).None? && r.Ok? ==>
                r.value == Cart(u, [Item(bookId.value, quantity.value)], Pending)
    {
      var found := FindPending(carts, u);
      var cart := if found.Some? then carts[found.value] else New(u);
      var k := if bookId.Some? then FindIndex(cart.items, bookId.value) else -1;
      var items := ToRawItems(cart.items);
      if k > -1 {
        items := items[k := RawItem(items[k].bookId, AddQuantity(items[k].quantity, quantity))];
      } else {
        items := items + [RawItem(bookId, quantity)];
      }
      var saved := Validate(RawCart(Some(cart.userId), items, Some(StatusName(cart.status))));
      assert cart == PendingOrNew(carts, u);
      SaveAfterAdd(cart, bookId, quantity, k, items);
      if bookId.Some? && quantity.Some? {
        AddKeepsUnique(cart.items, bookId.value, quantity.value);
        SaveWorkingKeepsConsistent(carts, u, saved.value, u);
      }
      match saved
      case Err(e) =>
        r := Err(e);
      case Ok(c) =>
        if found.Some? {
          carts := carts[found.value := c];
        } else {
          carts := carts + [c];
        }
        r := Ok(c);
    }

    /** PUT /api/cart/checkout: the user's pending cart becomes done. Without a pending
        cart the request fails and the store is unchanged. Afterwards the user has no
        pending cart, so the next read or add starts a new one. */
    method Checkout(u: UserId) returns (r: Outcome)
      requires Valid()
      modifies this
      ensures Valid()
      ensures FindPending(old(carts), u).None? ==> r == Fail(InvalidState) && carts == old(carts)
      ensures FindPending(old(carts), u).Some? ==>
                var i := FindPending(old(carts), u).value;
                r == Pass && carts == old(carts)[i := old(carts)[i].(status := Done)]
      ensures FindPending(carts, u).None?
    {
      var found := FindPending(carts, u);
      if found.None? {
        r := Fail(InvalidState);
      } else {
        var i := found.value;
        CheckoutKeepsConsistent(carts, u, i, u);
        carts := carts[i := carts[i].(status := Done)];
        r := Pass;
      }
    }
  }
}
