/** Whole request sequences against the two stores, as clients of the handlers'
    contracts: what a caller can conclude from those contracts alone. */
module Scenario {
  import opened Common
  import opened CartSchema
  import opened Books
  import opened Carts

  /** A user creates a book priced 10, adds two copies to the cart, reads the cart
      (one line, total 20), checks out, and reads again: a new, empty pending cart
      with total 0, distinct from the checked-out one. */
  method BuyOneBook(alice: UserId) returns (before: Result<CartView>, checkout: Outcome, after: Result<CartView>)
    ensures before.Ok? && before.value.total == Finite(20)
    ensures before.Ok? && |before.value.cart.items| == 1 && before.value.cart.items[0].quantity == 2
    ensures checkout == Pass
    ensures after.Ok? && after.value.cart == Cart(alice, [], Pending) && after.value.total == Finite(0)
    ensures before.Ok? && after.Ok? && after.value.id != before.value.id
  {
    var table := new BookTable();
    var id, book := table.Create(alice, map["title" := Text("X"), "price" := Num(10)]);
    assert PriceOf(book) == Some(10);
    var books := table.books;
    assert Priced(books, id) && Price(books, id) == 10;
    var store := new CartStore();
    var added := store.AddItem(alice, Some(id), Some(2));
    var line := [Item(id, 2)];
    assert store.carts == [Cart(alice, line, Pending)];
    assert Total(line, books) == Ok(Finite(20)) by {
      assert AllPriced(line, books);
      TotalIsSum(line, books);
    }
    FindPendingUnique(store.carts, alice, 0);
    before := store.GetCart(alice, books);
    checkout := store.Checkout(alice);
    after := store.GetCart(alice, books);
  }

  /** Adding the same book twice gives one line with the summed quantity. */
  method AddSameBookTwice(u: UserId, b: BookId) returns (first: Result<Cart>, second: Result<Cart>)
    ensures first == Ok(Cart(u, [Item(b, 2)], Pending))
    ensures second == Ok(Cart(u, [Item(b, 5)], Pending))
  {
    var store := new CartStore();
    first := store.AddItem(u, Some(b), Some(2));
    assert FindPending(store.carts, u) == Some(0);
    second := store.AddItem(u, Some(b), Some(3));
    AddTwice([], b, 2, 3);
    assert AddToItems([], b, 5) == [Item(b, 5)];
  }

  /** A request without a quantity is refused by the save and stores no cart. */
  method AddWithoutQuantity(u: UserId, b: BookId) returns (r: Result<Cart>, carts: seq<Cart>)
    ensures r == Err(ValidationError) && carts == []
  {
    var store := new CartStore();
    r := store.AddItem(u, Some(b), None);
    carts := store.carts;
  }

  /** Another user can neither change nor remove a user's book, and only its owner
      lists it among their own. */
  method ForeignBookIsLocked(alice: UserId, bob: UserId, body: Doc)
    returns (update: Result<Doc>, delete: Outcome, aliceOwns: bool, bobOwns: bool)
    requires alice != bob
    ensures update == Err(NotFound) && delete == Fail(NotFound)
    ensures aliceOwns && !bobOwns
  {
    var table := new BookTable();
    var id, book := table.Create(alice, body);
    update := table.Update(bob, id, map["userId" := Ref(bob)]);
    delete := table.Delete(bob, id);
    aliceOwns := id in MyBooks(table.books, alice);
    bobOwns := id in MyBooks(table.books, bob);
  }
}
