/** The cart document schema: a required owner, a list of line items each with a
    required book reference and quantity, and a status drawn from an enum whose
    default is "pending". */
module CartSchema {
  import opened Common

  datatype Status = Pending | Done

  /** A line item of a saved cart: both paths are present. */
  datatype Item = Item(bookId: BookId, quantity: int)

  /** A cart as stored: it has an owner, its items and one of the two statuses. */
  datatype Cart = Cart(userId: UserId, items: seq<Item>, status: Status)

  /** A line item as it stands before the document is saved. `None` is a path that is
      missing, or (for a quantity) a value that cannot be cast to a Number. */
  datatype RawItem = RawItem(bookId: Option<BookId>, quantity: Option<int>)

  /** A cart document as it stands before it is saved. */
  datatype RawCart = RawCart(userId: Option<UserId>, items: seq<RawItem>, status: Option<string>)

  /** The string the enum stores for a status. */
  function StatusName(s: Status): string
  {
    match s
    case Pending => "pending"
    case Done => "done"
  }

  /** The enum values the status path admits. */
  predicate AllowedStatus(s: string)
  {
    s == "pending" || s == "done"
  }

  /** The status a saved document takes: the default when the path is absent, the
      named enum value when the string is admitted, and nothing otherwise. */
  function ParseStatus(s: Option<string>): (r: Option<Status>)
    ensures r.Some? <==> s.None? || AllowedStatus(s.value)
    ensures s.None? ==> r == Some(Pending)
    ensures s.Some? && r.Some? ==> StatusName(r.value) == s.value
  {
    match s
    case None => Some(Pending)
    case Some(name) =>
      if name == "pending" then Some(Pending)
      else if name == "done" then Some(Done)
      else None
  }

  /** Both required paths of a line item are present. */
  predicate Complete(ri: RawItem)
  {
    ri.bookId.Some? && ri.quantity.Some?
  }

  /** The raw form of a saved line item. */
  function ToRawItem(it: Item): RawItem
  {
    RawItem(Some(it.bookId), Some(it.quantity))
  }

  function ToRawItems(items: seq<Item>): (r: seq<RawItem>)
    ensures |r| == |items|
    ensures forall j :: 0 <= j < |items| ==> r[j] == ToRawItem(items[j])
  {
    if items == [] then [] else [ToRawItem(items[0])] + ToRawItems(items[1..])
  }

  /** The raw form of a saved cart, with its status written as the enum string. */
  function ToRaw(c: Cart): RawCart
  {
    RawCart(Some(c.userId), ToRawItems(c.items), Some(StatusName(c.status)))
  }

  /** Validation of the item list: it succeeds exactly when every item is complete,
      and then keeps every item, in order, with its values. */
  function ValidateItems(raw: seq<RawItem>): (r: Option<seq<Item>>)
    ensures r.Some? <==> forall j :: 0 <= j < |raw| ==> Complete(raw[j])
    ensures r.Some? ==> |r.value| == |raw|
    ensures r.Some? ==> forall j :: 0 <= j < |raw| ==> ToRawItem(r.value[j]) == raw[j]
  {
    if raw == [] then Some([])
    else if !Complete(raw[0]) then None
    else match ValidateItems(raw[1..])
      case None => None
      case Some(rest) => Some([Item(raw[0].bookId.value, raw[0].quantity.value)] + rest)
  }

  /** The schema check a save performs. It accepts a document exactly when the owner is
      present, every item has both its paths and the status is absent or an enum value;
      the saved cart keeps the owner and the items and takes the default status when
      none was given. Any other document is refused with a validation error. */
  function Validate(raw: RawCart): (r: Result<Cart>)
    ensures r.Ok? <==> raw.userId.Some?
                       && (forall j :: 0 <= j < |raw.items| ==> Complete(raw.items[j]))
                       && (raw.status.None? || AllowedStatus(raw.status.value))
    ensures r.Err? ==> r.error == ValidationError
    ensures r.Ok? ==> r.value.userId == raw.userId.value
    ensures r.Ok? ==> ToRawItems(r.value.items) == raw.items
    ensures r.Ok? && raw.status.None? ==> r.value.status == Pending
    ensures r.Ok? && raw.status.Some? ==> StatusName(r.value.status) == raw.status.value
  {
    match (raw.userId, ValidateItems(raw.items), ParseStatus(raw.status))
    case (Some(u), Some(items), Some(s)) =>
      assert ToRawItems(items) == raw.items;
      Ok(Cart(u, items, s))
    case _ => Err(ValidationError)
  }

  /** The raw form determines the items it came from. */
  lemma ToRawItemsInjective(a: seq<Item>, b: seq<Item>)
    requires ToRawItems(a) == ToRawItems(b)
    ensures a == b
  {
  }

  /** Every saved cart passes the schema again unchanged. */
  lemma ValidateToRaw(c: Cart)
    ensures Validate(ToRaw(c)) == Ok(c)
  {
    var r := Validate(ToRaw(c));
    assert r.Ok?;
    ToRawItemsInjective(r.value.items, c.items);
    assert StatusName(r.value.status) == StatusName(c.status);
  }

  /** A newly constructed cart for an owner, given no items and no status: the status
      path takes its default. */
  function New(u: UserId): (c: Cart)
    ensures c.userId == u && c.items == [] && c.status == Pending
  {
    var r := Validate(RawCart(Some(u), [], None));
    assert ToRawItems(r.value.items) == [];
    r.value
  }
}
