/** The book collection and its ownership gate: any authenticated user may add books,
    a book is changed or removed only by the user whose id it carries, and the reads
    list either every book or the caller's own. */
module Books {
  import opened Common

  /** A field value of a book document, as it stands after the store has cast it. */
  datatype Value = Num(n: int) | Text(s: string) | Ref(id: nat)

  /** A book document: its fields by name. Only "userId" and "price" are read by the
      handlers; every other field is carried along unexamined. */
  type Doc = map<string, Value>

  const OwnerField := "userId"
  const PriceField := "price"

  /** The document names the user as its owner. */
  predicate OwnedBy(doc: Doc, u: UserId)
  {
    OwnerField in doc && doc[OwnerField] == Ref(u)
  }

  /** The numeric price of a book, when it has one. */
  function PriceOf(doc: Doc): (p: Option<int>)
    ensures p.Some? <==> PriceField in doc && doc[PriceField].Num?
    ensures p.Some? ==> doc[PriceField] == Num(p.value)
  {
    if PriceField in doc && doc[PriceField].Num? then Some(doc[PriceField].n) else None
  }

  /** The document a create stores: the request body with the caller written over any
      owner the body names. Every other field of the body is kept as given. */
  function Stamp(body: Doc, caller: UserId): (d: Doc)
    ensures OwnedBy(d, caller)
    ensures forall v :: OwnedBy(d, v) ==> v == caller
    ensures d.Keys == body.Keys + {OwnerField}
    ensures forall k :: k in body && k != OwnerField ==> d[k] == body[k]
  {
    body[OwnerField := Ref(caller)]
  }

  /** The document an update stores: each top-level field of the body replaces or adds
      that field, and fields the body does not name are kept. */
  function Patch(doc: Doc, body: Doc): (d: Doc)
    ensures d.Keys == doc.Keys + body.Keys
    ensures forall k :: k in body ==> d[k] == body[k]
    ensures forall k :: k in doc && k !in body ==> d[k] == doc[k]
  {
    doc + body
  }

  /** An update keeps the owner unless its body names one, and then the body's owner is
      the new owner: the gate does not stop an owner from handing a book to someone else. */
  lemma PatchOwner(doc: Doc, body: Doc, u: UserId)
    ensures OwnedBy(Patch(doc, body), u) <==>
            if OwnerField in body then body[OwnerField] == Ref(u) else OwnedBy(doc, u)
  {
  }

  /** The gate of update and delete: the book exists and names the caller as its owner. */
  predicate MayModify(books: map<BookId, Doc>, id: BookId, caller: UserId)
  {
    id in books && OwnedBy(books[id], caller)
  }

  /** Read of one book by id; no ownership check. */
  function FindById(books: map<BookId, Doc>, id: BookId): (r: Result<Doc>)
    ensures r.Ok? <==> id in books
    ensures r.Ok? ==> r.value == books[id]
    ensures r.Err? ==> r.error == NotFound
  {
    if id in books then Ok(books[id]) else Err(NotFound)
  }

  /** The caller's books: each stored book that names the caller as owner, and no other. */
  function MyBooks(books: map<BookId, Doc>, caller: UserId): (r: map<BookId, Doc>)
    ensures forall id :: id in r <==> id in books && OwnedBy(books[id], caller)
    ensures forall id :: id in r ==> r[id] == books[id]
  {
    map id | id in books && OwnedBy(books[id], caller) :: books[id]
  }

  /** The unfiltered listing: every stored book. */
  function AllBooks(books: map<BookId, Doc>): (r: map<BookId, Doc>)
    ensures forall id :: id in r <==> id in books
    ensures forall id :: id in r ==> r[id] == books[id]
  {
    books
  }

  /** The listings agree: a user's books are a part of the full listing, and the books of
      two different users are disjoint, so no book is listed as two users' own. */
  lemma MyBooksPartition(books: map<BookId, Doc>, u: UserId, v: UserId)
    ensures forall id :: id in MyBooks(books, u) ==> id in AllBooks(books) && AllBooks(books)[id] == MyBooks(books, u)[id]
    ensures u != v ==> MyBooks(books, u).Keys !! MyBooks(books, v).Keys
  {
  }

  /** Creating a book adds it to its creator's listing and to no one else's. */
  lemma MyBooksAfterCreate(books: map<BookId, Doc>, id: BookId, body: Doc, creator: UserId, v: UserId)
    requires id !in books
    ensures MyBooks(books[id := Stamp(body, creator)], v) ==
            if v == creator then MyBooks(books, v)[id := Stamp(body, creator)] else MyBooks(books, v)
  {
  }

  /** The stored books, keyed by id. Ids are issued from a counter, so an issued id is
      above every id in use. */
  class BookTable {
    var books: map<BookId, Doc>
    var nextId: BookId

    ghost predicate Valid()
      reads this
    {
      forall id :: id in books ==> id < nextId
    }

    constructor ()
      ensures Valid() && books == map[]
    {
      books := map[];
      nextId := 0;
    }

    /** POST /api/books: store the body under a fresh id with the caller as owner. */
    method Create(caller: UserId, body: Doc) returns (id: BookId, book: Doc)
      requires Valid()
      modifies this
      ensures Valid()
      ensures id !in old(books)
      ensures book == Stamp(body, caller)
      ensures books == old(books)[id := book]
    {
      id := nextId;
      book := body[OwnerField := Ref(caller)];
      books := books[id := book];
      nextId := nextId + 1;
    }

    /** PUT /api/books/:id: patch the book when it exists and the caller owns it; report
      not found and change nothing otherwise. */
    method Update(caller: UserId, id: BookId, body: Doc) returns (r: Result<Doc>)
      requires Valid()
      modifies this
      ensures Valid()
      ensures MayModify(old(books), id, caller) ==>
                r == Ok(Patch(old(books)[id], body)) && books == old(books)[id := r.value]
      ensures !MayModify(old(books), id, caller) ==> r == Err(NotFound) && books == old(books)
    {
      if id in books && OwnerField in books[id] && books[id][OwnerField] == Ref(caller) {
        var updated := books[id] + body;
        books := books[id := updated];
        r := Ok(updated);
      } else {
        r := Err(NotFound);
      }
    }

    /** DELETE /api/books/:id: remove the book when it exists and the caller owns it;
      report not found and change nothing otherwise. */
    method Delete(caller: UserId, id: BookId) returns (r: Outcome)
      requires Valid()
      modifies this
      ensures Valid()
      ensures MayModify(old(books), id, caller) ==> r == Pass && books == old(books) - {id}
      ensures !MayModify(old(books), id, caller) ==> r == Fail(NotFound) && books == old(books)
    {
      if id in books && OwnerField in books[id] && books[id][OwnerField] == Ref(caller) {
        books := books - {id};
        r := Pass;
      } else {
        r := Fail(NotFound);
      }
    }
  }
}
