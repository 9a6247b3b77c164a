/** Shared vocabulary of the three services: optional JSON fields, JavaScript truthiness,
    upstream replies, handler outcomes and the error handler's status rule. */
module Http {

  datatype Option<+T> = None | Some(value: T)

  /** A request field as JavaScript's `if (!field)` sees it: present and not the empty string. */
  predicate Truthy(field: Option<string>)
  {
    field.Some? && field.value != ""
  }

  /** `response.ok` of the Fetch API. */
  predicate IsOk(status: int)
  {
    200 <= status <= 299
  }

  /** An upstream HTTP response: its status, its parsed JSON body and its raw text. */
  datatype Reply<B> = Reply(status: nat, body: B, text: string)

  /** The upstream requests the gateway makes, recorded so that a model can say which were made. */
  datatype Call =
    | GetItem(id: string)              // GET  items/{id}
    | ListItems(url: string)           // GET  items?page=...
    | ListAllItems                     // GET  items
    | GetUserItems(userId: string)     // GET  items/user/{userId}/items
    | PatchItem(itemId: string)        // PATCH items/{itemId}
    | DeleteItem(itemId: string)       // DELETE items/{itemId}
    | ListUsersWithItems               // GET  items/admin/users-with-items
    | ListUsers                        // GET  auth/admin/users
    | ListCategories                   // GET  categories
    | GetCategory(id: string)          // GET  categories/{id}
    | CreateCategory                   // POST categories/create

  /** An item record as the item server sends it: `_id`, the three texts, the owner's user id
      (the field is called `itemId`), the category id and the creation time. */
  datatype StoreItem = StoreItem(
    id: string, itemName: string, itemPrice: string, description: string,
    owner: string, category: string, createdAt: string)

  /** A category record: its `_id` and its name. */
  datatype Category = Category(id: string, name: string)

  /** A user record of the account service's directory. */
  datatype User = User(id: string, username: string, email: string)

  /** An `Error` handed to `next(error)`; `status` is the optional `error.status` property. */
  datatype HttpError = HttpError(status: Option<int>, message: string)

  /** What a request handler does: answer the client, pass an error to `next`, or call `next()`. */
  datatype Outcome<B> =
    | Respond(status: int, body: B)
    | Next(error: HttpError)
    | Proceed

  /** Message standing for a JavaScript TypeError (a property read on `null` or `undefined`). */
  const TypeErrorMessage := "TypeError"

  /** The error handler answers with `err.status`, or 500 when the error carries none. */
  function ErrorStatus(e: HttpError): int
  {
    if e.status.Some? && e.status.value != 0 then e.status.value else 500
  }

  /** The status the client finally sees for an outcome that ends the request. */
  function ClientStatus<B>(o: Outcome<B>): int
    requires !o.Proceed?
  {
    match o
    case Respond(s, _) => s
    case Next(e) => ErrorStatus(e)
  }

  function DigitChar(d: nat): char
    requires d < 10
  {
    "0123456789"[d]
  }

  /** Decimal text of a natural number, as `Number.prototype.toString()` writes it. */
  function Decimal(n: nat): (s: string)
    ensures 1 <= |s|
    ensures forall i :: 0 <= i < |s| ==> '0' <= s[i] <= '9'
    ensures |s| > 1 ==> s[0] != '0'
  {
    if n < 10 then [DigitChar(n)] else Decimal(n / 10) + [DigitChar(n % 10)]
  }

  function DigitOf(c: char): nat
    requires '0' <= c <= '9'
  {
    (c as int) - ('0' as int)
  }

  /** Reading the decimal text back gives the number: `Decimal` is injective. */
  function ReadDecimal(s: string): nat
    requires forall i :: 0 <= i < |s| ==> '0' <= s[i] <= '9'
  {
    if s == [] then 0 else ReadDecimal(s[..|s| - 1]) * 10 + DigitOf(s[|s| - 1])
  }

  lemma {:induction false} DecimalRoundTrip(n: nat)
    ensures ReadDecimal(Decimal(n)) == n
  {
    var s := Decimal(n);
    if n < 10 {
      assert s == [DigitChar(n)];
      assert s[..0] == [];
    } else {
      DecimalRoundTrip(n / 10);
      assert s[..|s| - 1] == Decimal(n / 10);
      assert s[|s| - 1] == DigitChar(n % 10);
    }
  }

  /** Two different clock readings never give the same decimal text. */
  lemma DecimalInjective(a: nat, b: nat)
    requires a != b
    ensures Decimal(a) != Decimal(b)
  {
    DecimalRoundTrip(a);
    DecimalRoundTrip(b);
  }
}
