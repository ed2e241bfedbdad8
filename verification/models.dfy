/**
 * The persisted entities: inventory items, payments and users, with the
 * enumerations their schemas declare.
 */
module Models {

  import opened Common

  /** A document id (a Mongo ObjectId, compared by value). */
  type Id = string

  datatype InventoryStatus = Available | OutOfStock | Discontinued

  datatype PaymentStatus = Pending | Failed | Successful

  /** The payment scopes; the string tag of the only one is its metadata intent. */
  datatype PaymentScope = InventoryItemPayment

  const InventoryItemPaymentIntent: string := "inventory_item_payment"

  datatype PaymentProcessor = Paystack

  /** The metadata carried by an inventory item payment. */
  datatype Metadata = Metadata(intent: string, inventory: Id, user: Id)

  /** `PaymentCurrency`, the values the inventory schema's `currency` enum admits. */
  const PaymentCurrencies: seq<string> := ["NGN", "USD"]

  /** An inventory item; `price` is in minor currency units (kobo, cents). */
  datatype Inventory = Inventory(
    name: string,
    description: string,
    category: string,
    price: int,
    currency: string,
    quantity: int,
    sku: string,
    images: seq<string>,
    status: InventoryStatus,
    createdBy: Id)

  /** A payment record; `fee` is None when the field was never written. */
  datatype Payment = Payment(
    currency: string,
    fee: Option<int>,
    amount: int,
    status: PaymentStatus,
    scope: PaymentScope,
    inventory: Option<Id>,
    user: Id,
    reference: string,
    processorRef: string,
    processor: PaymentProcessor,
    processorResponse: string,
    metadata: Metadata)

  /** A user account; `password` holds the hasher's `salt:digest` string. */
  datatype User = User(
    id: Id,
    name: string,
    email: string,
    emailVerified: bool,
    password: string,
    refreshTokenVersion: int)

  /** The authenticated caller, as the auth guard attaches it to the request. */
  datatype AuthData = AuthData(userId: Id, email: string)

  /** `User.findById`: the position of the first user with this id. */
  function UserIndexById(users: seq<User>, id: Id): (r: Option<nat>)
    ensures r.Some? ==> r.value < |users| && users[r.value].id == id
    ensures r.Some? ==> forall j :: 0 <= j < r.value ==> users[j].id != id
    ensures r.None? <==> forall j :: 0 <= j < |users| ==> users[j].id != id
    decreases |users|
  {
    if users == [] then None
    else if users[0].id == id then Some(0)
    else
      var rest := UserIndexById(users[1..], id);
      if rest.Some? then Some(rest.value + 1) else None
  }

  /** `User.findOne({ email })`: the position of the first user with this email. */
  function UserIndexByEmail(users: seq<User>, email: string): (r: Option<nat>)
    ensures r.Some? ==> r.value < |users| && users[r.value].email == email
    ensures r.Some? ==> forall j :: 0 <= j < r.value ==> users[j].email != email
    ensures r.None? <==> forall j :: 0 <= j < |users| ==> users[j].email != email
    decreases |users|
  {
    if users == [] then None
    else if users[0].email == email then Some(0)
    else
      var rest := UserIndexByEmail(users[1..], email);
      if rest.Some? then Some(rest.value + 1) else None
  }
}
