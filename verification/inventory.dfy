/**
 * The inventory service: creating, listing, reading, editing and
 * discontinuing inventory items, and starting a gateway payment for one.
 * Only an item's creator may edit or discontinue it; the SKU index is unique.
 */
module InventoryService {

  import opened Common
  import opened Models
  import opened Store
  import opened Strings
  import opened SharedUtils
  import opened ReconcilePayment

  // ---------------------------------------------------------------------
  // Creating

  datatype CreateInventoryDto = CreateInventoryDto(
    name: string,
    description: Option<string>,
    category: string,
    price: int,
    currency: string,
    quantity: int,
    sku: string,
    status: Option<InventoryStatus>)

  /** `generateSKU`: the first three characters of the category in upper case, a dash, a 6-character id. */
  function GenerateSku(category: string, uniqueId: string): (sku: string)
    requires |uniqueId| == 6
    ensures var n := if |category| < 3 then |category| else 3;
      && |sku| == n + 7
      && (forall i :: 0 <= i < n ==> sku[i] == UpperChar(category[i]))
      && sku[n] == '-'
      && sku[n + 1..] == uniqueId
  {
    var code := Upper(category[..if |category| < 3 then |category| else 3]);
    code + "-" + uniqueId
  }

  /** The unique index on `sku` rejects the write; this is not an HttpError. */
  const DuplicateSku: AppError := Plain("E11000 duplicate key error: sku")

  /**
   * The schema's validators reject an empty name, category or sku (`required`)
   * and a currency outside `PaymentCurrency` (`enum`).
   */
  const RequiredFieldMissing: AppError := Plain("Inventory validation failed")

  /** Some item other than `except` already uses this SKU. */
  predicate SkuTaken(inventories: map<Id, Inventory>, sku: string, except: Option<Id>)
  {
    exists id :: id in inventories && inventories[id].sku == sku && except != Some(id)
  }

  predicate UniqueSkus(inventories: map<Id, Inventory>)
  {
    forall a, b :: a in inventories && b in inventories && a != b ==> inventories[a].sku != inventories[b].sku
  }

  /** `create`: the stored item and the collection afterwards; `freshId` is the new document's id. */
  function CreateStep(inventories: map<Id, Inventory>, auth: AuthData, dto: CreateInventoryDto,
                      freshId: Id, uniqueId: string): (r: (Result<Inventory, AppError>, map<Id, Inventory>))
    requires freshId !in inventories && |uniqueId| == 6
    ensures r.0.Failure? ==> r.1 == inventories
    ensures r.0.Success? <==>
      dto.name != "" && dto.category != "" && dto.sku != "" && dto.currency in PaymentCurrencies
      && !SkuTaken(inventories, GenerateSku(dto.category, uniqueId), None)
    ensures dto.currency !in PaymentCurrencies ==> r.0 == Failure(RequiredFieldMissing)
    ensures r.0.Success? ==>
      var item := r.0.value;
      && r.1 == inventories[freshId := item]
      && item.createdBy == auth.userId
      && item.sku == GenerateSku(dto.category, uniqueId)
      && item.name == dto.name && item.category == dto.category
      && item.price == dto.price && item.currency == dto.currency && item.quantity == dto.quantity
      && item.description == (if dto.description.Some? then dto.description.value else "")
      && item.status == (if dto.status.Some? then dto.status.value else Available)
      && item.images == []
  {
    var sku := if dto.sku != "" then GenerateSku(dto.category, uniqueId) else dto.sku;
    if dto.name == "" || dto.category == "" || sku == "" || dto.currency !in PaymentCurrencies then
      (Failure(RequiredFieldMissing), inventories)
    else if SkuTaken(inventories, sku, None) then (Failure(DuplicateSku), inventories)
    else
      var item := Inventory(dto.name, if dto.description.Some? then dto.description.value else "",
        dto.category, dto.price, dto.currency, dto.quantity, sku, [],
        if dto.status.Some? then dto.status.value else Available, auth.userId);
      (Success(item), inventories[freshId := item])
  }

  // ---------------------------------------------------------------------
  // Listing

  datatype QueryInventoryDto = QueryInventoryDto(
    name: Option<string>,
    category: Option<string>,
    status: Option<InventoryStatus>,
    minPrice: Option<int>,
    maxPrice: Option<int>,
    page: Option<int>,
    limit: Option<int>)

  datatype StatusFilter = NotDiscontinued | StatusIs(status: InventoryStatus)

  /** The Mongo filter; `name` and `category` hold the source of a case-insensitive RegExp. */
  datatype Filter = Filter(
    status: StatusFilter,
    name: Option<string>,
    category: Option<string>,
    minPrice: Option<int>,
    maxPrice: Option<int>)

  /** The paginate options. */
  datatype PageOptions = PageOptions(select: seq<string>, page: int, limit: int, sort: string)

  /** A JavaScript truthiness test: absent and empty strings are false, and so is the number 0. */
  predicate Given(s: Option<string>) { s.Some? && s.value != "" }

  predicate GivenNumber(n: Option<int>) { n.Some? && n.value != 0 }

  /** The filter `findAll` builds. */
  function BuildFilter(q: QueryInventoryDto): (f: Filter)
    ensures f.name.Some? ==> IsLiteralPattern(f.name.value)
    ensures f.category.Some? ==> IsLiteralPattern(f.category.value)
    ensures f.minPrice.Some? ==> f.minPrice.value != 0
    ensures f.maxPrice.Some? ==> f.maxPrice.value != 0
  {
    Filter(
      if q.status.Some? then StatusIs(q.status.value) else NotDiscontinued,
      if Given(q.name) then Some(EscapeRegExp(q.name.value)) else None,
      if Given(q.category) then Some(EscapeRegExp(q.category.value)) else None,
      if GivenNumber(q.minPrice) then q.minPrice else None,
      if GivenNumber(q.maxPrice) then q.maxPrice else None)
  }

  predicate OccursAt(text: string, part: string, i: nat)
  {
    i + |part| <= |text| && text[i..i + |part|] == part
  }

  predicate Contains(text: string, part: string)
  {
    exists i :: 0 <= i <= |text| && OccursAt(text, part, i)
  }

  /**
   * What a case-insensitive RegExp whose source is a literal pattern matches:
   * the text contains the unescaped pattern, ignoring ASCII case.
   */
  predicate PatternMatches(source: string, text: string)
  {
    Contains(Lower(text), Lower(UnescapeRegExp(source)))
  }

  predicate Matches(f: Filter, item: Inventory)
  {
    && (match f.status
        case NotDiscontinued => item.status != Discontinued
        case StatusIs(s) => item.status == s)
    && (f.name.Some? ==> PatternMatches(f.name.value, item.name))
    && (f.category.Some? ==> PatternMatches(f.category.value, item.category))
    && (f.minPrice.Some? ==> item.price >= f.minPrice.value)
    && (f.maxPrice.Some? ==> item.price <= f.maxPrice.value)
  }

  /**
   * The items a query selects: discontinued items are hidden unless a status
   * is asked for, names and categories match as case-insensitive substrings
   * (metacharacters included), and price bounds of 0 are ignored.
   */
  lemma QuerySelects(q: QueryInventoryDto, item: Inventory)
    ensures Matches(BuildFilter(q), item) <==>
      && (if q.status.Some? then item.status == q.status.value else item.status != Discontinued)
      && (Given(q.name) ==> Contains(Lower(item.name), Lower(q.name.value)))
      && (Given(q.category) ==> Contains(Lower(item.category), Lower(q.category.value)))
      && (GivenNumber(q.minPrice) ==> item.price >= q.minPrice.value)
      && (GivenNumber(q.maxPrice) ==> item.price <= q.maxPrice.value)
  {
    if Given(q.name) {
      UnescapeEscape(q.name.value);
    }
    if Given(q.category) {
      UnescapeEscape(q.category.value);
    }
  }

  // ---------------------------------------------------------------------
  // Editing and discontinuing

  datatype UpdateInventoryDto = UpdateInventoryDto(
    name: Option<string>,
    description: Option<string>,
    category: Option<string>,
    price: Option<int>,
    currency: Option<string>,
    quantity: Option<int>,
    sku: Option<string>,
    status: Option<InventoryStatus>)

  /** The fields the update sets; everything else, the creator included, is kept. */
  function ApplyUpdate(item: Inventory, dto: UpdateInventoryDto): (r: Inventory)
    ensures r.name == (if dto.name.Some? then dto.name.value else item.name)
    ensures r.description == (if dto.description.Some? then dto.description.value else item.description)
    ensures r.category == (if dto.category.Some? then dto.category.value else item.category)
    ensures r.price == (if dto.price.Some? then dto.price.value else item.price)
    ensures r.currency == (if dto.currency.Some? then dto.currency.value else item.currency)
    ensures r.quantity == (if dto.quantity.Some? then dto.quantity.value else item.quantity)
    ensures r.sku == (if dto.sku.Some? then dto.sku.value else item.sku)
    ensures r.status == (if dto.status.Some? then dto.status.value else item.status)
    ensures r.createdBy == item.createdBy && r.images == item.images
  {
    Inventory(
      if dto.name.Some? then dto.name.value else item.name,
      if dto.description.Some? then dto.description.value else item.description,
      if dto.category.Some? then dto.category.value else item.category,
      if dto.price.Some? then dto.price.value else item.price,
      if dto.currency.Some? then dto.currency.value else item.currency,
      if dto.quantity.Some? then dto.quantity.value else item.quantity,
      if dto.sku.Some? then dto.sku.value else item.sku,
      item.images,
      if dto.status.Some? then dto.status.value else item.status,
      item.createdBy)
  }

  const ItemNotFound: HttpError := NotFound("Inventory not found")
  const CannotEdit: HttpError := BadRequest("You can not edit this inventory")
  const CannotDiscontinue: HttpError := BadRequest("You can not discontinue this inventory")

  /** `update`: the updated item and the collection afterwards. */
  function UpdateStep(inventories: map<Id, Inventory>, auth: AuthData, id: Id, dto: UpdateInventoryDto)
    : (r: (Result<Inventory, AppError>, map<Id, Inventory>))
    ensures r.0.Failure? ==> r.1 == inventories
    ensures r.0 == Failure(Http(ItemNotFound)) <==> id !in inventories
    ensures r.0 == Failure(Http(CannotEdit)) <==> id in inventories && inventories[id].createdBy != auth.userId
    ensures r.0.Success? <==>
      id in inventories && inventories[id].createdBy == auth.userId
      && !(dto.sku.Some? && SkuTaken(inventories, dto.sku.value, Some(id)))
    ensures r.0.Success? ==> r.1 == inventories[id := r.0.value] && r.0.value == ApplyUpdate(inventories[id], dto)
  {
    if id !in inventories then (Failure(Http(ItemNotFound)), inventories)
    else if inventories[id].createdBy != auth.userId then (Failure(Http(CannotEdit)), inventories)
    else if dto.sku.Some? && SkuTaken(inventories, dto.sku.value, Some(id)) then (Failure(DuplicateSku), inventories)
    else
      var item := ApplyUpdate(inventories[id], dto);
      (Success(item), inventories[id := item])
  }

  /** `remove`: the item is kept, with status Discontinued. */
  function RemoveStep(inventories: map<Id, Inventory>, auth: AuthData, id: Id)
    : (r: (Result<Inventory, HttpError>, map<Id, Inventory>))
    ensures r.0.Failure? ==> r.1 == inventories
    ensures r.0 == Failure(ItemNotFound) <==> id !in inventories
    ensures r.0 == Failure(CannotDiscontinue) <==> id in inventories && inventories[id].createdBy != auth.userId
    ensures r.0.Success? ==>
      && r.1.Keys == inventories.Keys
      && r.0.value == inventories[id].(status := Discontinued)
      && r.1 == inventories[id := r.0.value]
  {
    if id !in inventories then (Failure(ItemNotFound), inventories)
    else if inventories[id].createdBy != auth.userId then (Failure(CannotDiscontinue), inventories)
    else
      var item := inventories[id].(status := Discontinued);
      (Success(item), inventories[id := item])
  }

  // ---------------------------------------------------------------------
  // Starting a payment

  datatype InitiatePaymentDto = InitiatePaymentDto(processor: string, inventory: Id)

  /** The body of the gateway's initialize-transaction call. */
  datatype ChargeRequest = ChargeRequest(email: string, amount: int, currency: string, reference: string, metadata: Metadata)

  /** The `data` of a successful initialize-transaction response. */
  datatype InitializedCharge = InitializedCharge(reference: string, authorizationUrl: string)

  datatype PaymentInitiated = PaymentInitiated(processor: string, status: string, reference: string, checkoutUrl: string)

  const PaystackName: string := "paystack"

  /** Why `initiatePayment` refuses before calling the gateway, in the order it checks. */
  function PaymentRefusal(inventories: map<Id, Inventory>, users: seq<User>, auth: AuthData, payload: InitiatePaymentDto)
    : (r: Option<HttpError>)
    ensures r == Some(NotFound("Item not found")) <==> payload.inventory !in inventories
    ensures r == Some(BadRequest("User not found")) <==>
      payload.inventory in inventories && UserIndexById(users, auth.userId).None?
    ensures r == Some(BadRequest("Inventory is not available")) <==>
      && payload.inventory in inventories
      && UserIndexById(users, auth.userId).Some?
      && (inventories[payload.inventory].status != Available || inventories[payload.inventory].quantity == 0)
    ensures r == Some(BadRequest("You can not pay for your own inventory item")) <==>
      && payload.inventory in inventories
      && UserIndexById(users, auth.userId).Some?
      && inventories[payload.inventory].status == Available
      && inventories[payload.inventory].quantity != 0
      && inventories[payload.inventory].createdBy == auth.userId
    ensures r == Some(NotFound("Invalid payment method")) <==>
      && payload.inventory in inventories
      && UserIndexById(users, auth.userId).Some?
      && inventories[payload.inventory].status == Available
      && inventories[payload.inventory].quantity != 0
      && inventories[payload.inventory].createdBy != auth.userId
      && payload.processor != PaystackName
    ensures r.None? <==>
      && payload.inventory in inventories
      && UserIndexById(users, auth.userId).Some?
      && inventories[payload.inventory].status == Available
      && inventories[payload.inventory].quantity != 0
      && inventories[payload.inventory].createdBy != auth.userId
      && payload.processor == PaystackName
  {
    if payload.inventory !in inventories then Some(NotFound("Item not found"))
    else if UserIndexById(users, auth.userId).None? then Some(BadRequest("User not found"))
    else
      var item := inventories[payload.inventory];
      var user := users[UserIndexById(users, auth.userId).value];
      if item.status != Available || item.quantity == 0 then Some(BadRequest("Inventory is not available"))
      else if item.createdBy == user.id then Some(BadRequest("You can not pay for your own inventory item"))
      else if payload.processor != PaystackName then Some(NotFound("Invalid payment method"))
      else None
  }

  /** The charge sent to the gateway: the item's price and currency, tagged for the reconciliation worker. */
  function ChargeFor(item: Inventory, user: User, auth: AuthData, payload: InitiatePaymentDto, cuid: string): (c: ChargeRequest)
    ensures c.email == user.email && c.amount == item.price && c.currency == item.currency
    ensures c.reference == "inv_" + cuid
    ensures c.metadata.intent == InventoryItemPaymentIntent
    ensures c.metadata.inventory == payload.inventory && c.metadata.user == auth.userId
  {
    ChargeRequest(user.email, item.price, item.currency, "inv_" + cuid,
      Metadata(InventoryItemPaymentIntent, payload.inventory, auth.userId))
  }

  /**
   * End to end: when the gateway reports the charge `initiatePayment` sent as
   * paid, and nothing changed the item meanwhile, the worker records the payment.
   */
  lemma PaidChargeIsReconciled(inventories: map<Id, Inventory>, users: seq<User>, auth: AuthData,
                               payload: InitiatePaymentDto, cuid: string, job: Job, s: Ledger)
    requires PaymentRefusal(inventories, users, auth, payload).None?
    requires payload.inventory in s.inventories && s.inventories[payload.inventory] == inventories[payload.inventory]
    requires
      var charge := ChargeFor(inventories[payload.inventory], users[UserIndexById(users, auth.userId).value],
        auth, payload, cuid);
      && job.amount == charge.amount && job.currency == charge.currency && job.metadata == charge.metadata
      && job.reference == charge.reference
    requires inventories[payload.inventory].currency in PaymentCurrencies
    requires job.status == "successful" && !PaymentExists(s.payments, job)
    ensures Reconcile(job, s).0 == Success(PaymentReconciled)
  {
  }

  // ---------------------------------------------------------------------
  // Properties across operations

  lemma CreateKeepsSkusUnique(inventories: map<Id, Inventory>, auth: AuthData, dto: CreateInventoryDto,
                              freshId: Id, uniqueId: string)
    requires freshId !in inventories && |uniqueId| == 6
    requires UniqueSkus(inventories)
    ensures UniqueSkus(CreateStep(inventories, auth, dto, freshId, uniqueId).1)
  {
    var r := CreateStep(inventories, auth, dto, freshId, uniqueId);
    if r.0.Success? {
      forall a, b | a in r.1 && b in r.1 && a != b
        ensures r.1[a].sku != r.1[b].sku
      {
        if a == freshId {
          assert inventories[b].sku != r.0.value.sku;
        } else if b == freshId {
          assert inventories[a].sku != r.0.value.sku;
        }
      }
    }
  }

  lemma UpdateKeepsSkusUnique(inventories: map<Id, Inventory>, auth: AuthData, id: Id, dto: UpdateInventoryDto)
    requires UniqueSkus(inventories)
    ensures UniqueSkus(UpdateStep(inventories, auth, id, dto).1)
  {
    var r := UpdateStep(inventories, auth, id, dto);
    if r.0.Success? {
      forall a, b | a in r.1 && b in r.1 && a != b
        ensures r.1[a].sku != r.1[b].sku
      {
        if a == id && dto.sku.Some? {
          assert !(inventories[b].sku == dto.sku.value && Some(id) != Some(b));
        } else if b == id && dto.sku.Some? {
          assert !(inventories[a].sku == dto.sku.value && Some(id) != Some(a));
        }
      }
    }
  }

  /** The query DTO validates `status` against `QueryInventoryStatus`: available or out_of_stock. */
  predicate QueryStatusAdmitted(q: QueryInventoryDto)
  {
    q.status.None? || q.status.value == Available || q.status.value == OutOfStock
  }

  /** A discontinued item drops out of every listing the query DTO admits. */
  lemma RemovedItemIsHidden(inventories: map<Id, Inventory>, auth: AuthData, id: Id, q: QueryInventoryDto)
    requires RemoveStep(inventories, auth, id).0.Success?
    requires QueryStatusAdmitted(q)
    ensures !Matches(BuildFilter(q), RemoveStep(inventories, auth, id).1[id])
  {
  }

  /** A discontinued item can no longer be paid for. */
  lemma RemovedItemCannotBePaid(inventories: map<Id, Inventory>, users: seq<User>, owner: AuthData,
                                buyer: AuthData, payload: InitiatePaymentDto)
    requires RemoveStep(inventories, owner, payload.inventory).0.Success?
    requires UserIndexById(users, buyer.userId).Some?
    ensures PaymentRefusal(RemoveStep(inventories, owner, payload.inventory).1, users, buyer, payload)
      == Some(BadRequest("Inventory is not available"))
  {
  }

  // ---------------------------------------------------------------------
  // The service

  class InventoryService {
    const db: Database

    constructor (db: Database)
      ensures this.db == db
    {
      this.db := db;
    }

    method Create(auth: AuthData, dto: CreateInventoryDto, freshId: Id, uniqueId: string)
      returns (r: Result<Inventory, AppError>)
      requires freshId !in db.inventories && |uniqueId| == 6
      modifies db
      ensures (r, db.inventories) == CreateStep(old(db.inventories), auth, dto, freshId, uniqueId)
      ensures db.payments == old(db.payments) && db.users == old(db.users)
    {
      var sku := dto.sku;
      if sku != "" {
        sku := GenerateSku(dto.category, uniqueId);
      }
      if dto.name == "" || dto.category == "" || sku == "" || dto.currency !in PaymentCurrencies {
        return Failure(RequiredFieldMissing);
      }
      if SkuTaken(db.inventories, sku, None) {
        return Failure(DuplicateSku);
      }
      var item := Inventory(dto.name, if dto.description.Some? then dto.description.value else "",
        dto.category, dto.price, dto.currency, dto.quantity, sku, [],
        if dto.status.Some? then dto.status.value else Available, auth.userId);
      db.inventories := db.inventories[freshId := item];
      r := Success(item);
    }

    /** `findAll`: the filter and options handed to paginate, and the ids the filter selects. */
    method FindAll(q: QueryInventoryDto) returns (filter: Filter, options: PageOptions, selected: set<Id>)
      ensures filter == BuildFilter(q)
      ensures options.page == (if q.page.Some? then q.page.value else 1)
      ensures options.limit == (if q.limit.Some? then q.limit.value else 10)
      ensures options.sort == "-createdAt" && options.select == ["name", "status", "sku", "category", "images"]
      ensures forall id :: id in selected <==> id in db.inventories && Matches(filter, db.inventories[id])
    {
      filter := Filter(NotDiscontinued, None, None, None, None);
      if Given(q.name) {
        filter := filter.(name := Some(EscapeRegExp(q.name.value)));
      }
      if Given(q.category) {
        filter := filter.(category := Some(EscapeRegExp(q.category.value)));
      }
      if q.status.Some? {
        filter := filter.(status := StatusIs(q.status.value));
      }
      if GivenNumber(q.minPrice) {
        filter := filter.(minPrice := q.minPrice);
      }
      if GivenNumber(q.maxPrice) {
        filter := filter.(maxPrice := q.maxPrice);
      }
      var page := if q.page.Some? then q.page.value else 1;
      var limit := if q.limit.Some? then q.limit.value else 10;
      options := PageOptions(["name", "status", "sku", "category", "images"], page, limit, "-createdAt");
      selected := set id | id in db.inventories && Matches(filter, db.inventories[id]);
    }

    method FindOne(id: Id) returns (r: Result<Inventory, HttpError>)
      ensures r.Success? <==> id in db.inventories
      ensures r.Success? ==> r.value == db.inventories[id]
      ensures r.Failure? ==> r.error == ItemNotFound
    {
      if id !in db.inventories {
        return Failure(ItemNotFound);
      }
      r := Success(db.inventories[id]);
    }

    method Update(auth: AuthData, id: Id, dto: UpdateInventoryDto) returns (r: Result<Inventory, AppError>)
      modifies db
      ensures (r, db.inventories) == UpdateStep(old(db.inventories), auth, id, dto)
      ensures db.payments == old(db.payments) && db.users == old(db.users)
    {
      if id !in db.inventories {
        return Failure(Http(ItemNotFound));
      }
      var item := db.inventories[id];
      if item.createdBy != auth.userId {
        return Failure(Http(CannotEdit));
      }
      if dto.sku.Some? && SkuTaken(db.inventories, dto.sku.value, Some(id)) {
        return Failure(DuplicateSku);
      }
      var updated := ApplyUpdate(item, dto);
      db.inventories := db.inventories[id := updated];
      r := Success(updated);
    }

    method Remove(auth: AuthData, id: Id) returns (r: Result<Inventory, HttpError>)
      modifies db
      ensures (r, db.inventories) == RemoveStep(old(db.inventories), auth, id)
      ensures db.payments == old(db.payments) && db.users == old(db.users)
    {
      if id !in db.inventories {
        return Failure(ItemNotFound);
      }
      var item := db.inventories[id];
      if item.createdBy != auth.userId {
        return Failure(CannotDiscontinue);
      }
      var discontinued := item.(status := Discontinued);
      db.inventories := db.inventories[id := discontinued];
      r := Success(discontinued);
    }

    /**
     * `initiatePayment`; `cuid` is the generated id of the payment reference
     * and `initialize` the gateway call (None when it fails).
     */
    method InitiatePayment(auth: AuthData, payload: InitiatePaymentDto, cuid: string,
                           initialize: ChargeRequest -> Option<InitializedCharge>)
      returns (r: Result<PaymentInitiated, HttpError>)
      ensures var refusal := PaymentRefusal(db.inventories, db.users, auth, payload);
        refusal.Some? ==> r == Failure(refusal.value)
      ensures PaymentRefusal(db.inventories, db.users, auth, payload).None? ==>
        var charge := ChargeFor(db.inventories[payload.inventory],
          db.users[UserIndexById(db.users, auth.userId).value], auth, payload, cuid);
        && (initialize(charge).None? ==> r == Failure(HttpError(503, "Unable to initialize payment")))
        && (initialize(charge).Some? ==>
              r == Success(PaymentInitiated(payload.processor, "pending",
                initialize(charge).value.reference, initialize(charge).value.authorizationUrl)))
    {
      if payload.inventory !in db.inventories {
        return Failure(NotFound("Item not found"));
      }
      var userIndex := UserIndexById(db.users, auth.userId);
      if userIndex.None? {
        return Failure(BadRequest("User not found"));
      }
      var item := db.inventories[payload.inventory];
      var user := db.users[userIndex.value];
      if item.status != Available || item.quantity == 0 {
        return Failure(BadRequest("Inventory is not available"));
      }
      if item.createdBy == user.id {
        return Failure(BadRequest("You can not pay for your own inventory item"));
      }
      if payload.processor == PaystackName {
        var result := initialize(ChargeFor(item, user, auth, payload, cuid));
        if result.None? {
          return Failure(HttpError(503, "Unable to initialize payment"));
        }
        return Success(PaymentInitiated(payload.processor, "pending", result.value.reference,
          result.value.authorizationUrl));
      }
      r := Failure(NotFound("Invalid payment method"));
    }
  }
}
