/**
 * The payment reconciliation worker: a queued job describing a verified
 * gateway payment is checked against the payments already recorded and the
 * inventory item it pays for, then recorded and the item's stock decremented
 * in one transaction.
 */
module ReconcilePayment {

  import opened Common
  import opened Models
  import opened Store

  const JobName: string := "reconcile-payment-job"

  /** A reconcile-payment job as the webhook enqueues it; `amount` and `fee` are minor units. */
  datatype Job = Job(
    processor: PaymentProcessor,
    reference: string,
    processorRef: string,
    amount: int,
    fee: int,
    currency: string,
    status: string,
    metadata: Metadata,
    processorResponse: string)

  /** The plain `Error`s the worker throws; BullMQ records the job as failed. */
  datatype WorkerError =
    | InvalidIntent | DuplicatePayment | InventoryNotFound | InvalidInventoryPayment
    | PaymentValidationFailed   // the Payment schema's validators reject the record; the transaction aborts

  function ErrorMessage(e: WorkerError): (m: string)
    ensures |m| > 0
  {
    match e
    case InvalidIntent => "Invalid intent"
    case DuplicatePayment => "duplicate payment"
    case InventoryNotFound => "inventory not found"
    case InvalidInventoryPayment => "invalid inventory payment received"
    case PaymentValidationFailed => "Payment validation failed"
  }

  /** How a job that did not throw ended. */
  datatype Outcome = PaymentNotSuccessful | PaymentReconciled

  /** The two collections the worker reads and writes. */
  datatype Ledger = Ledger(inventories: map<Id, Inventory>, payments: seq<Payment>)

  // ---------------------------------------------------------------------
  // Specification

  /** The duplicate query: same reference, or same processor reference at the same processor. */
  predicate Conflicts(p: Payment, job: Job)
  {
    p.reference == job.reference || (p.processorRef == job.processorRef && p.processor == job.processor)
  }

  predicate PaymentExists(payments: seq<Payment>, job: Job)
  {
    exists i :: 0 <= i < |payments| && Conflicts(payments[i], job)
  }

  /** The record the transaction inserts; the job's fee is not copied. */
  function NewPayment(job: Job, inventoryId: Id): (p: Payment)
    ensures p.status == Successful && p.scope == InventoryItemPayment && p.fee.None?
    ensures p.inventory == Some(inventoryId) && p.user == job.metadata.user
    ensures p.reference == job.reference && p.processorRef == job.processorRef && p.processor == job.processor
    ensures p.amount == job.amount && p.currency == job.currency && p.metadata == job.metadata
    ensures Conflicts(p, job)
  {
    Payment(job.currency, None, job.amount, Successful, InventoryItemPayment, Some(inventoryId),
      job.metadata.user, job.reference, job.processorRef, job.processor, job.processorResponse, job.metadata)
  }

  /** The item the amount and currency must match. */
  predicate PaysFor(job: Job, item: Inventory)
  {
    item.price == job.amount && item.currency == job.currency
  }

  /**
   * What the Payment schema demands of the record the transaction inserts:
   * a currency from its enum and a non-empty (required) reference.
   */
  predicate ValidRecord(job: Job)
  {
    job.currency in PaymentCurrencies && job.reference != ""
  }

  /** Everything the worker demands before it records a payment. */
  predicate Accepts(job: Job, s: Ledger)
  {
    && job.metadata.intent == InventoryItemPaymentIntent
    && job.status == "successful"
    && !PaymentExists(s.payments, job)
    && job.metadata.inventory in s.inventories
    && PaysFor(job, s.inventories[job.metadata.inventory])
    && ValidRecord(job)
  }

  /** `run`: the result of one job and the collections afterwards. */
  function Reconcile(job: Job, s: Ledger): (r: (Result<Outcome, WorkerError>, Ledger))
    ensures r.0.Failure? || r.0 == Success(PaymentNotSuccessful) ==> r.1 == s
    ensures r.0 == Success(PaymentReconciled) <==> Accepts(job, s)
    ensures r.0 == Failure(InvalidIntent) <==> job.metadata.intent != InventoryItemPaymentIntent
    ensures r.0 == Success(PaymentNotSuccessful) <==>
      job.metadata.intent == InventoryItemPaymentIntent && job.status != "successful"
    ensures r.0 == Failure(DuplicatePayment) <==>
      && job.metadata.intent == InventoryItemPaymentIntent && job.status == "successful"
      && PaymentExists(s.payments, job)
    ensures r.0 == Failure(InventoryNotFound) <==>
      && job.metadata.intent == InventoryItemPaymentIntent && job.status == "successful"
      && !PaymentExists(s.payments, job)
      && job.metadata.inventory !in s.inventories
    ensures r.0 == Failure(InvalidInventoryPayment) <==>
      && job.metadata.intent == InventoryItemPaymentIntent && job.status == "successful"
      && !PaymentExists(s.payments, job)
      && job.metadata.inventory in s.inventories && !PaysFor(job, s.inventories[job.metadata.inventory])
    ensures r.0 == Failure(PaymentValidationFailed) <==>
      && job.metadata.intent == InventoryItemPaymentIntent && job.status == "successful"
      && !PaymentExists(s.payments, job)
      && job.metadata.inventory in s.inventories && PaysFor(job, s.inventories[job.metadata.inventory])
      && !ValidRecord(job)
    ensures r.0 == Success(PaymentReconciled) ==>
      var id := job.metadata.inventory;
      && r.1.payments == s.payments + [NewPayment(job, id)]
      && r.1.inventories.Keys == s.inventories.Keys
      && r.1.inventories[id] == s.inventories[id].(quantity := s.inventories[id].quantity - 1)
      && (forall other :: other in s.inventories && other != id ==> r.1.inventories[other] == s.inventories[other])
  {
    var id := job.metadata.inventory;
    if job.metadata.intent != InventoryItemPaymentIntent then (Failure(InvalidIntent), s)
    else if job.status != "successful" then (Success(PaymentNotSuccessful), s)
    else if PaymentExists(s.payments, job) then (Failure(DuplicatePayment), s)
    else if id !in s.inventories then (Failure(InventoryNotFound), s)
    else if !PaysFor(job, s.inventories[id]) then (Failure(InvalidInventoryPayment), s)
    else if !ValidRecord(job) then (Failure(PaymentValidationFailed), s)
    else
      var item := s.inventories[id];
      (Success(PaymentReconciled),
       Ledger(s.inventories[id := item.(quantity := item.quantity - 1)], s.payments + [NewPayment(job, id)]))
  }

  // ---------------------------------------------------------------------
  // The queue and the worker

  /** The BullMQ queue, as the sequence of (job name, data) pairs added to it. */
  class JobQueue {
    var jobs: seq<(string, Job)>

    constructor ()
      ensures jobs == []
    {
      jobs := [];
    }

    method Add(name: string, data: Job)
      modifies this
      ensures jobs == old(jobs) + [(name, data)]
    {
      jobs := jobs + [(name, data)];
    }
  }

  class ReconcilePaymentWorker {
    const db: Database
    const queue: JobQueue

    constructor (db: Database, queue: JobQueue)
      ensures this.db == db && this.queue == queue
    {
      this.db := db;
      this.queue := queue;
    }

    /** `trigger`: enqueue the job under the worker's job name. */
    method Trigger(data: Job)
      modifies queue
      ensures queue.jobs == old(queue.jobs) + [(JobName, data)]
    {
      queue.Add(JobName, data);
    }

    /** `run`: dispatch on the metadata intent. */
    method Run(data: Job) returns (r: Result<Outcome, WorkerError>)
      modifies db
      ensures (r, Ledger(db.inventories, db.payments)) == Reconcile(data, old(Ledger(db.inventories, db.payments)))
      ensures db.users == old(db.users)
    {
      if data.metadata.intent == InventoryItemPaymentIntent {
        r := HandleInventoryPayment(data);
      } else {
        r := Failure(InvalidIntent);
      }
    }

    method HandleInventoryPayment(data: Job) returns (r: Result<Outcome, WorkerError>)
      requires data.metadata.intent == InventoryItemPaymentIntent
      modifies db
      ensures (r, Ledger(db.inventories, db.payments)) == Reconcile(data, old(Ledger(db.inventories, db.payments)))
      ensures db.users == old(db.users)
    {
      var inventoryId := data.metadata.inventory;
      if data.status != "successful" {
        return Success(PaymentNotSuccessful);
      }
      var check := AssertPaymentDoesNotExist(data);
      if check.Failure? {
        return Failure(check.error);
      }
      if inventoryId !in db.inventories {
        return Failure(InventoryNotFound);
      }
      var item := db.inventories[inventoryId];
      if item.price != data.amount || data.currency != item.currency {
        return Failure(InvalidInventoryPayment);
      }
      if data.currency !in PaymentCurrencies || data.reference == "" {
        // `Payment.create` fails validation, so the transaction writes nothing.
        return Failure(PaymentValidationFailed);
      }
      // The transaction: both writes happen, or neither.
      db.payments := db.payments + [NewPayment(data, inventoryId)];
      db.inventories := db.inventories[inventoryId := item.(quantity := item.quantity - 1)];
      r := Success(PaymentReconciled);
    }

    /** `Payment.exists` over the `$or` query, scanning the collection. */
    method AssertPaymentDoesNotExist(data: Job) returns (r: Result<(), WorkerError>)
      ensures r.Failure? <==> PaymentExists(db.payments, data)
      ensures r.Failure? ==> r.error == DuplicatePayment
    {
      var payments := db.payments;
      var i := 0;
      while i < |payments|
        invariant 0 <= i <= |payments|
        invariant forall j :: 0 <= j < i ==> !Conflicts(payments[j], data)
      {
        if Conflicts(payments[i], data) {
          return Failure(DuplicatePayment);
        }
        i := i + 1;
      }
      r := Success(());
    }
  }

  // ---------------------------------------------------------------------
  // Properties

  /** Running the same job again after it was reconciled throws "duplicate payment" and changes nothing. */
  lemma ReplayIsDuplicate(job: Job, s: Ledger)
    requires Reconcile(job, s).0 == Success(PaymentReconciled)
    ensures Reconcile(job, Reconcile(job, s).1) == (Failure(DuplicatePayment), Reconcile(job, s).1)
  {
    var s' := Reconcile(job, s).1;
    assert Conflicts(s'.payments[|s.payments|], job);
  }

  /** No two payments share a reference or a (processor reference, processor) pair. */
  predicate Distinct(p: Payment, q: Payment)
  {
    p.reference != q.reference && !(p.processorRef == q.processorRef && p.processor == q.processor)
  }

  predicate UniquePayments(payments: seq<Payment>)
  {
    forall i, j :: 0 <= i < j < |payments| ==> Distinct(payments[i], payments[j])
  }

  lemma ReconcileKeepsUnique(job: Job, s: Ledger)
    requires UniquePayments(s.payments)
    ensures UniquePayments(Reconcile(job, s).1.payments)
  {
    var r := Reconcile(job, s);
    if r.0 == Success(PaymentReconciled) {
      var ps := r.1.payments;
      var n := |s.payments|;
      forall i, j | 0 <= i < j < |ps|
        ensures Distinct(ps[i], ps[j])
      {
        if j == n {
          assert ps[i] == s.payments[i];
          assert !Conflicts(s.payments[i], job);
        }
      }
    }
  }

  /** The jobs processed one after another; a job that throws leaves the collections as they were. */
  function RunAll(jobs: seq<Job>, s: Ledger): (r: Ledger)
    decreases |jobs|
  {
    if jobs == [] then s else RunAll(jobs[1..], Reconcile(jobs[0], s).1)
  }

  lemma {:induction false} RunAllKeepsUnique(jobs: seq<Job>, s: Ledger)
    requires UniquePayments(s.payments)
    ensures UniquePayments(RunAll(jobs, s).payments)
    decreases |jobs|
  {
    if jobs != [] {
      ReconcileKeepsUnique(jobs[0], s);
      RunAllKeepsUnique(jobs[1..], Reconcile(jobs[0], s).1);
    }
  }

  /** The number of recorded payments for an item. */
  function Sold(payments: seq<Payment>, id: Id): (n: nat)
    ensures n <= |payments|
    decreases |payments|
  {
    if payments == [] then 0
    else Sold(payments[..|payments| - 1], id) + (if payments[|payments| - 1].inventory == Some(id) then 1 else 0)
  }

  /** Stock plus recorded sales of every item is the same before and after a job. */
  lemma ReconcileConservesStock(job: Job, s: Ledger, id: Id)
    requires id in s.inventories
    ensures id in Reconcile(job, s).1.inventories
    ensures Reconcile(job, s).1.inventories[id].quantity + Sold(Reconcile(job, s).1.payments, id)
      == s.inventories[id].quantity + Sold(s.payments, id)
  {
    var r := Reconcile(job, s);
    if r.0 == Success(PaymentReconciled) {
      assert r.1.payments[..|r.1.payments| - 1] == s.payments;
    }
  }

  lemma {:induction false} RunAllConservesStock(jobs: seq<Job>, s: Ledger, id: Id)
    requires id in s.inventories
    ensures id in RunAll(jobs, s).inventories
    ensures RunAll(jobs, s).inventories[id].quantity + Sold(RunAll(jobs, s).payments, id)
      == s.inventories[id].quantity + Sold(s.payments, id)
    decreases |jobs|
  {
    if jobs != [] {
      ReconcileConservesStock(jobs[0], s, id);
      RunAllConservesStock(jobs[1..], Reconcile(jobs[0], s).1, id);
    }
  }

  /**
   * Acceptance does not look at the item's stock or status: an item with no
   * stock, or discontinued, is sold like any other and its quantity goes below zero.
   */
  lemma AcceptanceIgnoresStock(job: Job, s: Ledger, quantity: int, status: InventoryStatus)
    requires job.metadata.inventory in s.inventories
    ensures
      var id := job.metadata.inventory;
      var t := s.(inventories := s.inventories[id := s.inventories[id].(quantity := quantity, status := status)]);
      Reconcile(job, t).0 == Reconcile(job, s).0
  {
  }

  lemma OversellsEmptyItem(job: Job, s: Ledger)
    requires Accepts(job, s) && s.inventories[job.metadata.inventory].quantity == 0
    ensures Reconcile(job, s).1.inventories[job.metadata.inventory].quantity == -1
  {
  }
}
